/**
 The `PassportValue` table and its evidence links. Rows are only appended and
 closed, so a value's id is its place in the table.
 */
module PassportValues {
  import opened Prelude
  import opened CanonicalJson

  type Id = nat

  const FIELDS := 71

  datatype Owner = OfModel(id: Id) | OfItem(id: Id)
  datatype Status = Unvalidated | Submitted | Validated | Rejected | Superseded
  datatype Source = Operator | Supplier | System | Integration

  /** `until` is the end of validity: a row without one is current. */
  datatype Value = Value(
    owner: Owner, field: int, json: Json, unit: Option<string>, source: Source,
    status: Status, until: Option<int>, supersedes: Option<Id>)

  type Values = seq<Value>

  datatype Link = Link(evidence: Id, value: Id)

  predicate Current(v: Value, owner: Owner, field: int) {
    v.owner == owner && v.field == field && v.until.None?
  }

  function CurrentId(values: Values, owner: Owner, field: int): (r: Option<Id>)
    ensures r.Some? ==> r.value < |values| && Current(values[r.value], owner, field)
    ensures r.None? ==> forall i :: 0 <= i < |values| ==> !Current(values[i], owner, field)
  {
    if values == [] then None
    else if Current(values[|values| - 1], owner, field) then Some(|values| - 1)
    else CurrentId(values[..|values| - 1], owner, field)
  }

  // ---- the table's invariant ----

  predicate OneCurrent(values: Values) {
    forall i, j :: 0 <= i < j < |values| && values[i].until.None? && values[j].until.None? ==>
      values[i].owner != values[j].owner || values[i].field != values[j].field
  }

  /** A row supersedes an earlier row of the same owner and field, which says so. */
  predicate LinksBack(values: Values) {
    forall i :: 0 <= i < |values| && values[i].supersedes.Some? ==>
      var p := values[i].supersedes.value;
      p < i && values[p].owner == values[i].owner && values[p].field == values[i].field
          && values[p].status == Superseded
  }

  /** No row is superseded twice. */
  predicate LinksApart(values: Values) {
    forall i, j :: 0 <= i < j < |values| && values[i].supersedes.Some? ==> values[i].supersedes != values[j].supersedes
  }

  predicate ClosedRows(values: Values) {
    forall i :: 0 <= i < |values| ==>
      1 <= values[i].field <= FIELDS && (values[i].status.Superseded? || values[i].status.Rejected? ==>
                                         values[i].until.Some?)
  }

  /** One current row for each owner and field; the supersedes links form disjoint chains that lead back in time. */
  predicate Chained(values: Values) {
    OneCurrent(values) && LinksBack(values) && LinksApart(values) && ClosedRows(values)
  }

  lemma CurrentIsUnique(values: Values, owner: Owner, field: int, i: Id)
    requires OneCurrent(values) && i < |values| && Current(values[i], owner, field)
    ensures CurrentId(values, owner, field) == Some(i)
  {
  }

  // ---- writes ----

  function Close(values: Values, id: Id, status: Status, now: int): Values
    requires id < |values|
  {
    values[id := values[id].(status := status, until := Some(now))]
  }

  /** Ends the current row, if any, and appends its successor. */
  function Put(values: Values, owner: Owner, field: int, json: Json, unit: Option<string>, source: Source,
               status: Status, now: int): Values {
    var prior := CurrentId(values, owner, field);
    (if prior.Some? then Close(values, prior.value, Superseded, now) else values) +
    [Value(owner, field, json, unit, source, status, None, prior)]
  }

  lemma PutIsCurrent(values: Values, owner: Owner, field: int, json: Json, unit: Option<string>, source: Source,
                     status: Status, now: int)
    requires OneCurrent(values)
    ensures var after := Put(values, owner, field, json, unit, source, status, now);
            && OneCurrent(after) && CurrentId(after, owner, field) == Some(|values|)
            && forall f :: f != field ==> CurrentId(after, owner, f) == CurrentId(values, owner, f)
  {
    var after := Put(values, owner, field, json, unit, source, status, now);
    assert Current(after[|values|], owner, field);
    forall f | f != field ensures CurrentId(after, owner, f) == CurrentId(values, owner, f) {
      SameCurrent(values, after, owner, f);
    }
  }

  /** Two tables with the same current row of an owner and field. */
  lemma SameCurrent(values: Values, after: Values, owner: Owner, field: int)
    requires OneCurrent(values) && OneCurrent(after) && |values| <= |after|
    requires forall i :: 0 <= i < |values| ==> Current(values[i], owner, field) == Current(after[i], owner, field)
    requires forall i :: |values| <= i < |after| ==> !Current(after[i], owner, field)
    ensures CurrentId(after, owner, field) == CurrentId(values, owner, field)
  {
    var id := CurrentId(values, owner, field);
    if id.Some? {
      CurrentIsUnique(after, owner, field, id.value);
    }
  }

  /** The new row supersedes the closed one, which no row did before. */
  lemma PutKeepsLinks(values: Values, owner: Owner, field: int, json: Json, unit: Option<string>, source: Source,
                      status: Status, now: int)
    requires Chained(values)
    ensures LinksBack(Put(values, owner, field, json, unit, source, status, now))
    ensures LinksApart(Put(values, owner, field, json, unit, source, status, now))
  {
    hide CurrentId, OneCurrent;
    var after, prior := Put(values, owner, field, json, unit, source, status, now), CurrentId(values, owner, field);
    forall i | 0 <= i < |values| && values[i].supersedes.Some? ensures values[i].supersedes != prior {
      assert values[values[i].supersedes.value].status == Superseded;
    }
    forall i, j | 0 <= i < j < |after| && after[i].supersedes.Some? ensures after[i].supersedes != after[j].supersedes {
      assert after[i].supersedes == values[i].supersedes;
    }
  }

  lemma PutKeeps(values: Values, owner: Owner, field: int, json: Json, unit: Option<string>, source: Source,
                 status: Status, now: int)
    requires Chained(values) && 1 <= field <= FIELDS && (status.Unvalidated? || status.Submitted?)
    ensures Chained(Put(values, owner, field, json, unit, source, status, now))
  {
    hide CurrentId, OneCurrent, LinksBack, LinksApart;
    PutIsCurrent(values, owner, field, json, unit, source, status, now);
    PutKeepsLinks(values, owner, field, json, unit, source, status, now);
  }

  lemma CloseKeeps(values: Values, id: Id, now: int)
    requires Chained(values) && id < |values| && values[id].until.None?
    ensures Chained(Close(values, id, Rejected, now))
  {
  }

  function Confirm(values: Values, id: Id): Values
    requires id < |values|
  {
    values[id := values[id].(status := Validated)]
  }

  lemma ConfirmKeeps(values: Values, id: Id)
    requires Chained(values) && id < |values| && values[id].until.None?
    ensures Chained(Confirm(values, id))
  {
  }

  /** How often the links must be followed from `id` to reach a row that supersedes nothing. */
  function Depth(values: Values, id: Id): nat
    requires LinksBack(values) && id < |values|
    decreases id
  {
    if values[id].supersedes.None? then 0 else 1 + Depth(values, values[id].supersedes.value)
  }

  function Ancestor(values: Values, id: Id, steps: nat): Id
    requires LinksBack(values) && id < |values| && steps <= Depth(values, id)
    decreases steps
  {
    if steps == 0 then id else Ancestor(values, values[id].supersedes.value, steps - 1)
  }

  /** Following the links never comes back: every step leads to an earlier row. */
  lemma {:induction false} ChainsGoBack(values: Values, id: Id, steps: nat)
    requires LinksBack(values) && id < |values| && steps <= Depth(values, id)
    ensures Ancestor(values, id, steps) + steps <= id
    decreases steps
  {
    if steps > 0 {
      ChainsGoBack(values, values[id].supersedes.value, steps - 1);
    }
  }

  /** Two rows whose chains meet lie on one chain: the one with the shorter way is an ancestor of the other. */
  lemma {:induction false} ChainsDisjoint(values: Values, a: Id, b: Id, m: nat, n: nat)
    requires Chained(values) && a < |values| && b < |values|
    requires m <= Depth(values, a) && n <= Depth(values, b) && m <= n
    requires Ancestor(values, a, m) == Ancestor(values, b, n)
    ensures Ancestor(values, b, n - m) == a
    decreases m
  {
    if m > 0 {
      LastStep(values, a, m);
      LastStep(values, b, n);
      ChainsDisjoint(values, a, b, m - 1, n - 1);
    }
  }

  lemma {:induction false} LastStep(values: Values, id: Id, steps: nat)
    requires LinksBack(values) && id < |values| && 0 < steps <= Depth(values, id)
    ensures var before := Ancestor(values, id, steps - 1);
            before < |values| && values[before].supersedes == Some(Ancestor(values, id, steps))
    decreases steps
  {
    ChainsGoBack(values, id, steps - 1);
    if steps > 1 {
      LastStep(values, values[id].supersedes.value, steps - 1);
    }
  }

  // ---- frames ----

  /** Between two tables only rows and links of `owners` were changed or added. */
  ghost predicate Touches(values: Values, links: set<Link>, after: Values, afterLinks: set<Link>, owners: set<Owner>) {
    && |values| <= |after|
    && (forall i :: 0 <= i < |values| ==> after[i].owner == values[i].owner)
    && (forall i :: 0 <= i < |values| && values[i].owner !in owners ==> after[i] == values[i])
    && (forall i :: |values| <= i < |after| ==> after[i].owner in owners)
    && (forall l: Link :: l.value < |values| && values[l.value].owner !in owners ==> (l in afterLinks <==> l in links))
  }

  function EvidenceOf(links: set<Link>, id: Id): set<Id> {
    set l | l in links && l.value == id :: l.evidence
  }

  /** What an untouched owner shows of a field stays the same. */
  lemma UntouchedStays(values: Values, links: set<Link>, after: Values, afterLinks: set<Link>, owners: set<Owner>,
                       owner: Owner, field: int)
    requires OneCurrent(values) && OneCurrent(after) && Touches(values, links, after, afterLinks, owners)
             && owner !in owners
    ensures var id := CurrentId(values, owner, field);
            && CurrentId(after, owner, field) == id
            && (id.Some? ==>
                after[id.value] == values[id.value] && EvidenceOf(afterLinks, id.value) == EvidenceOf(links, id.value))
  {
    SameCurrent(values, after, owner, field);
    var id := CurrentId(values, owner, field);
    if id.Some? {
      forall e ensures e in EvidenceOf(afterLinks, id.value) <==> e in EvidenceOf(links, id.value) {
        assert Link(e, id.value) in afterLinks <==> Link(e, id.value) in links;
        assert e in EvidenceOf(afterLinks, id.value) <==> Link(e, id.value) in afterLinks;
        assert e in EvidenceOf(links, id.value) <==> Link(e, id.value) in links;
      }
    }
  }

  // ---- accepting a supplier's submissions ----

  datatype Submission = Submission(at: int, field: int, json: Json, unit: Option<string>, evidence: set<Id>)

  function LinksTo(evidence: set<Id>, id: Id): set<Link> {
    set e | e in evidence :: Link(e, id)
  }

  datatype Table = Table(values: Values, links: set<Link>)

  function AcceptOne(t: Table, model: Id, s: Submission, now: int): Table {
    Table(Put(t.values, OfModel(model), s.field, s.json, s.unit, Supplier, Submitted, now),
          t.links + LinksTo(s.evidence, |t.values|))
  }

  function AcceptAll(t: Table, model: Id, submissions: seq<Submission>, now: int): Table {
    if submissions == [] then t
    else AcceptOne(AcceptAll(t, model, submissions[..|submissions| - 1], now), model, submissions[|submissions| - 1],
                   now)
  }

  /** Links only mention rows of the table. */
  predicate LinksKnown(t: Table) {
    forall l :: l in t.links ==> l.value < |t.values|
  }

  lemma AcceptOneKeeps(t: Table, model: Id, s: Submission, now: int)
    requires Chained(t.values) && LinksKnown(t) && 1 <= s.field <= FIELDS
    ensures var after := AcceptOne(t, model, s, now);
            && Chained(after.values) && LinksKnown(after)
            && Touches(t.values, t.links, after.values, after.links, {OfModel(model)})
            && CurrentId(after.values, OfModel(model), s.field) == Some(|t.values|)
            && EvidenceOf(after.links, |t.values|) == s.evidence
  {
    PutKeeps(t.values, OfModel(model), s.field, s.json, s.unit, Supplier, Submitted, now);
    PutIsCurrent(t.values, OfModel(model), s.field, s.json, s.unit, Supplier, Submitted, now);
    var after := AcceptOne(t, model, s, now);
    forall e ensures e in EvidenceOf(after.links, |t.values|) <==> e in s.evidence {
      if e in s.evidence {
        assert Link(e, |t.values|) in after.links;
      }
    }
  }

  lemma {:induction false} AcceptAllKeeps(t: Table, model: Id, submissions: seq<Submission>, now: int)
    requires Chained(t.values) && LinksKnown(t)
    requires forall i :: 0 <= i < |submissions| ==> 1 <= submissions[i].field <= FIELDS
    ensures var after := AcceptAll(t, model, submissions, now);
            && Chained(after.values) && LinksKnown(after)
            && Touches(t.values, t.links, after.values, after.links, {OfModel(model)})
    decreases |submissions|
  {
    if submissions != [] {
      var front, last := submissions[..|submissions| - 1], submissions[|submissions| - 1];
      AcceptAllKeeps(t, model, front, now);
      AcceptOneKeeps(AcceptAll(t, model, front, now), model, last, now);
    }
  }

  /** The row carries the submission's content and evidence, unvalidated. */
  predicate Carries(t: Table, id: Option<Id>, s: Submission) {
    && id.Some? && id.value < |t.values|
    && var v := t.values[id.value];
    && v.json == s.json && v.unit == s.unit && v.source == Supplier && v.status == Submitted
    && EvidenceOf(t.links, id.value) == s.evidence
  }

  predicate CurrentCarries(t: Table, model: Id, s: Submission) {
    Carries(t, CurrentId(t.values, OfModel(model), s.field), s)
  }

  /** After acceptance the current value of a submitted field is the field's last submission. */
  lemma {:induction false} LastSubmissionWins(t: Table, model: Id, submissions: seq<Submission>, now: int, k: nat)
    requires Chained(t.values) && LinksKnown(t)
    requires forall i :: 0 <= i < |submissions| ==> 1 <= submissions[i].field <= FIELDS
    requires k < |submissions| && forall i :: k < i < |submissions| ==> submissions[i].field != submissions[k].field
    ensures CurrentCarries(AcceptAll(t, model, submissions, now), model, submissions[k])
    decreases |submissions|
  {
    var front, last := submissions[..|submissions| - 1], submissions[|submissions| - 1];
    if k < |front| {
      LastSubmissionWins(t, model, front, now, k);
      StillCarries(t, model, front, last, now, submissions[k]);
    } else {
      NowCarries(t, model, front, last, now);
    }
  }

  lemma NowCarries(t: Table, model: Id, front: seq<Submission>, last: Submission, now: int)
    requires Chained(t.values) && LinksKnown(t) && 1 <= last.field <= FIELDS
    requires forall i :: 0 <= i < |front| ==> 1 <= front[i].field <= FIELDS
    ensures CurrentCarries(AcceptOne(AcceptAll(t, model, front, now), model, last, now), model, last)
  {
    AcceptAllKeeps(t, model, front, now);
    AcceptOneKeeps(AcceptAll(t, model, front, now), model, last, now);
  }

  lemma StillCarries(t: Table, model: Id, front: seq<Submission>, last: Submission, now: int, s: Submission)
    requires Chained(t.values) && LinksKnown(t) && s.field != last.field
    requires forall i :: 0 <= i < |front| ==> 1 <= front[i].field <= FIELDS
    requires CurrentCarries(AcceptAll(t, model, front, now), model, s)
    ensures CurrentCarries(AcceptOne(AcceptAll(t, model, front, now), model, last, now), model, s)
  {
    AcceptAllKeeps(t, model, front, now);
    OtherFieldStays(AcceptAll(t, model, front, now), model, last, now, s.field);
  }

  lemma OtherFieldStays(t: Table, model: Id, s: Submission, now: int, field: int)
    requires Chained(t.values) && LinksKnown(t) && field != s.field
    ensures var after := AcceptOne(t, model, s, now);
            var id := CurrentId(t.values, OfModel(model), field);
            && CurrentId(after.values, OfModel(model), field) == id
            && (id.Some? ==>
                after.values[id.value] == t.values[id.value]
                && EvidenceOf(after.links, id.value) == EvidenceOf(t.links, id.value))
  {
    PutIsCurrent(t.values, OfModel(model), s.field, s.json, s.unit, Supplier, Submitted, now);
    var id := CurrentId(t.values, OfModel(model), field);
    var after := AcceptOne(t, model, s, now);
    if id.Some? {
      forall e ensures e in EvidenceOf(after.links, id.value) <==> e in EvidenceOf(t.links, id.value) {
        assert Link(e, id.value) in after.links <==> Link(e, id.value) in t.links;
        assert e in EvidenceOf(after.links, id.value) <==> Link(e, id.value) in after.links;
        assert e in EvidenceOf(t.links, id.value) <==> Link(e, id.value) in t.links;
      }
    }
  }
}
