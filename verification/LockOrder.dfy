/**
 The explicit row locks of the API: each endpoint's lock requests in order, and
 any number of transactions running at once. No set of them ever waits in a circle.
 */
module LockOrder {
  import opened Prelude

  type Id = nat
  type TxId = nat

  /** Rows that transactions lock; the class order is the order in which the code takes them. */
  datatype Lock = Authorisation(id: Id) | Capability(id: Id) | ModelRow(id: Id) | RequestRow(id: Id)
      | EvidenceRow(id: Id) | ItemRow(id: Id)

  datatype Mode = Shared | Exclusive

  datatype Want = Want(lock: Lock, mode: Mode)

  type Program = seq<Want>

  function Class(l: Lock): nat {
    match l
    case Authorisation(_) => 0
    case Capability(_) => 1
    case ModelRow(_) => 2
    case RequestRow(_) => 3
    case EvidenceRow(_) => 4
    case ItemRow(_) => 5
  }

  predicate Below(a: Lock, b: Lock) {
    Class(a) < Class(b) || (Class(a) == Class(b) && a.id < b.id)
  }

  /**
   A transaction holding `held` may ask for `w`: an item only under its model's
   lock (`modelOf` never changes), any other row if it is held already or lies
   above every other row held.
   */
  predicate Allowed(modelOf: Id -> Id, held: Program, w: Want) {
    match w.lock
    case ItemRow(i) => w.mode == Exclusive && Want(ModelRow(modelOf(i)), Exclusive) in held
    case _ => w in held || forall k :: 0 <= k < |held| && !held[k].lock.ItemRow? ==> Below(held[k].lock, w.lock)
  }

  predicate Disciplined(modelOf: Id -> Id, p: Program) {
    forall j :: 0 <= j < |p| ==> Allowed(modelOf, p[..j], p[j])
  }

  // ---- the endpoints ----

  function InsertId(x: Id, s: seq<Id>): seq<Id> {
    if s == [] || x < s[0] then [x] + s
    else if x == s[0] then s
    else [s[0]] + InsertId(x, s[1..])
  }

  /** `[...new Set(ids)].sort()` */
  function SortedOnce(ids: seq<Id>): seq<Id> {
    if ids == [] then [] else InsertId(ids[0], SortedOnce(ids[1..]))
  }

  predicate Ascending(s: seq<Id>) {
    forall i, j :: 0 <= i < j < |s| ==> s[i] < s[j]
  }

  lemma {:induction false} InsertIdSorts(x: Id, s: seq<Id>)
    requires Ascending(s)
    ensures Ascending(InsertId(x, s))
    ensures forall y :: y in InsertId(x, s) <==> y == x || y in s
    decreases |s|
  {
    if s != [] && x > s[0] {
      InsertIdSorts(x, s[1..]);
      var tail := InsertId(x, s[1..]);
      forall i | 0 <= i < |tail| ensures s[0] < tail[i] {
        assert tail[i] in tail;
      }
      assert s == [s[0]] + s[1..];
    } else if s != [] {
      assert s == [s[0]] + s[1..];
    }
  }

  lemma {:induction false} SortedOnceSorts(ids: seq<Id>)
    ensures Ascending(SortedOnce(ids))
    ensures forall y :: y in SortedOnce(ids) <==> y in ids
    decreases |ids|
  {
    if ids != [] {
      SortedOnceSorts(ids[1..]);
      InsertIdSorts(ids[0], SortedOnce(ids[1..]));
      assert ids == [ids[0]] + ids[1..];
    }
  }

  function Models(ids: seq<Id>): Program {
    seq(|ids|, i requires 0 <= i < |ids| => Want(ModelRow(ids[i]), Exclusive))
  }

  function Documents(ids: seq<Id>): Program {
    seq(|ids|, i requires 0 <= i < |ids| => Want(EvidenceRow(ids[i]), Exclusive))
  }

  function Items(ids: seq<Id>): Program {
    seq(|ids|, i requires 0 <= i < |ids| => Want(ItemRow(ids[i]), Exclusive))
  }

  function ModelsOf(modelOf: Id -> Id, items: seq<Id>): seq<Id> {
    seq(|items|, i requires 0 <= i < |items| => modelOf(items[i]))
  }

  /** The items of a set of models among those listed: what `invalidatePassports` writes. */
  function ItemsOf(modelOf: Id -> Id, models: seq<Id>, items: seq<Id>): seq<Id> {
    if items == [] then []
    else (if modelOf(items[0]) in models then [items[0]] else []) + ItemsOf(modelOf, models, items[1..])
  }

  datatype Owner = OfItem(item: Id) | OfModel(model: Id)

  function OwnerModel(modelOf: Id -> Id, o: Owner): Id {
    match o
    case OfItem(i) => modelOf(i)
    case OfModel(m) => m
  }

  /** `rows` are the tenant's items, in whatever order the database writes them. */
  datatype Endpoint =
    | WriteValue(owner: Owner, rows: seq<Id>)             // create, validate, reject
    | LinkEvidence(owner: Owner, evidence: Id, rows: seq<Id>)
    | AcceptRequest(model: Id, request: Id, documents: seq<Id>, rows: seq<Id>)
    | RejectMalware(linked: seq<Id>, evidence: Id, rows: seq<Id>)
    | UsePortal(request: Id)                              // session, submit
    | UseEvidence(evidence: Id)                           // finalize, verify, review download, extraction
    | PrepareRegistry(items: seq<Id>)
    | UseItem(item: Id)                                   // validate, publish, export, lifecycle, telemetry
    | ReviewModel(model: Id, rows: seq<Id>)
    | RevokeCapability(grant: Id)
    | UseCapability(grant: Id)
    | RevokeAuthorisation(authorisation: Id)
    | ReadOnly

  /** `lockValueOwner` */
  function LockOwner(modelOf: Id -> Id, o: Owner): Program {
    match o
    case OfItem(i) => [Want(ModelRow(modelOf(i)), Exclusive), Want(ItemRow(i), Exclusive)]
    case OfModel(m) => [Want(ModelRow(m), Exclusive)]
  }

  function Written(modelOf: Id -> Id, models: seq<Id>, rows: seq<Id>): Program {
    Items(ItemsOf(modelOf, models, rows))
  }

  /** The lock requests of the endpoint's own work, explicit locks and the item rows it updates. */
  function Work(modelOf: Id -> Id, e: Endpoint): Program {
    match e
    case WriteValue(owner, rows) => LockOwner(modelOf, owner) + Written(modelOf, [OwnerModel(modelOf, owner)], rows)
    case LinkEvidence(owner, evidence, rows) =>
      LockOwner(modelOf, owner) + [Want(EvidenceRow(evidence), Exclusive)] +
      Written(modelOf, [OwnerModel(modelOf, owner)], rows)
    case AcceptRequest(model, request, evidence, rows) =>
      [Want(ModelRow(model), Exclusive), Want(RequestRow(request), Exclusive)] + Documents(SortedOnce(evidence))
          + Written(modelOf, [model], rows)
    case RejectMalware(linked, evidence, rows) =>
      Models(SortedOnce(linked)) + [Want(EvidenceRow(evidence), Exclusive)] + Written(modelOf, SortedOnce(linked), rows)
    case UsePortal(request) => [Want(RequestRow(request), Exclusive)]
    case UseEvidence(evidence) => [Want(EvidenceRow(evidence), Exclusive)]
    case PrepareRegistry(items) => Models(SortedOnce(ModelsOf(modelOf, items))) + Items(SortedOnce(items))
    case UseItem(item) => LockOwner(modelOf, OfItem(item))
    case ReviewModel(model, rows) => [Want(ModelRow(model), Exclusive)] + Written(modelOf, [model], rows)
    case RevokeCapability(grant) => [Want(Capability(grant), Exclusive)]
    case UseCapability(grant) => [Want(Capability(grant), Shared)]
    case RevokeAuthorisation(authorisation) => [Want(Authorisation(authorisation), Exclusive)]
    case ReadOnly => []
  }

  /** A delegated transaction first locks its authorisation; revoking one is never delegated. */
  predicate MayDelegate(e: Endpoint) { !e.RevokeAuthorisation? }

  function ProgramOf(modelOf: Id -> Id, e: Endpoint, delegation: Option<Id>): Program {
    if delegation.Some? && MayDelegate(e) then [Want(Authorisation(delegation.value), Shared)] + Work(modelOf, e)
        else Work(modelOf, e)
  }

  lemma InModels(ids: seq<Id>, w: Want)
    ensures w in Models(ids) <==> w.mode == Exclusive && w.lock.ModelRow? && w.lock.id in ids
  {
    if w.mode == Exclusive && w.lock.ModelRow? && w.lock.id in ids {
      var k :| 0 <= k < |ids| && ids[k] == w.lock.id;
      assert Models(ids)[k] == w;
    }
  }

  lemma InItems(ids: seq<Id>, w: Want)
    ensures w in Items(ids) <==> w.mode == Exclusive && w.lock.ItemRow? && w.lock.id in ids
  {
    if w.mode == Exclusive && w.lock.ItemRow? && w.lock.id in ids {
      var k :| 0 <= k < |ids| && ids[k] == w.lock.id;
      assert Items(ids)[k] == w;
    }
  }

  lemma InModelsOf(modelOf: Id -> Id, items: seq<Id>, m: Id)
    ensures m in ModelsOf(modelOf, items) <==> exists i :: i in items && m == modelOf(i)
  {
    if i :| i in items && m == modelOf(i) {
      var k :| 0 <= k < |items| && items[k] == i;
      assert ModelsOf(modelOf, items)[k] == m;
    }
  }

  /** Preparing a draft locks exactly the requested items and their models. */
  lemma PreparationLocks(modelOf: Id -> Id, items: seq<Id>, w: Want)
    ensures w in Work(modelOf, PrepareRegistry(items)) <==>
            w.mode == Exclusive && exists i :: i in items && (w.lock == ItemRow(i) || w.lock == ModelRow(modelOf(i)))
  {
    hide SortedOnce, Models, Items, ModelsOf;
    SortedOnceSorts(ModelsOf(modelOf, items));
    SortedOnceSorts(items);
    InModels(SortedOnce(ModelsOf(modelOf, items)), w);
    InItems(SortedOnce(items), w);
    InModelsOf(modelOf, items, w.lock.id);
    if i :| i in items && (w.lock == ItemRow(i) || w.lock == ModelRow(modelOf(i))) {
      assert w.lock.id == i || w.lock.id == modelOf(i);
    }
  }

  /** A grant is used under a shared lock and revoked under an exclusive one; a delegated use takes it first. */
  lemma GrantLocks(modelOf: Id -> Id, e: Endpoint, g: Id)
    ensures !e.RevokeAuthorisation? ==>
              ProgramOf(modelOf, e, Some(g)) == [Want(Authorisation(g), Shared)] + ProgramOf(modelOf, e, None)
    ensures ProgramOf(modelOf, RevokeAuthorisation(g), None) == [Want(Authorisation(g), Exclusive)]
    ensures ProgramOf(modelOf, UseCapability(g), None) == [Want(Capability(g), Shared)]
    ensures ProgramOf(modelOf, RevokeCapability(g), None) == [Want(Capability(g), Exclusive)]
  {
  }

  // ---- every endpoint keeps the discipline ----

  lemma ExtendOne(modelOf: Id -> Id, p: Program, w: Want)
    requires Disciplined(modelOf, p) && Allowed(modelOf, p, w)
    ensures Disciplined(modelOf, p + [w])
  {
    forall j | 0 <= j <= |p| ensures Allowed(modelOf, (p + [w])[..j], (p + [w])[j]) {
      assert (p + [w])[..j] == p[..j];
    }
  }

  /** Requests that are allowed one after another extend a disciplined program. */
  lemma {:induction false} Extend(modelOf: Id -> Id, p: Program, more: Program)
    requires Disciplined(modelOf, p)
    requires forall j :: 0 <= j < |more| ==> Allowed(modelOf, p + more[..j], more[j])
    ensures Disciplined(modelOf, p + more)
    decreases |more|
  {
    if more == [] {
      assert p + more == p;
    } else {
      var front, last := more[..|more| - 1], more[|more| - 1];
      forall j | 0 <= j < |front| ensures Allowed(modelOf, p + front[..j], front[j]) {
        assert front[..j] == more[..j];
      }
      Extend(modelOf, p, front);
      ExtendOne(modelOf, p + front, last);
      assert p + more == p + front + [last];
    }
  }

  /** Rows of one class in ascending order, above everything held, may be locked one by one. */
  lemma ExtendAscending(modelOf: Id -> Id, p: Program, more: Program)
    requires Disciplined(modelOf, p)
    requires forall j :: 0 <= j < |more| ==> !more[j].lock.ItemRow?
    requires forall k, j :: 0 <= k < |p| && 0 <= j < |more| && !p[k].lock.ItemRow? ==> Below(p[k].lock, more[j].lock)
    requires forall i, j :: 0 <= i < j < |more| ==> Below(more[i].lock, more[j].lock)
    ensures Disciplined(modelOf, p + more)
  {
    Extend(modelOf, p, more);
  }

  /** Items whose models' locks are held may be locked in any order. */
  lemma ExtendItems(modelOf: Id -> Id, p: Program, items: seq<Id>)
    requires Disciplined(modelOf, p)
    requires forall i :: i in items ==> Want(ModelRow(modelOf(i)), Exclusive) in p
    ensures Disciplined(modelOf, p + Items(items))
  {
    var more := Items(items);
    forall j | 0 <= j < |more| ensures Allowed(modelOf, p + more[..j], more[j]) {
      assert items[j] in items;
      assert Want(ModelRow(modelOf(items[j])), Exclusive) in p + more[..j];
    }
    Extend(modelOf, p, more);
  }

  lemma {:induction false} ItemsOfModels(modelOf: Id -> Id, models: seq<Id>, rows: seq<Id>)
    ensures forall i :: i in ItemsOf(modelOf, models, rows) ==> modelOf(i) in models
    decreases |rows|
  {
    if rows != [] {
      ItemsOfModels(modelOf, models, rows[1..]);
    }
  }

  lemma ExtendWritten(modelOf: Id -> Id, p: Program, models: seq<Id>, rows: seq<Id>)
    requires Disciplined(modelOf, p)
    requires forall m :: m in models ==> Want(ModelRow(m), Exclusive) in p
    ensures Disciplined(modelOf, p + Written(modelOf, models, rows))
  {
    ItemsOfModels(modelOf, models, rows);
    ExtendItems(modelOf, p, ItemsOf(modelOf, models, rows));
  }

  /** At most an authorisation is held, shared: how every program begins. */
  predicate Fresh(p: Program) {
    |p| <= 1 && forall k :: 0 <= k < |p| ==> p[k].lock.Authorisation? && p[k].mode == Shared
  }

  lemma FreshIsDisciplined(modelOf: Id -> Id, p: Program)
    requires Fresh(p)
    ensures Disciplined(modelOf, p)
  {
  }

  lemma AloneIsDisciplined(modelOf: Id -> Id, w: Want)
    requires !w.lock.ItemRow?
    ensures Disciplined(modelOf, [w])
  {
  }

  lemma OneRow(modelOf: Id -> Id, p: Program, w: Want)
    requires Fresh(p) && Class(w.lock) > 0 && !w.lock.ItemRow?
    ensures Disciplined(modelOf, p + [w])
  {
    FreshIsDisciplined(modelOf, p);
    ExtendOne(modelOf, p, w);
  }

  lemma OwnerLocked(modelOf: Id -> Id, p: Program, o: Owner)
    requires Fresh(p)
    ensures Disciplined(modelOf, p + LockOwner(modelOf, o))
    ensures Want(ModelRow(OwnerModel(modelOf, o)), Exclusive) in p + LockOwner(modelOf, o)
    ensures forall k :: 0 <= k < |p + LockOwner(modelOf, o)| && !(p + LockOwner(modelOf, o))[k].lock.ItemRow? ==>
              Class((p + LockOwner(modelOf, o))[k].lock) <= 2
  {
    var first := Want(ModelRow(OwnerModel(modelOf, o)), Exclusive);
    OneRow(modelOf, p, first);
    assert first in p + [first];
    if o.OfItem? {
      ExtendOne(modelOf, p + [first], Want(ItemRow(o.item), Exclusive));
      assert p + LockOwner(modelOf, o) == p + [first] + [Want(ItemRow(o.item), Exclusive)];
    } else {
      assert p + LockOwner(modelOf, o) == p + [first];
    }
    assert first in p + LockOwner(modelOf, o);
  }

  lemma Associate(a: Program, b: Program, c: Program)
    ensures a + (b + c) == a + b + c
  {
  }

  lemma Regroup(a: Program, b: Program, c: Program, d: Program)
    ensures a + (b + c + d) == a + b + c + d
  {
    Associate(a, b + c, d);
    Associate(a, b, c);
  }

  lemma WriteValueDisciplined(modelOf: Id -> Id, p: Program, o: Owner, rows: seq<Id>)
    requires Fresh(p)
    ensures Disciplined(modelOf, p + Work(modelOf, WriteValue(o, rows)))
  {
    hide Disciplined, Written;
    OwnerLocked(modelOf, p, o);
    ExtendWritten(modelOf, p + LockOwner(modelOf, o), [OwnerModel(modelOf, o)], rows);
    Associate(p, LockOwner(modelOf, o), Written(modelOf, [OwnerModel(modelOf, o)], rows));
  }

  lemma LinkEvidenceDisciplined(modelOf: Id -> Id, p: Program, o: Owner, evidence: Id, rows: seq<Id>)
    requires Fresh(p)
    ensures Disciplined(modelOf, p + Work(modelOf, LinkEvidence(o, evidence, rows)))
  {
    hide Disciplined, Written, LockOwner;
    var owned, document := p + LockOwner(modelOf, o), Want(EvidenceRow(evidence), Exclusive);
    OwnerLocked(modelOf, p, o);
    ExtendOne(modelOf, owned, document);
    assert Want(ModelRow(OwnerModel(modelOf, o)), Exclusive) in owned + [document];
    ExtendWritten(modelOf, owned + [document], [OwnerModel(modelOf, o)], rows);
    Regroup(p, LockOwner(modelOf, o), [document], Written(modelOf, [OwnerModel(modelOf, o)], rows));
  }

  lemma AcceptDisciplined(modelOf: Id -> Id, p: Program, model: Id, request: Id, evidence: seq<Id>, rows: seq<Id>)
    requires Fresh(p)
    ensures Disciplined(modelOf, p + Work(modelOf, AcceptRequest(model, request, evidence, rows)))
  {
    hide Disciplined, Written;
    var first, second := Want(ModelRow(model), Exclusive), Want(RequestRow(request), Exclusive);
    var documents := Documents(SortedOnce(evidence));
    OneRow(modelOf, p, first);
    ExtendOne(modelOf, p + [first], second);
    var locked := p + [first] + [second];
    SortedOnceSorts(evidence);
    ExtendAscending(modelOf, locked, documents);
    assert locked[|p|] == first;
    assert first in locked + documents;
    ExtendWritten(modelOf, locked + documents, [model], rows);
    assert p + [first, second] == locked;
    Regroup(p, [first, second], documents, Written(modelOf, [model], rows));
  }

  lemma ModelsLocked(modelOf: Id -> Id, p: Program, ids: seq<Id>)
    requires Fresh(p)
    ensures var held := p + Models(SortedOnce(ids));
            && Disciplined(modelOf, held)
            && (forall m :: m in ids ==> Want(ModelRow(m), Exclusive) in held)
            && (forall k :: 0 <= k < |held| ==> Class(held[k].lock) <= 2)
  {
    var sorted := SortedOnce(ids);
    SortedOnceSorts(ids);
    FreshIsDisciplined(modelOf, p);
    ExtendAscending(modelOf, p, Models(sorted));
    forall m | m in ids ensures Want(ModelRow(m), Exclusive) in p + Models(sorted) {
      assert m in sorted;
      var i :| 0 <= i < |sorted| && sorted[i] == m;
      assert Models(sorted)[i] == Want(ModelRow(m), Exclusive);
    }
  }

  lemma RejectDisciplined(modelOf: Id -> Id, p: Program, linked: seq<Id>, evidence: Id, rows: seq<Id>)
    requires Fresh(p)
    ensures Disciplined(modelOf, p + Work(modelOf, RejectMalware(linked, evidence, rows)))
  {
    hide Disciplined, Written;
    var held, document := p + Models(SortedOnce(linked)), Want(EvidenceRow(evidence), Exclusive);
    ModelsLocked(modelOf, p, linked);
    SortedOnceSorts(linked);
    ExtendOne(modelOf, held, document);
    forall m | m in SortedOnce(linked) ensures Want(ModelRow(m), Exclusive) in held + [document] {
      assert m in linked && Want(ModelRow(m), Exclusive) in held;
    }
    ExtendWritten(modelOf, held + [document], SortedOnce(linked), rows);
    Regroup(p, Models(SortedOnce(linked)), [document], Written(modelOf, SortedOnce(linked), rows));
  }

  lemma PrepareDisciplined(modelOf: Id -> Id, p: Program, items: seq<Id>)
    requires Fresh(p)
    ensures Disciplined(modelOf, p + Work(modelOf, PrepareRegistry(items)))
  {
    hide Disciplined, Written;
    var models := ModelsOf(modelOf, items);
    var held := p + Models(SortedOnce(models));
    ModelsLocked(modelOf, p, models);
    SortedOnceSorts(items);
    forall i | i in SortedOnce(items) ensures Want(ModelRow(modelOf(i)), Exclusive) in held {
      var k :| 0 <= k < |items| && items[k] == i;
      assert models[k] == modelOf(i);
    }
    ExtendItems(modelOf, held, SortedOnce(items));
    Associate(p, Models(SortedOnce(models)), Items(SortedOnce(items)));
  }

  lemma ReviewDisciplined(modelOf: Id -> Id, p: Program, model: Id, rows: seq<Id>)
    requires Fresh(p)
    ensures Disciplined(modelOf, p + Work(modelOf, ReviewModel(model, rows)))
  {
    hide Disciplined, Written;
    var first := Want(ModelRow(model), Exclusive);
    OneRow(modelOf, p, first);
    assert first in p + [first];
    ExtendWritten(modelOf, p + [first], [model], rows);
    Associate(p, [first], Written(modelOf, [model], rows));
  }

  lemma OneRowDisciplined(modelOf: Id -> Id, p: Program, e: Endpoint)
    requires Fresh(p) && (e.UsePortal? || e.UseEvidence? || e.RevokeCapability? || e.UseCapability?)
    ensures Disciplined(modelOf, p + Work(modelOf, e))
  {
    hide Disciplined;
    OneRow(modelOf, p, Work(modelOf, e)[0]);
  }

  lemma NoRowDisciplined(modelOf: Id -> Id, p: Program)
    requires Fresh(p)
    ensures Disciplined(modelOf, p + Work(modelOf, ReadOnly))
  {
    FreshIsDisciplined(modelOf, p);
    assert p + [] == p;
  }

  function Prefix(e: Endpoint, delegation: Option<Id>): Program {
    if delegation.Some? && MayDelegate(e) then [Want(Authorisation(delegation.value), Shared)] else []
  }

  lemma ProgramBegins(modelOf: Id -> Id, e: Endpoint, delegation: Option<Id>)
    ensures ProgramOf(modelOf, e, delegation) == Prefix(e, delegation) + Work(modelOf, e)
            && Fresh(Prefix(e, delegation))
  {
    hide Work;
    assert [] + Work(modelOf, e) == Work(modelOf, e);
  }

  /** Whichever endpoint runs, delegated or not, its lock requests are disciplined. */
  lemma EveryEndpointDisciplined(modelOf: Id -> Id, e: Endpoint, delegation: Option<Id>)
    ensures Disciplined(modelOf, ProgramOf(modelOf, e, delegation))
  {
    if e.RevokeAuthorisation? {
      AloneIsDisciplined(modelOf, Want(Authorisation(e.authorisation), Exclusive));
    } else {
      var p := Prefix(e, delegation);
      ProgramBegins(modelOf, e, delegation);
      DelegableDisciplined(modelOf, p, e);
    }
  }

  lemma DelegableDisciplined(modelOf: Id -> Id, p: Program, e: Endpoint)
    requires Fresh(p) && MayDelegate(e)
    ensures Disciplined(modelOf, p + Work(modelOf, e))
  {
    hide Disciplined;
    match e
    case WriteValue(owner, rows) => WriteValueDisciplined(modelOf, p, owner, rows);
    case LinkEvidence(owner, evidence, rows) => LinkEvidenceDisciplined(modelOf, p, owner, evidence, rows);
    case AcceptRequest(model, request, documents, rows) =>
      AcceptDisciplined(modelOf, p, model, request, documents, rows);
    case RejectMalware(linked, evidence, rows) => RejectDisciplined(modelOf, p, linked, evidence, rows);
    case PrepareRegistry(items) => PrepareDisciplined(modelOf, p, items);
    case UseItem(item) => OwnerLocked(modelOf, p, OfItem(item));
    case ReviewModel(model, rows) => ReviewDisciplined(modelOf, p, model, rows);
    case ReadOnly => NoRowDisciplined(modelOf, p);
    case _ => OneRowDisciplined(modelOf, p, e);
  }

  // ---- any number of transactions ----

  /** A running transaction holds the first `pos` locks of its program until it ends. */
  datatype Tx = Tx(program: Program, pos: nat)

  type State = map<TxId, Tx>

  predicate Conflicts(a: Want, b: Want) {
    a.lock == b.lock && (a.mode == Exclusive || b.mode == Exclusive)
  }

  predicate Holds(tx: Tx, w: Want) {
    tx.pos <= |tx.program| && w in tx.program[..tx.pos]
  }

  /** `t` asks for a row that `u` has locked. */
  predicate WaitsFor(s: State, t: TxId, u: TxId) {
    && t in s && u in s && t != u && s[t].pos < |s[t].program|
    && exists w :: w in s[u].program && Holds(s[u], w) && Conflicts(w, s[t].program[s[t].pos])
  }

  predicate Blocked(s: State, t: TxId) {
    exists u :: u in s && WaitsFor(s, t, u)
  }

  datatype Step = Begin(t: TxId, e: Endpoint, delegation: Option<Id>) | Acquire(t: TxId) | End(t: TxId)

  /** A transaction may end at any time: it commits, fails or times out. */
  predicate Enabled(s: State, step: Step) {
    match step
    case Begin(t, _, _) => t !in s
    case Acquire(t) => t in s && s[t].pos < |s[t].program| && !Blocked(s, t)
    case End(t) => t in s
  }

  function Apply(modelOf: Id -> Id, s: State, step: Step): State
    requires Enabled(s, step)
  {
    match step
    case Begin(t, e, delegation) => s[t := Tx(ProgramOf(modelOf, e, delegation), 0)]
    case Acquire(t) => s[t := s[t].(pos := s[t].pos + 1)]
    case End(t) => s - {t}
  }

  predicate IsRun(modelOf: Id -> Id, states: seq<State>, steps: seq<Step>) {
    && |states| == |steps| + 1
    && states[0] == map[]
    && forall i :: 0 <= i < |steps| ==>
         Enabled(states[i], steps[i]) && states[i + 1] == Apply(modelOf, states[i], steps[i])
  }

  predicate TxOk(modelOf: Id -> Id, tx: Tx) {
    tx.pos <= |tx.program| && Disciplined(modelOf, tx.program)
  }

  ghost predicate Apart(a: Tx, b: Tx) {
    forall v, w :: Holds(a, v) && Holds(b, w) ==> !Conflicts(v, w)
  }

  ghost predicate Inv(modelOf: Id -> Id, s: State) {
    && (forall t :: t in s ==> TxOk(modelOf, s[t]))
    && (forall t, u :: t in s && u in s && t != u ==> Apart(s[t], s[u]))
  }

  lemma AcquireKeepsApart(s: State, t: TxId, u: TxId)
    requires t in s && u in s && t != u && s[t].pos < |s[t].program| && !Blocked(s, t) && Apart(s[t], s[u])
    ensures Apart(s[t].(pos := s[t].pos + 1), s[u])
  {
    var tx := s[t].(pos := s[t].pos + 1);
    var next := s[t].program[s[t].pos];
    assert tx.program[..tx.pos] == s[t].program[..s[t].pos] + [next];
    forall v, w | Holds(tx, v) && Holds(s[u], w) ensures !Conflicts(v, w) {
      if v == next {
        assert !WaitsFor(s, t, u);
      }
    }
  }

  lemma ApartSymmetric(a: Tx, b: Tx)
    requires Apart(a, b)
    ensures Apart(b, a)
  {
  }

  lemma StepKeeps(modelOf: Id -> Id, s: State, step: Step)
    requires Inv(modelOf, s) && Enabled(s, step)
    ensures Inv(modelOf, Apply(modelOf, s, step))
  {
    var after := Apply(modelOf, s, step);
    if step.Begin? {
      EveryEndpointDisciplined(modelOf, step.e, step.delegation);
    }
    forall t, u | t in after && u in after && t != u ensures Apart(after[t], after[u]) {
      if step.Acquire? && t == step.t {
        AcquireKeepsApart(s, t, u);
      } else if step.Acquire? && u == step.t {
        AcquireKeepsApart(s, u, t);
        ApartSymmetric(after[u], after[t]);
      }
    }
  }

  lemma {:induction false} RunInv(modelOf: Id -> Id, states: seq<State>, steps: seq<Step>, n: nat)
    requires IsRun(modelOf, states, steps) && n < |states|
    ensures Inv(modelOf, states[n])
  {
    if n > 0 {
      RunInv(modelOf, states, steps, n - 1);
      StepKeeps(modelOf, states[n - 1], steps[n - 1]);
    }
  }

  // ---- nobody waits in a circle ----

  function Wanted(s: State, t: TxId): Lock
    requires t in s && s[t].pos < |s[t].program|
  {
    s[t].program[s[t].pos].lock
  }

  /** Nobody waits for an item: its model's lock already excludes every rival. */
  lemma NeverWaitsForItem(modelOf: Id -> Id, s: State, t: TxId, u: TxId)
    requires Inv(modelOf, s) && WaitsFor(s, t, u)
    ensures !Wanted(s, t).ItemRow?
  {
    var want := s[t].program[s[t].pos];
    assert Allowed(modelOf, s[t].program[..s[t].pos], want);
    if want.lock.ItemRow? {
      var w :| w in s[u].program && Holds(s[u], w) && Conflicts(w, want);
      var k :| 0 <= k < s[u].pos && s[u].program[k] == w;
      assert Allowed(modelOf, s[u].program[..k], w);
      var model := Want(ModelRow(modelOf(want.lock.id)), Exclusive);
      assert model in s[u].program[..k] && Holds(s[u], model) && Holds(s[t], model);
      assert Apart(s[t], s[u]);
      assert Conflicts(model, model);
    }
  }

  /** If `t` waits for `u` and `u` waits too, `u` waits for a row further up. */
  lemma WaitingGoesUp(modelOf: Id -> Id, s: State, t: TxId, u: TxId, v: TxId)
    requires Inv(modelOf, s) && WaitsFor(s, t, u) && WaitsFor(s, u, v)
    ensures Below(Wanted(s, t), Wanted(s, u))
  {
    NeverWaitsForItem(modelOf, s, t, u);
    NeverWaitsForItem(modelOf, s, u, v);
    var want := s[u].program[s[u].pos];
    var held := s[u].program[..s[u].pos];
    assert Allowed(modelOf, held, want);
    if want in held {
      var w :| w in s[v].program && Holds(s[v], w) && Conflicts(w, want);
      assert Holds(s[u], want) && Apart(s[v], s[u]);
      assert false;
    }
    var w :| w in s[u].program && Holds(s[u], w) && Conflicts(w, s[t].program[s[t].pos]);
    var k :| 0 <= k < |held| && held[k] == w;
  }

  /** A chain of waiting transactions. */
  predicate Chain(s: State, c: seq<TxId>) {
    forall i :: 0 <= i < |c| - 1 ==> WaitsFor(s, c[i], c[i + 1])
  }

  lemma {:induction false} ChainGoesUp(modelOf: Id -> Id, s: State, c: seq<TxId>, last: TxId)
    requires Inv(modelOf, s) && |c| >= 2 && Chain(s, c) && WaitsFor(s, c[|c| - 1], last)
    ensures WaitsFor(s, c[0], c[1]) && Below(Wanted(s, c[0]), Wanted(s, c[|c| - 1]))
    decreases |c|
  {
    hide Inv, Holds, Conflicts;
    assert WaitsFor(s, c[0], c[1]);
    var n := |c| - 1;
    assert WaitsFor(s, c[n - 1], c[n]);
    WaitingGoesUp(modelOf, s, c[n - 1], c[n], last);
    if n > 1 {
      var front := c[..n];
      assert Chain(s, front) by {
        forall i | 0 <= i < |front| - 1 ensures WaitsFor(s, front[i], front[i + 1]) {
          assert WaitsFor(s, c[i], c[i + 1]);
        }
      }
      ChainGoesUp(modelOf, s, front, c[n]);
    }
  }

  /** In no reachable state does any set of transactions wait in a circle. */
  lemma NoDeadlock(modelOf: Id -> Id, states: seq<State>, steps: seq<Step>, n: nat, c: seq<TxId>)
    requires IsRun(modelOf, states, steps) && n < |states|
    requires |c| >= 1 && Chain(states[n], c)
    ensures !WaitsFor(states[n], c[|c| - 1], c[0])
  {
    var s := states[n];
    RunInv(modelOf, states, steps, n);
    if WaitsFor(s, c[|c| - 1], c[0]) && |c| >= 2 {
      ChainGoesUp(modelOf, s, c, c[0]);
      WaitingGoesUp(modelOf, s, c[|c| - 1], c[0], c[1]);
    }
  }

  // ---- somebody can always go on ----

  /** Among waiting transactions one wants the highest row. */
  lemma {:induction false} HighestWaiter(s: State, waiting: set<TxId>) returns (top: TxId)
    requires waiting != {} && forall t :: t in waiting ==> t in s && s[t].pos < |s[t].program|
    ensures top in waiting && forall t :: t in waiting ==> !Below(Wanted(s, top), Wanted(s, t))
    decreases |waiting|
  {
    var t :| t in waiting;
    if waiting == {t} {
      top := t;
    } else {
      var rest := waiting - {t};
      top := HighestWaiter(s, rest);
      if Below(Wanted(s, top), Wanted(s, t)) {
        top := t;
      }
    }
  }

  /** As long as transactions run, one of them holds all it asked for or gets its next lock. */
  lemma SomebodyGoesOn(modelOf: Id -> Id, states: seq<State>, steps: seq<Step>, n: nat) returns (t: TxId)
    requires IsRun(modelOf, states, steps) && n < |states| && states[n] != map[]
    ensures t in states[n]
    ensures states[n][t].pos == |states[n][t].program| || Enabled(states[n], Acquire(t))
  {
    var s := states[n];
    RunInv(modelOf, states, steps, n);
    var any :| any in s;
    if k :| k in s && s[k].pos == |s[k].program| {
      t := k;
    } else {
      assert forall k :: k in s ==> TxOk(modelOf, s[k]);
      t := HighestWaiter(s, s.Keys);
      if Blocked(s, t) {
        var u :| u in s && WaitsFor(s, t, u);
        if Blocked(s, u) {
          var v :| v in s && WaitsFor(s, u, v);
          WaitingGoesUp(modelOf, s, t, u, v);
          assert false;
        }
        t := u;
      }
    }
  }
}
