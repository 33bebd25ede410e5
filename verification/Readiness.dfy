/** `calculateReadiness`: one pass over the catalogue that counts and lists what is missing or unproven. */
module Readiness {
  import opened Prelude
  import opened CanonicalJson
  import opened Catalogue

  /** One value as the engine sees it: its content, whether it is validated, how many usable evidence links it has. */
  datatype Input = Input(fieldId: int, value: Json, validated: bool, evidence: nat)

  datatype Report = Report(
    score: int, required: nat, complete: nat, verified: nat, blockers: seq<int>, warnings: seq<int>,
    deferred: nat, notDisplayed: nat, conditionalOpen: nat)

  /** `new Map(values.map(...))`: the last value of a field counts. */
  function ValueOf(values: seq<Input>, id: int): Option<Input> {
    if values == [] then None
    else if values[|values| - 1].fieldId == id then Some(values[|values| - 1])
    else ValueOf(values[..|values| - 1], id)
  }

  predicate Present(v: Option<Input>) {
    v.Some? && v.value.value != Null && v.value.value != Str("")
  }

  predicate Proven(v: Option<Input>) {
    Present(v) && v.value.validated && v.value.evidence > 0
  }

  function Ids(fields: seq<Field>, holds: Field -> bool): seq<int> {
    if fields == [] then []
    else
      var last := fields[|fields| - 1];
      Ids(fields[..|fields| - 1], holds) + if holds(last) then [last.id] else []
  }

  function Needed(category: Category, applicable: set<int>): Field -> bool {
    f => RequiredNow(f, category, applicable)
  }

  /** Required fields without a value. */
  function Missing(category: Category, values: seq<Input>, applicable: set<int>): Field -> bool {
    f => RequiredNow(f, category, applicable) && !Present(ValueOf(values, f.id))
  }

  /** Required fields whose value lacks validation or usable evidence. */
  function Unproven(category: Category, values: seq<Input>, applicable: set<int>): Field -> bool {
    f => RequiredNow(f, category, applicable) && Present(ValueOf(values, f.id)) && !Proven(ValueOf(values, f.id))
  }

  function Deferred(category: Category): Field -> bool {
    f => IsDeferred(RequirementFor(f, category))
  }

  function Hidden(category: Category): Field -> bool {
    f => IsHidden(RequirementFor(f, category))
  }

  function Undecided(category: Category, applicable: set<int>): Field -> bool {
    f => IsConditional(RequirementFor(f, category)) && f.id !in applicable
  }

  /** `Math.round(complete / required * 100)` in exact arithmetic. */
  function Score(complete: nat, required: nat): int {
    if required == 0 then 100 else (200 * complete + required) / (2 * required)
  }

  method ById(values: seq<Input>) returns (byId: map<int, Input>)
    ensures forall id :: ValueOf(values, id) == if id in byId then Some(byId[id]) else None
  {
    byId := map[];
    for n := 0 to |values|
      invariant forall id :: ValueOf(values[..n], id) == if id in byId then Some(byId[id]) else None
    {
      assert values[..n + 1] == values[..n] + [values[n]];
      byId := byId[values[n].fieldId := values[n]];
    }
    assert values[..|values|] == values;
  }

  lemma IdsStep(fields: seq<Field>, n: nat, holds: Field -> bool)
    requires n < |fields|
    ensures Ids(fields[..n + 1], holds) == Ids(fields[..n], holds) + if holds(fields[n]) then [fields[n].id] else []
  {
    assert fields[..n + 1][..n] == fields[..n];
  }

  lemma NoIds(holds: Field -> bool)
    ensures Ids([], holds) == []
  {
  }

  method CalculateReadiness(fields: seq<Field>, category: Category, values: seq<Input>, applicable: set<int>)
    returns (r: Report)
    ensures r.required == |Ids(fields, Needed(category, applicable))|
    ensures r.blockers == Ids(fields, Missing(category, values, applicable))
    ensures r.warnings == Ids(fields, Unproven(category, values, applicable))
    ensures r.complete + |r.blockers| == r.required
    ensures r.verified + |r.warnings| == r.complete
    ensures r.score == Score(r.complete, r.required)
    ensures r.deferred == |Ids(fields, Deferred(category))|
    ensures r.notDisplayed == |Ids(fields, Hidden(category))|
    ensures r.conditionalOpen == |Ids(fields, Undecided(category, applicable))|
  {
    hide Ids, ValueOf;
    forall holds ensures Ids([], holds) == [] {
      NoIds(holds);
    }
    var byId := ById(values);
    var required, complete, verified, deferred, notDisplayed, conditionalOpen := 0, 0, 0, 0, 0, 0;
    var blockers, warnings: seq<int> := [], [];
    var n := 0;
    while n < |fields|
      invariant n <= |fields|
      invariant required == |Ids(fields[..n], Needed(category, applicable))|
      invariant blockers == Ids(fields[..n], Missing(category, values, applicable))
      invariant warnings == Ids(fields[..n], Unproven(category, values, applicable))
      invariant complete + |blockers| == required && verified + |warnings| == complete
      invariant deferred == |Ids(fields[..n], Deferred(category))|
      invariant notDisplayed == |Ids(fields[..n], Hidden(category))|
      invariant conditionalOpen == |Ids(fields[..n], Undecided(category, applicable))|
    {
      var f := fields[n];
      IdsStep(fields, n, Needed(category, applicable));
      IdsStep(fields, n, Missing(category, values, applicable));
      IdsStep(fields, n, Unproven(category, values, applicable));
      IdsStep(fields, n, Deferred(category));
      IdsStep(fields, n, Hidden(category));
      IdsStep(fields, n, Undecided(category, applicable));
      n := n + 1;
      var req := RequirementFor(f, category);
      if IsDeferred(req) {
        deferred := deferred + 1;
        continue;
      }
      if IsHidden(req) {
        notDisplayed := notDisplayed + 1;
        continue;
      }
      var requiredNow := IsRequired(req) || (IsConditional(req) && f.id in applicable);
      if IsConditional(req) && f.id !in applicable {
        conditionalOpen := conditionalOpen + 1;
      }
      if !requiredNow {
        continue;
      }
      required := required + 1;
      if f.id in byId && byId[f.id].value != Null && byId[f.id].value != Str("") {
        complete := complete + 1;
        if byId[f.id].validated && byId[f.id].evidence > 0 {
          verified := verified + 1;
        } else {
          warnings := warnings + [f.id];
        }
      } else {
        blockers := blockers + [f.id];
      }
    }
    assert fields[..n] == fields;
    r := Report(Score(complete, required), required, complete, verified, blockers, warnings, deferred, notDisplayed,
                conditionalOpen);
  }

  lemma {:induction false} IdsMembers(fields: seq<Field>, holds: Field -> bool, f: Field)
    requires f in fields && holds(f)
    ensures f.id in Ids(fields, holds)
    decreases |fields|
  {
    var front, last := fields[..|fields| - 1], fields[|fields| - 1];
    assert fields == front + [last];
    if f != last {
      IdsMembers(front, holds, f);
    }
  }

  lemma {:induction false} IdsOnly(fields: seq<Field>, holds: Field -> bool)
    requires forall f :: f in fields ==> !holds(f)
    ensures Ids(fields, holds) == []
    decreases |fields|
  {
    if fields != [] {
      assert fields == fields[..|fields| - 1] + [fields[|fields| - 1]];
      IdsOnly(fields[..|fields| - 1], holds);
    }
  }

  /**
   Nothing is missing or unproven exactly when every field required now has a validated value with
   usable evidence.
   */
  lemma ReadyMeansProven(fields: seq<Field>, category: Category, values: seq<Input>, applicable: set<int>)
    ensures Ids(fields, Missing(category, values, applicable)) == []
            && Ids(fields, Unproven(category, values, applicable)) == [] <==>
            forall f :: f in fields && RequiredNow(f, category, applicable) ==> Proven(ValueOf(values, f.id))
  {
    var missing, unproven := Missing(category, values, applicable), Unproven(category, values, applicable);
    if Ids(fields, missing) == [] && Ids(fields, unproven) == [] {
      forall f | f in fields && RequiredNow(f, category, applicable) ensures Proven(ValueOf(values, f.id)) {
        if missing(f) {
          IdsMembers(fields, missing, f);
        } else if unproven(f) {
          IdsMembers(fields, unproven, f);
        }
      }
    }
    if forall f :: f in fields && RequiredNow(f, category, applicable) ==> Proven(ValueOf(values, f.id)) {
      IdsOnly(fields, missing);
      IdsOnly(fields, unproven);
    }
  }

  /** The rounded score is 100 exactly when at most every two-hundredth required field is missing. */
  lemma ScoreIsFull(complete: nat, required: nat)
    requires complete <= required
    ensures Score(complete, required) == 100 <==> 200 * (required - complete) <= required
    ensures 0 <= Score(complete, required) <= 100
  {
    if required > 0 {
      var a, b := 200 * complete + required, 2 * required;
      QuotientAtLeast(a, b, 100);
      QuotientAtLeast(a, b, 101);
    }
  }

  lemma QuotientAtLeast(a: nat, b: nat, k: nat)
    requires b > 0
    ensures a / b >= k <==> a >= k * b
  {
    var q, r := a / b, a % b;
    assert a == q * b + r && r < b;
    if q >= k {
      TimesMonotone(k, q, b);
    } else {
      TimesMonotone(q + 1, k, b);
    }
  }

  lemma TimesMonotone(x: nat, y: nat, b: nat)
    requires x <= y
    ensures x * b <= y * b
  {
  }

  /** With fewer than 200 required fields a full score means no blocker; with 200 one may be missing unseen. */
  lemma FullScoreMeansNoBlockers(complete: nat, required: nat)
    requires complete <= required
    ensures required < 200 ==> (Score(complete, required) == 100 <==> complete == required)
    ensures Score(199, 200) == 100
  {
    ScoreIsFull(complete, required);
  }

  // ---- the report in terms of the catalogue and the values ----

  /** Rounded to the nearest whole per cent, halves up. */
  lemma ScoreRounds(complete: nat, required: nat)
    ensures required == 0 ==> Score(complete, required) == 100
    ensures required > 0 ==>
              var s := Score(complete, required);
              2 * required * s - required <= 200 * complete < 2 * required * s + required
  {
    if required > 0 {
      var s, rest := (200 * complete + required) / (2 * required), (200 * complete + required) % (2 * required);
      assert 200 * complete + required == 2 * required * s + rest;
    }
  }

  /** A list of ids names, in catalogue order, exactly the places that hold. */
  lemma {:induction false} IdsInOrder(fields: seq<Field>, holds: Field -> bool) returns (places: seq<nat>)
    ensures forall i, j :: 0 <= i < j < |places| ==> places[i] < places[j]
    ensures forall k :: k in places <==> 0 <= k < |fields| && holds(fields[k])
    ensures |Ids(fields, holds)| == |places|
    ensures forall i :: 0 <= i < |places| ==> places[i] < |fields| && Ids(fields, holds)[i] == fields[places[i]].id
    decreases |fields|
  {
    if fields == [] {
      places := [];
    } else {
      var front, last := fields[..|fields| - 1], fields[|fields| - 1];
      places := IdsInOrder(front, holds);
      forall i | 0 <= i < |places| ensures places[i] < |front| {
        assert places[i] in places;
      }
      if holds(last) {
        places := places + [|front|];
      }
    }
  }

  /** Mandatory for the category, or conditional there and decided applicable. */
  ghost predicate MustHave(f: Field, category: Category, applicable: set<int>) {
    Always(f, category) || (OnCondition(f, category) && f.id in applicable)
  }

  /** The field's last value; the others do not count. */
  ghost predicate LastValue(values: seq<Input>, id: int, v: Input) {
    exists k :: 0 <= k < |values| && values[k] == v && v.fieldId == id
                && forall j :: k < j < |values| ==> values[j].fieldId != id
  }

  ghost predicate HasContent(values: seq<Input>, id: int) {
    exists v :: LastValue(values, id, v) && v.value != Null && v.value != Str("")
  }

  ghost predicate HasProof(values: seq<Input>, id: int) {
    exists v :: LastValue(values, id, v) && v.value != Null && v.value != Str("") && v.validated && v.evidence > 0
  }

  lemma {:induction false} ValueIsLast(values: seq<Input>, id: int)
    ensures forall v :: ValueOf(values, id) == Some(v) <==> LastValue(values, id, v)
    decreases |values|
  {
    if values != [] {
      var front, last := values[..|values| - 1], values[|values| - 1];
      ValueIsLast(front, id);
      forall v ensures ValueOf(values, id) == Some(v) <==> LastValue(values, id, v) {
        if last.fieldId == id {
          assert values[|front|] == last;
        } else {
          assert LastValue(values, id, v) <==> LastValue(front, id, v) by {
            LastOfFront(front, last, id, v);
            assert front + [last] == values;
          }
        }
      }
    }
  }

  lemma LastOfFront(front: seq<Input>, last: Input, id: int, v: Input)
    requires last.fieldId != id
    ensures LastValue(front + [last], id, v) <==> LastValue(front, id, v)
  {
    var values := front + [last];
    if LastValue(front, id, v) {
      var k :| 0 <= k < |front| && front[k] == v && v.fieldId == id
               && forall j :: k < j < |front| ==> front[j].fieldId != id;
      assert values[k] == v;
    }
    if LastValue(values, id, v) {
      var k :| 0 <= k < |values| && values[k] == v && v.fieldId == id
               && forall j :: k < j < |values| ==> values[j].fieldId != id;
      assert front[k] == v;
      forall j | k < j < |front| ensures front[j].fieldId != id {
        assert values[j] == front[j];
      }
    }
  }

  /** What each of the report's lists and counters is about. */
  lemma ListsMean(category: Category, values: seq<Input>, applicable: set<int>, f: Field)
    ensures var r := match category case EV => f.ev case LMT => f.lmt case Industrial => f.industrial;
            && (Needed(category, applicable)(f) <==> MustHave(f, category, applicable))
            && (Missing(category, values, applicable)(f) <==>
                MustHave(f, category, applicable) && !HasContent(values, f.id))
            && (Unproven(category, values, applicable)(f) <==>
                MustHave(f, category, applicable) && HasContent(values, f.id) && !HasProof(values, f.id))
            && (Deferred(category)(f) <==> r in {DeferredFormatPending, DeferredUntilAugust2027, DeferredArticle8})
            && (Hidden(category)(f) <==> r in {NotDisplayed, NotDisplayedDuplicate})
            && (Undecided(category, applicable)(f) <==> OnCondition(f, category) && f.id !in applicable)
  {
    hide ValueOf, LastValue;
    ValueIsLast(values, f.id);
  }
}
