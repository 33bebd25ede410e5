/** The reviewed decisions on conditional fields: recording a review and assessing a stored one. */
module Applicability {
  import opened Prelude
  import opened Text
  import opened CanonicalJson
  import opened CanonicalOrder
  import opened Catalogue

  datatype Decision = Decision(fieldId: int, applicable: bool, reason: string)

  /** An element of the stored list: an object of the decision's shape, or anything else. */
  datatype Entry = Shaped(d: Decision) | Malformed

  datatype StoredId = IntegerId(id: int) | OtherId

  /** `None` in a field is any other stored value there. */
  datatype Review = Review(
    schemaVersion: int, category: Option<Category>, fingerprint: Option<Digest>, subject: Option<string>,
        at: Option<string>)

  datatype Context = Context(
    decisions: Option<seq<Entry>>, requiredIds: Option<seq<StoredId>>, review: Option<Review>, others: seq<Member>)

  /** `ConditionalDecisionSchema` accepts the decision. */
  predicate Parses(d: Decision) {
    1 <= d.fieldId <= 71 && 10 <= Utf16Length(Trim(d.reason)) <= 1000
  }

  function Parsed(d: Decision): Decision {
    d.(reason := Trim(d.reason))
  }

  /** What the endpoint's own parsing lets through parses again when the stored review is assessed. */
  lemma ParsedParses(d: Decision)
    requires Parses(d)
    ensures Parses(Parsed(d))
  {
    TrimTwice(d.reason);
  }

  function Profile(fields: seq<Field>, category: Category, idText: int -> string,
                   requirementText: Requirement -> string): seq<Json> {
    if fields == [] then []
    else
      var last := fields[|fields| - 1];
      var r := RequirementFor(last, category);
      Profile(fields[..|fields| - 1], category, idText, requirementText) +
      if IsConditional(r) then [Arr([Num(idText(last.id)), Str(requirementText(r))])] else []
  }

  /** The rule catalogue and how its numbers and enumeration values are spelled. */
  datatype Rules = Rules(fields: seq<Field>, idText: int -> string, requirementText: Requirement -> string,
                         dateOk: string -> bool)

  function Fingerprint(rules: Rules, category: Category): Digest {
    Sha256(Write(Arr(Profile(rules.fields, category, rules.idText, rules.requirementText))))
  }

  // ---- sorting integers ----

  function InsertInt(x: int, s: seq<int>): seq<int> {
    if s == [] || x <= s[0] then [x] + s else [s[0]] + InsertInt(x, s[1..])
  }

  function SortInts(s: seq<int>): seq<int> {
    if s == [] then [] else InsertInt(s[0], SortInts(s[1..]))
  }

  lemma {:induction false} InsertIntMembers(x: int, s: seq<int>)
    ensures multiset(InsertInt(x, s)) == multiset(s) + multiset{x}
    decreases |s|
  {
    if s != [] && x > s[0] {
      InsertIntMembers(x, s[1..]);
      assert s == [s[0]] + s[1..];
    }
  }

  lemma {:induction false} SortMembers(s: seq<int>)
    ensures multiset(SortInts(s)) == multiset(s)
    decreases |s|
  {
    if s != [] {
      SortMembers(s[1..]);
      InsertIntMembers(s[0], SortInts(s[1..]));
      assert s == [s[0]] + s[1..];
    }
  }

  /** Equal sorted lists come from lists with the same members. */
  lemma SortedEqualMembers(a: seq<int>, b: seq<int>)
    requires SortInts(a) == SortInts(b)
    ensures forall x :: x in a <==> x in b
  {
    SortMembers(a);
    SortMembers(b);
    forall x ensures x in a <==> x in b {
      assert x in a <==> x in multiset(a);
      assert x in b <==> x in multiset(b);
    }
  }

  // ---- what a complete review is ----

  function ApplicableIds(decisions: seq<Decision>): seq<int> {
    if decisions == [] then []
    else
      var last := decisions[|decisions| - 1];
      ApplicableIds(decisions[..|decisions| - 1]) + if last.applicable then [last.fieldId] else []
  }

  /** The entry counts: it parses and names a conditional field. */
  predicate Counts(e: Entry, conditional: seq<int>) {
    e.Shaped? && Parses(e.d) && e.d.fieldId in conditional
  }

  /** Every entry counts and no field is named twice. */
  predicate AllCount(entries: seq<Entry>, conditional: seq<int>) {
    && (forall i :: 0 <= i < |entries| ==> Counts(entries[i], conditional))
    && (forall i, j :: 0 <= i < j < |entries| ==> entries[i].d.fieldId != entries[j].d.fieldId)
  }

  predicate Covered(entries: seq<Entry>, conditional: seq<int>, id: int) {
    exists i :: 0 <= i < |entries| && Counts(entries[i], conditional) && entries[i].d.fieldId == id
  }

  function DecisionsOf(entries: seq<Entry>): seq<Decision>
    requires forall i :: 0 <= i < |entries| ==> entries[i].Shaped?
  {
    seq(|entries|, i requires 0 <= i < |entries| => Parsed(entries[i].d))
  }

  predicate IntegerList(stored: seq<StoredId>) {
    && (forall i :: 0 <= i < |stored| ==> stored[i].IntegerId?)
    && (forall i, j :: 0 <= i < j < |stored| ==> stored[i] != stored[j])
  }

  function Integers(stored: seq<StoredId>): seq<int>
    requires IntegerList(stored)
  {
    seq(|stored|, i requires 0 <= i < |stored| => stored[i].id)
  }

  predicate Signed(rules: Rules, category: Category, review: Option<Review>) {
    && review.Some?
    && review.value.schemaVersion == 1
    && review.value.category == Some(category)
    && review.value.fingerprint == Some(Fingerprint(rules, category))
    && review.value.subject.Some? && NotBlank(review.value.subject.value)
    && review.value.at.Some? && rules.dateOk(review.value.at.value)
  }

  /** Someone identified decided every conditional field of the current profile once, and the stored ids agree. */
  predicate Complete(rules: Rules, category: Category, context: Context) {
    var conditional := ConditionalIds(rules.fields, category);
    && context.decisions.Some?
    && AllCount(context.decisions.value, conditional)
    && (forall id :: id in conditional ==> Covered(context.decisions.value, conditional, id))
    && context.requiredIds.Some? && IntegerList(context.requiredIds.value)
    && SortInts(Integers(context.requiredIds.value)) == SortInts(ApplicableIds(DecisionsOf(context.decisions.value)))
    && Signed(rules, category, context.review)
  }

  // ---- assessing ----

  datatype Issue = NotReviewed | BadEntry | NotConditional(id: int) | DecidedTwice(id: int) | Undecided(id: int)
      | IdsDiffer | NotSigned

  predicate Kept(entries: seq<Entry>, conditional: seq<int>, decisions: seq<Decision>) {
    && (forall i :: 0 <= i < |decisions| ==> Covered(entries, conditional, decisions[i].fieldId))
    && (forall i :: 0 <= i < |entries| ==> Counts(entries[i], conditional) ==> Decided(decisions, entries[i].d.fieldId))
  }

  predicate Decided(decisions: seq<Decision>, id: int) {
    exists i :: 0 <= i < |decisions| && decisions[i].fieldId == id
  }

  /**
   The loop over the stored entries. A JavaScript Map keeps insertion order, so its values are a
   list without repeated ids.
   */
  method CollectDecisions(entries: seq<Entry>, conditional: seq<int>)
    returns (decisions: seq<Decision>, issues: seq<Issue>)
    ensures issues == [] <==> AllCount(entries, conditional)
    ensures issues == [] ==> decisions == DecisionsOf(entries)
    ensures Kept(entries, conditional, decisions)
  {
    decisions, issues := [], [];
    for n := 0 to |entries|
      invariant issues == [] <==> AllCount(entries[..n], conditional)
      invariant issues == [] ==> decisions == DecisionsOf(entries[..n])
      invariant Kept(entries[..n], conditional, decisions)
    {
      var e := entries[n];
      assert entries[..n + 1] == entries[..n] + [e];
      KeptStep(entries[..n], e, conditional, decisions);
      CountStep(entries[..n], e, conditional, decisions);
      if !e.Shaped? || !Parses(e.d) {
        issues := issues + [BadEntry];
      } else if e.d.fieldId !in conditional {
        issues := issues + [NotConditional(e.d.fieldId)];
      } else if Decided(decisions, e.d.fieldId) {
        issues := issues + [DecidedTwice(e.d.fieldId)];
      } else {
        decisions := decisions + [Parsed(e.d)];
      }
    }
    assert entries[..|entries|] == entries;
  }

  lemma KeptStep(entries: seq<Entry>, e: Entry, conditional: seq<int>, decisions: seq<Decision>)
    requires Kept(entries, conditional, decisions)
    ensures !Counts(e, conditional) || Decided(decisions, e.d.fieldId) ==> Kept(entries + [e], conditional, decisions)
    ensures Counts(e, conditional) ==> Kept(entries + [e], conditional, decisions + [Parsed(e.d)])
  {
    var all := entries + [e];
    forall id | Covered(entries, conditional, id) ensures Covered(all, conditional, id) {
      var i :| 0 <= i < |entries| && Counts(entries[i], conditional) && entries[i].d.fieldId == id;
      assert all[i] == entries[i];
    }
    assert all[|entries|] == e;
    if Counts(e, conditional) {
      var more := decisions + [Parsed(e.d)];
      assert more[|decisions|].fieldId == e.d.fieldId;
      forall id | Decided(decisions, id) ensures Decided(more, id) {
        var i :| 0 <= i < |decisions| && decisions[i].fieldId == id;
        assert more[i] == decisions[i];
      }
    }
  }

  lemma CountStep(entries: seq<Entry>, e: Entry, conditional: seq<int>, decisions: seq<Decision>)
    requires Kept(entries, conditional, decisions)
    ensures AllCount(entries + [e], conditional) <==>
            AllCount(entries, conditional) && Counts(e, conditional) && !Decided(decisions, e.d.fieldId)
  {
    var all := entries + [e];
    assert all[|entries|] == e;
    if AllCount(all, conditional) {
      assert forall i :: 0 <= i < |entries| ==> all[i] == entries[i];
    }
    if AllCount(entries, conditional) && Counts(e, conditional) && !Decided(decisions, e.d.fieldId) {
      forall i | 0 <= i < |entries| ensures entries[i].d.fieldId != e.d.fieldId {
        assert Decided(decisions, entries[i].d.fieldId);
      }
    }
  }

  /** `assessConditionalReview` */
  method AssessConditionalReview(rules: Rules, category: Category, context: Context)
    returns (complete: bool, unresolved: seq<int>, issues: seq<Issue>)
    ensures complete <==> Complete(rules, category, context)
    ensures complete <==> issues == []
    ensures forall id :: id in unresolved <==>
              id in ConditionalIds(rules.fields, category) &&
              (context.decisions.None? || !Covered(context.decisions.value, ConditionalIds(rules.fields, category), id))
  {
    var conditional := ConditionalIds(rules.fields, category);
    var decisions: seq<Decision> := [];
    if context.decisions.None? {
      issues := [NotReviewed];
    } else {
      decisions, issues := CollectDecisions(context.decisions.value, conditional);
    }
    ghost var entriesOk := issues == [];
    unresolved := [];
    for n := 0 to |conditional|
      invariant forall id :: id in unresolved <==> id in conditional[..n] && !Decided(decisions, id)
      invariant issues == [] <==> entriesOk && unresolved == []
    {
      assert conditional[..n + 1] == conditional[..n] + [conditional[n]];
      if !Decided(decisions, conditional[n]) {
        unresolved := unresolved + [conditional[n]];
        issues := issues + [Undecided(conditional[n])];
      }
    }
    assert conditional[..|conditional|] == conditional;
    DecidedIsCovered(context, conditional, decisions);
    var idsMatch := context.requiredIds.Some? && IntegerList(context.requiredIds.value)
                    && SortInts(Integers(context.requiredIds.value)) == SortInts(ApplicableIds(decisions));
    if !idsMatch {
      issues := issues + [IdsDiffer];
    }
    if !Signed(rules, category, context.review) {
      issues := issues + [NotSigned];
    }
    NothingUnresolved(conditional, unresolved, decisions);
    complete := issues == [];
  }

  lemma NothingUnresolved(conditional: seq<int>, unresolved: seq<int>, decisions: seq<Decision>)
    requires forall id :: id in unresolved <==> id in conditional && !Decided(decisions, id)
    ensures unresolved == [] <==> forall id :: id in conditional ==> Decided(decisions, id)
  {
    if unresolved != [] {
      var id := unresolved[0];
      assert id in unresolved;
      assert id in conditional && !Decided(decisions, id);
    } else {
      forall id | id in conditional ensures Decided(decisions, id) {
        assert id !in unresolved;
      }
    }
  }

  lemma DecidedIsCovered(context: Context, conditional: seq<int>, decisions: seq<Decision>)
    requires context.decisions.None? ==> decisions == []
    requires context.decisions.Some? ==> Kept(context.decisions.value, conditional, decisions)
    ensures forall id :: Decided(decisions, id) <==>
            context.decisions.Some? && Covered(context.decisions.value, conditional, id)
  {
    forall id ensures Decided(decisions, id) <==>
        context.decisions.Some? && Covered(context.decisions.value, conditional, id) {
      if Decided(decisions, id) {
        var i :| 0 <= i < |decisions| && decisions[i].fieldId == id;
      }
    }
  }

  // ---- recording ----

  function EntriesFor(decisions: seq<Decision>): seq<Entry> {
    seq(|decisions|, i requires 0 <= i < |decisions| => Shaped(decisions[i]))
  }

  function StoredFor(ids: seq<int>): seq<StoredId> {
    seq(|ids|, i requires 0 <= i < |ids| => IntegerId(ids[i]))
  }

  /** `reviewedApplicabilityContext`: everything else in the context stays. */
  function Reviewed(rules: Rules, category: Category, previous: Context, decisions: seq<Decision>, actor: string,
                    at: string): Context {
    previous.(decisions := Some(EntriesFor(decisions)),
              requiredIds := Some(StoredFor(SortInts(ApplicableIds(decisions)))),
              review := Some(Review(1, Some(category), Some(Fingerprint(rules, category)), Some(actor), Some(at))))
  }

  predicate ListsOnce(decisions: seq<Decision>, conditional: seq<int>) {
    && (forall i :: 0 <= i < |decisions| ==> decisions[i].fieldId in conditional)
    && (forall i, j :: 0 <= i < j < |decisions| ==> decisions[i].fieldId != decisions[j].fieldId)
    && (forall id :: id in conditional ==> Decided(decisions, id))
  }

  lemma {:induction false} SortTwice(s: seq<int>)
    ensures SortInts(SortInts(s)) == SortInts(s)
    decreases |s|
  {
    SortSorts(s);
    SortedIsFixed(SortInts(s));
  }

  predicate Ascending(s: seq<int>) {
    forall i, j :: 0 <= i < j < |s| ==> s[i] <= s[j]
  }

  lemma {:induction false} InsertAscends(x: int, s: seq<int>)
    requires Ascending(s)
    ensures Ascending(InsertInt(x, s))
    decreases |s|
  {
    if s != [] && x > s[0] {
      InsertAscends(x, s[1..]);
      InsertIntMembers(x, s[1..]);
      var tail := InsertInt(x, s[1..]);
      forall i | 0 <= i < |tail| ensures s[0] <= tail[i] {
        assert tail[i] in multiset(tail);
        assert tail[i] == x || tail[i] in s[1..];
      }
      assert InsertInt(x, s) == [s[0]] + tail;
    }
  }

  lemma {:induction false} SortSorts(s: seq<int>)
    ensures Ascending(SortInts(s))
    decreases |s|
  {
    if s != [] {
      SortSorts(s[1..]);
      InsertAscends(s[0], SortInts(s[1..]));
    }
  }

  lemma {:induction false} SortedIsFixed(s: seq<int>)
    requires Ascending(s)
    ensures SortInts(s) == s
    decreases |s|
  {
    if s != [] {
      SortedIsFixed(s[1..]);
    }
  }

  lemma {:induction false} ApplicableAreDecided(decisions: seq<Decision>, id: int)
    ensures id in ApplicableIds(decisions) <==>
            exists i :: 0 <= i < |decisions| && decisions[i].applicable && decisions[i].fieldId == id
    decreases |decisions|
  {
    if decisions != [] {
      var front := decisions[..|decisions| - 1];
      ApplicableAreDecided(front, id);
      assert decisions == front + [decisions[|decisions| - 1]];
      if id in ApplicableIds(front) {
        var i :| 0 <= i < |front| && front[i].applicable && front[i].fieldId == id;
        assert decisions[i] == front[i];
      }
    }
  }

  predicate NoRepeats(s: seq<int>) {
    forall i, j :: 0 <= i < j < |s| ==> s[i] != s[j]
  }

  lemma {:induction false} ApplicableOnce(decisions: seq<Decision>)
    requires forall i, j :: 0 <= i < j < |decisions| ==> decisions[i].fieldId != decisions[j].fieldId
    ensures NoRepeats(ApplicableIds(decisions))
    decreases |decisions|
  {
    if decisions != [] {
      var front := decisions[..|decisions| - 1];
      ApplicableOnce(front);
      ApplicableAreDecided(front, decisions[|decisions| - 1].fieldId);
    }
  }

  lemma {:induction false} InsertOnce(x: int, s: seq<int>)
    requires NoRepeats(s) && x !in s
    ensures NoRepeats(InsertInt(x, s))
    decreases |s|
  {
    if s != [] && x > s[0] {
      InsertOnce(x, s[1..]);
      InsertIntMembers(x, s[1..]);
      assert s[0] !in s[1..];
      assert s[0] !in multiset(InsertInt(x, s[1..]));
    }
  }

  lemma {:induction false} SortOnce(s: seq<int>)
    requires NoRepeats(s)
    ensures NoRepeats(SortInts(s))
    decreases |s|
  {
    if s != [] {
      SortOnce(s[1..]);
      SortMembers(s[1..]);
      assert s[0] !in s[1..];
      assert s[0] !in multiset(SortInts(s[1..]));
      InsertOnce(s[0], SortInts(s[1..]));
    }
  }

  /** The ids written by a review without repeated fields pass the check on stored ids. */
  lemma StoredIdsAgree(decisions: seq<Decision>)
    requires forall i, j :: 0 <= i < j < |decisions| ==> decisions[i].fieldId != decisions[j].fieldId
    ensures var stored := StoredFor(SortInts(ApplicableIds(decisions)));
            IntegerList(stored) && SortInts(Integers(stored)) == SortInts(ApplicableIds(decisions))
  {
    var sorted := SortInts(ApplicableIds(decisions));
    ApplicableOnce(decisions);
    SortOnce(ApplicableIds(decisions));
    SortTwice(ApplicableIds(decisions));
    assert Integers(StoredFor(sorted)) == sorted;
  }

  lemma CoveredIsDecided(decisions: seq<Decision>, conditional: seq<int>, id: int)
    requires forall i :: 0 <= i < |decisions| ==> Parses(decisions[i]) && decisions[i].fieldId in conditional
    ensures Covered(EntriesFor(decisions), conditional, id) <==> Decided(decisions, id)
  {
    var entries := EntriesFor(decisions);
    if Covered(entries, conditional, id) {
      var i :| 0 <= i < |entries| && Counts(entries[i], conditional) && entries[i].d.fieldId == id;
      assert decisions[i].fieldId == id;
    }
    if Decided(decisions, id) {
      var i :| 0 <= i < |decisions| && decisions[i].fieldId == id;
      assert Counts(entries[i], conditional) && entries[i].d.fieldId == id;
    }
  }

  lemma {:induction false} SameApplicable(a: seq<Decision>, b: seq<Decision>)
    requires |a| == |b| && forall i :: 0 <= i < |a| ==>
             a[i].applicable == b[i].applicable && a[i].fieldId == b[i].fieldId
    ensures ApplicableIds(a) == ApplicableIds(b)
    decreases |a|
  {
    if a != [] {
      SameApplicable(a[..|a| - 1], b[..|b| - 1]);
    }
  }

  predicate AllParse(decisions: seq<Decision>) {
    forall i :: 0 <= i < |decisions| ==> Parses(decisions[i])
  }

  lemma FreshEntriesCount(decisions: seq<Decision>, conditional: seq<int>)
    ensures AllCount(EntriesFor(decisions), conditional) <==>
            && AllParse(decisions)
            && (forall i :: 0 <= i < |decisions| ==> decisions[i].fieldId in conditional)
            && (forall i, j :: 0 <= i < j < |decisions| ==> decisions[i].fieldId != decisions[j].fieldId)
  {
    var entries := EntriesFor(decisions);
    if AllCount(entries, conditional) {
      forall i | 0 <= i < |decisions| ensures Parses(decisions[i]) && decisions[i].fieldId in conditional {
        assert Counts(entries[i], conditional);
      }
      forall i, j | 0 <= i < j < |decisions| ensures decisions[i].fieldId != decisions[j].fieldId {
        assert entries[i].d.fieldId != entries[j].d.fieldId;
      }
    }
  }

  lemma FreshIdsAgree(decisions: seq<Decision>, conditional: seq<int>)
    requires AllCount(EntriesFor(decisions), conditional)
    ensures var stored := StoredFor(SortInts(ApplicableIds(decisions)));
            && IntegerList(stored)
            && SortInts(Integers(stored)) == SortInts(ApplicableIds(DecisionsOf(EntriesFor(decisions))))
    ensures forall id :: Covered(EntriesFor(decisions), conditional, id) <==> Decided(decisions, id)
  {
    FreshEntriesCount(decisions, conditional);
    StoredIdsAgree(decisions);
    SameApplicable(DecisionsOf(EntriesFor(decisions)), decisions);
    forall id ensures Covered(EntriesFor(decisions), conditional, id) <==> Decided(decisions, id) {
      CoveredIsDecided(decisions, conditional, id);
    }
  }

  lemma FreshSigned(rules: Rules, category: Category, previous: Context, decisions: seq<Decision>, actor: string,
                    at: string)
    ensures Signed(rules, category, Reviewed(rules, category, previous, decisions, actor, at).review) <==>
            NotBlank(actor) && rules.dateOk(at)
  {
  }

  /**
   Whatever the context held before, a freshly recorded review is complete
   exactly when its decisions parse and list every conditional field once, the
   actor's name is not blank and the date is one.
   */
  lemma FreshReviewComplete(rules: Rules, category: Category, previous: Context, decisions: seq<Decision>,
                            actor: string, at: string)
    ensures Complete(rules, category, Reviewed(rules, category, previous, decisions, actor, at)) <==>
            AllParse(decisions) && ListsOnce(decisions, ConditionalIds(rules.fields, category)) && NotBlank(actor)
                && rules.dateOk(at)
  {
    var conditional, context := ConditionalIds(rules.fields, category),
        Reviewed(rules, category, previous, decisions, actor, at);
    FreshSigned(rules, category, previous, decisions, actor, at);
    FreshEntriesCount(decisions, conditional);
    if AllCount(EntriesFor(decisions), conditional) {
      FreshIdsAgree(decisions, conditional);
      assert Complete(rules, category, context) <==>
             (forall id :: id in conditional ==> Decided(decisions, id)) && Signed(rules, category, context.review);
    }
  }

  /** A stored context assessed complete requires exactly the fields its decisions call applicable. */
  lemma CompleteIdsAreApplicable(rules: Rules, category: Category, context: Context, id: int)
    requires Complete(rules, category, context)
    ensures id in Integers(context.requiredIds.value) <==>
            exists i :: 0 <= i < |context.decisions.value| && context.decisions.value[i].d.applicable
                        && context.decisions.value[i].d.fieldId == id
  {
    var entries := context.decisions.value;
    var decisions := DecisionsOf(entries);
    SortedEqualMembers(Integers(context.requiredIds.value), ApplicableIds(decisions));
    ApplicableAreDecided(decisions, id);
    if i :| 0 <= i < |entries| && entries[i].d.applicable && entries[i].d.fieldId == id {
      assert decisions[i].applicable && decisions[i].fieldId == id;
    }
  }
}
