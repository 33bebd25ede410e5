/** What a complete applicability review is, said of the stored context and the catalogue. */
module ApplicabilityMeaning {
  import opened Prelude
  import opened Text
  import opened CanonicalJson
  import opened CanonicalOrder
  import opened Catalogue
  import opened Applicability

  // ---- texts ----

  ghost predicate AllBlank(s: string) {
    forall i :: 0 <= i < |s| ==> Blank(s[i])
  }

  ghost predicate Padded(s: string, a: string, t: string, b: string) {
    s == a + t + b && AllBlank(a) && AllBlank(b)
  }

  lemma PaddedLonger(s: string, t: string, before: string, after: string)
    requires Surrounded(s, t) && AllBlank(before) && AllBlank(after)
    ensures Surrounded(before + s + after, t)
  {
    var a, b :| Padded(s, a, t, b);
    assert before + s + after == (before + a) + t + (b + after);
    assert Padded(before + s + after, before + a, t, b + after);
  }

  /** The text is `t` with white space around it, if any. */
  ghost predicate Surrounded(s: string, t: string) {
    exists a, b :: Padded(s, a, t, b)
  }

  lemma SurroundedByNothing(s: string)
    ensures Surrounded(s, s)
  {
    assert Padded(s, "", s, "");
  }

  /** Trimming takes white space off both ends and leaves none there. */
  lemma {:induction false} TrimMeans(s: string)
    ensures Surrounded(s, Trim(s))
    ensures Trim(s) != "" ==> !Blank(Trim(s)[0]) && !Blank(Trim(s)[|Trim(s)| - 1])
    decreases |s|
  {
    hide Surrounded, Blank;
    if s != "" && Blank(s[0]) {
      TrimMeans(s[1..]);
      PaddedLonger(s[1..], Trim(s), [s[0]], "");
      assert s == [s[0]] + s[1..] + "";
    } else if s != "" && Blank(s[|s| - 1]) {
      var front, last := s[..|s| - 1], s[|s| - 1];
      TrimMeans(front);
      PaddedLonger(front, Trim(s), "", [last]);
      assert s == "" + front + [last];
    } else {
      SurroundedByNothing(s);
    }
  }

  lemma {:induction false} LengthCountsUnits(s: string)
    ensures Utf16Length(s) == |Utf16(s)|
    decreases |s|
  {
    if s != "" {
      LengthCountsUnits(s[..|s| - 1]);
      UnitsOfLast(s);
    }
  }

  lemma {:induction false} UnitsOfLast(s: string)
    requires s != ""
    ensures |Utf16(s)| == |Utf16(s[..|s| - 1])| + if s[|s| - 1] as int > 0xFFFF then 2 else 1
    decreases |s|
  {
    if |s| > 1 {
      UnitsOfLast(s[1..]);
      assert s[1..][..|s| - 2] == s[..|s| - 1][1..];
    }
  }

  // ---- which fields must be decided ----

  /** The catalogue has a field of this number that is conditional for the category. */
  ghost predicate Asked(fields: seq<Field>, category: Category, id: int) {
    exists f :: f in fields && f.id == id && OnCondition(f, category)
  }

  lemma {:induction false} ConditionalAreAsked(fields: seq<Field>, category: Category, id: int)
    ensures id in ConditionalIds(fields, category) <==> Asked(fields, category, id)
    decreases |fields|
  {
    if fields != [] {
      var front, last := fields[..|fields| - 1], fields[|fields| - 1];
      ConditionalAreAsked(front, category, id);
      assert forall f :: f in fields <==> f in front || f == last;
    }
  }

  // ---- a complete review ----

  /** An identified person decided, with a reason, every field the profile asks for, once, and nothing else. */
  ghost predicate DecidesAll(rules: Rules, category: Category, entries: seq<Entry>) {
    && (forall i :: 0 <= i < |entries| ==>
          && entries[i].Shaped? && 1 <= entries[i].d.fieldId <= 71
          && 10 <= |Utf16(Trim(entries[i].d.reason))| <= 1000
          && Asked(rules.fields, category, entries[i].d.fieldId))
    && (forall i, j :: 0 <= i < j < |entries| ==> entries[i].d.fieldId != entries[j].d.fieldId)
    && (forall id :: Asked(rules.fields, category, id) ==>
          exists i :: 0 <= i < |entries| && entries[i].d.fieldId == id)
  }

  /** The stored ids are the fields decided to be applicable, each once. */
  ghost predicate ListsApplicable(entries: seq<Entry>, stored: seq<StoredId>)
    requires forall i :: 0 <= i < |entries| ==> entries[i].Shaped?
  {
    && (forall i :: 0 <= i < |stored| ==> stored[i].IntegerId?)
    && (forall i, j :: 0 <= i < j < |stored| ==> stored[i] != stored[j])
    && (forall id :: IntegerId(id) in stored <==>
          exists i :: 0 <= i < |entries| && entries[i].d.applicable && entries[i].d.fieldId == id)
  }

  /** The review names the category, the profile as it is now, a person and a date. */
  ghost predicate SignedBy(rules: Rules, category: Category, review: Review) {
    && review.schemaVersion == 1 && review.category == Some(category)
    && review.fingerprint == Some(Fingerprint(rules, category))
    && (exists subject :: review.subject == Some(subject) && !AllBlank(subject))
    && (exists at :: review.at == Some(at) && rules.dateOk(at))
  }

  lemma CompleteMeans(rules: Rules, category: Category, context: Context)
    ensures Complete(rules, category, context) <==>
            && context.decisions.Some? && DecidesAll(rules, category, context.decisions.value)
            && context.requiredIds.Some? && ListsApplicable(context.decisions.value, context.requiredIds.value)
            && context.review.Some? && SignedBy(rules, category, context.review.value)
  {
    hide ListsApplicable, IntegerList, Integers, SortInts, DecisionsOf, ApplicableIds, ConditionalIds, Fingerprint,
        Asked;
    if context.review.Some? {
      SignedMeans(rules, category, context.review.value);
    }
    if context.decisions.Some? {
      var entries := context.decisions.value;
      CountsMeansDecides(rules, category, entries);
      if DecidesAll(rules, category, entries) && context.requiredIds.Some? {
        IdsMeanApplicable(entries, context.requiredIds.value);
      }
    }
  }

  lemma SignedMeans(rules: Rules, category: Category, review: Review)
    ensures Signed(rules, category, Some(review)) <==> SignedBy(rules, category, review)
  {
    hide Fingerprint;
    if review.subject.Some? {
      assert NotBlank(review.subject.value) <==> !AllBlank(review.subject.value);
    }
  }

  lemma CountsMeansDecides(rules: Rules, category: Category, entries: seq<Entry>)
    ensures var conditional := ConditionalIds(rules.fields, category);
            AllCount(entries, conditional)
            && (forall id :: id in conditional ==> Covered(entries, conditional, id)) <==>
            DecidesAll(rules, category, entries)
  {
    hide ConditionalIds, Asked, Trim, Utf16, Utf16Length;
    var conditional := ConditionalIds(rules.fields, category);
    forall id ensures id in conditional <==> Asked(rules.fields, category, id) {
      ConditionalAreAsked(rules.fields, category, id);
    }
    forall i | 0 <= i < |entries| && entries[i].Shaped?
      ensures Utf16Length(Trim(entries[i].d.reason)) == |Utf16(Trim(entries[i].d.reason))|
    {
      LengthCountsUnits(Trim(entries[i].d.reason));
    }
  }

  lemma IdsMeanApplicable(entries: seq<Entry>, stored: seq<StoredId>)
    requires forall i :: 0 <= i < |entries| ==> entries[i].Shaped?
    requires forall i, j :: 0 <= i < j < |entries| ==> entries[i].d.fieldId != entries[j].d.fieldId
    ensures IntegerList(stored) && SortInts(Integers(stored)) == SortInts(ApplicableIds(DecisionsOf(entries))) <==>
            ListsApplicable(entries, stored)
  {
    hide SortInts, ApplicableIds;
    var decisions := DecisionsOf(entries);
    var applicable := ApplicableIds(decisions);
    ApplicableOnce(decisions);
    forall id ensures id in applicable <==>
        exists i :: 0 <= i < |entries| && entries[i].d.applicable && entries[i].d.fieldId == id
    {
      ApplicableAreDecided(decisions, id);
      if i :| 0 <= i < |entries| && entries[i].d.applicable && entries[i].d.fieldId == id {
        assert decisions[i].applicable && decisions[i].fieldId == id;
      }
    }
    if IntegerList(stored) {
      var ids := Integers(stored);
      forall id ensures id in ids <==> IntegerId(id) in stored {
        if IntegerId(id) in stored {
          var k :| 0 <= k < |stored| && stored[k] == IntegerId(id);
          assert ids[k] == id;
        }
      }
      if SortInts(ids) == SortInts(applicable) {
        SortedEqualMembers(ids, applicable);
      }
      if forall id :: id in ids <==> id in applicable {
        SameSetSameSort(ids, applicable);
      }
    }
  }

  lemma SameSetSameSort(a: seq<int>, b: seq<int>)
    requires NoRepeats(a) && NoRepeats(b) && forall x :: x in a <==> x in b
    ensures SortInts(a) == SortInts(b)
  {
    forall s, x | s in {a, b} ensures multiset(s)[x] == if x in s then 1 else 0 {
      OnceEach(s, x);
    }
    assert multiset(a) == multiset(b);
    SortSorts(a);
    SortSorts(b);
    SortMembers(a);
    SortMembers(b);
    AscendingIsUnique(SortInts(a), SortInts(b));
  }

  lemma {:induction false} OnceEach(s: seq<int>, x: int)
    requires NoRepeats(s)
    ensures multiset(s)[x] == if x in s then 1 else 0
    decreases |s|
  {
    if s != [] {
      OnceEach(s[1..], x);
      assert s == [s[0]] + s[1..];
      assert s[0] !in s[1..];
    }
  }

  lemma {:induction false} AscendingIsUnique(a: seq<int>, b: seq<int>)
    requires Ascending(a) && Ascending(b) && multiset(a) == multiset(b)
    ensures a == b
    decreases |a|
  {
    if a != [] {
      LeastFirst(a, b);
      LeastFirst(b, a);
      assert a == [a[0]] + a[1..] && b == [b[0]] + b[1..];
      assert multiset(a[1..]) == multiset(a) - multiset{a[0]} == multiset(b) - multiset{b[0]} == multiset(b[1..]);
      AscendingIsUnique(a[1..], b[1..]);
    } else {
      assert |multiset(b)| == 0;
    }
  }

  lemma LeastFirst(a: seq<int>, b: seq<int>)
    requires Ascending(a) && a != [] && multiset(a) == multiset(b)
    ensures b != [] && a[0] <= b[0]
  {
    assert a[0] in multiset(b);
    assert b[0] in multiset(a);
  }

  // ---- the profile ----

  /** The same fields in the same order, each with the same requirement: what a review was signed for. */
  ghost predicate SameProfile(rules: Rules, category: Category, other: Rules, otherCategory: Category) {
    Profile(rules.fields, category, rules.idText, rules.requirementText) ==
    Profile(other.fields, otherCategory, other.idText, other.requirementText)
  }

  /** Fingerprints differ as soon as the profiles do. */
  lemma FingerprintTellsProfiles(rules: Rules, category: Category, other: Rules, otherCategory: Category)
    requires forall id :: IsNumber(rules.idText(id)) && IsNumber(other.idText(id))
    ensures Fingerprint(rules, category) == Fingerprint(other, otherCategory) <==>
            SameProfile(rules, category, other, otherCategory)
  {
    var a := Arr(Profile(rules.fields, category, rules.idText, rules.requirementText));
    var b := Arr(Profile(other.fields, otherCategory, other.idText, other.requirementText));
    ProfileIsWellFormed(rules.fields, category, rules.idText, rules.requirementText);
    ProfileIsWellFormed(other.fields, otherCategory, other.idText, other.requirementText);
    if Write(a) == Write(b) {
      WriteInjective(a, b);
    }
  }

  lemma {:induction false} ProfileIsWellFormed(fields: seq<Field>, category: Category, idText: int -> string,
                                               requirementText: Requirement -> string)
    requires forall id :: IsNumber(idText(id))
    ensures forall j :: j in Profile(fields, category, idText, requirementText) ==> WellFormed(j)
    decreases |fields|
  {
    hide IsNumber;
    if fields != [] {
      ProfileIsWellFormed(fields[..|fields| - 1], category, idText, requirementText);
    }
  }

  /** A profile lists each field the catalogue asks for, with its requirement. */
  lemma {:induction false} ProfileLists(fields: seq<Field>, category: Category, idText: int -> string,
                                        requirementText: Requirement -> string, f: Field)
    requires f in fields
    ensures var r := match category case EV => f.ev case LMT => f.lmt case Industrial => f.industrial;
            OnCondition(f, category) ==>
            Arr([Num(idText(f.id)), Str(requirementText(r))]) in Profile(fields, category, idText, requirementText)
    decreases |fields|
  {
    var front, last := fields[..|fields| - 1], fields[|fields| - 1];
    assert fields == front + [last];
    if f != last {
      ProfileLists(front, category, idText, requirementText, f);
    }
  }

  // ---- recording ----

  /** A recorded review holds the decisions as given, the applicable ids, and who signed which profile when. */
  lemma ReviewedMeans(rules: Rules, category: Category, previous: Context, decisions: seq<Decision>, actor: string,
                      at: string)
    ensures var next := Reviewed(rules, category, previous, decisions, actor, at);
            && next.others == previous.others
            && (exists entries: seq<Entry> :: next.decisions == Some(entries) && |entries| == |decisions|
                                  && forall i :: 0 <= i < |entries| ==> entries[i] == Shaped(decisions[i]))
            && (exists stored: seq<StoredId> :: next.requiredIds == Some(stored)
                                 && (forall k :: 0 <= k < |stored| ==> stored[k].IntegerId?)
                                 && (forall k, l :: 0 <= k < l < |stored| ==> stored[k].id <= stored[l].id)
                                 && forall id :: IntegerId(id) in stored <==>
                                      exists i :: 0 <= i < |decisions| && decisions[i].applicable
                                                  && decisions[i].fieldId == id)
            && next.review == Some(Review(1, Some(category), Some(Fingerprint(rules, category)), Some(actor), Some(at)))
  {
    hide SortInts, ApplicableIds, Fingerprint;
    var sorted := SortInts(ApplicableIds(decisions));
    SortSorts(ApplicableIds(decisions));
    SortMembers(ApplicableIds(decisions));
    var stored := StoredFor(sorted);
    forall id ensures IntegerId(id) in stored <==>
        exists i :: 0 <= i < |decisions| && decisions[i].applicable && decisions[i].fieldId == id
    {
      ApplicableAreDecided(decisions, id);
      assert id in ApplicableIds(decisions) <==> id in multiset(sorted);
      if id in sorted {
        var k :| 0 <= k < |sorted| && sorted[k] == id;
        assert stored[k] == IntegerId(id);
      }
    }
    var entries := EntriesFor(decisions);
    assert |entries| == |decisions| && forall i :: 0 <= i < |entries| ==> entries[i] == Shaped(decisions[i]);
  }
}
