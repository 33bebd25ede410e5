/**
 Canonical JSON text: every object's members in key order.

 Two values have the same canonical text exactly when they agree up to the
 order of object members, whatever order the database or `JSON.parse` returns
 them in.
 */
module CanonicalOrder {
  import opened CanonicalJson

  // ---- key order ----

  /**
   UTF-16 code unit order on scalar values: the surrogates of a supplementary
   character lie below U+E000..U+FFFF.
   */
  function Rank(c: char): (r: nat)
  {
    if 0xE000 <= c as int <= 0xFFFF then c as int + 0x110000 else c as int
  }

  /** `Array.prototype.sort` without a comparator: shorter prefix first, else the first different code unit. */
  predicate KeyBefore(a: string, b: string) {
    if b == "" then false
    else if a == "" then true
    else if a[0] != b[0] then Rank(a[0]) < Rank(b[0])
    else KeyBefore(a[1..], b[1..])
  }

  lemma {:induction false} KeyTotal(a: string, b: string)
    ensures a != b ==> KeyBefore(a, b) || KeyBefore(b, a)
    ensures !(KeyBefore(a, b) && KeyBefore(b, a))
    decreases |a|
  {
    if a != "" && b != "" && a[0] == b[0] {
      KeyTotal(a[1..], b[1..]);
      assert a == [a[0]] + a[1..] && b == [b[0]] + b[1..];
    }
  }

  lemma {:induction false} KeyTransitive(a: string, b: string, c: string)
    requires KeyBefore(a, b) && KeyBefore(b, c)
    ensures KeyBefore(a, c)
    decreases |a|
  {
    if a != "" && a[0] == b[0] == c[0] {
      KeyTransitive(a[1..], b[1..], c[1..]);
    }
  }

  // ---- canonicalize ----

  function Insert(m: Member, members: seq<Member>): seq<Member> {
    if members == [] || !KeyBefore(members[0].key, m.key) then [m] + members
    else [members[0]] + Insert(m, members[1..])
  }

  /** Every object's members in key order. */
  function Sorted(v: Json): Json
    decreases v
  {
    match v
    case Arr(elems) => Arr(SortedElems(elems))
    case Obj(members) => Obj(SortedMembers(members))
    case _ => v
  }

  function SortedElems(elems: seq<Json>): seq<Json>
    decreases elems
  {
    if elems == [] then [] else [Sorted(elems[0])] + SortedElems(elems[1..])
  }

  function SortedMembers(members: seq<Member>): seq<Member>
    decreases members
  {
    if members == [] then []
    else Insert(Member(members[0].key, Sorted(members[0].value)), SortedMembers(members[1..]))
  }

  function Canonicalize(v: Json): string {
    Write(Sorted(v))
  }

  // ---- equality up to key order ----

  /** The value an object-order-blind reader sees. */
  datatype Value =
    | VNull
    | VBool(b: bool)
    | VNum(token: string)
    | VStr(s: string)
    | VArr(elems: seq<Value>)
    | VObj(fields: map<string, Value>)

  function Meaning(v: Json): Value
    decreases v
  {
    match v
    case Null => VNull
    case Bool(b) => VBool(b)
    case Num(token) => VNum(token)
    case Str(s) => VStr(s)
    case Arr(elems) => VArr(ElemsMeaning(elems))
    case Obj(members) => VObj(MembersMeaning(members))
  }

  function ElemsMeaning(elems: seq<Json>): seq<Value>
    decreases elems
  {
    if elems == [] then [] else [Meaning(elems[0])] + ElemsMeaning(elems[1..])
  }

  function MembersMeaning(members: seq<Member>): map<string, Value>
    decreases members
  {
    if members == [] then map[] else MembersMeaning(members[1..])[members[0].key := Meaning(members[0].value)]
  }

  function KeysOf(members: seq<Member>): set<string> {
    set m | m in members :: m.key
  }

  ghost predicate KeySorted(members: seq<Member>) {
    forall i, j :: 0 <= i < j < |members| ==> KeyBefore(members[i].key, members[j].key)
  }

  lemma {:induction false} InsertHas(m: Member, members: seq<Member>, x: Member)
    ensures x in Insert(m, members) <==> x == m || x in members
    decreases |members|
  {
    if members != [] && KeyBefore(members[0].key, m.key) {
      InsertHas(m, members[1..], x);
      assert members == [members[0]] + members[1..];
    }
  }

  /** Inserting a new key keeps the strict order. */
  lemma {:induction false} InsertSorts(m: Member, members: seq<Member>)
    requires KeySorted(members) && m.key !in KeysOf(members)
    ensures KeySorted(Insert(m, members))
    decreases |members|
  {
    if members != [] {
      var tail := members[1..];
      assert members[0] in members && members == [members[0]] + tail;
      KeyTotal(members[0].key, m.key);
      if KeyBefore(members[0].key, m.key) {
        InsertSorts(m, tail);
        var after := Insert(m, tail);
        forall k | 0 <= k < |after| ensures KeyBefore(members[0].key, after[k].key) {
          InsertHas(m, tail, after[k]);
        }
      } else {
        forall k | 0 <= k < |members| ensures KeyBefore(m.key, members[k].key) {
          if k > 0 {
            KeyTransitive(m.key, members[0].key, members[k].key);
          }
        }
      }
    }
  }

  lemma {:induction false} InsertMeaning(m: Member, members: seq<Member>)
    requires m.key !in KeysOf(members)
    ensures MembersMeaning(Insert(m, members)) == MembersMeaning(members)[m.key := Meaning(m.value)]
    decreases |members|
  {
    if members != [] && KeyBefore(members[0].key, m.key) {
      var tail := members[1..];
      assert members[0] in members && members == [members[0]] + tail;
      InsertMeaning(m, tail);
      var after := Insert(m, members);
      assert after[1..] == Insert(m, tail);
    } else {
      assert ([m] + members)[1..] == members;
    }
  }

  /** Sorting keeps the keys and the meaning, and leaves well-formed, strictly ordered objects. */
  lemma {:induction false} SortedKeepsMeaning(v: Json)
    requires WellFormed(v)
    ensures WellFormed(Sorted(v)) && Meaning(Sorted(v)) == Meaning(v)
    decreases v, 1
  {
    match v
    case Arr(elems) => SortedElemsKeep(elems);
    case Obj(members) =>
      SortedMembersKeep(members);
      forall i, j | 0 <= i < j < |SortedMembers(members)|
        ensures SortedMembers(members)[i].key != SortedMembers(members)[j].key
      {
        KeyTotal(SortedMembers(members)[i].key, SortedMembers(members)[j].key);
      }
    case _ =>
  }

  lemma {:induction false} SortedElemsKeep(elems: seq<Json>)
    requires forall i :: 0 <= i < |elems| ==> WellFormed(elems[i])
    ensures |SortedElems(elems)| == |elems|
    ensures forall i :: 0 <= i < |elems| ==>
            SortedElems(elems)[i] == Sorted(elems[i]) && WellFormed(SortedElems(elems)[i])
    ensures ElemsMeaning(SortedElems(elems)) == ElemsMeaning(elems)
    decreases elems, 0
  {
    if elems != [] {
      SortedKeepsMeaning(elems[0]);
      SortedElemsKeep(elems[1..]);
    }
  }

  /** What sorting keeps of an object's members. */
  ghost predicate Kept(members: seq<Member>, after: seq<Member>) {
    && KeySorted(after)
    && (forall m :: m in after ==> WellFormed(m.value))
    && (forall m :: m in members ==> Member(m.key, Sorted(m.value)) in after)
    && KeysOf(after) == KeysOf(members)
    && MembersMeaning(after) == MembersMeaning(members)
  }

  lemma InsertHasAll(m: Member, members: seq<Member>)
    ensures forall x :: x in Insert(m, members) <==> x == m || x in members
    ensures KeysOf(Insert(m, members)) == KeysOf(members) + {m.key}
  {
    forall x ensures x in Insert(m, members) <==> x == m || x in members {
      InsertHas(m, members, x);
    }
  }

  lemma InsertKeeps(members: seq<Member>, head: Member, rest: seq<Member>)
    requires members != [] && Kept(members[1..], rest)
    requires head == Member(members[0].key, Sorted(members[0].value)) && head.key !in KeysOf(members[1..])
    requires WellFormed(head.value) && Meaning(head.value) == Meaning(members[0].value)
    ensures Kept(members, Insert(head, rest))
  {
    InsertSorts(head, rest);
    InsertMeaning(head, rest);
    InsertHasAll(head, rest);
    assert forall m :: m in members <==> m == members[0] || m in members[1..] by {
      assert members == [members[0]] + members[1..];
    }
    assert KeysOf(members) == KeysOf(members[1..]) + {head.key};
  }

  lemma {:induction false} SortedMembersKeep(members: seq<Member>)
    requires DistinctKeys(members)
    requires forall i :: 0 <= i < |members| ==> WellFormed(members[i].value)
    ensures Kept(members, SortedMembers(members))
    decreases members, 0
  {
    if members != [] {
      SortedKeepsMeaning(members[0].value);
      SortedMembersKeep(members[1..]);
      InsertKeeps(members, Member(members[0].key, Sorted(members[0].value)), SortedMembers(members[1..]));
    }
  }

  lemma {:induction false} MeaningKeys(members: seq<Member>)
    ensures MembersMeaning(members).Keys == KeysOf(members)
    decreases |members|
  {
    if members != [] {
      MeaningKeys(members[1..]);
      assert members == [members[0]] + members[1..];
    }
  }

  /** A key finds its member's meaning. */
  lemma {:induction false} MeaningAt(members: seq<Member>, m: Member)
    requires DistinctKeys(members) && m in members
    ensures m.key in MembersMeaning(members) && MembersMeaning(members)[m.key] == Meaning(m.value)
    decreases |members|
  {
    if m != members[0] {
      MeaningAt(members[1..], m);
      assert exists i :: 1 <= i < |members| && members[i] == m;
    }
  }

  /** In a strictly ordered list the head comes before every other member and occurs once. */
  lemma HeadFirst(a: seq<Member>, m: Member)
    requires a != [] && KeySorted(a)
    ensures m in a[1..] <==> m in a && m != a[0]
    ensures m in a ==> m == a[0] || KeyBefore(a[0].key, m.key)
  {
    assert a == [a[0]] + a[1..];
    if m in a[1..] {
      var i :| 1 <= i < |a| && a[i] == m;
      KeyTotal(a[0].key, a[i].key);
    }
  }

  lemma HasFirst(a: seq<Member>)
    ensures a != [] ==> exists m :: m in a
  {
    if a != [] {
      assert a[0] in a;
    }
  }

  /** Two strictly ordered member lists with the same members are the same list. */
  lemma {:induction false} OrderedListsEqual(a: seq<Member>, b: seq<Member>)
    requires KeySorted(a) && KeySorted(b)
    requires forall m :: m in a <==> m in b
    ensures a == b
    decreases |a|
  {
    HasFirst(a);
    HasFirst(b);
    if a != [] && b != [] {
      HeadFirst(a, b[0]);
      HeadFirst(b, a[0]);
      KeyTotal(a[0].key, b[0].key);
      forall m ensures m in a[1..] <==> m in b[1..] {
        HeadFirst(a, m);
        HeadFirst(b, m);
      }
      OrderedListsEqual(a[1..], b[1..]);
    }
  }

  /** Values with one meaning have one sorted form. */
  lemma {:induction false} SameMeaningSameSorted(v: Json, w: Json)
    requires WellFormed(v) && WellFormed(w) && Meaning(v) == Meaning(w)
    ensures Sorted(v) == Sorted(w)
    decreases v, 1
  {
    match v
    case Arr(elems) => SameElems(elems, w.elems);
    case Obj(members) => SameMembers(members, w.members);
    case _ =>
  }

  lemma {:induction false} SameElems(a: seq<Json>, b: seq<Json>)
    requires forall i :: 0 <= i < |a| ==> WellFormed(a[i])
    requires forall i :: 0 <= i < |b| ==> WellFormed(b[i])
    requires ElemsMeaning(a) == ElemsMeaning(b)
    ensures SortedElems(a) == SortedElems(b)
    decreases a, 0
  {
    if a != [] {
      assert ElemsMeaning(a)[0] == Meaning(a[0]) && ElemsMeaning(b)[0] == Meaning(b[0]);
      assert ElemsMeaning(a)[1..] == ElemsMeaning(a[1..]) && ElemsMeaning(b)[1..] == ElemsMeaning(b[1..]);
      SameMeaningSameSorted(a[0], b[0]);
      SameElems(a[1..], b[1..]);
    }
  }

  lemma {:induction false} SameMembers(a: seq<Member>, b: seq<Member>)
    requires DistinctKeys(a) && DistinctKeys(b)
    requires forall i :: 0 <= i < |a| ==> WellFormed(a[i].value)
    requires forall i :: 0 <= i < |b| ==> WellFormed(b[i].value)
    requires MembersMeaning(a) == MembersMeaning(b)
    ensures SortedMembers(a) == SortedMembers(b)
    decreases a, 0
  {
    SortedMembersKeep(a);
    SortedMembersKeep(b);
    MeaningKeys(a);
    MeaningKeys(b);
    forall x | x in a ensures Member(x.key, Sorted(x.value)) in SortedMembers(b) {
      MeaningAt(a, x);
      assert x.key in KeysOf(b);
      var y :| y in b && y.key == x.key;
      MeaningAt(b, y);
      SameMeaningSameSorted(x.value, y.value);
    }
    SubsetByKey(SortedMembers(a), SortedMembers(b), a);
    OrderedListsEqual(SortedMembers(a), SortedMembers(b));
  }

  /**
   If every member of `raw`, sorted, occurs in both ordered lists and they have `raw`'s keys, the
   lists have the same members.
   */
  lemma SubsetByKey(a: seq<Member>, b: seq<Member>, raw: seq<Member>)
    requires KeySorted(a) && KeySorted(b) && KeysOf(a) == KeysOf(raw) && KeysOf(b) == KeysOf(raw)
    requires forall x :: x in raw ==> Member(x.key, Sorted(x.value)) in a && Member(x.key, Sorted(x.value)) in b
    ensures forall m :: m in a <==> m in b
  {
    forall m ensures m in a ==> m in b {
      if m in a {
        ByKey(a, b, raw, m);
      }
    }
    forall m ensures m in b ==> m in a {
      if m in b {
        ByKey(b, a, raw, m);
      }
    }
  }

  lemma ByKey(a: seq<Member>, b: seq<Member>, raw: seq<Member>, m: Member)
    requires KeySorted(a) && KeysOf(a) == KeysOf(raw) && m in a
    requires forall x :: x in raw ==> Member(x.key, Sorted(x.value)) in a && Member(x.key, Sorted(x.value)) in b
    ensures m in b
  {
    assert m.key in KeysOf(a);
    var x :| x in raw && x.key == m.key;
    var n := Member(x.key, Sorted(x.value));
    var i :| 0 <= i < |a| && a[i] == m;
    var j :| 0 <= j < |a| && a[j] == n;
    KeyTotal(m.key, n.key);
    assert i == j;
  }

  /**
   Two values have the same canonical text exactly when they are equal up to the
   order of object members.
   */
  lemma CanonicalIffSame(v: Json, w: Json)
    requires WellFormed(v) && WellFormed(w)
    ensures Canonicalize(v) == Canonicalize(w) <==> Meaning(v) == Meaning(w)
  {
    SortedKeepsMeaning(v);
    SortedKeepsMeaning(w);
    if Canonicalize(v) == Canonicalize(w) {
      WriteInjective(Sorted(v), Sorted(w));
    }
    if Meaning(v) == Meaning(w) {
      SameMeaningSameSorted(v, w);
    }
  }

  /**
   The canonical text reads back to the same value up to member order, and canonicalising that
   gives the same text.
   */
  lemma CanonicalReadsBack(v: Json)
    requires WellFormed(v)
    ensures Parse(Canonicalize(v)).Some?
    ensures var back := Parse(Canonicalize(v)).value;
            WellFormed(back) && Meaning(back) == Meaning(v) && Canonicalize(back) == Canonicalize(v)
  {
    SortedKeepsMeaning(v);
    ParseInvertsWrite(Sorted(v));
    CanonicalIffSame(Sorted(v), v);
  }

  // ---- the order is that of UTF-16 code units ----

  /** The UTF-16 encoding of a text, as section 3.9 of the Unicode Standard defines it. */
  function Utf16(s: string): seq<nat> {
    if s == "" then []
    else
      var p := s[0] as nat;
      (if p < 0x10000 then [p] else [0xD800 + (p - 0x10000) / 0x400, 0xDC00 + (p - 0x10000) % 0x400]) + Utf16(s[1..])
  }

  /** The first list comes first: it is a proper beginning of the other, or smaller where they first differ. */
  ghost predicate UnitsBefore(a: seq<nat>, b: seq<nat>) {
    exists n :: 0 <= n <= |a| && n < |b| && a[..n] == b[..n] && (n == |a| || a[n] < b[n])
  }

  lemma UnitsAfterPrefix(p: seq<nat>, a: seq<nat>, b: seq<nat>)
    requires UnitsBefore(a, b)
    ensures UnitsBefore(p + a, p + b)
  {
    var n :| 0 <= n <= |a| && n < |b| && a[..n] == b[..n] && (n == |a| || a[n] < b[n]);
    assert (p + a)[..|p| + n] == p + a[..n] && (p + b)[..|p| + n] == p + b[..n];
    assert 0 <= |p| + n <= |p + a| && |p| + n < |p + b|;
  }

  /**
   Different scalar values differ in their first code unit as their ranks do, or share it and
   differ in the second.
   */
  lemma FirstUnits(c: char, d: char, a: string, b: string)
    requires c != d && Rank(c) < Rank(d)
    ensures UnitsBefore(Utf16([c] + a), Utf16([d] + b))
  {
    var u, v := Utf16([c] + a), Utf16([d] + b);
    assert ([c] + a)[1..] == a && ([d] + b)[1..] == b;
    if u[0] < v[0] {
      assert u[..0] == v[..0];
    } else {
      assert c as int >= 0x10000 && d as int >= 0x10000;
      assert u[0] == v[0] && u[1] < v[1];
      assert u[..1] == v[..1];
    }
  }

  /** The key order is the order of the encodings. */
  lemma {:induction false} KeyBeforeIsUtf16(a: string, b: string)
    requires KeyBefore(a, b)
    ensures UnitsBefore(Utf16(a), Utf16(b))
    decreases |a|
  {
    if a == "" {
      assert Utf16(a)[..0] == Utf16(b)[..0];
    } else if a[0] == b[0] {
      KeyBeforeIsUtf16(a[1..], b[1..]);
      var p := a[0] as nat;
      UnitsAfterPrefix(if p < 0x10000 then [p] else [0xD800 + (p - 0x10000) / 0x400, 0xDC00 + (p - 0x10000) % 0x400],
                       Utf16(a[1..]), Utf16(b[1..]));
    } else {
      FirstUnits(a[0], b[0], a[1..], b[1..]);
      assert a == [a[0]] + a[1..] && b == [b[0]] + b[1..];
    }
  }

  /** At every depth, the keys of every object ascend by UTF-16 code units. */
  ghost predicate KeysAscend(v: Json)
    decreases v
  {
    match v
    case Arr(elems) => forall i :: 0 <= i < |elems| ==> KeysAscend(elems[i])
    case Obj(members) =>
      && (forall i :: 0 <= i < |members| - 1 ==> UnitsBefore(Utf16(members[i].key), Utf16(members[i + 1].key)))
      && (forall i :: 0 <= i < |members| ==> KeysAscend(members[i].value))
    case _ => true
  }

  /** The canonical text is written of a value whose keys ascend at every depth, and which says the same. */
  lemma {:induction false} CanonicalAscends(v: Json)
    requires WellFormed(v)
    ensures KeysAscend(Sorted(v)) && Meaning(Sorted(v)) == Meaning(v) && Canonicalize(v) == Write(Sorted(v))
    decreases v, 1
  {
    SortedKeepsMeaning(v);
    match v
    case Arr(elems) => ElemsAscend(elems);
    case Obj(members) =>
      SortedMembersKeep(members);
      MembersAscend(members);
      var sorted := SortedMembers(members);
      forall i | 0 <= i < |sorted| - 1 ensures UnitsBefore(Utf16(sorted[i].key), Utf16(sorted[i + 1].key)) {
        KeyBeforeIsUtf16(sorted[i].key, sorted[i + 1].key);
      }
    case _ =>
  }

  lemma {:induction false} ElemsAscend(elems: seq<Json>)
    requires forall i :: 0 <= i < |elems| ==> WellFormed(elems[i])
    ensures forall i :: 0 <= i < |SortedElems(elems)| ==> KeysAscend(SortedElems(elems)[i])
    decreases elems, 0
  {
    if elems != [] {
      CanonicalAscends(elems[0]);
      ElemsAscend(elems[1..]);
    }
  }

  lemma {:induction false} MembersAscend(members: seq<Member>)
    requires forall i :: 0 <= i < |members| ==> WellFormed(members[i].value)
    ensures forall i :: 0 <= i < |SortedMembers(members)| ==> KeysAscend(SortedMembers(members)[i].value)
    decreases members, 0
  {
    if members != [] {
      CanonicalAscends(members[0].value);
      MembersAscend(members[1..]);
      var n := Member(members[0].key, Sorted(members[0].value));
      var rest, all := SortedMembers(members[1..]), SortedMembers(members);
      forall i | 0 <= i < |all| ensures KeysAscend(all[i].value) {
        InsertHas(n, rest, all[i]);
        assert all[i] in all;
      }
    }
  }

  /** SHA-256, taken to be injective. */
  datatype Digest = Sha256(preimage: string)

  function HashJson(v: Json): Digest {
    Sha256(Canonicalize(v))
  }
}
