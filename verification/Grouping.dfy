/** Stable grouping by a text key, and chunking: the two loops that turn a list of records into batches. */
module Grouping {
  import opened Prelude

  const MAX_BATCH := 100

  /** The items whose key is `k`, in their own order. */
  function WithKey<T>(items: seq<T>, key: T -> string, k: string): seq<T> {
    if items == [] then []
    else
      var last := items[|items| - 1];
      WithKey(items[..|items| - 1], key, k) + if key(last) == k then [last] else []
  }

  /** The keys in the order in which they first occur. */
  function FirstSeen<T>(items: seq<T>, key: T -> string): seq<string> {
    if items == [] then []
    else
      var before := FirstSeen(items[..|items| - 1], key);
      var k := key(items[|items| - 1]);
      if k in before then before else before + [k]
  }

  /** What one more item changes: its own group gets it, and a key seen for the first time goes last. */
  lemma OneMoreKey<T>(front: seq<T>, last: T, key: T -> string)
    ensures var k := key(last);
            && FirstSeen(front + [last], key) == FirstSeen(front, key) + (if k in FirstSeen(front, key) then []
                else [k])
            && (forall j :: WithKey(front + [last], key, j) == WithKey(front, key, j) + if j == k then [last] else [])
  {
    assert (front + [last])[..|front|] == front;
  }

  /** The grouping loop: a Map keeps its keys in insertion order. */
  method Group<T>(items: seq<T>, key: T -> string) returns (order: seq<string>, groups: map<string, seq<T>>)
    ensures order == FirstSeen(items, key)
    ensures forall k :: k in groups <==> k in order
    ensures forall k :: k in groups ==> groups[k] == WithKey(items, key, k)
  {
    order, groups := [], map[];
    var n := 0;
    while n < |items|
      invariant n <= |items|
      invariant order == FirstSeen(items[..n], key)
      invariant forall k :: k in groups <==> k in order
      invariant forall k :: k in groups ==> groups[k] == WithKey(items[..n], key, k)
      invariant forall k :: k !in groups ==> WithKey(items[..n], key, k) == []
    {
      var k := key(items[n]);
      assert items[..n + 1] == items[..n] + [items[n]];
      OneMoreKey(items[..n], items[n], key);
      if k !in groups {
        order := order + [k];
        groups := groups[k := []];
      }
      groups := groups[k := groups[k] + [items[n]]];
      n := n + 1;
    }
    assert items[..n] == items;
  }

  // ---- chunking ----

  function Chunks<T>(items: seq<T>, max: nat): seq<seq<T>>
    requires max >= 1
    decreases |items|
  {
    if items == [] then []
    else if |items| <= max then [items]
    else [items[..max]] + Chunks(items[max..], max)
  }

  /** `chunkForRegistry`: the index loop that pushes slices; a batch size outside 1..100 is refused. */
  method ChunkForRegistry<T>(items: seq<T>, max: int) returns (result: Option<seq<seq<T>>>)
    ensures result == if 1 <= max <= 100 then Some(Chunks(items, max)) else None
  {
    if max < 1 || max > 100 {
      return None;
    }
    var chunks: seq<seq<T>> := [];
    var i := 0;
    while i < |items|
      invariant chunks + Chunks(if i < |items| then items[i..] else [], max) == Chunks(items, max)
    {
      var end := if i + max < |items| then i + max else |items|;
      var rest := items[i..];
      if |rest| > max {
        assert items[i..end] == rest[..max] && items[i + max..] == rest[max..];
      } else {
        assert items[i..end] == rest;
      }
      chunks := chunks + [items[i..end]];
      i := i + max;
    }
    assert chunks + [] == chunks;
    result := Some(chunks);
  }

  function Flatten<T>(batches: seq<seq<T>>): seq<T> {
    if batches == [] then [] else batches[0] + Flatten(batches[1..])
  }

  lemma {:induction false} FlattenConcat<T>(a: seq<seq<T>>, b: seq<seq<T>>)
    ensures Flatten(a + b) == Flatten(a) + Flatten(b)
    decreases |a|
  {
    if a == [] {
      assert a + b == b;
    } else {
      assert (a + b)[1..] == a[1..] + b;
      FlattenConcat(a[1..], b);
    }
  }

  lemma {:induction false} FlattenMembers<T>(batches: seq<seq<T>>, batch: seq<T>)
    requires batch in batches
    ensures multiset(batch) <= multiset(Flatten(batches))
    decreases |batches|
  {
    if batch != batches[0] {
      FlattenMembers(batches[1..], batch);
    }
  }

  /** Chunks concatenate to the list, hold 1 to `max` of its items each. */
  lemma {:induction false} ChunksPartition<T>(items: seq<T>, max: nat)
    requires max >= 1
    ensures Flatten(Chunks(items, max)) == items
    ensures forall c :: c in Chunks(items, max) ==> 1 <= |c| <= max
    decreases |items|
  {
    if |items| > max {
      ChunksPartition(items[max..], max);
      assert items == items[..max] + items[max..];
    } else if items != [] {
      assert Flatten([items]) == items + Flatten([]);
    }
  }

  /** The chunk at `k` is the stretch of the list from `k` times the maximum on: only the last may be shorter. */
  lemma {:induction false} ChunkAt<T>(items: seq<T>, max: nat, k: nat)
    requires max >= 1
    ensures k < |Chunks(items, max)| <==> k * max < |items|
    ensures k < |Chunks(items, max)| ==>
              Chunks(items, max)[k] ==
              items[k * max..if k * max + max <= |items| then k * max + max else |items|]
    decreases |items|
  {
    if |items| > max {
      if k > 0 {
        assert k * max == (k - 1) * max + max;
        ChunkAt(items[max..], max, k - 1);
      }
    } else if k > 0 {
      assert k * max == (k - 1) * max + max;
      assert (k - 1) * max >= 0;
    }
  }

  // ---- batches ----

  function BatchesFor<T>(items: seq<T>, key: T -> string, keys: seq<string>): seq<seq<T>>
  {
    if keys == [] then []
    else BatchesFor(items, key, keys[..|keys| - 1]) + Chunks(WithKey(items, key, keys[|keys| - 1]), MAX_BATCH)
  }

  function Batches<T>(items: seq<T>, key: T -> string): seq<seq<T>>
  {
    BatchesFor(items, key, FirstSeen(items, key))
  }

  method BuildBatches<T>(items: seq<T>, key: T -> string) returns (batches: seq<seq<T>>)
    ensures batches == Batches(items, key)
  {
    var order, groups := Group(items, key);
    batches := [];
    var n := 0;
    while n < |order|
      invariant n <= |order|
      invariant batches == BatchesFor(items, key, order[..n])
    {
      var chunks := ChunkForRegistry(groups[order[n]], MAX_BATCH);
      assert order[..n + 1][..n] == order[..n];
      batches := batches + chunks.value;
      n := n + 1;
    }
    assert order[..n] == order;
  }

  /** The items grouped stably: groups in first-seen order, caller order inside. */
  function Grouped<T>(items: seq<T>, key: T -> string, keys: seq<string>): seq<T> {
    if keys == [] then [] else Grouped(items, key, keys[..|keys| - 1]) + WithKey(items, key, keys[|keys| - 1])
  }

  function CeilingSum<T>(items: seq<T>, key: T -> string, keys: seq<string>): nat
  {
    if keys == [] then 0
    else
      var last := keys[|keys| - 1];
      CeilingSum(items, key, keys[..|keys| - 1]) + (|WithKey(items, key, last)| + MAX_BATCH - 1) / MAX_BATCH
  }

  lemma {:induction false} ChunkCount<T>(items: seq<T>)
    ensures |Chunks(items, MAX_BATCH)| == (|items| + 99) / 100
    decreases |items|
  {
    if |items| > MAX_BATCH {
      ChunkCount(items[MAX_BATCH..]);
    }
  }

  lemma {:induction false} WithKeyMembers<T>(items: seq<T>, key: T -> string, k: string, x: T)
    ensures x in WithKey(items, key, k) <==> x in items && key(x) == k
    decreases |items|
  {
    if items != [] {
      var front, last := items[..|items| - 1], items[|items| - 1];
      WithKeyMembers(front, key, k, x);
      assert items == front + [last];
    }
  }

  /** Every batch holds 1 to 100 of the items, all with one key. */
  lemma {:induction false} BatchesAreUniform<T>(items: seq<T>, key: T -> string, keys: seq<string>, batch: seq<T>)
    requires batch in BatchesFor(items, key, keys)
    ensures 1 <= |batch| <= MAX_BATCH
    ensures forall x :: x in batch ==> x in items
    ensures forall x, y :: x in batch && y in batch ==> key(x) == key(y)
    decreases |keys|
  {
    var front, k := keys[..|keys| - 1], keys[|keys| - 1];
    if batch in BatchesFor(items, key, front) {
      BatchesAreUniform(items, key, front, batch);
    } else {
      ChunksPartition(WithKey(items, key, k), MAX_BATCH);
      FlattenMembers(Chunks(WithKey(items, key, k), MAX_BATCH), batch);
      forall x | x in batch ensures x in items && key(x) == k {
        assert x in multiset(batch);
        WithKeyMembers(items, key, k, x);
      }
    }
  }

  /** The batches concatenate to the stable grouping, and their number is the sum of the groups' ceilings. */
  lemma {:induction false} BatchesConcatenate<T>(items: seq<T>, key: T -> string, keys: seq<string>)
    ensures Flatten(BatchesFor(items, key, keys)) == Grouped(items, key, keys)
    ensures |BatchesFor(items, key, keys)| == CeilingSum(items, key, keys)
    decreases |keys|
  {
    if keys != [] {
      var front, k := keys[..|keys| - 1], keys[|keys| - 1];
      BatchesConcatenate(items, key, front);
      ChunksPartition(WithKey(items, key, k), MAX_BATCH);
      ChunkCount(WithKey(items, key, k));
      FlattenConcat(BatchesFor(items, key, front), Chunks(WithKey(items, key, k), MAX_BATCH));
    }
  }

  predicate Distinct(keys: seq<string>) {
    forall i, j :: 0 <= i < j < |keys| ==> keys[i] != keys[j]
  }

  /** One more item lands in the group of its key and nowhere else. */
  lemma {:induction false} GroupedSnoc<T>(front: seq<T>, last: T, key: T -> string, keys: seq<string>)
    requires Distinct(keys)
    ensures multiset(Grouped(front + [last], key, keys)) ==
            multiset(Grouped(front, key, keys)) + if key(last) in keys then multiset{last} else multiset{}
    decreases |keys|
  {
    if keys != [] {
      var before, k := keys[..|keys| - 1], keys[|keys| - 1];
      assert keys == before + [k];
      GroupedSnoc(front, last, key, before);
      assert (front + [last])[..|front|] == front;
    }
  }

  lemma {:induction false} FirstSeenKeys<T>(items: seq<T>, key: T -> string)
    ensures Distinct(FirstSeen(items, key))
    ensures forall x :: x in items ==> key(x) in FirstSeen(items, key)
    decreases |items|
  {
    if items != [] {
      var front, last := items[..|items| - 1], items[|items| - 1];
      FirstSeenKeys(front, key);
      assert items == front + [last];
    }
  }

  /** A key that no item has adds an empty group. */
  lemma {:induction false} NoItems<T>(items: seq<T>, key: T -> string, k: string)
    requires forall x :: x in items ==> key(x) != k
    ensures WithKey(items, key, k) == []
    decreases |items|
  {
    if items != [] {
      var front, last := items[..|items| - 1], items[|items| - 1];
      assert items == front + [last];
      NoItems(front, key, k);
    }
  }

  /** A key seen for the first time opens a group of one. */
  lemma NewGroup<T>(front: seq<T>, last: T, key: T -> string, keys: seq<string>)
    requires Distinct(keys)
    requires key(last) !in keys && forall x :: x in front ==> key(x) != key(last)
    ensures multiset(Grouped(front + [last], key, keys + [key(last)])) == multiset(Grouped(front, key, keys))
            + multiset{last}
  {
    var all := keys + [key(last)];
    GroupedSnoc(front, last, key, all);
    NoItems(front, key, key(last));
    assert all[..|keys|] == keys;
    assert Grouped(front, key, all) == Grouped(front, key, keys) + [];
  }

  lemma OneMore<T>(front: seq<T>, last: T, key: T -> string)
    requires multiset(Grouped(front, key, FirstSeen(front, key))) == multiset(front)
    ensures var all := front + [last];
            multiset(Grouped(all, key, FirstSeen(all, key))) == multiset(all)
  {
    var all, k := front + [last], key(last);
    assert all[..|front|] == front && all[|front|] == last;
    FirstSeenKeys(front, key);
    if k in FirstSeen(front, key) {
      assert FirstSeen(all, key) == FirstSeen(front, key);
      GroupedSnoc(front, last, key, FirstSeen(front, key));
    } else {
      assert FirstSeen(all, key) == FirstSeen(front, key) + [k];
      NewGroup(front, last, key, FirstSeen(front, key));
    }
  }

  /** The grouping is a permutation of the items. */
  lemma {:induction false} GroupedPermutes<T>(items: seq<T>, key: T -> string)
    ensures multiset(Grouped(items, key, FirstSeen(items, key))) == multiset(items)
    decreases |items|
  {
    if items != [] {
      var front, last := items[..|items| - 1], items[|items| - 1];
      assert items == front + [last];
      GroupedPermutes(front, key);
      OneMore(front, last, key);
    }
  }
}
