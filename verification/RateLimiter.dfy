/** The API's in-process rate limiter: a map of counting windows with periodic clean-up and a capacity guard. */
module RateLimiter {
  import opened Prelude

  const WINDOW_MS := 60000
  const CAPACITY := 30000

  datatype Key = Api(address: string) | Sensitive(address: string)

  datatype Bucket = Bucket(count: nat, expires: int)

  type Buckets = map<Key, Bucket>

  /** Configured limits, both at least one. */
  datatype Limits = Limits(api: nat, sensitive: nat)

  function LimitOf(limits: Limits, key: Key): nat {
    match key
    case Api(_) => limits.api
    case Sensitive(_) => limits.sensitive
  }

  datatype Verdict = Admitted | OverLimit | Full

  // ---- one request ----

  function Cleaned(buckets: Buckets, now: int): Buckets {
    map k | k in buckets && buckets[k].expires > now :: buckets[k]
  }

  /** The bucket that counts a request for `key`, or `None` at capacity. */
  function Counting(buckets: Buckets, key: Key, now: int): Option<Bucket> {
    if key in buckets && buckets[key].expires > now then Some(buckets[key])
    else if key !in buckets && |buckets| >= CAPACITY then None
    else Some(Bucket(0, now + WINDOW_MS))
  }

  function Counted(buckets: Buckets, key: Key, now: int): Buckets {
    var b := Counting(buckets, key, now);
    if b.None? then buckets else buckets[key := b.value.(count := b.value.count + 1)]
  }

  function VerdictFor(buckets: Buckets, limits: Limits, key: Key, now: int): Verdict {
    var b := Counting(buckets, key, now);
    if b.None? then Full else if b.value.count + 1 > LimitOf(limits, key) then OverLimit else Admitted
  }

  function KeysOf(address: string, sensitive: bool): seq<Key> {
    if sensitive then [Api(address), Sensitive(address)] else [Api(address)]
  }

  datatype Answer = Answer(buckets: Buckets, verdict: Verdict)

  /** The keys in order; the first refusal ends the request. */
  function CountAll(buckets: Buckets, limits: Limits, keys: seq<Key>, now: int): Answer
    decreases |keys|
  {
    if keys == [] then Answer(buckets, Admitted)
    else
      var verdict := VerdictFor(buckets, limits, keys[0], now);
      if verdict != Admitted then Answer(Counted(buckets, keys[0], now), verdict)
      else CountAll(Counted(buckets, keys[0], now), limits, keys[1..], now)
  }

  // ---- what a request is promised ----

  /** The buckets left when those whose minute is over are dropped, if it is time to. */
  ghost predicate SweptOnTime(before: Buckets, after: Buckets, due: bool, now: int) {
    && (forall k :: k in after <==> k in before && (due ==> now < before[k].expires))
    && (forall k :: k in after ==> after[k] == before[k])
  }

  /**
   Counting one request under a key: it joins the key's open minute or begins one, and passes if the
   minute holds no more than `limit`. Only a new key in a full map is refused uncounted.
   */
  ghost predicate CountsUnder(before: Buckets, after: Buckets, key: Key, limit: nat, now: int, verdict: Verdict) {
    var open := key in before && now < before[key].expires;
    if key !in before && |before| >= 30000 then verdict == Full && after == before
    else
      && (forall k :: k in after <==> k in before || k == key)
      && (forall k :: k in before && k != key ==> after[k] == before[k])
      && after[key].count == (if open then before[key].count + 1 else 1)
      && after[key].expires == (if open then before[key].expires else now + 60000)
      && verdict == if after[key].count <= limit then Admitted else OverLimit
  }

  /** A request counts under its address, and a sensitive one that passes there under its own key as well. */
  ghost predicate Served(before: Buckets, after: Buckets, limits: Limits, address: string, sensitive: bool, now: int,
                         verdict: Verdict) {
    exists middle, first :: CountsUnder(before, middle, Api(address), limits.api, now, first)
                            && if sensitive && first == Admitted
                               then CountsUnder(middle, after, Sensitive(address), limits.sensitive, now, verdict)
                               else after == middle && verdict == first
  }

  lemma CountedMeans(buckets: Buckets, limits: Limits, key: Key, now: int)
    ensures CountsUnder(buckets, Counted(buckets, key, now), key,
                        match key case Api(_) => limits.api case Sensitive(_) => limits.sensitive, now,
                        VerdictFor(buckets, limits, key, now))
  {
  }

  lemma CountAllMeans(buckets: Buckets, limits: Limits, address: string, sensitive: bool, now: int)
    ensures var answer := CountAll(buckets, limits, KeysOf(address, sensitive), now);
            Served(buckets, answer.buckets, limits, address, sensitive, now, answer.verdict)
  {
    hide Counted, VerdictFor, CountsUnder;
    var keys := KeysOf(address, sensitive);
    var middle, first := Counted(buckets, keys[0], now), VerdictFor(buckets, limits, keys[0], now);
    CountedMeans(buckets, limits, keys[0], now);
    CountedMeans(middle, limits, Sensitive(address), now);
    if sensitive && first == Admitted {
      assert keys[1..][0] == Sensitive(address) && keys[1..][1..] == [];
      assert CountAll(middle, limits, keys[1..], now) ==
             Answer(Counted(middle, Sensitive(address), now), VerdictFor(middle, limits, Sensitive(address), now));
    } else if first == Admitted {
      assert keys[1..] == [];
    }
  }

  class Limiter {
    const limits: Limits
    var buckets: Buckets
    var nextCleanup: int

    constructor (limits: Limits)
      ensures this.limits == limits && buckets == map[] && nextCleanup == 0
    {
      this.limits := limits;
      buckets, nextCleanup := map[], 0;
    }

    /** The middleware: clean up once a minute, then count the request under each of its keys. */
    method Handle(now: int, address: string, sensitive: bool) returns (verdict: Verdict)
      modifies this
      ensures var swept := if now >= old(nextCleanup) then Cleaned(old(buckets), now) else old(buckets);
              Answer(buckets, verdict) == CountAll(swept, limits, KeysOf(address, sensitive), now)
      ensures nextCleanup == if now >= old(nextCleanup) then now + 60000 else old(nextCleanup)
      ensures exists swept :: SweptOnTime(old(buckets), swept, now >= old(nextCleanup), now)
                              && Served(swept, buckets, limits, address, sensitive, now, verdict)
    {
      ghost var swept := if now >= nextCleanup then Cleaned(buckets, now) else buckets;
      CountAllMeans(swept, limits, address, sensitive, now);
      assert SweptOnTime(old(buckets), swept, now >= old(nextCleanup), now);
      if now >= nextCleanup {
        Sweep(now);
        nextCleanup := now + WINDOW_MS;
      }
      verdict := CountUnder(KeysOf(address, sensitive), now);
    }

    method CountUnder(keys: seq<Key>, now: int) returns (verdict: Verdict)
      modifies this`buckets
      ensures Answer(buckets, verdict) == CountAll(old(buckets), limits, keys, now)
    {
      var n := 0;
      while n < |keys|
        invariant n <= |keys|
        invariant CountAll(old(buckets), limits, keys, now) == CountAll(buckets, limits, keys[n..], now)
      {
        assert keys[n..][0] == keys[n] && keys[n..][1..] == keys[n + 1..];
        verdict := CountOne(keys[n], now);
        if verdict != Admitted {
          return;
        }
        n := n + 1;
      }
      verdict := Admitted;
    }

    method CountOne(key: Key, now: int) returns (verdict: Verdict)
      modifies this`buckets
      ensures buckets == Counted(old(buckets), key, now) && verdict == VerdictFor(old(buckets), limits, key, now)
    {
      if key !in buckets || buckets[key].expires <= now {
        if key !in buckets && |buckets| >= CAPACITY {
          return Full;
        }
        buckets := buckets[key := Bucket(0, now + WINDOW_MS)];
      }
      buckets := buckets[key := buckets[key].(count := buckets[key].count + 1)];
      verdict := if buckets[key].count > LimitOf(limits, key) then OverLimit else Admitted;
    }

    method Sweep(now: int)
      modifies this`buckets
      ensures buckets == Cleaned(old(buckets), now)
    {
      var todo := buckets.Keys;
      while todo != {}
        invariant todo <= old(buckets).Keys
        invariant buckets == map k | k in old(buckets)
                  && (k in todo || old(buckets)[k].expires > now) :: old(buckets)[k]
        decreases todo
      {
        var k :| k in todo;
        if k in buckets && buckets[k].expires <= now {
          buckets := buckets - {k};
        }
        todo := todo - {k};
      }
    }
  }

  // ---- runs ----

  datatype Request = Request(at: int, address: string, sensitive: bool)

  /** A request counted within the limit under `key`, in the window that began at `start`. */
  datatype Pass = Pass(key: Key, at: int, start: int)

  /** The limiter with a log of passes and whether the capacity guard ever fired. */
  datatype State = State(buckets: Buckets, nextCleanup: int, now: int, log: seq<Pass>, full: bool)

  function CountKey(s: State, limits: Limits, key: Key): State {
    var verdict := VerdictFor(s.buckets, limits, key, s.now);
    s.(buckets := Counted(s.buckets, key, s.now), full := s.full || verdict == Full,
       log := if verdict != Admitted then s.log
              else s.log + [Pass(key, s.now, Counting(s.buckets, key, s.now).value.expires - WINDOW_MS)])
  }

  function CountKeys(s: State, limits: Limits, keys: seq<Key>): State
    decreases |keys|
  {
    if keys == [] then s
    else if VerdictFor(s.buckets, limits, keys[0], s.now) != Admitted then CountKey(s, limits, keys[0])
    else CountKeys(CountKey(s, limits, keys[0]), limits, keys[1..])
  }

  function Swept(s: State, at: int): State {
    s.(now := at, buckets := if at >= s.nextCleanup then Cleaned(s.buckets, at) else s.buckets,
       nextCleanup := if at >= s.nextCleanup then at + WINDOW_MS else s.nextCleanup)
  }

  function Handled(s: State, limits: Limits, r: Request): State {
    CountKeys(Swept(s, r.at), limits, KeysOf(r.address, r.sensitive))
  }

  lemma {:induction false} CountKeysIsCountAll(s: State, limits: Limits, keys: seq<Key>)
    ensures var t, answer := CountKeys(s, limits, keys), CountAll(s.buckets, limits, keys, s.now);
            t.buckets == answer.buckets && (answer.verdict == Full ==> t.full) && t.now == s.now
                && t.nextCleanup == s.nextCleanup
    decreases |keys|
  {
    if keys != [] && VerdictFor(s.buckets, limits, keys[0], s.now) == Admitted {
      CountKeysIsCountAll(CountKey(s, limits, keys[0]), limits, keys[1..]);
    }
  }

  /** A limiter object at the state of a run, handling the next request, ends at the run's next state. */
  method HandleStep(limiter: Limiter, requests: seq<Request>, n: nat) returns (verdict: Verdict)
    requires n < |requests|
    requires limiter.buckets == After(limiter.limits, requests, n).buckets
    requires limiter.nextCleanup == After(limiter.limits, requests, n).nextCleanup
    modifies limiter
    ensures var t := After(limiter.limits, requests, n + 1);
            limiter.buckets == t.buckets && limiter.nextCleanup == t.nextCleanup && (verdict == Full ==> t.full)
  {
    var r := requests[n];
    ghost var s := Swept(After(limiter.limits, requests, n), r.at);
    CountKeysIsCountAll(s, limiter.limits, KeysOf(r.address, r.sensitive));
    verdict := limiter.Handle(r.at, r.address, r.sensitive);
  }

  lemma OnePass(s: State, limits: Limits, key: Key)
    requires VerdictFor(s.buckets, limits, key, s.now) == Admitted
    ensures var t := CountKey(s, limits, key);
            && t.now == s.now && t.buckets == Counted(s.buckets, key, s.now) && |t.log| == |s.log| + 1
            && t.log[..|s.log|] == s.log && t.log[|s.log|].key == key && t.log[|s.log|].at == s.now
  {
  }

  /** An admitted request passes, once, under each of its keys: counting passes counts admissions. */
  lemma {:induction false} AdmittedPasses(s: State, limits: Limits, keys: seq<Key>)
    requires CountAll(s.buckets, limits, keys, s.now).verdict == Admitted
    ensures var t := CountKeys(s, limits, keys);
            && |t.log| == |s.log| + |keys| && t.log[..|s.log|] == s.log
            && forall i :: 0 <= i < |keys| ==> t.log[|s.log| + i].key == keys[i] && t.log[|s.log| + i].at == s.now
    decreases |keys|
  {
    hide CountKey, Counted, VerdictFor;
    if keys != [] {
      var after := CountKey(s, limits, keys[0]);
      OnePass(s, limits, keys[0]);
      AdmittedPasses(after, limits, keys[1..]);
      var t := CountKeys(s, limits, keys);
      assert t == CountKeys(after, limits, keys[1..]);
      assert t.log[..|s.log|] == t.log[..|after.log|][..|s.log|];
      forall i | 0 <= i < |keys| ensures t.log[|s.log| + i].key == keys[i] && t.log[|s.log| + i].at == s.now {
        if i == 0 {
          assert t.log[|s.log|] == t.log[..|after.log|][|s.log|];
        } else {
          assert t.log[|after.log| + (i - 1)].key == keys[1..][i - 1];
        }
      }
    }
  }

  predicate InOrder(requests: seq<Request>) {
    forall i, j :: 0 <= i < j < |requests| ==> requests[i].at <= requests[j].at
  }

  function Begin(at: int): State {
    State(map[], 0, at, [], false)
  }

  /** The state after the first `n` requests. */
  function After(limits: Limits, requests: seq<Request>, n: nat): State
    requires n <= |requests|
  {
    if n == 0 then Begin(if requests == [] then 0 else requests[0].at)
        else Handled(After(limits, requests, n - 1), limits, requests[n - 1])
  }

  // ---- the window invariant ----

  function InWindow(log: seq<Pass>, key: Key, start: int): set<int> {
    set i | 0 <= i < |log| && log[i].key == key && log[i].start == start
  }

  function InInterval(log: seq<Pass>, key: Key, from: int): set<int> {
    set i | 0 <= i < |log| && log[i].key == key && from <= log[i].at < from + WINDOW_MS
  }

  predicate PassesOk(log: seq<Pass>, now: int) {
    forall i :: 0 <= i < |log| ==> log[i].start <= log[i].at < log[i].start + WINDOW_MS && log[i].at <= now
  }

  predicate Apart(a: int, b: int) { a == b || a + WINDOW_MS <= b || b + WINDOW_MS <= a }

  predicate WindowsApart(log: seq<Pass>) {
    forall i, j :: 0 <= i < |log| && 0 <= j < |log| && log[i].key == log[j].key ==> Apart(log[i].start, log[j].start)
  }

  /** A live bucket's window is the key's latest; without one every earlier window is over. */
  predicate BucketsOk(s: State) {
    && (forall k :: k in s.buckets ==> s.buckets[k].expires <= s.now + WINDOW_MS)
    && (forall i :: 0 <= i < |s.log| ==>
          var p := s.log[i];
          if p.key in s.buckets
          then p.start + WINDOW_MS == s.buckets[p.key].expires
              || p.start + WINDOW_MS <= s.buckets[p.key].expires - WINDOW_MS
          else p.start + WINDOW_MS <= s.now)
  }

  ghost predicate CountsOk(s: State, limits: Limits) {
    && (forall k: Key, start: int :: |InWindow(s.log, k, start)| <= LimitOf(limits, k))
    && (forall k: Key :: BucketCounts(s, k))
  }

  /** The request that opened a window passed at its very start. */
  predicate Opens(log: seq<Pass>, key: Key, start: int) {
    Pass(key, start, start) in log
  }

  predicate OpenedOk(s: State) {
    && (forall i :: 0 <= i < |s.log| ==> Opens(s.log, s.log[i].key, s.log[i].start))
    && (forall k :: k in s.buckets ==> Opens(s.log, k, s.buckets[k].expires - WINDOW_MS))
  }

  ghost predicate Inv(s: State, limits: Limits) {
    PassesOk(s.log, s.now) && WindowsApart(s.log) && BucketsOk(s) && CountsOk(s, limits) && |s.buckets| <= CAPACITY
  }

  /** `boundedInteger` admits no limit below one. */
  predicate Positive(limits: Limits) { limits.api >= 1 && limits.sensitive >= 1 }

  lemma SweptKeeps(s: State, limits: Limits, at: int)
    requires Inv(s, limits) && OpenedOk(s) && s.now <= at
    ensures Inv(Swept(s, at), limits) && OpenedOk(Swept(s, at))
  {
    SweptKeepsSize(s, at);
    SweptKeepsOpened(s, at);
    SweptKeepsCounts(s, limits, at);
    SweptKeepsBuckets(s, limits, at);
    hide CountsOk, BucketsOk, WindowsApart, OpenedOk;
  }

  lemma SweptKeepsSize(s: State, at: int)
    ensures |Swept(s, at).buckets| <= |s.buckets|
  {
    var t := Swept(s, at);
    SubsetSize(t.buckets.Keys, s.buckets.Keys);
    assert |t.buckets| == |t.buckets.Keys| && |s.buckets| == |s.buckets.Keys|;
  }

  lemma SweptKeepsOpened(s: State, at: int)
    requires OpenedOk(s)
    ensures OpenedOk(Swept(s, at))
  {
    hide Opens;
  }

  lemma SweptKeepsBuckets(s: State, limits: Limits, at: int)
    requires BucketsOk(s) && s.now <= at
    ensures BucketsOk(Swept(s, at))
  {
  }

  lemma SweptKeepsCounts(s: State, limits: Limits, at: int)
    requires CountsOk(s, limits)
    ensures CountsOk(Swept(s, at), limits)
  {
    hide InWindow;
    forall k: Key ensures BucketCounts(Swept(s, at), k) {
      assert BucketCounts(s, k);
    }
  }

  lemma WindowGrows(log: seq<Pass>, p: Pass, key: Key, start: int)
    ensures InWindow(log + [p], key, start) == InWindow(log, key, start) + if p.key == key && p.start == start
            then {|log|} else {}
  {
  }

  /**
   A request is counted in the key's live window, or in a new one that starts after all the key's
   passes were over.
   */
  lemma CountingFacts(s: State, limits: Limits, key: Key)
    requires Inv(s, limits) && Counting(s.buckets, key, s.now).Some?
    ensures var b := Counting(s.buckets, key, s.now).value;
            var start := b.expires - WINDOW_MS;
            && start <= s.now < b.expires
            && (forall i :: 0 <= i < |s.log| && s.log[i].key == key ==>
                  s.log[i].start == start || s.log[i].start + WINDOW_MS <= start)
            && |InWindow(s.log, key, start)| <= b.count
  {
    assert BucketCounts(s, key);
    if !(key in s.buckets && s.buckets[key].expires > s.now) {
      assert InWindow(s.log, key, s.now) == {};
    }
    hide CountsOk, WindowsApart;
  }

  lemma CountKeyKeepsLog(s: State, limits: Limits, key: Key)
    requires Inv(s, limits) && Counting(s.buckets, key, s.now).Some?
    ensures var t := CountKey(s, limits, key); PassesOk(t.log, t.now) && WindowsApart(t.log)
  {
    CountingFacts(s, limits, key);
    hide Counting, Counted, CountsOk;
  }

  lemma CountKeyKeepsBuckets(s: State, limits: Limits, key: Key)
    requires Inv(s, limits) && Counting(s.buckets, key, s.now).Some?
    ensures BucketsOk(CountKey(s, limits, key))
  {
    CountingFacts(s, limits, key);
    hide Counting, CountsOk, WindowsApart, PassesOk;
  }

  lemma CountKeyKeepsSize(s: State, limits: Limits, key: Key)
    requires |s.buckets| <= CAPACITY && Counting(s.buckets, key, s.now).Some?
    ensures |CountKey(s, limits, key).buckets| <= CAPACITY
  {
    var t := CountKey(s, limits, key);
    if key in s.buckets {
      assert t.buckets.Keys == s.buckets.Keys;
    } else {
      assert t.buckets.Keys == s.buckets.Keys + {key};
    }
    assert |t.buckets| == |t.buckets.Keys| && |s.buckets| == |s.buckets.Keys|;
  }

  predicate BucketCounts(s: State, k: Key) {
    k in s.buckets ==> |InWindow(s.log, k, s.buckets[k].expires - WINDOW_MS)| <= s.buckets[k].count
  }

  lemma CountKeyKeepsCounts(s: State, limits: Limits, key: Key)
    requires Inv(s, limits) && Counting(s.buckets, key, s.now).Some?
    ensures CountsOk(CountKey(s, limits, key), limits)
  {
    hide WindowsApart, PassesOk, BucketsOk, BucketCounts, InWindow, LimitOf;
    var t := CountKey(s, limits, key);
    forall k: Key, from: int ensures |InWindow(t.log, k, from)| <= LimitOf(limits, k) {
      LogGrowth(s, limits, key, k, from);
    }
    forall k ensures BucketCounts(t, k) {
      BucketStaysCounted(s, limits, key, k);
    }
  }

  lemma BucketStaysCounted(s: State, limits: Limits, key: Key, k: Key)
    requires Inv(s, limits) && Counting(s.buckets, key, s.now).Some?
    ensures BucketCounts(CountKey(s, limits, key), k)
  {
    var t := CountKey(s, limits, key);
    if k in t.buckets {
      assert BucketCounts(s, k);
      LogGrowth(s, limits, key, k, t.buckets[k].expires - WINDOW_MS);
      hide InWindow, LimitOf, WindowsApart, PassesOk, BucketsOk, CountsOk;
    }
  }

  /** A pass adds one to its own window, which had room, and to no other. */
  lemma LogGrowth(s: State, limits: Limits, key: Key, k: Key, from: int)
    requires Inv(s, limits) && Counting(s.buckets, key, s.now).Some?
    ensures var t, b := CountKey(s, limits, key), Counting(s.buckets, key, s.now).value;
            && |InWindow(t.log, k, from)| <= |InWindow(s.log, k, from)| + 1
            && (k != key || from != b.expires - WINDOW_MS ==> |InWindow(t.log, k, from)| == |InWindow(s.log, k, from)|)
            && (k == key && from == b.expires - WINDOW_MS ==> |InWindow(t.log, k, from)| <= b.count + 1)
            && |InWindow(t.log, k, from)| <= LimitOf(limits, k)
  {
    CountingFacts(s, limits, key);
    hide WindowsApart, PassesOk, BucketsOk;
    var t := CountKey(s, limits, key);
    assert |InWindow(s.log, k, from)| <= LimitOf(limits, k);
    if t.log != s.log {
      WindowGrows(s.log, t.log[|s.log|], k, from);
    }
  }

  lemma CountKeyKeeps(s: State, limits: Limits, key: Key)
    requires Inv(s, limits)
    ensures Inv(CountKey(s, limits, key), limits)
  {
    if Counting(s.buckets, key, s.now).Some? {
      CountKeyKeepsLog(s, limits, key);
      CountKeyKeepsBuckets(s, limits, key);
      CountKeyKeepsSize(s, limits, key);
      CountKeyKeepsCounts(s, limits, key);
    } else {
      forall k: Key ensures BucketCounts(CountKey(s, limits, key), k) {
        assert BucketCounts(s, k);
      }
    }
  }

  lemma OpensStays(log: seq<Pass>, p: Pass, key: Key, start: int)
    ensures Opens(log, key, start) ==> Opens(log + [p], key, start)
    ensures p == Pass(key, start, start) ==> Opens(log + [p], key, start)
  {
  }

  /** A limit of at least one lets the request that opens a window pass. */
  lemma CountKeyKeepsOpened(s: State, limits: Limits, key: Key)
    requires OpenedOk(s) && Positive(limits)
    ensures OpenedOk(CountKey(s, limits, key))
  {
    var t := CountKey(s, limits, key);
    if Counting(s.buckets, key, s.now).Some? {
      var start := Counting(s.buckets, key, s.now).value.expires - WINDOW_MS;
      forall i | 0 <= i < |t.log| ensures Opens(t.log, t.log[i].key, t.log[i].start) {
        if i < |s.log| {
          OpensStays(s.log, Pass(key, s.now, start), s.log[i].key, s.log[i].start);
        } else {
          WindowOpened(s, limits, key, key);
        }
      }
      forall k | k in t.buckets ensures Opens(t.log, k, t.buckets[k].expires - WINDOW_MS) {
        WindowOpened(s, limits, key, k);
      }
    }
  }

  lemma WindowOpened(s: State, limits: Limits, key: Key, k: Key)
    requires OpenedOk(s) && Positive(limits) && Counting(s.buckets, key, s.now).Some?
    ensures var t := CountKey(s, limits, key);
            k in t.buckets ==> Opens(t.log, k, t.buckets[k].expires - WINDOW_MS)
  {
    var t, start := CountKey(s, limits, key), Counting(s.buckets, key, s.now).value.expires - WINDOW_MS;
    if k in t.buckets {
      assert k in s.buckets ==> Opens(s.log, k, s.buckets[k].expires - WINDOW_MS);
      OpensStays(s.log, Pass(key, s.now, start), k, t.buckets[k].expires - WINDOW_MS);
      hide OpenedOk, Opens;
    }
  }

  lemma {:induction false} CountKeysKeep(s: State, limits: Limits, keys: seq<Key>)
    requires Inv(s, limits) && OpenedOk(s) && Positive(limits)
    ensures var t := CountKeys(s, limits, keys); Inv(t, limits) && OpenedOk(t) && t.now == s.now
    decreases |keys|
  {
    hide Inv, OpenedOk;
    if keys != [] {
      CountKeyKeeps(s, limits, keys[0]);
      CountKeyKeepsOpened(s, limits, keys[0]);
      if VerdictFor(s.buckets, limits, keys[0], s.now) == Admitted {
        CountKeysKeep(CountKey(s, limits, keys[0]), limits, keys[1..]);
      }
    }
  }

  lemma {:induction false} RunInv(limits: Limits, requests: seq<Request>, n: nat)
    requires n <= |requests| && InOrder(requests) && Positive(limits)
    ensures Inv(After(limits, requests, n), limits) && OpenedOk(After(limits, requests, n))
    ensures n > 0 ==> After(limits, requests, n).now == requests[n - 1].at
  {
    if n > 0 {
      RunInv(limits, requests, n - 1);
      var s := After(limits, requests, n - 1);
      SweptKeeps(s, limits, requests[n - 1].at);
      CountKeysKeep(Swept(s, requests[n - 1].at), limits, KeysOf(requests[n - 1].address, requests[n - 1].sensitive));
    } else {
      assert forall k: Key, start: int :: InWindow([], k, start) == {};
    }
  }

  /** An interval of one window's length meets at most two of a key's windows. */
  lemma TwoWindows(log: seq<Pass>, now: int, key: Key, from: int, a: int, b: int, c: int)
    requires PassesOk(log, now) && WindowsApart(log)
    requires a in InInterval(log, key, from) && b in InInterval(log, key, from) && c in InInterval(log, key, from)
    ensures log[a].start == log[b].start || log[b].start == log[c].start || log[a].start == log[c].start
  {
    assert Apart(log[a].start, log[b].start) && Apart(log[b].start, log[c].start) && Apart(log[a].start, log[c].start);
  }

  lemma UnionSize(a: set<int>, b: set<int>, m: nat, n: nat)
    requires |a| <= m && |b| <= n
    ensures |a + b| <= m + n
  {
    assert |a + b| == |a| + |b - a|;
    SubsetSize(b - a, b);
  }

  /** If the interval reaches into a later window, the pass that opened the earlier one came before the interval. */
  lemma OpeningIsOutside(s: State, limits: Limits, key: Key, from: int, a: int, b: int) returns (o: int)
    requires Inv(s, limits) && OpenedOk(s)
    requires a in InInterval(s.log, key, from) && b in InInterval(s.log, key, from) && s.log[a].start < s.log[b].start
    ensures o in InWindow(s.log, key, s.log[a].start) && o !in InInterval(s.log, key, from)
  {
    assert Opens(s.log, s.log[a].key, s.log[a].start);
    o :| 0 <= o < |s.log| && s.log[o] == Pass(key, s.log[a].start, s.log[a].start);
    assert Apart(s.log[a].start, s.log[b].start);
  }

  lemma TwoWindowsBound(s: State, limits: Limits, key: Key, from: int, a: int, b: int)
    requires Inv(s, limits) && OpenedOk(s)
    requires a in InInterval(s.log, key, from) && b in InInterval(s.log, key, from) && s.log[a].start < s.log[b].start
    ensures |InInterval(s.log, key, from)| <= 2 * LimitOf(limits, key) - 1
  {
    var all := InInterval(s.log, key, from);
    var o := OpeningIsOutside(s, limits, key, from, a, b);
    var first, second := InWindow(s.log, key, s.log[a].start), InWindow(s.log, key, s.log[b].start);
    forall c | c in all ensures c in first - {o} + second {
      TwoWindows(s.log, s.now, key, from, a, b, c);
    }
    UnionSize(first - {o}, second, LimitOf(limits, key) - 1, LimitOf(limits, key));
    SubsetSize(all, first - {o} + second);
  }

  lemma IntervalBound(s: State, limits: Limits, key: Key, from: int)
    requires Inv(s, limits) && OpenedOk(s) && Positive(limits)
    ensures |InInterval(s.log, key, from)| <= 2 * LimitOf(limits, key) - 1
  {
    var all := InInterval(s.log, key, from);
    if a, b :| a in all && b in all && s.log[a].start < s.log[b].start {
      TwoWindowsBound(s, limits, key, from, a, b);
    } else if a :| a in all {
      var window := InWindow(s.log, key, s.log[a].start);
      forall c | c in all ensures c in window {
      }
      SubsetSize(all, window);
    }
  }

  /**
   With a clock that never goes back, no half-open interval of a minute lets twice
   the limit pass under a key: at most one less. There are never more than 30000 buckets.
   */
  lemma LessThanTwiceTheLimit(limits: Limits, requests: seq<Request>, n: nat, key: Key, from: int)
    requires n <= |requests| && InOrder(requests) && Positive(limits)
    ensures |InInterval(After(limits, requests, n).log, key, from)| <= 2 * LimitOf(limits, key) - 1
    ensures |After(limits, requests, n).buckets| <= CAPACITY
  {
    RunInv(limits, requests, n);
    IntervalBound(After(limits, requests, n), limits, key, from);
  }

  lemma LiveStep(limits: Limits, s: State, key: Key, c: nat, e: int, at: int)
    requires key.Api? && s.buckets == map[key := Bucket(c, e)] && at < e && at < s.nextCleanup && c + 1 <= limits.api
    ensures Handled(s, limits, Request(at, key.address, false)) ==
            State(map[key := Bucket(c + 1, e)], s.nextCleanup, at, s.log + [Pass(key, at, e - WINDOW_MS)], s.full)
  {
    assert KeysOf(key.address, false) == [key] && [key][1..] == [];
    var t := CountKey(Swept(s, at), limits, key);
    assert t.buckets == map[key := Bucket(c + 1, e)];
    assert CountKeys(t, limits, []) == t;
  }

  lemma FreshStep(limits: Limits, s: State, key: Key, at: int)
    requires key.Api? && Cleaned(s.buckets, at) == map[] && at >= s.nextCleanup && 1 <= limits.api
    ensures Handled(s, limits, Request(at, key.address, false)) ==
            State(map[key := Bucket(1, at + WINDOW_MS)], at + WINDOW_MS, at, s.log + [Pass(key, at, at)], s.full)
  {
    assert KeysOf(key.address, false) == [key] && [key][1..] == [];
    var t := CountKey(Swept(s, at), limits, key);
    assert t.buckets == map[key := Bucket(1, at + WINDOW_MS)];
    assert CountKeys(t, limits, []) == t;
  }

  /** One request at the start of a window, the rest of the limit at its end, and a whole limit right after. */
  function Burst(limit: nat, address: string): seq<Request>
    requires limit >= 1
  {
    [Request(0, address, false)] + seq(limit - 1, _ => Request(59999, address, false))
    + seq(limit, _ => Request(60000, address, false))
  }

  function Passes(n: nat, p: Pass): seq<Pass> {
    seq(n, _ => p)
  }

  lemma BurstAt(limit: nat, address: string, i: nat)
    requires limit >= 1 && i < 2 * limit
    ensures |Burst(limit, address)| == 2 * limit
    ensures Burst(limit, address)[i] == Request(if i == 0 then 0 else if i < limit then 59999
                                                else 60000, address, false)
  {
  }

  lemma {:induction false} FirstHalf(limits: Limits, address: string, k: nat)
    requires k < limits.api
    ensures |Burst(limits.api, address)| == 2 * limits.api
    ensures After(limits, Burst(limits.api, address), 1 + k) ==
            State(map[Api(address) := Bucket(1 + k, 60000)], 60000, if k == 0 then 0 else 59999,
                  [Pass(Api(address), 0, 0)] + Passes(k, Pass(Api(address), 59999, 0)), false)
  {
    hide Burst, Handled;
    var key, requests := Api(address), Burst(limits.api, address);
    BurstAt(limits.api, address, k);
    if k == 0 {
      FreshStep(limits, After(limits, requests, 0), key, 0);
    } else {
      FirstHalf(limits, address, k - 1);
      LiveStep(limits, After(limits, requests, k), key, k, 60000, 59999);
      assert Passes(k, Pass(key, 59999, 0)) == Passes(k - 1, Pass(key, 59999, 0)) + [Pass(key, 59999, 0)];
    }
  }

  /** The log after the whole limit less one passed at the window's end, and `k` more in the next. */
  function BurstLog(limit: nat, key: Key, k: nat): seq<Pass>
    requires limit >= 1
  {
    [Pass(key, 0, 0)] + Passes(limit - 1, Pass(key, 59999, 0)) + Passes(k, Pass(key, 60000, 60000))
  }

  lemma BurstLogGrows(limit: nat, key: Key, k: nat)
    requires limit >= 1 && k >= 1
    ensures BurstLog(limit, key, k) == BurstLog(limit, key, k - 1) + [Pass(key, 60000, 60000)]
    ensures BurstLog(limit, key, 0) == [Pass(key, 0, 0)] + Passes(limit - 1, Pass(key, 59999, 0))
  {
  }

  lemma {:induction false} SecondHalf(limits: Limits, address: string, k: nat)
    requires 1 <= k <= limits.api
    ensures |Burst(limits.api, address)| == 2 * limits.api
    ensures After(limits, Burst(limits.api, address), limits.api + k) ==
            State(map[Api(address) := Bucket(k, 120000)], 120000, 60000, BurstLog(limits.api, Api(address), k), false)
  {
    hide Burst, Handled, BurstLog;
    var key, requests := Api(address), Burst(limits.api, address);
    BurstAt(limits.api, address, limits.api + k - 1);
    BurstLogGrows(limits.api, key, k);
    if k == 1 {
      FirstHalf(limits, address, limits.api - 1);
      var before := After(limits, requests, limits.api);
      assert Cleaned(before.buckets, 60000) == map[];
      FreshStep(limits, before, key, 60000);
    } else {
      SecondHalf(limits, address, k - 1);
      LiveStep(limits, After(limits, requests, limits.api + k - 1), key, k - 1, 120000, 60000);
    }
  }

  /** The integers from one up to but not including `n`. */
  function Below(n: int): (r: set<int>)
    ensures forall i :: i in r <==> 1 <= i < n
    ensures n >= 1 ==> |r| == n - 1
  {
    if n <= 1 then {} else Below(n - 1) + {n - 1}
  }

  lemma BurstInOrder(limit: nat, address: string)
    requires limit >= 1
    ensures InOrder(Burst(limit, address))
  {
    forall i, j | 0 <= i < j < 2 * limit ensures Burst(limit, address)[i].at <= Burst(limit, address)[j].at {
      BurstAt(limit, address, i);
      BurstAt(limit, address, j);
    }
  }

  lemma BurstInterval(limit: nat, key: Key)
    requires limit >= 1
    ensures |InInterval(BurstLog(limit, key, limit), key, 59999)| == 2 * limit - 1
  {
    var log := BurstLog(limit, key, limit);
    forall i ensures i in InInterval(log, key, 59999) <==> i in Below(2 * limit) {
      BurstLogAt(limit, key, i);
    }
    assert InInterval(log, key, 59999) == Below(2 * limit);
  }

  lemma BurstLogAt(limit: nat, key: Key, i: int)
    requires limit >= 1
    ensures var log := BurstLog(limit, key, limit);
            && |log| == 2 * limit
            && (0 <= i < 2 * limit ==>
                log[i].key == key && log[i].at == if i == 0 then 0 else if i < limit then 59999 else 60000)
  {
  }

  /**
   The bound is reached for every limit: one request at 0, one fewer than the limit
   at 59999 and the limit at 60000 all pass, twice the limit less one within a minute.
   */
  lemma BoundIsReached(limits: Limits, address: string)
    requires Positive(limits)
    ensures var requests := Burst(limits.api, address);
            && InOrder(requests)
            && |InInterval(After(limits, requests, |requests|).log, Api(address), 59999)| == 2 * limits.api - 1
  {
    hide Burst, BurstLog, InInterval, After, InOrder;
    BurstInOrder(limits.api, address);
    SecondHalf(limits, address, limits.api);
    BurstInterval(limits.api, Api(address));
  }

  // ---- the limiter without clean-up ----

  /** Counting with a map that only grows. */
  function PlainCounting(plain: Buckets, key: Key, now: int): Bucket {
    if key in plain && plain[key].expires > now then plain[key] else Bucket(0, now + WINDOW_MS)
  }

  function PlainCount(plain: Buckets, key: Key, now: int): Buckets {
    var b := PlainCounting(plain, key, now);
    plain[key := b.(count := b.count + 1)]
  }

  function PlainAll(plain: Buckets, limits: Limits, keys: seq<Key>, now: int): Answer
    decreases |keys|
  {
    if keys == [] then Answer(plain, Admitted)
    else if PlainCounting(plain, keys[0], now).count + 1 > LimitOf(limits, keys[0])
        then Answer(PlainCount(plain, keys[0], now), OverLimit)
    else PlainAll(PlainCount(plain, keys[0], now), limits, keys[1..], now)
  }

  function PlainAfter(limits: Limits, requests: seq<Request>, n: nat): Buckets
    requires n <= |requests|
  {
    if n == 0 then map[]
    else
      PlainHandled(limits, PlainAfter(limits, requests, n - 1), requests[n - 1])
  }

  /** A bucket that was cleaned away is one that no longer counts. */
  predicate Agree(buckets: Buckets, plain: Buckets, now: int) {
    && (forall k :: k in buckets ==> k in plain && plain[k] == buckets[k])
    && (forall k :: k in plain && k !in buckets ==> plain[k].expires <= now)
  }

  lemma {:induction false} AllAgree(s: State, plain: Buckets, limits: Limits, keys: seq<Key>)
    requires Agree(s.buckets, plain, s.now) && !CountKeys(s, limits, keys).full
    ensures CountAll(s.buckets, limits, keys, s.now).verdict == PlainAll(plain, limits, keys, s.now).verdict
    ensures Agree(CountKeys(s, limits, keys).buckets, PlainAll(plain, limits, keys, s.now).buckets, s.now)
    decreases |keys|
  {
    if keys != [] {
      FullStays(CountKey(s, limits, keys[0]), limits, keys[1..]);
      assert Counting(s.buckets, keys[0], s.now) == Some(PlainCounting(plain, keys[0], s.now));
      if VerdictFor(s.buckets, limits, keys[0], s.now) == Admitted {
        AllAgree(CountKey(s, limits, keys[0]), PlainCount(plain, keys[0], s.now), limits, keys[1..]);
      }
    }
  }

  lemma {:induction false} FullStays(s: State, limits: Limits, keys: seq<Key>)
    ensures s.full ==> CountKeys(s, limits, keys).full
    decreases |keys|
  {
    if keys != [] && VerdictFor(s.buckets, limits, keys[0], s.now) == Admitted {
      FullStays(CountKey(s, limits, keys[0]), limits, keys[1..]);
    }
  }

  /** The verdict on the next request, with clean-up and without. */
  function NextVerdict(limits: Limits, s: State, r: Request): Verdict {
    CountAll(Swept(s, r.at).buckets, limits, KeysOf(r.address, r.sensitive), r.at).verdict
  }

  function PlainVerdict(limits: Limits, plain: Buckets, r: Request): Verdict {
    PlainAll(plain, limits, KeysOf(r.address, r.sensitive), r.at).verdict
  }

  function PlainHandled(limits: Limits, plain: Buckets, r: Request): Buckets {
    PlainAll(plain, limits, KeysOf(r.address, r.sensitive), r.at).buckets
  }

  lemma StepAgrees(limits: Limits, s: State, plain: Buckets, r: Request)
    requires Agree(s.buckets, plain, s.now) && s.now <= r.at && !Handled(s, limits, r).full
    ensures NextVerdict(limits, s, r) == PlainVerdict(limits, plain, r) && !s.full
    ensures Agree(Handled(s, limits, r).buckets, PlainHandled(limits, plain, r), r.at)
            && Handled(s, limits, r).now == r.at
  {
    FullStays(Swept(s, r.at), limits, KeysOf(r.address, r.sensitive));
    CountKeysIsCountAll(Swept(s, r.at), limits, KeysOf(r.address, r.sensitive));
    AllAgree(Swept(s, r.at), plain, limits, KeysOf(r.address, r.sensitive));
  }

  lemma {:induction false} RunAgrees(limits: Limits, requests: seq<Request>, n: nat)
    requires n <= |requests| && InOrder(requests) && !After(limits, requests, n).full
    ensures Agree(After(limits, requests, n).buckets, PlainAfter(limits, requests, n), After(limits, requests, n).now)
    ensures n > 0 ==> After(limits, requests, n).now == requests[n - 1].at && !After(limits, requests, n - 1).full
    ensures n > 0 ==> NextVerdict(limits, After(limits, requests, n - 1), requests[n - 1]) ==
                      PlainVerdict(limits, PlainAfter(limits, requests, n - 1), requests[n - 1])
  {
    hide Handled, PlainHandled, NextVerdict, PlainVerdict, Agree;
    if n == 0 {
      EmptyAgrees(After(limits, requests, 0));
    } else {
      var s := After(limits, requests, n - 1);
      FullBefore(limits, s, requests[n - 1]);
      RunAgrees(limits, requests, n - 1);
      StepAgrees(limits, s, PlainAfter(limits, requests, n - 1), requests[n - 1]);
    }
  }

  lemma EmptyAgrees(s: State)
    requires s.buckets == map[]
    ensures Agree(s.buckets, map[], s.now)
  {
  }

  lemma FullBefore(limits: Limits, s: State, r: Request)
    ensures s.full ==> Handled(s, limits, r).full
  {
    FullStays(Swept(s, r.at), limits, KeysOf(r.address, r.sensitive));
  }

  /** As long as the capacity guard never fired, the limiter answers every request as one that never cleans up. */
  lemma SameAsWithoutCleanup(limits: Limits, requests: seq<Request>, n: nat)
    requires n < |requests| && InOrder(requests) && !After(limits, requests, n + 1).full
    ensures NextVerdict(limits, After(limits, requests, n), requests[n]) ==
            PlainVerdict(limits, PlainAfter(limits, requests, n), requests[n])
  {
    RunAgrees(limits, requests, n + 1);
  }
}
