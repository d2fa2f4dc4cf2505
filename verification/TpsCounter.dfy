/** The bounded count of acks per second, and when its peak is the true one. */
module TpsCounter {
  import opened Types
  import opened Sequences

  const MAX_BUCKETS: nat := 8192

  const NANOS_PER_SECOND: nat := 1_000_000_000

  type Buckets = map<nat, nat>

  function CountIn(b: Buckets, second: nat): nat {
    if second in b then b[second] else 0
  }

  ghost predicate IsPeak(b: Buckets, peak: nat) {
    && (forall k :: k in b ==> b[k] <= peak)
    && (if b == map[] then peak == 0 else exists k :: k in b && b[k] == peak)
  }

  /** A bucket no other holds less than: the one the source evicts, whichever of the smallest it meets first. */
  ghost predicate Smallest(b: Buckets, k: nat) {
    k in b && forall x :: x in b ==> b[k] <= b[x]
  }

  // ----- a counter's life: seconds recorded, with the bucket evicted for each if any -----

  datatype Tick = Tick(second: nat, evicted: Option<nat>)

  function Evicted(b: Buckets, t: Tick): Buckets {
    if t.evicted.Some? then b - {t.evicted.value} else b
  }

  function Ticked(b: Buckets, t: Tick): Buckets {
    var left := Evicted(b, t);
    left[t.second := CountIn(left, t.second) + 1]
  }

  /** A full counter that meets a new second makes room by evicting a smallest bucket, and nothing else evicts. */
  ghost predicate Allowed(cap: nat, b: Buckets, t: Tick) {
    if t.second !in b && |b| >= cap then t.evicted.Some? && Smallest(b, t.evicted.value) else t.evicted.None?
  }

  function After(ts: seq<Tick>): Buckets {
    if ts == [] then map[] else Ticked(After(ts[..|ts| - 1]), ts[|ts| - 1])
  }

  ghost predicate Life(cap: nat, ts: seq<Tick>) {
    ts == [] || (Life(cap, ts[..|ts| - 1]) && Allowed(cap, After(ts[..|ts| - 1]), ts[|ts| - 1]))
  }

  // ----- the counter of the source -----

  class TpsCounter {
    var buckets: Buckets
    var total: nat
    ghost var life: seq<Tick>

    ghost predicate Valid()
      reads this
    {
      Life(MAX_BUCKETS, life) && buckets == After(life) && total == |life|
    }

    constructor ()
      ensures Valid() && life == []
    {
      buckets, total, life := map[], 0, [];
    }

    static method FirstSmallest(b: Buckets) returns (k: nat)
      requires b != map[]
      ensures Smallest(b, k)
    {
      var left := b.Keys;
      k :| k in left;
      left := left - {k};
      while left != {}
        invariant left <= b.Keys && k in b
        invariant forall x :: x in b && x !in left ==> b[k] <= b[x]
        decreases |left|
      {
        var x :| x in left;
        left := left - {x};
        if b[x] < b[k] {
          k := x;
        }
      }
    }

    method Record(tsNs: nat)
      requires Valid()
      modifies this
      ensures Valid()
      ensures exists evicted :: life == old(life) + [Tick(tsNs / NANOS_PER_SECOND, evicted)]
    {
      hide Life, After;
      total := total + 1;
      var second := tsNs / NANOS_PER_SECOND;
      ghost var evicted: Option<nat> := None;
      if second in buckets {
        buckets := buckets[second := buckets[second] + 1];
      } else {
        if |buckets| >= MAX_BUCKETS {
          var minKey := FirstSmallest(buckets);
          buckets := buckets - {minKey};
          evicted := Some(minKey);
        }
        buckets := buckets[second := 1];
      }
      Grown(MAX_BUCKETS, life, Tick(second, evicted));
      life := life + [Tick(second, evicted)];
    }

    method PeakTps() returns (peak: nat)
      ensures IsPeak(buckets, peak)
    {
      peak := 0;
      var left := buckets.Keys;
      ghost var best: Option<nat> := None;
      while left != {}
        invariant left <= buckets.Keys
        invariant forall x :: x in buckets && x !in left ==> buckets[x] <= peak
        invariant if best.None? then peak == 0 && left == buckets.Keys else best.value in buckets && buckets[best.value] == peak
        decreases |left|
      {
        var x :| x in left;
        left := left - {x};
        if buckets[x] >= peak {
          peak := buckets[x];
          best := Some(x);
        }
      }
    }
  }

  // ----- true counts -----

  /** How many of the recorded stamps fall into a second. */
  function Truth(ts: seq<Tick>, second: nat): (c: nat)
    ensures c <= |ts|
  {
    if ts == [] then 0
    else Truth(ts[..|ts| - 1], second) + if ts[|ts| - 1].second == second then 1 else 0
  }

  ghost predicate IsTruePeak(ts: seq<Tick>, peak: nat) {
    && (forall s: nat :: Truth(ts, s) <= peak)
    && (exists s: nat :: Truth(ts, s) == peak)
  }

  /** The second was evicted and recorded again afterwards. */
  predicate Restarted(ts: seq<Tick>, second: nat) {
    ts != [] && (Restarted(ts[..|ts| - 1], second) || (ts[|ts| - 1].second == second && WasEvicted(ts[..|ts| - 1], second)))
  }

  predicate WasEvicted(ts: seq<Tick>, second: nat) {
    ts != [] && (WasEvicted(ts[..|ts| - 1], second) || ts[|ts| - 1].evicted == Some(second))
  }

  /** Some busiest second was never evicted and then recorded again. */
  ghost predicate BusiestIsSteady(ts: seq<Tick>, truth: nat) {
    exists s: nat :: Truth(ts, s) == truth && !Restarted(ts, s)
  }

  // ----- what holds at every moment -----

  lemma CountAfterRemoval(b: Buckets, k: nat)
    requires k in b
    ensures |b - {k}| == |b| - 1
  {
    assert (b - {k}).Keys == b.Keys - {k};
  }

  lemma CountAfterInsert(b: Buckets, k: nat, n: nat)
    ensures |b[k := n]| == if k in b then |b| else |b| + 1
  {
    assert b[k := n].Keys == b.Keys + {k};
  }

  /** Eviction keeps the number of buckets within the cap. */
  lemma {:induction false} BucketsAreBounded(cap: nat, ts: seq<Tick>)
    requires cap >= 1 && Life(cap, ts)
    ensures |After(ts)| <= cap
  {
    if ts != [] {
      var p, t := ts[..|ts| - 1], ts[|ts| - 1];
      BucketsAreBounded(cap, p);
      var b := After(p);
      if t.evicted.Some? {
        CountAfterRemoval(b, t.evicted.value);
      }
      CountAfterInsert(Evicted(b, t), t.second, CountIn(Evicted(b, t), t.second) + 1);
    }
  }

  /** What a bucket, or the lack of one, says about the true count. */
  ghost predicate Tells(b: Buckets, ts: seq<Tick>, s: nat) {
    && (s in b ==> 1 <= b[s] <= Truth(ts, s))
    && (s in b && !Restarted(ts, s) ==> b[s] == Truth(ts, s))
    && (Restarted(ts, s) ==> CountIn(b, s) < Truth(ts, s))
    && (WasEvicted(ts, s) ==> Truth(ts, s) >= 1)
    && (s in b && WasEvicted(ts, s) ==> Restarted(ts, s))
    && (s !in b && Truth(ts, s) > 0 ==> WasEvicted(ts, s))
  }

  lemma OneMore(p: seq<Tick>, t: Tick, s: nat)
    ensures After(p + [t]) == Ticked(After(p), t)
    ensures Truth(p + [t], s) == Truth(p, s) + if t.second == s then 1 else 0
    ensures Restarted(p + [t], s) <==> Restarted(p, s) || (t.second == s && WasEvicted(p, s))
    ensures WasEvicted(p + [t], s) <==> WasEvicted(p, s) || t.evicted == Some(s)
  {
    assert (p + [t])[..|p|] == p;
  }

  lemma TellsStep(cap: nat, p: seq<Tick>, t: Tick, s: nat)
    requires Tells(After(p), p, s) && Allowed(cap, After(p), t)
    ensures Tells(After(p + [t]), p + [t], s)
  {
    hide After, Truth, Restarted, WasEvicted;
    OneMore(p, t, s);
  }

  lemma {:induction false} BucketsTell(cap: nat, ts: seq<Tick>, s: nat)
    requires Life(cap, ts)
    ensures Tells(After(ts), ts, s)
  {
    if ts != [] {
      var p, t := ts[..|ts| - 1], ts[|ts| - 1];
      BucketsTell(cap, p, s);
      assert ts == p + [t];
      TellsStep(cap, p, t, s);
    }
  }

  /** The reported peak never exceeds the true one. */
  lemma PeakIsNeverTooHigh(cap: nat, ts: seq<Tick>, peak: nat, truth: nat)
    requires Life(cap, ts) && IsPeak(After(ts), peak) && IsTruePeak(ts, truth)
    ensures peak <= truth
  {
    hide After, Truth, Life;
    var b := After(ts);
    if b != map[] {
      var k :| k in b && b[k] == peak;
      BucketsTell(cap, ts, k);
    }
  }

  lemma SomeOtherBucket(b: Buckets, k: nat) returns (x: nat)
    requires k in b && |b| >= 2
    ensures x in b && x != k
  {
    CountAfterRemoval(b, k);
    var c := b - {k};
    assert |c.Keys| == |c|;
    x :| x in c.Keys;
  }

  lemma PeakStep(cap: nat, b: Buckets, t: Tick, before: nat, after: nat)
    requires cap >= 2 && Allowed(cap, b, t) && IsPeak(b, before) && IsPeak(Ticked(b, t), after)
    ensures before <= after
  {
    var c := Ticked(b, t);
    if b != map[] {
      var k :| k in b && b[k] == before;
      if t.evicted == Some(k) {
        var x := SomeOtherBucket(b, k);
        assert c[x] >= b[x];
      } else {
        assert c[k] >= b[k];
      }
    }
  }

  /** With room for two buckets the reported peak never goes down. */
  lemma {:induction false} PeakNeverDecreases(cap: nat, ts: seq<Tick>, n: nat, before: nat, after: nat)
    requires cap >= 2 && Life(cap, ts) && n <= |ts|
    requires IsPeak(After(ts[..n]), before) && IsPeak(After(ts), after)
    ensures before <= after
  {
    if n == |ts| {
      assert ts[..n] == ts;
      SamePeak(After(ts), before, after);
    } else {
      var p := ts[..|ts| - 1];
      assert p[..n] == ts[..n];
      var mid := PeakOf(After(p));
      PeakNeverDecreases(cap, p, n, before, mid);
      PeakStep(cap, After(p), ts[|ts| - 1], mid, after);
    }
  }

  lemma SamePeak(b: Buckets, p: nat, q: nat)
    requires IsPeak(b, p) && IsPeak(b, q)
    ensures p == q
  {
  }

  lemma {:induction false} PeakOf(b: Buckets) returns (peak: nat)
    ensures IsPeak(b, peak)
    decreases |b|
  {
    if b == map[] {
      peak := 0;
    } else {
      var k :| k in b.Keys;
      CountAfterRemoval(b, k);
      var rest := PeakOf(b - {k});
      var c := b - {k};
      forall y | y in b && y != k ensures y in c && b[y] <= rest {
        assert c[y] == b[y];
      }
      if b - {k} == map[] {
        peak := b[k];
      } else {
        peak := if b[k] > rest then b[k] else rest;
        var x :| x in b - {k} && (b - {k})[x] == rest;
        assert x in b && b[x] == rest;
      }
    }
  }

  lemma BucketBelowPeak(b: Buckets, s: nat, peak: nat)
    requires IsPeak(b, peak)
    ensures CountIn(b, s) <= peak
  {
  }

  /** What a second counted is never above the peak, unless it was evicted and came back. */
  lemma {:induction false} SteadySecondBelowPeak(cap: nat, ts: seq<Tick>, s: nat, peak: nat)
    requires cap >= 2 && Life(cap, ts) && IsPeak(After(ts), peak) && !Restarted(ts, s)
    ensures Truth(ts, s) <= peak
  {
    hide IsPeak, Allowed;
    if ts != [] {
      var p, t := ts[..|ts| - 1], ts[|ts| - 1];
      if t.second == s {
        BucketsTell(cap, ts, s);
        BucketBelowPeak(After(ts), s, peak);
      } else {
        var mid := PeakOf(After(p));
        SteadySecondBelowPeak(cap, p, s, mid);
        PeakStep(cap, After(p), t, mid, peak);
      }
    }
  }

  lemma PeakBucket(b: Buckets, peak: nat) returns (s: nat)
    requires b != map[] && IsPeak(b, peak)
    ensures s in b && b[s] == peak
  {
    s :| s in b && b[s] == peak;
  }

  lemma RecordedIsHeld(ts: seq<Tick>)
    requires ts != []
    ensures ts[|ts| - 1].second in After(ts)
  {
  }

  lemma PeakBucketIsSteady(cap: nat, ts: seq<Tick>, peak: nat) returns (s: nat)
    requires ts != [] && Life(cap, ts) && IsPeak(After(ts), peak) && IsTruePeak(ts, peak)
    ensures Truth(ts, s) == peak && !Restarted(ts, s)
  {
    hide After, Truth, Restarted, WasEvicted, Life, IsPeak;
    RecordedIsHeld(ts);
    s := PeakBucket(After(ts), peak);
    BucketsTell(cap, ts, s);
  }

  lemma NothingIsSteady(truth: nat)
    requires IsTruePeak([], truth)
    ensures BusiestIsSteady([], truth)
  {
    assert Truth([], 0) == truth && !Restarted([], 0);
  }

  /** The reported peak is the true one exactly when some busiest second was not evicted and recorded again. */
  lemma PeakIsExactIff(cap: nat, ts: seq<Tick>, peak: nat, truth: nat)
    requires cap >= 2 && Life(cap, ts) && IsPeak(After(ts), peak) && IsTruePeak(ts, truth)
    ensures peak == truth <==> BusiestIsSteady(ts, truth)
  {
    hide After, Truth, Restarted, Life, IsPeak;
    PeakIsNeverTooHigh(cap, ts, peak, truth);
    if ts == [] {
      NothingIsSteady(truth);
    } else if peak == truth {
      var s := PeakBucketIsSteady(cap, ts, peak);
    }
    if s: nat :| Truth(ts, s) == truth && !Restarted(ts, s) {
      SteadySecondBelowPeak(cap, ts, s, peak);
    }
  }

  // ----- streams for which the peak is exact -----

  ghost predicate NonDecreasing(ts: seq<Tick>) {
    forall i, j :: 0 <= i < j < |ts| ==> ts[i].second <= ts[j].second
  }

  lemma {:induction false} BucketWasRecorded(ts: seq<Tick>, s: nat)
    requires s in After(ts)
    ensures exists i :: 0 <= i < |ts| && ts[i].second == s
  {
    var p, t := ts[..|ts| - 1], ts[|ts| - 1];
    if t.second != s {
      BucketWasRecorded(p, s);
      var i :| 0 <= i < |p| && p[i].second == s;
      assert ts[i].second == s;
    }
  }

  lemma {:induction false} EvictedIsPast(cap: nat, ts: seq<Tick>, s: nat)
    requires Life(cap, ts) && NonDecreasing(ts) && WasEvicted(ts, s)
    ensures s < ts[|ts| - 1].second
  {
    var p, t := ts[..|ts| - 1], ts[|ts| - 1];
    if WasEvicted(p, s) {
      EvictedIsPast(cap, p, s);
    } else {
      BucketWasRecorded(p, s);
      var i :| 0 <= i < |p| && p[i].second == s;
      assert ts[i].second == s;
    }
  }

  lemma {:induction false} InOrderNeverRestarts(cap: nat, ts: seq<Tick>, s: nat)
    requires Life(cap, ts) && NonDecreasing(ts)
    ensures !Restarted(ts, s)
  {
    if ts != [] {
      var p, t := ts[..|ts| - 1], ts[|ts| - 1];
      InOrderNeverRestarts(cap, p, s);
      assert p != [] ==> p[|p| - 1].second <= t.second;
      if WasEvicted(p, s) {
        EvictedIsPast(cap, p, s);
      }
    }
  }

  function Seconds(ts: seq<Tick>): set<nat> {
    set t | t in ts :: t.second
  }

  lemma {:induction false} FewSecondsNeverEvict(cap: nat, ts: seq<Tick>, s: nat)
    requires Life(cap, ts) && |Seconds(ts)| <= cap
    ensures !WasEvicted(ts, s) && !Restarted(ts, s)
  {
    if ts != [] {
      var p, t := ts[..|ts| - 1], ts[|ts| - 1];
      assert ts == p + [t];
      assert t in ts;
      forall x | x in Seconds(p) ensures x in Seconds(ts) {
        var y :| y in p && y.second == x;
        assert y in ts;
      }
      SubsetCount(Seconds(p), Seconds(ts));
      FewSecondsNeverEvict(cap, p, s);
      forall k | k in After(p) ensures k in Seconds(ts) {
        BucketWasRecorded(p, k);
        var i :| 0 <= i < |p| && p[i].second == k;
        assert p[i] in ts;
      }
      if t.second !in After(p) {
        NewSecondFits(cap, After(p), Seconds(ts), t.second);
      }
    }
  }

  lemma NewSecondFits(cap: nat, b: Buckets, seconds: set<nat>, s: nat)
    requires b.Keys <= seconds && |seconds| <= cap && s in seconds && s !in b
    ensures |b| < cap
  {
    SubsetCount(b.Keys, seconds - {s});
    assert |b.Keys| == |b|;
  }

  /** At most `cap` distinct seconds in any order, or stamps that never go back: the peak is the true one. */
  lemma PeakIsExact(cap: nat, ts: seq<Tick>, peak: nat, truth: nat)
    requires cap >= 2 && Life(cap, ts) && IsPeak(After(ts), peak) && IsTruePeak(ts, truth)
    requires |Seconds(ts)| <= cap || NonDecreasing(ts)
    ensures peak == truth
  {
    hide After, Truth, Restarted, Life, IsPeak, WasEvicted, Seconds;
    var s: nat :| Truth(ts, s) == truth;
    if |Seconds(ts)| <= cap {
      FewSecondsNeverEvict(cap, ts, s);
    } else {
      InOrderNeverRestarts(cap, ts, s);
    }
    PeakIsExactIff(cap, ts, peak, truth);
  }

  // ----- what evictions are forced -----

  lemma Grown(cap: nat, p: seq<Tick>, t: Tick)
    requires Life(cap, p) && Allowed(cap, After(p), t)
    ensures Life(cap, p + [t]) && After(p + [t]) == Ticked(After(p), t)
  {
    assert (p + [t])[..|p|] == p;
  }

  /** The seconds a counter was given. */
  function Stamped(ts: seq<Tick>): (r: seq<nat>)
    ensures |r| == |ts| && forall i :: 0 <= i < |r| ==> r[i] == ts[i].second
  {
    seq(|ts|, i requires 0 <= i < |ts| => ts[i].second)
  }

  /** The last tick of a life, and the life before it. */
  lemma Peel(cap: nat, ts: seq<Tick>, seconds: seq<nat>, s: nat) returns (p: seq<Tick>, t: Tick)
    requires Life(cap, ts) && Stamped(ts) == seconds + [s]
    ensures ts == p + [t] && t.second == s && Stamped(p) == seconds
    ensures Life(cap, p) && Allowed(cap, After(p), t) && After(ts) == Ticked(After(p), t)
    ensures forall x: nat :: Truth(ts, x) == Truth(p, x) + if x == s then 1 else 0
  {
    p, t := ts[..|ts| - 1], ts[|ts| - 1];
    assert Stamped(ts)[|ts| - 1] == s;
    assert Stamped(p) == Stamped(ts)[..|ts| - 1];
  }

  lemma {:induction false} SomeSmallest(b: Buckets) returns (k: nat)
    requires b != map[]
    ensures Smallest(b, k)
    decreases |b|
  {
    var x :| x in b.Keys;
    CountAfterRemoval(b, x);
    var rest := b - {x};
    if rest == map[] {
      assert forall y :: y in b && y != x ==> y in rest;
      k := x;
    } else {
      var y := SomeSmallest(rest);
      assert forall z :: z in b && z != x ==> z in rest && rest[z] == b[z];
      k := if b[y] < b[x] then y else x;
    }
  }

  /** Any seconds whatever can be recorded. */
  lemma {:induction false} SomeLife(cap: nat, seconds: seq<nat>) returns (ts: seq<Tick>)
    requires cap >= 1
    ensures Life(cap, ts) && Stamped(ts) == seconds
  {
    hide After, Truth, Ticked, Smallest;
    if seconds == [] {
      ts := [];
    } else {
      var n := |seconds| - 1;
      var p := SomeLife(cap, seconds[..n]);
      var b, evicted := After(p), None;
      if seconds[n] !in b && |b| >= cap {
        var k := SomeSmallest(b);
        evicted := Some(k);
      }
      ts := p + [Tick(seconds[n], evicted)];
      Grown(cap, p, Tick(seconds[n], evicted));
      assert Stamped(ts) == seconds[..n] + [seconds[n]];
      assert seconds == seconds[..n] + [seconds[n]];
    }
  }

  // ----- a stream whose peak is understated -----

  /** Second 0 twice, and every other second below `n` three times. */
  function Filling(n: nat): seq<nat> {
    if n == 0 then []
    else if n == 1 then [0] + [0]
    else Filling(n - 1) + [n - 1] + [n - 1] + [n - 1]
  }

  function Filled(n: nat): (b: Buckets)
    ensures forall k :: k in b <==> 0 <= k < n
    ensures forall k :: k in b ==> b[k] == if k == 0 then 2 else 3
  {
    if n == 0 then map[] else Filled(n - 1)[n - 1 := if n == 1 then 2 else 3]
  }

  lemma {:induction false} FilledCount(n: nat)
    ensures |Filled(n)| == n
  {
    if n > 0 {
      FilledCount(n - 1);
      CountAfterInsert(Filled(n - 1), n - 1, if n == 1 then 2 else 3);
    }
  }

  ghost predicate FilledBy(ts: seq<Tick>, n: nat) {
    After(ts) == Filled(n) && forall s: nat :: Truth(ts, s) == if s >= n then 0 else if s == 0 then 2 else 3
  }

  lemma FilledByNone(ts: seq<Tick>)
    requires Stamped(ts) == []
    ensures FilledBy(ts, 0)
  {
  }

  lemma FirstSecond(cap: nat, ts: seq<Tick>)
    requires cap >= 1 && Life(cap, ts) && Stamped(ts) == Filling(1)
    ensures FilledBy(ts, 1)
  {
    var p, t := Peel(cap, ts, [0], 0);
    assert [0] == [] + [0];
    var q, u := Peel(cap, p, [], 0);
    FilledByNone(q);
    hide After, Truth, Life, Smallest;
    assert Filled(1) == map[0 := 2];
  }

  lemma OneMoreSecond(cap: nat, ts: seq<Tick>, n: nat, q: seq<Tick>, t1: Tick, t2: Tick, t3: Tick)
    requires 1 <= n < cap && FilledBy(q, n) && t1.second == n && t2.second == n && t3.second == n
    requires Allowed(cap, After(q), t1) && Allowed(cap, Ticked(After(q), t1), t2)
    requires Allowed(cap, Ticked(Ticked(After(q), t1), t2), t3)
    requires After(ts) == Ticked(Ticked(Ticked(After(q), t1), t2), t3)
    ensures After(ts) == Filled(n + 1)
  {
    hide After, Truth, Smallest;
    FilledCount(n);
    var b := Filled(n);
    assert Ticked(b, t1) == b[n := 1];
    assert Ticked(b[n := 1], t2) == b[n := 2];
    assert Ticked(b[n := 2], t3) == b[n := 3];
  }

  lemma {:induction false} FillingFills(cap: nat, n: nat, ts: seq<Tick>)
    requires n <= cap && Life(cap, ts) && Stamped(ts) == Filling(n)
    ensures FilledBy(ts, n)
  {
    hide After, Truth, Life, Allowed, Ticked, Filled;
    if n == 0 {
      FilledByNone(ts);
    } else if n == 1 {
      FirstSecond(cap, ts);
    } else {
      var m := n - 1;
      var p3, t3 := Peel(cap, ts, Filling(m) + [m] + [m], m);
      var p2, t2 := Peel(cap, p3, Filling(m) + [m], m);
      var p1, t1 := Peel(cap, p2, Filling(m), m);
      FillingFills(cap, m, p1);
      OneMoreSecond(cap, ts, m, p1, t1, t2, t3);
    }
  }

  /** The newcomer second `cap` evicts second 0; second 0 comes back twice. */
  function Understated(cap: nat): seq<nat> {
    Filling(cap) + [cap] + [0] + [0]
  }

  /** Nobody but second 0 can be evicted for the newcomer, which is the next to go. */
  lemma ForcedEvictions(cap: nat, t1: Tick, t2: Tick, t3: Tick)
    requires cap >= 2 && t1.second == cap && t2.second == 0 && t3.second == 0
    requires Allowed(cap, Filled(cap), t1) && Allowed(cap, Ticked(Filled(cap), t1), t2)
    requires Allowed(cap, Ticked(Ticked(Filled(cap), t1), t2), t3)
    ensures IsPeak(Ticked(Ticked(Ticked(Filled(cap), t1), t2), t3), 3)
  {
    var b := Filled(cap);
    FilledCount(cap);
    assert b[0] == 2 && b[1] == 3;
    var b1 := NewcomerEvictsZero(cap, t1);
    var b2 := ZeroEvictsNewcomer(cap, b1, t2);
    assert Ticked(b2, t3) == b2[0 := 2];
    assert b2[0 := 2][1] == 3;
  }

  lemma NewcomerEvictsZero(cap: nat, t: Tick) returns (b: Buckets)
    requires cap >= 2 && t.second == cap && Allowed(cap, Filled(cap), t)
    ensures b == Ticked(Filled(cap), t) && |b| == cap
    ensures forall k :: k in b <==> 1 <= k <= cap
    ensures forall k :: k in b ==> b[k] == if k == cap then 1 else 3
  {
    FilledCount(cap);
    assert Filled(cap)[0] == 2;
    assert t.evicted == Some(0);
    CountAfterRemoval(Filled(cap), 0);
    var left := Filled(cap) - {0};
    CountAfterInsert(left, cap, 1);
    b := left[cap := 1];
  }

  lemma ZeroEvictsNewcomer(cap: nat, b: Buckets, t: Tick) returns (c: Buckets)
    requires cap >= 2 && t.second == 0 && Allowed(cap, b, t) && |b| == cap
    requires forall k :: k in b <==> 1 <= k <= cap
    requires forall k :: k in b ==> b[k] == if k == cap then 1 else 3
    ensures c == Ticked(b, t)
    ensures forall k :: k in c <==> 0 <= k < cap
    ensures forall k :: k in c ==> c[k] == if k == 0 then 1 else 3
  {
    assert b[cap] == 1;
    assert t.evicted == Some(cap);
    c := Ticked(b, t);
  }

  /**
   Whatever the cap, and whichever smallest bucket the source meets first, the
   peak of this stream is reported as three although one second had four stamps:
   a second that was evicted and recorded again counts from one.
   */
  lemma EvictionUnderstatesThePeak(cap: nat, ts: seq<Tick>)
    requires cap >= 2 && Life(cap, ts) && Stamped(ts) == Understated(cap)
    ensures IsPeak(After(ts), 3) && IsTruePeak(ts, 4)
  {
    hide After, Truth, Life, Allowed, Ticked, Filled, IsPeak;
    var p3, t3 := Peel(cap, ts, Filling(cap) + [cap] + [0], 0);
    var p2, t2 := Peel(cap, p3, Filling(cap) + [cap], 0);
    var p1, t1 := Peel(cap, p2, Filling(cap), cap);
    FillingFills(cap, cap, p1);
    ForcedEvictions(cap, t1, t2, t3);
    assert Truth(ts, 0) == 4;
  }

  /** And such streams do happen. */
  lemma SomeUnderstatedLife(cap: nat) returns (ts: seq<Tick>)
    requires cap >= 2
    ensures Life(cap, ts) && IsPeak(After(ts), 3) && IsTruePeak(ts, 4)
  {
    ts := SomeLife(cap, Understated(cap));
    EvictionUnderstatesThePeak(cap, ts);
  }
}
