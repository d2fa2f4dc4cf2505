/** The bot fleet's peak throughput: the most acks in any window, found by two pointers over sorted stamps. */
module SlidingPeak {
  import Sequences
  import TpsCounter

  const ONE_SECOND: nat := 1_000_000_000

  /** How many stamps fall into the half-open window that starts at `t`. */
  function Within(ts: seq<nat>, t: int, window: nat): (c: nat)
    ensures c <= |ts|
  {
    if ts == [] then 0
    else Within(ts[..|ts| - 1], t, window) + if t <= ts[|ts| - 1] < t + window then 1 else 0
  }

  /** The greatest count over every start time there is. */
  ghost predicate IsPeak(ts: seq<nat>, window: nat, peak: nat) {
    && (forall t: int :: Within(ts, t, window) <= peak)
    && (exists t: int :: Within(ts, t, window) == peak)
  }

  /** The greatest count over the windows that start at a multiple of the window. */
  ghost predicate IsAlignedPeak(ts: seq<nat>, window: nat, peak: nat) {
    && (forall k: int :: Within(ts, k * window, window) <= peak)
    && (exists k: int :: Within(ts, k * window, window) == peak)
  }

  ghost predicate Sorted(ts: seq<nat>) {
    forall i, j :: 0 <= i < j < |ts| ==> ts[i] <= ts[j]
  }

  // ----- counting in sorted stamps -----

  lemma {:induction false} OutsideCountsNothing(ts: seq<nat>, t: int, window: nat)
    requires forall i :: 0 <= i < |ts| ==> !(t <= ts[i] < t + window)
    ensures Within(ts, t, window) == 0
  {
    if ts != [] {
      OutsideCountsNothing(ts[..|ts| - 1], t, window);
    }
  }

  lemma {:induction false} InsideCountsAll(ts: seq<nat>, t: int, window: nat)
    requires forall i :: 0 <= i < |ts| ==> t <= ts[i] < t + window
    ensures Within(ts, t, window) == |ts|
  {
    if ts != [] {
      InsideCountsAll(ts[..|ts| - 1], t, window);
    }
  }

  lemma {:induction false} WithinConcat(a: seq<nat>, b: seq<nat>, t: int, window: nat)
    ensures Within(a + b, t, window) == Within(a, t, window) + Within(b, t, window)
  {
    if b == [] {
      assert a + b == a;
    } else {
      WithinConcat(a, b[..|b| - 1], t, window);
      assert (a + b)[..|a + b| - 1] == a + b[..|b| - 1];
    }
  }

  /** Stamps `lo` up to `hi` are those in the window. */
  ghost predicate Covers(ts: seq<nat>, t: int, window: nat, lo: nat, hi: nat) {
    && lo <= hi <= |ts|
    && (forall k :: 0 <= k < lo ==> ts[k] < t)
    && (forall k :: lo <= k < hi ==> t <= ts[k] < t + window)
    && (forall k :: hi <= k < |ts| ==> ts[k] >= t + window)
  }

  lemma CoveredCount(ts: seq<nat>, t: int, window: nat, lo: nat, hi: nat)
    requires Covers(ts, t, window, lo, hi)
    ensures Within(ts, t, window) == hi - lo
  {
    assert ts == ts[..lo] + ts[lo..hi] + ts[hi..];
    WithinConcat(ts[..lo] + ts[lo..hi], ts[hi..], t, window);
    WithinConcat(ts[..lo], ts[lo..hi], t, window);
    OutsideCountsNothing(ts[..lo], t, window);
    InsideCountsAll(ts[lo..hi], t, window);
    OutsideCountsNothing(ts[hi..], t, window);
  }

  lemma {:induction false} FirstAtLeast(ts: seq<nat>, t: int) returns (i: nat)
    requires Sorted(ts)
    ensures i <= |ts|
    ensures i > 0 ==> ts[i - 1] < t
    ensures i < |ts| ==> ts[i] >= t
  {
    if ts == [] || ts[|ts| - 1] < t {
      i := |ts|;
    } else {
      i := FirstAtLeast(ts[..|ts| - 1], t);
    }
  }

  lemma SplitCovers(ts: seq<nat>, t: int, window: nat, lo: nat, hi: nat)
    requires Sorted(ts) && lo <= hi <= |ts|
    requires lo > 0 ==> ts[lo - 1] < t
    requires lo < |ts| ==> ts[lo] >= t
    requires hi > 0 ==> ts[hi - 1] < t + window
    requires hi < |ts| ==> ts[hi] >= t + window
    ensures Within(ts, t, window) == hi - lo
  {
    assert Covers(ts, t, window, lo, hi);
    CoveredCount(ts, t, window, lo, hi);
  }

  /** A window may as well start at the first stamp it holds. */
  lemma StartAtAStamp(ts: seq<nat>, t: int, window: nat) returns (i: nat)
    requires Sorted(ts) && Within(ts, t, window) > 0
    ensures i < |ts| && Within(ts, t, window) <= Within(ts, ts[i], window)
  {
    i := FirstAtLeast(ts, t);
    var e := FirstAtLeast(ts, t + window);
    SplitCovers(ts, t, window, i, e);
    var a := FirstAtLeast(ts, ts[i]);
    var b := FirstAtLeast(ts, ts[i] + window);
    SplitCovers(ts, ts[i], window, a, b);
  }

  /** Stamps `i` to `j` are in the window of stamp `i`; earlier ones are only if they equal it. */
  lemma ReachedCount(ts: seq<nat>, window: nat, i: nat, j: nat)
    requires Sorted(ts) && window > 0 && i <= j < |ts|
    requires forall k :: i <= k <= j ==> ts[k] < ts[i] + window
    requires j + 1 < |ts| ==> ts[j + 1] >= ts[i] + window
    ensures Within(ts, ts[i], window) >= j - i + 1
    ensures i == 0 || ts[i - 1] < ts[i] ==> Within(ts, ts[i], window) == j - i + 1
  {
    var a := FirstAtLeast(ts, ts[i]);
    SplitCovers(ts, ts[i], window, a, j + 1);
  }

  /** The two-pointer scan of the source: `j` is the last stamp within a window of stamp `i`. */
  method SlidingWindowPeak(ts: seq<nat>, window: nat) returns (peak: nat)
    requires Sorted(ts)
    ensures window > 0 ==> IsPeak(ts, window, peak)
    ensures window == 0 ==> peak == if ts == [] then 0 else 1
  {
    peak := 0;
    var j := 0;
    ghost var best := -1;
    if window > 0 {
      OutsideCountsNothing(ts, -1 - window, window);
      best := -1 - window;
    }
    for i := 0 to |ts|
      invariant i == 0 ==> j == 0
      invariant 0 < i ==> j < |ts| && i - 1 <= j
      invariant window > 0 ==> forall k :: 0 < i && i <= k <= j ==> ts[k] < ts[i - 1] + window
      invariant window > 0 ==> forall k :: 0 <= k < i ==> Within(ts, ts[k], window) <= peak
      invariant window > 0 ==> Within(ts, best, window) == peak
      invariant window == 0 ==> j == (if i == 0 then 0 else i - 1) && peak == if i == 0 then 0 else 1
    {
      if j < i {
        j := i;
      }
      while j + 1 < |ts| && (if ts[j + 1] < ts[i] then 0 else ts[j + 1] - ts[i]) < window
        invariant i <= j < |ts|
        invariant window > 0 ==> forall k :: i <= k <= j ==> ts[k] < ts[i] + window
        invariant window == 0 ==> j == i
      {
        j := j + 1;
      }
      if window > 0 {
        ReachedCount(ts, window, i, j);
      }
      var count := j - i + 1;
      if count > peak {
        peak := count;
        best := ts[i];
      }
    }
    if window > 0 {
      forall t: int ensures Within(ts, t, window) <= peak {
        if Within(ts, t, window) > 0 {
          var i := StartAtAStamp(ts, t, window);
        }
      }
    }
  }

  // ----- unsorted stamps -----

  ghost predicate Rearranges(a: seq<nat>, b: seq<nat>) {
    multiset(a) == multiset(b)
  }

  lemma LastIsSomewhere(a: seq<nat>, b: seq<nat>) returns (k: nat)
    requires Rearranges(a, b) && b != []
    ensures k < |a| && a[k] == b[|b| - 1]
    ensures Rearranges(a[..k] + a[k + 1..], b[..|b| - 1])
  {
    assert b == b[..|b| - 1] + [b[|b| - 1]];
    assert b[|b| - 1] in multiset(b);
    k :| 0 <= k < |a| && a[k] == b[|b| - 1];
    assert a == a[..k] + [a[k]] + a[k + 1..];
    assert multiset(a[..k] + a[k + 1..]) == multiset(a) - multiset{a[k]};
    assert multiset(b[..|b| - 1]) == multiset(b) - multiset{a[k]};
  }

  /** Counting does not depend on the order of the stamps. */
  lemma {:induction false} WithinReordered(a: seq<nat>, b: seq<nat>, t: int, window: nat)
    requires Rearranges(a, b)
    ensures Within(a, t, window) == Within(b, t, window)
    decreases |b|
  {
    if b == [] {
      assert |multiset(a)| == |a|;
    } else {
      var k := LastIsSomewhere(a, b);
      var p, q := a[..k], a[k + 1..];
      assert a == p + [a[k]] + q;
      WithinConcat(p + [a[k]], q, t, window);
      WithinConcat(p, [a[k]], t, window);
      WithinConcat(p, q, t, window);
      WithinReordered(p + q, b[..|b| - 1], t, window);
      WithinConcat(b[..|b| - 1], [b[|b| - 1]], t, window);
      assert b == b[..|b| - 1] + [b[|b| - 1]];
    }
  }

  function ByStamp(): nat -> Sequences.Rank {
    (t: nat) => Sequences.Rank(t, 0, 0)
  }

  function Sort(s: seq<nat>): (r: seq<nat>)
    ensures Sorted(r) && Rearranges(s, r)
  {
    Sequences.StableSortSorted(s, ByStamp());
    Sequences.StableSortMultiset(s, ByStamp());
    Sequences.StableSort(s, ByStamp())
  }

  /** The fleet's headline figure, for acks logged in any order. */
  method PeakTps(ackRecvTsNs: seq<nat>) returns (peak: nat)
    ensures IsPeak(ackRecvTsNs, ONE_SECOND, peak)
  {
    if ackRecvTsNs == [] {
      assert Within(ackRecvTsNs, 0, ONE_SECOND) == 0;
      return 0;
    }
    var sorted := Sort(ackRecvTsNs);
    peak := SlidingWindowPeak(sorted, ONE_SECOND);
    forall t: int ensures Within(ackRecvTsNs, t, ONE_SECOND) == Within(sorted, t, ONE_SECOND) {
      WithinReordered(ackRecvTsNs, sorted, t, ONE_SECOND);
    }
    var best: int :| Within(sorted, best, ONE_SECOND) == peak;
    assert Within(ackRecvTsNs, best, ONE_SECOND) == peak;
  }

  // ----- against the peak per aligned second -----

  lemma {:induction false} TwoWindowsCover(ts: seq<nat>, t: int, k: int, window: nat)
    requires k * window <= t < (k + 1) * window
    ensures Within(ts, t, window) <= Within(ts, k * window, window) + Within(ts, (k + 1) * window, window)
  {
    if ts != [] {
      TwoWindowsCover(ts[..|ts| - 1], t, k, window);
      assert (k + 1) * window == k * window + window;
    }
  }

  lemma AlignedStart(t: int, window: nat) returns (k: int)
    requires window > 0
    ensures k * window <= t < (k + 1) * window
  {
    k := t / window;
    assert t == k * window + t % window;
    assert (k + 1) * window == k * window + window;
  }

  /** The sliding peak is at least the aligned one and at most twice it, whatever the window. */
  lemma AlignedPeakWithinTwice(ts: seq<nat>, window: nat, peak: nat, aligned: nat)
    requires window > 0 && IsPeak(ts, window, peak) && IsAlignedPeak(ts, window, aligned)
    ensures aligned <= peak <= 2 * aligned
  {
    var k: int :| Within(ts, k * window, window) == aligned;
    var t: int :| Within(ts, t, window) == peak;
    var l := AlignedStart(t, window);
    TwoWindowsCover(ts, t, l, window);
  }

  // ----- against the counter of acks per second -----

  /** The stamps as the per-second counter took them, second by second. */
  ghost predicate Recorded(ts: seq<nat>, ticks: seq<TpsCounter.Tick>) {
    && |ts| == |ticks|
    && forall i :: 0 <= i < |ts| ==> ticks[i].second == ts[i] / ONE_SECOND
  }

  lemma SameSecond(t: nat, k: int)
    ensures k * ONE_SECOND <= t < k * ONE_SECOND + ONE_SECOND <==> t / ONE_SECOND == k
  {
  }

  /** The aligned count is what the counter's second holds if nothing was evicted. */
  lemma {:induction false} TruthIsAligned(ts: seq<nat>, ticks: seq<TpsCounter.Tick>, second: nat)
    requires Recorded(ts, ticks)
    ensures TpsCounter.Truth(ticks, second) == Within(ts, second * ONE_SECOND, ONE_SECOND)
  {
    if ts != [] {
      TruthIsAligned(ts[..|ts| - 1], ticks[..|ticks| - 1], second);
      SameSecond(ts[|ts| - 1], second);
    }
  }

  lemma TruePeakIsAligned(ts: seq<nat>, ticks: seq<TpsCounter.Tick>, truth: nat)
    requires Recorded(ts, ticks) && TpsCounter.IsTruePeak(ticks, truth)
    ensures IsAlignedPeak(ts, ONE_SECOND, truth)
  {
    forall k: int ensures Within(ts, k * ONE_SECOND, ONE_SECOND) <= truth {
      if k < 0 {
        OutsideCountsNothing(ts, k * ONE_SECOND, ONE_SECOND);
      } else {
        TruthIsAligned(ts, ticks, k);
      }
    }
    var s: nat :| TpsCounter.Truth(ticks, s) == truth;
    TruthIsAligned(ts, ticks, s);
    assert Within(ts, s * ONE_SECOND, ONE_SECOND) == truth;
  }

  /**
   * The two figures the system reports for the same acks: the ingester's counter never exceeds the fleet's
   * sliding peak, and is at least half of it as long as no busiest second was evicted and came back.
   */
  lemma FleetAndIngesterAgree(ts: seq<nat>, ticks: seq<TpsCounter.Tick>, peak: nat, counted: nat, truth: nat)
    requires Recorded(ts, ticks) && TpsCounter.Life(TpsCounter.MAX_BUCKETS, ticks)
    requires IsPeak(ts, ONE_SECOND, peak)
    requires TpsCounter.IsPeak(TpsCounter.After(ticks), counted) && TpsCounter.IsTruePeak(ticks, truth)
    ensures counted <= peak
    ensures TpsCounter.BusiestIsSteady(ticks, truth) ==> peak <= 2 * counted
  {
    hide TpsCounter.Life, TpsCounter.After, TpsCounter.Truth, TpsCounter.IsPeak, TpsCounter.Restarted, Within;
    TruePeakIsAligned(ts, ticks, truth);
    AlignedPeakWithinTwice(ts, ONE_SECOND, peak, truth);
    TpsCounter.PeakIsNeverTooHigh(TpsCounter.MAX_BUCKETS, ticks, counted, truth);
    TpsCounter.PeakIsExactIff(TpsCounter.MAX_BUCKETS, ticks, counted, truth);
  }
}
