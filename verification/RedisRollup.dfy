/** The live counters: pods keep totals for each run and push only what was added since their last successful push. */
module RedisRollup {
  import opened Types
  import opened TelemetryEvents

  const MAX_RUNS: nat := 3000

  datatype Totals = Totals(
    ordersSent: nat,
    acks: nat,
    fills: nat,
    timeouts: nat,
    errors: nat,
    latencySum: nat,
    latencyCount: nat)

  function Zero(): Totals {
    Totals(0, 0, 0, 0, 0, 0, 0)
  }

  function Plus(a: Totals, b: Totals): Totals {
    Totals(a.ordersSent + b.ordersSent, a.acks + b.acks, a.fills + b.fills, a.timeouts + b.timeouts,
           a.errors + b.errors, a.latencySum + b.latencySum, a.latencyCount + b.latencyCount)
  }

  predicate AtMost(a: Totals, b: Totals) {
    && a.ordersSent <= b.ordersSent && a.acks <= b.acks && a.fills <= b.fills && a.timeouts <= b.timeouts
    && a.errors <= b.errors && a.latencySum <= b.latencySum && a.latencyCount <= b.latencyCount
  }

  function Minus(a: Totals, b: Totals): Totals
    requires AtMost(b, a)
  {
    Totals(a.ordersSent - b.ordersSent, a.acks - b.acks, a.fills - b.fills, a.timeouts - b.timeouts,
           a.errors - b.errors, a.latencySum - b.latencySum, a.latencyCount - b.latencyCount)
  }

  function Seen(t: Totals, e: Event): Totals {
    match e.kind
    case OrderSent => t.(ordersSent := t.ordersSent + 1)
    case AckReceived =>
      var acked := t.(acks := t.acks + 1);
      if e.latencyNs > 0 then acked.(latencySum := t.latencySum + e.latencyNs, latencyCount := t.latencyCount + 1) else acked
    case FillReceived => t.(fills := t.fills + 1)
    case Timeout => t.(timeouts := t.timeouts + 1)
    case Error => t.(errors := t.errors + 1)
  }

  /** A pod's view of a run: everything it saw, and everything it has pushed of that. */
  datatype Rollup = Rollup(total: Totals, flushed: Totals)

  function NewRollup(): Rollup {
    Rollup(Zero(), Zero())
  }

  /** The source compares the counts; the latency sum is not among them. */
  predicate CountsFlushed(r: Rollup) {
    && r.flushed.ordersSent == r.total.ordersSent
    && r.flushed.acks == r.total.acks
    && r.flushed.fills == r.total.fills
    && r.flushed.timeouts == r.total.timeouts
    && r.flushed.errors == r.total.errors
    && r.flushed.latencyCount == r.total.latencyCount
  }

  /** A mark is a past value of the total, so as long as no latency was counted none was added. */
  ghost predicate Marked(r: Rollup) {
    && AtMost(r.flushed, r.total)
    && (r.flushed.latencyCount == r.total.latencyCount ==> r.flushed.latencySum == r.total.latencySum)
  }

  class RunRollup {
    var total: Totals
    var flushed: Totals

    ghost function Value(): Rollup
      reads this
    {
      Rollup(total, flushed)
    }

    constructor ()
      ensures Value() == NewRollup()
    {
      total, flushed := Zero(), Zero();
    }

    method Observe(e: Event)
      requires Marked(Value())
      modifies this
      ensures Marked(Value())
      ensures Value() == old(Value()).(total := Seen(old(Value()).total, e))
    {
      match e.kind {
        case OrderSent => total := total.(ordersSent := total.ordersSent + 1);
        case AckReceived =>
          total := total.(acks := total.acks + 1);
          if e.latencyNs > 0 {
            total := total.(latencySum := total.latencySum + e.latencyNs);
            total := total.(latencyCount := total.latencyCount + 1);
          }
        case FillReceived => total := total.(fills := total.fills + 1);
        case Timeout => total := total.(timeouts := total.timeouts + 1);
        case Error => total := total.(errors := total.errors + 1);
      }
    }

    /** One push of this run: the shared counters move by the delta, and the mark only if the push went through. */
    method Flush(shared: Totals, hashOk: bool) returns (pushed: Totals)
      requires Marked(Value())
      modifies this
      ensures Marked(Value()) && total == old(total)
      ensures !hashOk ==> pushed == shared && flushed == old(flushed)
      ensures hashOk ==> flushed == total && Plus(pushed, old(flushed)) == Plus(shared, total)
    {
      var delta := Minus(total, flushed);
      pushed := shared;
      if hashOk {
        pushed := Plus(shared, delta);
        flushed := total;
      }
    }

    method IsFullyFlushed() returns (clean: bool)
      requires Marked(Value())
      ensures clean <==> flushed == total
    {
      clean := flushed.ordersSent == total.ordersSent
            && flushed.acks == total.acks
            && flushed.fills == total.fills
            && flushed.timeouts == total.timeouts
            && flushed.errors == total.errors
            && flushed.latencyCount == total.latencyCount;
    }
  }

  // ----- pods sharing one store -----

  datatype Pods = Pods(
    rollups: seq<map<string, Rollup>>,
    shared: map<string, Totals>,
    evicted: map<string, Totals>,
    observed: seq<Event>)

  function Of(m: map<string, Totals>, run: string): Totals {
    if run in m then m[run] else Zero()
  }

  function RollupOf(m: map<string, Rollup>, run: string): Rollup {
    if run in m then m[run] else NewRollup()
  }

  datatype Step =
    | Observe(pod: nat, event: Event)
    | Push(pod: nat, run: string, ok: bool)
    | Evict(pod: nat, run: string)

  /** Which steps can happen: an observed event needs a rollup or room for one, and only a flushed rollup is evicted. */
  predicate Enabled(s: Pods, step: Step) {
    && step.pod < |s.rollups|
    && match step
       case Observe(p, e) => e.runId in s.rollups[p] || |s.rollups[p]| < MAX_RUNS
       case Push(p, r, _) => r in s.rollups[p]
       case Evict(p, r) => r in s.rollups[p] && CountsFlushed(s.rollups[p][r])
  }

  function Observed(s: Pods, p: nat, e: Event): Pods
    requires p < |s.rollups|
  {
    var m := s.rollups[p];
    var r := RollupOf(m, e.runId);
    s.(rollups := s.rollups[p := m[e.runId := r.(total := Seen(r.total, e))]], observed := s.observed + [e])
  }

  function Pushed(s: Pods, p: nat, run: string, ok: bool): Pods
    requires p < |s.rollups| && run in s.rollups[p]
    requires AtMost(s.rollups[p][run].flushed, s.rollups[p][run].total)
  {
    var m := s.rollups[p];
    var r := m[run];
    if !ok then s
    else
      s.(rollups := s.rollups[p := m[run := r.(flushed := r.total)]],
         shared := s.shared[run := Plus(Of(s.shared, run), Minus(r.total, r.flushed))])
  }

  function Dropped(s: Pods, p: nat, run: string): Pods
    requires p < |s.rollups| && run in s.rollups[p]
  {
    var m := s.rollups[p];
    s.(rollups := s.rollups[p := m - {run}],
       evicted := s.evicted[run := Plus(Of(s.evicted, run), m[run].total)])
  }

  ghost predicate AllMarked(s: Pods) {
    forall p, r :: 0 <= p < |s.rollups| && r in s.rollups[p] ==> Marked(s.rollups[p][r])
  }

  function Next(s: Pods, step: Step): Pods
    requires Enabled(s, step) && AllMarked(s)
  {
    match step
    case Observe(p, e) => Observed(s, p, e)
    case Push(p, r, ok) =>
      assert Marked(s.rollups[p][r]);
      Pushed(s, p, r, ok)
    case Evict(p, r) => Dropped(s, p, r)
  }

  function Idle(pods: nat): (r: seq<map<string, Rollup>>)
    ensures |r| == pods
    ensures forall p :: 0 <= p < pods ==> r[p] == map[]
  {
    if pods == 0 then [] else Idle(pods - 1) + [map[]]
  }

  ghost predicate Reaches(pods: nat, steps: seq<Step>, s: Pods)
  {
    if steps == [] then s == Pods(Idle(pods), map[], map[], [])
    else exists p :: Reaches(pods, steps[..|steps| - 1], p) && AllMarked(p) && Enabled(p, steps[|steps| - 1])
                     && s == Next(p, steps[|steps| - 1])
  }

  // ----- the books of one run -----

  function FlushedSum(rollups: seq<map<string, Rollup>>, run: string): Totals {
    if rollups == [] then Zero()
    else Plus(FlushedSum(rollups[..|rollups| - 1], run), RollupOf(rollups[|rollups| - 1], run).flushed)
  }

  function TotalSum(rollups: seq<map<string, Rollup>>, run: string): Totals {
    if rollups == [] then Zero()
    else Plus(TotalSum(rollups[..|rollups| - 1], run), RollupOf(rollups[|rollups| - 1], run).total)
  }

  /** Everything any pod ever saw of a run, counted by kind, with the acks' latencies. */
  function TruthOf(events: seq<Event>, run: string): Totals {
    var mine := OfRun(events, run);
    Totals(CountOf(mine, OrderSent), CountOf(mine, AckReceived), CountOf(mine, FillReceived), CountOf(mine, Timeout),
           CountOf(mine, Error), AckLatency(mine), TimedAcks(mine))
  }

  lemma TruthGrows(events: seq<Event>, e: Event, run: string)
    ensures TruthOf(events + [e], run) == if e.runId == run then Seen(TruthOf(events, run), e) else TruthOf(events, run)
  {
    hide OfRun, CountOf, TimedAcks, AckLatency;
    PartsGrow(events, e, run);
    CountsGrow(OfRun(events, run), e);
  }

  lemma NothingTrue(run: string)
    ensures TruthOf([], run) == Zero()
  {
    assert OfRun([], run) == [];
    hide OfRun, CountOf, TimedAcks, AckLatency;
    NothingCounted();
  }

  ghost predicate Balanced(s: Pods, run: string) {
    && Of(s.shared, run) == Plus(FlushedSum(s.rollups, run), Of(s.evicted, run))
    && TruthOf(s.observed, run) == Plus(TotalSum(s.rollups, run), Of(s.evicted, run))
  }

  ghost predicate Inv(s: Pods) {
    AllMarked(s) && forall r :: Balanced(s, r)
  }

  // ----- replacing one pod's entry moves the sums by as much -----

  lemma {:induction false} SumsMove(a: seq<map<string, Rollup>>, p: nat, m: map<string, Rollup>, run: string, r0: Rollup, r1: Rollup)
    requires p < |a| && RollupOf(a[p], run) == r0 && RollupOf(m, run) == r1
    ensures Plus(FlushedSum(a[p := m], run), r0.flushed) == Plus(FlushedSum(a, run), r1.flushed)
    ensures Plus(TotalSum(a[p := m], run), r0.total) == Plus(TotalSum(a, run), r1.total)
  {
    hide Plus, RollupOf;
    var n := |a| - 1;
    if p == n {
      assert a[p := m][..n] == a[..n];
      Exchange(FlushedSum(a[..n], run), r0.flushed, r1.flushed);
      Exchange(TotalSum(a[..n], run), r0.total, r1.total);
    } else {
      assert a[p := m][..n] == a[..n][p := m];
      SumsMove(a[..n], p, m, run, r0, r1);
      var r := RollupOf(a[n], run);
      Extend(FlushedSum(a[..n][p := m], run), r0.flushed, FlushedSum(a[..n], run), r1.flushed, r.flushed);
      Extend(TotalSum(a[..n][p := m], run), r0.total, TotalSum(a[..n], run), r1.total, r.total);
    }
  }

  lemma Exchange(a: Totals, b: Totals, c: Totals)
    ensures Plus(Plus(a, b), c) == Plus(Plus(a, c), b)
  {
  }

  lemma Extend(a: Totals, b: Totals, c: Totals, d: Totals, e: Totals)
    requires Plus(a, b) == Plus(c, d)
    ensures Plus(Plus(a, e), b) == Plus(Plus(c, e), d)
  {
  }

  lemma SumsStay(a: seq<map<string, Rollup>>, p: nat, m: map<string, Rollup>, run: string)
    requires p < |a| && RollupOf(a[p], run) == RollupOf(m, run)
    ensures FlushedSum(a[p := m], run) == FlushedSum(a, run)
    ensures TotalSum(a[p := m], run) == TotalSum(a, run)
  {
    var r := RollupOf(m, run);
    SumsMove(a, p, m, run, r, r);
    Cancel(FlushedSum(a[p := m], run), FlushedSum(a, run), r.flushed);
    Cancel(TotalSum(a[p := m], run), TotalSum(a, run), r.total);
  }

  lemma Cancel(a: Totals, b: Totals, c: Totals)
    requires Plus(a, c) == Plus(b, c)
    ensures a == b
  {
  }

  lemma SeenMoves(t: Totals, a: Totals, b: Totals, c: Totals, d: Totals, e: Event)
    requires t == Plus(a, d)
    requires Plus(b, c) == Plus(a, Seen(c, e))
    ensures Seen(t, e) == Plus(b, d)
  {
  }

  lemma ObservedKeeps(s: Pods, p: nat, e: Event, run: string)
    requires p < |s.rollups| && Balanced(s, run)
    ensures Balanced(Observed(s, p, e), run)
  {
    hide FlushedSum, TotalSum, Plus, Seen, TruthOf;
    var s' := Observed(s, p, e);
    var m, m' := s.rollups[p], s'.rollups[p];
    TruthGrows(s.observed, e, run);
    if e.runId == run {
      var r, r' := RollupOf(m, run), RollupOf(m', run);
      SumsMove(s.rollups, p, m', run, r, r');
      Cancel(FlushedSum(s'.rollups, run), FlushedSum(s.rollups, run), r.flushed);
      SeenMoves(TruthOf(s.observed, run), TotalSum(s.rollups, run), TotalSum(s'.rollups, run), r.total, Of(s.evicted, run), e);
    } else {
      SumsStay(s.rollups, p, m', run);
    }
  }

  lemma PushMoves(shared: Totals, a: Totals, b: Totals, r: Rollup, d: Totals)
    requires AtMost(r.flushed, r.total) && shared == Plus(a, d)
    requires Plus(b, r.flushed) == Plus(a, r.total)
    ensures Plus(shared, Minus(r.total, r.flushed)) == Plus(b, d)
  {
  }

  lemma PushedKeeps(s: Pods, p: nat, r: string, ok: bool, run: string)
    requires p < |s.rollups| && r in s.rollups[p] && Marked(s.rollups[p][r]) && Balanced(s, run)
    ensures Balanced(Pushed(s, p, r, ok), run)
  {
    hide FlushedSum, TotalSum, Plus, Minus, TruthOf;
    if ok {
      var s' := Pushed(s, p, r, ok);
      var m, m' := s.rollups[p], s'.rollups[p];
      if r == run {
        SumsMove(s.rollups, p, m', run, m[run], m'[run]);
        Cancel(TotalSum(s'.rollups, run), TotalSum(s.rollups, run), m[run].total);
        PushMoves(Of(s.shared, run), FlushedSum(s.rollups, run), FlushedSum(s'.rollups, run), m[run], Of(s.evicted, run));
      } else {
        SumsStay(s.rollups, p, m', run);
      }
    }
  }

  /** The count check is enough: a rollup whose counts are flushed has its latency sum flushed too. */
  lemma FlushedCountsFlushTheSum(r: Rollup)
    requires Marked(r)
    ensures CountsFlushed(r) <==> r.flushed == r.total
  {
  }

  lemma DropMoves(x: Totals, a: Totals, b: Totals, c: Totals, d: Totals)
    requires x == Plus(a, d) && Plus(b, c) == Plus(a, Zero())
    ensures x == Plus(b, Plus(d, c))
  {
  }

  lemma DroppedKeeps(s: Pods, p: nat, r: string, run: string)
    requires p < |s.rollups| && r in s.rollups[p] && Marked(s.rollups[p][r]) && CountsFlushed(s.rollups[p][r])
    requires Balanced(s, run)
    ensures Balanced(Dropped(s, p, r), run)
  {
    hide FlushedSum, TotalSum, Plus, TruthOf, CountsFlushed, Marked, Zero;
    FlushedCountsFlushTheSum(s.rollups[p][r]);
    var s' := Dropped(s, p, r);
    var m, m' := s.rollups[p], s'.rollups[p];
    if r == run {
      SumsMove(s.rollups, p, m', run, m[run], NewRollup());
      DropMoves(Of(s.shared, run), FlushedSum(s.rollups, run), FlushedSum(s'.rollups, run), m[run].flushed, Of(s.evicted, run));
      DropMoves(TruthOf(s.observed, run), TotalSum(s.rollups, run), TotalSum(s'.rollups, run), m[run].total, Of(s.evicted, run));
    } else {
      SumsStay(s.rollups, p, m', run);
    }
  }

  lemma MarksKept(s: Pods, step: Step)
    requires AllMarked(s) && Enabled(s, step)
    ensures AllMarked(Next(s, step))
  {
    hide Of, Plus;
    match step {
      case Observe(p, e) => assert Marked(RollupOf(s.rollups[p], e.runId));
      case Push(p, r, ok) => assert Marked(s.rollups[p][r]);
      case Evict(p, r) =>
    }
  }

  lemma StepKeeps(s: Pods, step: Step)
    requires Inv(s) && Enabled(s, step)
    ensures Inv(Next(s, step))
  {
    MarksKept(s, step);
    hide Balanced, Marked, Observed, Pushed, Dropped;
    forall run ensures Balanced(Next(s, step), run) {
      assert Balanced(s, run);
      match step {
        case Observe(p, e) => ObservedKeeps(s, p, e, run);
        case Push(p, r, ok) => PushedKeeps(s, p, r, ok, run);
        case Evict(p, r) => DroppedKeeps(s, p, r, run);
      }
    }
  }

  lemma {:induction false} NothingYet(pods: nat, run: string)
    ensures FlushedSum(Idle(pods), run) == Zero() && TotalSum(Idle(pods), run) == Zero()
  {
    if pods > 0 {
      NothingYet(pods - 1, run);
    }
  }

  /**
   * In every interleaving of observing, pushing, failing to push and evicting, the shared counters are the
   * pods' flushed marks plus what was evicted, and the events seen are the pods' totals plus the same.
   */
  lemma {:induction false} SharedCountersBalance(pods: nat, steps: seq<Step>, s: Pods)
    requires Reaches(pods, steps, s)
    ensures Inv(s)
  {
    if steps == [] {
      forall r ensures Balanced(s, r) {
        NothingYet(pods, r);
        NothingTrue(r);
      }
    } else {
      var p :| Reaches(pods, steps[..|steps| - 1], p) && AllMarked(p) && Enabled(p, steps[|steps| - 1])
               && s == Next(p, steps[|steps| - 1]);
      SharedCountersBalance(pods, steps[..|steps| - 1], p);
      StepKeeps(p, steps[|steps| - 1]);
    }
  }

  /** Deltas never go negative, so every enabled step can be taken. */
  lemma EnabledStepsHappen(pods: nat, steps: seq<Step>, s: Pods, step: Step)
    requires Reaches(pods, steps, s) && Enabled(s, step)
    ensures AllMarked(s) && Reaches(pods, steps + [step], Next(s, step))
  {
    SharedCountersBalance(pods, steps, s);
    hide FlushedSum, TotalSum, TruthOf, Observed, Pushed, Dropped, Balanced, Enabled;
    assert (steps + [step])[..|steps|] == steps;
  }

  lemma {:induction false} CleanSums(rollups: seq<map<string, Rollup>>, run: string)
    requires forall p :: 0 <= p < |rollups| ==> RollupOf(rollups[p], run).flushed == RollupOf(rollups[p], run).total
    ensures FlushedSum(rollups, run) == TotalSum(rollups, run)
  {
    if rollups != [] {
      CleanSums(rollups[..|rollups| - 1], run);
    }
  }

  /** Once every rollup of a run passes the count check, the shared counters are exactly what all pods saw of it. */
  lemma FlushedRunIsExact(pods: nat, steps: seq<Step>, s: Pods, run: string)
    requires Reaches(pods, steps, s)
    requires forall p :: 0 <= p < |s.rollups| && run in s.rollups[p] ==> CountsFlushed(s.rollups[p][run])
    ensures Of(s.shared, run) == TruthOf(s.observed, run)
  {
    SharedCountersBalance(pods, steps, s);
    hide Reaches, FlushedSum, TotalSum, TruthOf;
    forall p | 0 <= p < |s.rollups| ensures RollupOf(s.rollups[p], run).flushed == RollupOf(s.rollups[p], run).total {
      if run in s.rollups[p] {
        FlushedCountsFlushTheSum(s.rollups[p][run]);
      }
    }
    CleanSums(s.rollups, run);
    assert Balanced(s, run);
  }

  lemma {:induction false} FlushedBelowTotal(rollups: seq<map<string, Rollup>>, run: string)
    requires forall p :: 0 <= p < |rollups| && run in rollups[p] ==> Marked(rollups[p][run])
    ensures AtMost(FlushedSum(rollups, run), TotalSum(rollups, run))
  {
    if rollups != [] {
      FlushedBelowTotal(rollups[..|rollups| - 1], run);
    }
  }

  /** At any moment the shared counters are behind by the deltas not yet pushed and never ahead. */
  lemma SharedNeverAhead(pods: nat, steps: seq<Step>, s: Pods, run: string)
    requires Reaches(pods, steps, s)
    ensures AtMost(Of(s.shared, run), TruthOf(s.observed, run))
    ensures AtMost(FlushedSum(s.rollups, run), TotalSum(s.rollups, run))
    ensures Plus(Of(s.shared, run), Minus(TotalSum(s.rollups, run), FlushedSum(s.rollups, run))) == TruthOf(s.observed, run)
  {
    hide Reaches, FlushedSum, TotalSum, TruthOf, Plus, Minus, AtMost, Marked;
    SharedCountersBalance(pods, steps, s);
    FlushedBelowTotal(s.rollups, run);
    assert Balanced(s, run);
    Behind(Of(s.shared, run), FlushedSum(s.rollups, run), TotalSum(s.rollups, run), Of(s.evicted, run));
  }

  lemma Behind(shared: Totals, a: Totals, b: Totals, d: Totals)
    requires AtMost(a, b) && shared == Plus(a, d)
    ensures AtMost(shared, Plus(b, d)) && Plus(shared, Minus(b, a)) == Plus(b, d)
  {
  }
}
