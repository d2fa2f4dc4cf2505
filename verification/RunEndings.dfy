/**
 What a run nobody asked to cancel goes through: its stages in order, and an ending
 that says what stopped it.
 */
module RunEndings {
  import opened Types
  import opened RunStore
  import opened RunLifecycle
  import opened RunSafety

  /** Nobody has asked to cancel `r`. */
  ghost predicate Uncancelled(steps: seq<Step>, r: string) {
    forall i, c, p :: 0 <= i < |steps| ==> steps[i] != CancelRead(c, p, r)
  }

  // ----- what closed a context -----

  /** What one step does to the context in which `a` executes `r`. */
  function CauseOf(step: Step, a: nat, r: string): Context {
    match step
    case Timeout(b) => if b == a then Expired else Open
    case ShutDown(_, q) => if q == r then Canceled else Open
    case _ => Open
  }

  /** The first cause wins. */
  function Closing(steps: seq<Step>, a: nat, r: string): Context {
    if steps == [] then Open
    else
      var n := |steps| - 1;
      var c := Closing(steps[..n], a, r);
      if c.Open? then CauseOf(steps[n], a, r) else c
  }

  lemma ClosingMore(steps: seq<Step>, step: Step, a: nat, r: string)
    ensures var c := Closing(steps, a, r); Closing(steps + [step], a, r) == if c.Open? then CauseOf(step, a, r) else c
  {
    assert (steps + [step])[..|steps|] == steps;
  }

  /** `a` is timed out at `i`, and no shutdown of `r` came before. */
  predicate TimeoutFirst(steps: seq<Step>, a: nat, r: string, i: nat) {
    i < |steps| && steps[i] == Timeout(a) && forall j :: 0 <= j < i ==> steps[j].ShutDown? ==> steps[j].run != r
  }

  /** `r` is shut down at `i`, and `a` was not timed out before. */
  predicate ShutDownFirst(steps: seq<Step>, a: nat, r: string, i: nat) {
    i < |steps| && steps[i].ShutDown? && steps[i].run == r && forall j :: 0 <= j < i ==> steps[j] != Timeout(a)
  }

  lemma {:induction false} ClosingMeans(steps: seq<Step>, a: nat, r: string)
    ensures Closing(steps, a, r).Expired? <==> exists i: nat :: TimeoutFirst(steps, a, r, i)
    ensures Closing(steps, a, r).Canceled? <==> exists i: nat :: ShutDownFirst(steps, a, r, i)
    ensures Closing(steps, a, r).Open? <==> forall i :: 0 <= i < |steps| ==> steps[i] != Timeout(a) && (steps[i].ShutDown? ==> steps[i].run != r)
  {
    if steps != [] {
      var n := |steps| - 1;
      var pre := steps[..n];
      ClosingMeans(pre, a, r);
      assert forall j :: 0 <= j < n ==> pre[j] == steps[j];
      forall i: nat | i < n ensures TimeoutFirst(steps, a, r, i) <==> TimeoutFirst(pre, a, r, i) {}
      forall i: nat | i < n ensures ShutDownFirst(steps, a, r, i) <==> ShutDownFirst(pre, a, r, i) {}
      assert Closing(pre, a, r).Open? ==> (TimeoutFirst(steps, a, r, n) <==> steps[n] == Timeout(a));
      assert Closing(pre, a, r).Open? ==> (ShutDownFirst(steps, a, r, n) <==> steps[n].ShutDown? && steps[n].run == r);
    }
  }

  /** The last look `a` takes at its context. */
  predicate LastLook(steps: seq<Step>, a: nat, k: nat) {
    k < |steps| && steps[k] == Look(a) && forall j :: k < j < |steps| ==> steps[j] != Look(a)
  }

  /** The ending fits what had closed the context when `a` looked last. */
  predicate Fits(steps: seq<Step>, a: nat, r: string, k: nat, status: Status) {
    && LastLook(steps, a, k)
    && match status
       case TimedOut => Closing(steps[..k], a, r).Expired?
       case Cancelled => Closing(steps[..k], a, r).Canceled?
       case Failed => Closing(steps[..k], a, r).Open?
       case _ => false
  }

  ghost predicate EndsAs(steps: seq<Step>, a: nat, r: string, status: Status) {
    exists k: nat :: Fits(steps, a, r, k, status)
  }

  lemma StillEndsAs(steps: seq<Step>, step: Step, a: nat, r: string, status: Status)
    requires EndsAs(steps, a, r, status) && step != Look(a)
    ensures EndsAs(steps + [step], a, r, status)
  {
    var k: nat :| Fits(steps, a, r, k, status);
    assert (steps + [step])[..k] == steps[..k];
    assert Fits(steps + [step], a, r, k, status);
  }

  lemma NamedByLook(steps: seq<Step>, a: nat, r: string)
    ensures EndsAs(steps + [Look(a)], a, r, FailureStatus(Closing(steps, a, r)))
  {
    var k := |steps|;
    assert (steps + [Look(a)])[..k] == steps;
    assert Fits(steps + [Look(a)], a, r, k, FailureStatus(Closing(steps, a, r)));
  }

  // ----- what every run without a cancel of `r` keeps -----

  /** The stages in the order in which a run goes through them. */
  const STAGE_ORDER := [Building, SandboxStarting, HealthChecking, Benchmarking, Validating, Scoring]

  predicate UnderWay(stored: Status) {
    stored in STAGE_ORDER || stored.Finished?
  }

  /** What is stored while the execution stands at `pc`. */
  predicate StoredAt(pc: Pc, stored: Status) {
    match pc
    case Checking(stage) => stage < 6 && stored == STAGE_ORDER[if stage == 0 then 0 else stage - 1]
    case Saving(stage) => stage < 6 && stored == STAGE_ORDER[if stage == 0 then 0 else stage - 1]
    case Working(stage) => stage < 6 && stored == STAGE_ORDER[stage]
    case LastCheck => stored.Scoring?
    case Finishing => stored.Scoring?
    case Publishing => stored.Finished?
    case Failing => UnderWay(stored)
    case FailSaving(_) => UnderWay(stored)
    case Leaving => true
    case Releasing => true
  }

  ghost predicate PcTold(steps: seq<Step>, pc: Pc, stored: Status, a: nat, r: string) {
    && StoredAt(pc, stored)
    && (pc.FailSaving? ==> EndsAs(steps, a, r, pc.status))
    && (pc.Leaving? || pc.Releasing? ==> stored.Finished? || EndsAs(steps, a, r, stored))
  }

  ghost predicate ActorTold(steps: seq<Step>, e: Actor, stored: Status, a: nat, r: string) {
    match e
    case Launching(_, _) => Closing(steps, a, r).Open? && stored.Building?
    case Executing(_, _, pc, ctx, _) => Closing(steps, a, r) == ctx && PcTold(steps, pc, stored, a, r)
    case _ => false
  }

  /** The claimant of `r` and the stored status agree with the steps so far. */
  ghost predicate ClaimTold(steps: seq<Step>, s: System, a: nat, r: string) {
    && r in s.table
    && (a in s.actors ==> ActorTold(steps, s.actors[a], s.table[r].status, a, r))
    && (a !in s.actors ==> s.table[r].status.Finished? || EndsAs(steps, a, r, s.table[r].status))
  }

  ghost predicate Quiet(s: System, r: string) {
    forall c :: c in s.cancellers ==> s.cancellers[c].run != r
  }

  ghost predicate Told(steps: seq<Step>, s: System, r: string) {
    && Quiet(s, r)
    && (r in s.claims ==> ClaimTold(steps, s, s.claims[r], r))
    && (r !in s.claims ==> forall a :: Closing(steps, a, r).Open? || (exists q :: q in s.claims && s.claims[q] == a))
    && (r !in s.claims && r in s.table ==> s.table[r].status.Queued?)
  }

  /** For `r` the step changes nothing. */
  ghost predicate SameFor(s: System, s': System, r: string) {
    && (r in s.claims <==> r in s'.claims)
    && (r in s.claims ==>
        var a := s.claims[r];
        && s'.claims[r] == a && (a in s.actors <==> a in s'.actors)
        && (a in s.actors ==> s'.actors[a] == s.actors[a]))
    && (forall q :: q in s.claims ==> q in s'.claims && s'.claims[q] == s.claims[q])
    && (r in s.table ==> r in s'.table && s'.table[r].status == s.table[r].status)
    && (r !in s.table && r in s'.table ==> s'.table[r].status.Queued?)
  }

  lemma ActorStillTold(steps: seq<Step>, step: Step, e: Actor, stored: Status, a: nat, r: string)
    requires ActorTold(steps, e, stored, a, r) && step != Look(a)
    requires Closing(steps + [step], a, r) == Closing(steps, a, r)
    ensures ActorTold(steps + [step], e, stored, a, r)
  {
    hide EndsAs, StoredAt, Closing;
    if e.Executing? && e.pc.FailSaving? {
      StillEndsAs(steps, step, a, r, e.pc.status);
    } else if e.Executing? && EndsAs(steps, a, r, stored) {
      StillEndsAs(steps, step, a, r, stored);
    }
  }

  lemma ClaimStillTold(steps: seq<Step>, step: Step, s: System, s': System, r: string)
    requires r in s.claims && ClaimTold(steps, s, s.claims[r], r) && SameFor(s, s', r) && step != Look(s.claims[r])
    requires Closing(steps + [step], s.claims[r], r) == Closing(steps, s.claims[r], r)
    ensures ClaimTold(steps + [step], s', s.claims[r], r)
  {
    hide EndsAs, ActorTold, Closing;
    var a := s.claims[r];
    if a in s.actors {
      ActorStillTold(steps, step, s.actors[a], s.table[r].status, a, r);
    } else if EndsAs(steps, a, r, s.table[r].status) {
      StillEndsAs(steps, step, a, r, s.table[r].status);
    }
  }

  /** A step that does not concern `r`. */
  lemma CalmKeeps(steps: seq<Step>, step: Step, s: System, s': System, r: string)
    requires Told(steps, s, r) && SameFor(s, s', r) && Quiet(s', r)
    requires r in s.claims ==> step != Look(s.claims[r]) && CauseOf(step, s.claims[r], r).Open?
    requires r !in s.claims ==> forall a :: CauseOf(step, a, r).Open? || exists q :: q in s.claims && s.claims[q] == a
    ensures Told(steps + [step], s', r)
  {
    hide ClaimTold, Quiet, CauseOf, Closing;
    if r in s.claims {
      ClosingMore(steps, step, s.claims[r], r);
      ClaimStillTold(steps, step, s, s', r);
    } else {
      forall a ensures Closing(steps + [step], a, r).Open? || (exists q :: q in s'.claims && s'.claims[q] == a) {
        ClosingMore(steps, step, a, r);
        if q :| q in s.claims && s.claims[q] == a { assert q in s'.claims && s'.claims[q] == a; }
      }
    }
  }

  // ----- the claimant's own steps -----

  /** `a` has claimed `r`, executes it, and all is as told. */
  ghost predicate Executes(steps: seq<Step>, s: System, a: nat, r: string) {
    && Runs(s, a) && s.actors[a].run == r && r in s.table && s.table[r].id == r
    && ActorTold(steps, s.actors[a], s.table[r].status, a, r)
  }

  ghost predicate NextTold(steps: seq<Step>, s: System, a: nat, r: string) {
    a in s.actors && r in s.table && ActorTold(steps, s.actors[a], s.table[r].status, a, r)
  }

  lemma PcMoves(steps: seq<Step>, step: Step, s: System, s': System, a: nat, r: string, pc: Pc, passed: bool)
    requires Executes(steps, s, a, r) && CauseOf(step, a, r).Open?
    requires a in s'.actors && s'.actors[a] == s.actors[a].(pc := pc, passed := passed)
    requires r in s'.table && PcTold(steps + [step], pc, s'.table[r].status, a, r)
    ensures NextTold(steps + [step], s', a, r)
  {
    hide PcTold, Closing;
    ClosingMore(steps, step, a, r);
  }

  lemma PcIsTold(steps: seq<Step>, s: System, a: nat, r: string)
    requires Executes(steps, s, a, r)
    ensures PcTold(steps, s.actors[a].pc, s.table[r].status, a, r) && Closing(steps, a, r) == s.actors[a].ctx
  {
    hide PcTold, Closing;
  }

  /** Where a look leads. */
  function AfterLook(pc: Pc, ctx: Context): Pc {
    match pc
    case Checking(stage) => if ctx.Open? then Saving(stage) else Failing
    case LastCheck => if ctx.Open? then Finishing else Failing
    case _ => FailSaving(FailureStatus(ctx))
  }

  lemma BeforeFailing(pc: Pc, stored: Status)
    requires StoredAt(pc, stored) && !pc.Leaving? && !pc.Releasing?
    ensures StoredAt(Failing, stored)
  {
  }

  lemma LookStored(pc: Pc, ctx: Context, stored: Status)
    requires StoredAt(pc, stored) && (pc.Checking? || pc.LastCheck? || pc.Failing?)
    ensures StoredAt(AfterLook(pc, ctx), stored)
  {
    hide FailureStatus;
    BeforeFailing(pc, stored);
    hide UnderWay;
  }

  lemma LookIsAt(s: System, a: nat)
    requires Runs(s, a) && (s.actors[a].pc.Checking? || s.actors[a].pc.LastCheck? || s.actors[a].pc.Failing?)
    requires !(s.actors[a].pc.LastCheck? && s.actors[a].ctx.Open?)
    ensures DoLook(s, a) == At(s, a, AfterLook(s.actors[a].pc, s.actors[a].ctx))
  {
    hide FailureStatus, At;
  }

  lemma LookGoes(s: System, a: nat)
    requires Runs(s, a) && (s.actors[a].pc.Checking? || s.actors[a].pc.LastCheck? || s.actors[a].pc.Failing?)
    ensures var e := s.actors[a];
      DoLook(s, a).actors == s.actors[a := e.(pc := AfterLook(e.pc, e.ctx), passed := e.passed || (e.pc.LastCheck? && e.ctx.Open?))]
  {
    if s.actors[a].pc.LastCheck? && s.actors[a].ctx.Open? {
    } else {
      LookIsAt(s, a);
      hide FailureStatus, AfterLook, DoLook;
    }
  }

  lemma LookPc(steps: seq<Step>, pc: Pc, ctx: Context, stored: Status, a: nat, r: string)
    requires PcTold(steps, pc, stored, a, r) && (pc.Checking? || pc.LastCheck? || pc.Failing?)
    requires EndsAs(steps + [Look(a)], a, r, FailureStatus(ctx))
    ensures PcTold(steps + [Look(a)], AfterLook(pc, ctx), stored, a, r)
  {
    LookStored(pc, ctx, stored);
    hide EndsAs, FailureStatus, StoredAt;
  }

  lemma LookTells(steps: seq<Step>, s: System, a: nat, r: string)
    requires Executes(steps, s, a, r) && Enabled(s, Look(a))
    ensures NextTold(steps + [Look(a)], DoLook(s, a), a, r)
  {
    PcIsTold(steps, s, a, r);
    var e, s' := s.actors[a], DoLook(s, a);
    NamedByLook(steps, a, r);
    LookPc(steps, e.pc, e.ctx, s.table[r].status, a, r);
    LookGoes(s, a);
    var passed := e.passed || (e.pc.LastCheck? && e.ctx.Open?);
    hide EndsAs, PcTold, Closing, FailureStatus, Executes, NextTold, AfterLook, DoLook;
    PcMoves(steps, Look(a), s, s', a, r, AfterLook(e.pc, e.ctx), passed);
  }

  lemma StageInOrder(stage: nat)
    requires stage < 6
    ensures StageStatus(stage) == STAGE_ORDER[stage] && !Terminal(StageStatus(stage))
  {
  }

  lemma NamesAnEnding(steps: seq<Step>, a: nat, r: string, status: Status)
    requires EndsAs(steps, a, r, status)
    ensures Terminal(status) && !status.Finished?
  {
    hide LastLook, Closing;
  }

  lemma SaveStores(s: System, a: nat, r: string, status: Status)
    requires Runs(s, a) && s.actors[a].run == r && r in s.table && s.table[r].id == r
    requires match s.actors[a].pc
      case Saving(stage) => status == StageStatus(stage)
      case Finishing => status.Finished?
      case FailSaving(named) => status == named
      case _ => false
    requires Terminal(status) ==> !Terminal(s.table[r].status) || s.table[r].status == status || s.table[r].status.Finished?
    ensures var stored := s.table[r].status;
      r in DoSave(s, a).table && DoSave(s, a).table[r].status == if Terminal(stored) && Terminal(status) then stored else status
  {
    hide StageStatus;
  }

  lemma SavePc(steps: seq<Step>, s: System, a: nat, r: string)
    requires Executes(steps, s, a, r) && Enabled(s, Save(a))
    requires PcTold(steps, s.actors[a].pc, s.table[r].status, a, r)
    ensures r in DoSave(s, a).table && PcTold(steps + [Save(a)], AfterSave(s.actors[a]), DoSave(s, a).table[r].status, a, r)
  {
    hide EndsAs, StageStatus, Closing, DoSave, ActorTold;
    var pc := s.actors[a].pc;
    if pc.Saving? {
      StageInOrder(pc.stage);
      SaveStores(s, a, r, StageStatus(pc.stage));
    } else if pc.FailSaving? {
      NamesAnEnding(steps, a, r, pc.status);
      StillEndsAs(steps, Save(a), a, r, pc.status);
      SaveStores(s, a, r, pc.status);
    } else {
      SaveStores(s, a, r, Finished);
    }
  }

  lemma SaveTells(steps: seq<Step>, s: System, a: nat, r: string)
    requires Executes(steps, s, a, r) && Enabled(s, Save(a))
    ensures NextTold(steps + [Save(a)], DoSave(s, a), a, r)
  {
    PcIsTold(steps, s, a, r);
    SavePc(steps, s, a, r);
    SaveActors(s, a);
    hide EndsAs, PcTold, Closing, AfterSave, DoSave, Executes, NextTold;
    PcMoves(steps, Save(a), s, DoSave(s, a), a, r, AfterSave(s.actors[a]), s.actors[a].passed);
  }

  function AfterProgress(pc: Pc): Pc {
    match pc
    case Working(stage) => if stage + 1 < STAGES then Checking(stage + 1) else LastCheck
    case _ => Leaving
  }

  lemma ProgressPc(steps: seq<Step>, pc: Pc, stored: Status, a: nat, r: string)
    requires PcTold(steps, pc, stored, a, r) && (pc.Working? || pc.Publishing?)
    ensures PcTold(steps + [Progress(a)], AfterProgress(pc), stored, a, r)
  {
    hide EndsAs, UnderWay;
  }

  lemma ProgressTells(steps: seq<Step>, s: System, a: nat, r: string)
    requires Executes(steps, s, a, r) && Enabled(s, Progress(a))
    ensures NextTold(steps + [Progress(a)], DoProgress(s, a), a, r)
  {
    PcIsTold(steps, s, a, r);
    var e := s.actors[a];
    ProgressPc(steps, e.pc, s.table[r].status, a, r);
    hide EndsAs, PcTold, Closing, Executes, NextTold;
    assert DoProgress(s, a) == At(s, a, AfterProgress(e.pc));
    hide AfterProgress, DoProgress;
    PcMoves(steps, Progress(a), s, DoProgress(s, a), a, r, AfterProgress(e.pc), e.passed);
  }

  lemma BreakTells(steps: seq<Step>, s: System, a: nat, r: string)
    requires Executes(steps, s, a, r) && Enabled(s, Break(a))
    ensures NextTold(steps + [Break(a)], At(s, a, Failing), a, r)
  {
    hide EndsAs, Closing;
    ClosingMore(steps, Break(a), a, r);
  }

  lemma CleanupTells(steps: seq<Step>, s: System, a: nat, r: string)
    requires Executes(steps, s, a, r) && Enabled(s, Cleanup(a))
    ensures NextTold(steps + [Cleanup(a)], DoCleanup(s, a), a, r)
  {
    hide EndsAs, Closing;
    ClosingMore(steps, Cleanup(a), a, r);
    var stored := s.table[r].status;
    if EndsAs(steps, a, r, stored) { StillEndsAs(steps, Cleanup(a), a, r, stored); }
  }

  lemma LaunchTells(steps: seq<Step>, s: System, a: nat, r: string)
    requires Enabled(s, Launch(a)) && r in s.table && ActorTold(steps, s.actors[a], s.table[r].status, a, r)
    ensures NextTold(steps + [Launch(a)], DoLaunch(s, a), a, r)
  {
    hide EndsAs, Closing;
    ClosingMore(steps, Launch(a), a, r);
  }

  lemma CloseTells(steps: seq<Step>, step: Step, s: System, a: nat, r: string)
    requires Executes(steps, s, a, r) && !CauseOf(step, a, r).Open?
    ensures NextTold(steps + [step], Close(s, a, CauseOf(step, a, r)), a, r)
  {
    hide EndsAs, Closing, StoredAt;
    ClosingMore(steps, step, a, r);
    var e, stored := s.actors[a], s.table[r].status;
    if e.pc.FailSaving? { StillEndsAs(steps, step, a, r, e.pc.status); }
    if EndsAs(steps, a, r, stored) { StillEndsAs(steps, step, a, r, stored); }
  }

  lemma OwnTold(steps: seq<Step>, step: Step, s: System, s': System, r: string)
    requires Told(steps, s, r) && r in s.claims && s'.claims == s.claims && s'.cancellers == s.cancellers
    requires NextTold(steps + [step], s', s.claims[r], r)
    ensures Told(steps + [step], s', r)
  {
    hide ActorTold, Closing;
  }

  // ----- everybody else's steps -----

  lemma NotMine(s: System, b: nat, r: string)
    requires RunsOk(s) && b in s.actors && (s.actors[b].Launching? || s.actors[b].Executing? ==> s.actors[b].run != r)
    ensures r in s.claims ==> s.claims[r] != b
  {
    hide ActorOk, UnclaimedOk, CancelsOk;
    if r in s.claims { assert ClaimOk(s, r); }
  }

  ghost predicate OnlyActor(s: System, s': System, b: nat) {
    forall c :: c != b ==> (c in s.actors <==> c in s'.actors) && (c in s.actors ==> s'.actors[c] == s.actors[c])
  }

  ghost predicate SameEntry(t: Table, t': Table, r: string) {
    && (r in t ==> r in t' && t'[r].status == t[r].status)
    && (r !in t && r in t' ==> t'[r].status.Queued?)
  }

  lemma OthersMoveOn(s: System, s': System, b: nat, r: string)
    requires s'.claims == s.claims && OnlyActor(s, s', b) && SameEntry(s.table, s'.table, r)
    requires r in s.claims ==> s.claims[r] != b
    ensures SameFor(s, s', r)
  {
  }

  lemma EntryOfOther(t: Table, q: string, status: Status, r: string)
    requires q != r && (q in t ==> t[q].id == q)
    ensures SameEntry(t, WithStatus(t, q, status), r)
  {
    hide Terminal;
  }

  lemma CloseIsOnlyActor(s: System, b: nat, cause: Context)
    ensures OnlyActor(s, Close(s, b, cause), b) && Close(s, b, cause).cancellers == s.cancellers
  {
  }

  /** Whoever a shutdown or a cancel of `q` closes does not execute `r`. */
  lemma ClosesOther(s: System, p: nat, q: string, r: string)
    requires RunsOk(s) && q != r
    ensures SameFor(s, CloseRegistered(s, p, q), r) && CloseRegistered(s, p, q).cancellers == s.cancellers
  {
    if (p, q) in s.cancels {
      var b := s.cancels[(p, q)];
      assert Registered(s, p, q, b) by { hide ClaimOk, ActorOk, UnclaimedOk; }
      hide RunsOk, Close;
      CloseIsOnlyActor(s, b, Canceled);
      NotMine(s, b, r);
      OthersMoveOn(s, Close(s, b, Canceled), b, r);
    }
  }

  lemma FreeIsOnlyActor(s: System, b: nat)
    requires b in s.actors
    ensures OnlyActor(s, Free(s, b), b) && Free(s, b).cancellers == s.cancellers
  {
  }

  lemma FreesOther(s: System, b: nat, r: string)
    requires RunsOk(s) && b in s.actors && s.actors[b].Holding?
    ensures SameFor(s, Free(s, b), r) && Free(s, b).cancellers == s.cancellers
  {
    NotMine(s, b, r);
    FreeIsOnlyActor(s, b);
    hide RunsOk, Free, OnlyActor;
    OthersMoveOn(s, Free(s, b), b, r);
  }

  lemma ClaimIsOthers(s: System, b: nat, q: string, r: string)
    requires b in s.actors && q in s.table && s.table[q].status.Queued? && q != r && q !in s.claims
    requires r in s.claims ==> s.claims[r] != b
    ensures SameFor(s, ClaimedBy(s, b, q), r) && ClaimedBy(s, b, q).cancellers == s.cancellers
  {
  }

  lemma ClaimsOther(s: System, b: nat, q: string, r: string)
    requires RunsOk(s) && b in s.actors && s.actors[b].Holding? && (q == r ==> !(q in s.table && s.table[q].status.Queued?))
    ensures SameFor(s, ClaimedBy(s, b, q), r) && ClaimedBy(s, b, q).cancellers == s.cancellers
  {
    if q in s.table && s.table[q].status.Queued? {
      NotMine(s, b, r);
      QueuedIsUnclaimed(s, q);
      ClaimIsOthers(s, b, q, r);
    } else {
      FreesOther(s, b, r);
    }
    hide RunsOk, SameFor, Free;
  }

  lemma MovesIsOnlyActor(s: System, s': System, b: nat)
    requires MovesOnly(s, s', b)
    ensures OnlyActor(s, s', b)
  {
  }

  lemma LaunchIsOnlyActor(s: System, b: nat)
    requires Enabled(s, Launch(b))
    ensures OnlyActor(s, DoLaunch(s, b), b) && DoLaunch(s, b).cancellers == s.cancellers
  {
  }

  lemma ReleaseIsOnlyActor(s: System, b: nat)
    requires Enabled(s, Release(b))
    ensures var s' := DoRelease(s, b); OnlyActor(s, s', b) && s'.claims == s.claims && s'.table == s.table && s'.cancellers == s.cancellers
  {
  }

  lemma ExecutesAlone(s: System, step: Step)
    requires Enabled(s, step) && OfExecution(step) && !step.Save?
    ensures var s' := Do(s, step); OnlyActor(s, s', step.actor) && s'.claims == s.claims
  {
    hide DoLaunch, DoLook, DoProgress, DoCleanup, DoRelease, At, OnlyActor, MovesOnly;
    var b := step.actor;
    match step
    case Launch(_) => LaunchIsOnlyActor(s, b);
    case Look(_) => LookMoves(s, b); MovesIsOnlyActor(s, Do(s, step), b);
    case Progress(_) => ProgressMoves(s, b); MovesIsOnlyActor(s, Do(s, step), b);
    case Break(_) => AtMoves(s, b, Failing); MovesIsOnlyActor(s, Do(s, step), b);
    case Cleanup(_) => CleanupMoves(s, b); MovesIsOnlyActor(s, Do(s, step), b);
    case Release(_) => ReleaseIsOnlyActor(s, b);
  }

  lemma AtKeepsCancellers(s: System, a: nat, pc: Pc)
    requires Runs(s, a)
    ensures At(s, a, pc).cancellers == s.cancellers
  {
  }

  lemma LookKeepsCancellers(s: System, a: nat)
    requires Enabled(s, Look(a))
    ensures DoLook(s, a).cancellers == s.cancellers
  {
    hide At;
    if s.actors[a].pc.LastCheck? && s.actors[a].ctx.Open? {
    } else {
      LookIsAt(s, a);
      AtKeepsCancellers(s, a, AfterLook(s.actors[a].pc, s.actors[a].ctx));
      hide DoLook, AfterLook;
    }
  }

  lemma SaveKeepsCancellers(s: System, a: nat)
    requires Enabled(s, Save(a))
    ensures DoSave(s, a).cancellers == s.cancellers
  {
    hide StageStatus, WithStatus;
  }

  lemma ExecutionsKeepCancellers(s: System, step: Step)
    requires Enabled(s, step) && OfExecution(step)
    ensures Do(s, step).cancellers == s.cancellers
  {
    hide DoLook, DoSave, DoProgress, At;
    match step
    case Look(a) => LookKeepsCancellers(s, a);
    case Save(a) => SaveKeepsCancellers(s, a);
    case Progress(a) => ProgressKeepsCancellers(s, a);
    case Break(a) => AtKeepsCancellers(s, a, Failing);
    case Cleanup(a) => CleanupKeepsCancellers(s, a);
    case Launch(_) =>
    case Release(_) =>
  }

  lemma ProgressKeepsCancellers(s: System, a: nat)
    requires Runs(s, a)
    ensures DoProgress(s, a).cancellers == s.cancellers
  {
  }

  lemma CleanupKeepsCancellers(s: System, a: nat)
    requires Runs(s, a)
    ensures DoCleanup(s, a).cancellers == s.cancellers
  {
  }

  lemma OthersExecute(s: System, step: Step, r: string)
    requires RunsOk(s) && Enabled(s, step) && OfExecution(step) && s.actors[step.actor].run != r
    ensures SameFor(s, Do(s, step), r) && Do(s, step).cancellers == s.cancellers
  {
    var b := step.actor;
    ExecutionsKeepCancellers(s, step);
    NotMine(s, b, r);
    if step.Save? {
      OthersSave(s, b, r);
      hide RunsOk, DoSave, SameFor;
    } else {
      ExecutesAlone(s, step);
      OthersKeepTable(s, step);
      hide RunsOk, Do, Enabled, OnlyActor;
      OthersMoveOn(s, Do(s, step), b, r);
    }
  }

  lemma SaveTable(s: System, b: nat)
    requires Enabled(s, Save(b))
    ensures exists status :: DoSave(s, b).table == WithStatus(s.table, s.actors[b].run, status)
  {
    hide StageStatus, WithStatus;
    match s.actors[b].pc
    case Saving(stage) => assert DoSave(s, b).table == WithStatus(s.table, s.actors[b].run, StageStatus(stage));
    case Finishing => assert DoSave(s, b).table == WithStatus(s.table, s.actors[b].run, Finished);
    case FailSaving(status) => assert DoSave(s, b).table == WithStatus(s.table, s.actors[b].run, status);
    case _ =>
  }

  lemma OthersSave(s: System, b: nat, r: string)
    requires RunsOk(s) && Enabled(s, Save(b)) && s.actors[b].run != r
    ensures SameFor(s, DoSave(s, b), r)
  {
    var q := s.actors[b].run;
    NotMine(s, b, r);
    if q in s.table { NamedAfterKey(s, q); }
    SaveTable(s, b);
    SaveMoves(s, b);
    hide RunsOk, DoSave, WithStatus, Enabled;
    var status :| DoSave(s, b).table == WithStatus(s.table, q, status);
    EntryOfOther(s.table, q, status, r);
    MovesIsOnlyActor(s, DoSave(s, b), b);
    hide MovesOnly, OnlyActor, SameEntry;
    OthersMoveOn(s, DoSave(s, b), b, r);
  }

  lemma OthersCancel(s: System, c: nat, r: string)
    requires RunsOk(s) && Enabled(s, CancelSave(c)) && s.cancellers[c].run != r
    ensures SameFor(s, DoCancelSave(s, c), r)
  {
    var q := s.cancellers[c].run;
    if q in s.table { NamedAfterKey(s, q); }
    EntryOfOther(s.table, q, Cancelled, r);
    hide RunsOk, WithStatus;
  }

  // ----- one step -----

  lemma OwnExecutes(steps: seq<Step>, s: System, r: string)
    requires Told(steps, s, r) && RunsOk(s) && r in s.claims && Runs(s, s.claims[r]) && s.actors[s.claims[r]].run == r
    ensures Executes(steps, s, s.claims[r], r)
  {
    NamedAfterKey(s, r);
    hide RunsOk, ActorTold, Quiet;
  }

  lemma Worker(s: System, a: nat)
    requires RunsOk(s) && a in s.actors && (s.actors[a].Launching? || s.actors[a].Executing?)
    ensures var r := s.actors[a].run; r in s.claims && s.claims[r] == a && r in s.table
  {
    assert ActorOk(s, a);
  }

  lemma OwnReleases(steps: seq<Step>, s: System, r: string)
    requires Told(steps, s, r) && r in s.claims && Enabled(s, Release(s.claims[r])) && Executes(steps, s, s.claims[r], r)
    ensures Told(steps + [Release(s.claims[r])], DoRelease(s, s.claims[r]), r)
  {
    var a := s.claims[r];
    var stored, s' := s.table[r].status, DoRelease(s, a);
    hide EndsAs, Closing, StoredAt;
    if EndsAs(steps, a, r, stored) { StillEndsAs(steps, Release(a), a, r, stored); }
    assert a !in s'.actors && s'.claims == s.claims && s'.table == s.table && s'.cancellers == s.cancellers;
  }

  /** Whoever executes `r` moves on. */
  lemma OwnStep(steps: seq<Step>, step: Step, s: System, r: string)
    requires Told(steps, s, r) && RunsOk(s) && Enabled(s, step) && OfExecution(step) && s.actors[step.actor].run == r
    ensures Told(steps + [step], Do(s, step), r)
  {
    var a := step.actor;
    Worker(s, a);
    if !step.Launch? { OwnExecutes(steps, s, r); }
    ExecutionsKeepCancellers(s, step);
    if step.Release? {
      OwnReleases(steps, s, r);
    } else {
      OwnStepTells(steps, step, s, r);
      hide RunsOk, Told, NextTold, Executes, DoLaunch, DoLook, DoSave, DoProgress, DoCleanup, DoRelease, At;
      OwnTold(steps, step, s, Do(s, step), r);
    }
  }

  lemma OwnStepTells(steps: seq<Step>, step: Step, s: System, r: string)
    requires Told(steps, s, r) && r in s.claims && Enabled(s, step) && OfExecution(step) && !step.Release? && step.actor == s.claims[r]
    requires !step.Launch? ==> Executes(steps, s, s.claims[r], r)
    ensures NextTold(steps + [step], Do(s, step), s.claims[r], r) && Do(s, step).claims == s.claims
  {
    hide ActorTold, NextTold, Executes, Quiet, DoLaunch, DoLook, DoSave, DoProgress, DoCleanup, At, Closing;
    match step
    case Launch(a) => LaunchTells(steps, s, a, r);
    case Look(a) => LookTells(steps, s, a, r);
    case Save(a) => SaveTells(steps, s, a, r);
    case Progress(a) => ProgressTells(steps, s, a, r);
    case Break(a) => BreakTells(steps, s, a, r);
    case Cleanup(a) => CleanupTells(steps, s, a, r);
    case _ =>
  }

  lemma OthersStep(steps: seq<Step>, step: Step, s: System, r: string)
    requires Told(steps, s, r) && RunsOk(s) && Enabled(s, step) && OfExecution(step) && s.actors[step.actor].run != r
    ensures Told(steps + [step], Do(s, step), r)
  {
    var b := step.actor;
    OthersExecute(s, step, r);
    NotMine(s, b, r);
    assert forall a :: CauseOf(step, a, r).Open?;
    hide RunsOk, Told, SameFor, Enabled, Do, CauseOf;
    QuietStays(steps, s, Do(s, step), r);
    CalmKeeps(steps, step, s, Do(s, step), r);
  }

  lemma QuietStays(steps: seq<Step>, s: System, s': System, r: string)
    requires Told(steps, s, r) && s'.cancellers == s.cancellers
    ensures Quiet(s', r)
  {
    hide ClaimTold;
  }

  /** `a` claims the queued run `r`: nothing has closed a context of `a` yet. */
  lemma ClaimTells(steps: seq<Step>, step: Step, s: System, a: nat, r: string)
    requires Told(steps, s, r) && RunsOk(s) && (step.ClaimOne? || step.ClaimNext?)
    requires a in s.actors && s.actors[a].Holding? && r in s.table && s.table[r].status.Queued?
    ensures Told(steps + [step], ClaimedBy(s, a, r), r)
  {
    QueuedIsUnclaimed(s, r);
    NobodyElsesClaim(s, a);
    hide RunsOk, Closing, EndsAs;
    assert Closing(steps, a, r).Open?;
    ClosingMore(steps, step, a, r);
  }

  lemma ClaimStep(steps: seq<Step>, step: Step, s: System, a: nat, q: string, r: string)
    requires Told(steps, s, r) && RunsOk(s) && (step.ClaimOne? || step.ClaimNext?)
    requires a in s.actors && s.actors[a].Holding?
    ensures Told(steps + [step], ClaimedBy(s, a, q), r)
  {
    if q == r && r in s.table && s.table[r].status.Queued? {
      ClaimTells(steps, step, s, a, r);
    } else {
      ClaimsOther(s, a, q, r);
      hide RunsOk, Told, SameFor, ClaimedBy;
      QuietStays(steps, s, ClaimedBy(s, a, q), r);
      CalmKeeps(steps, step, s, ClaimedBy(s, a, q), r);
    }
  }

  lemma TimeoutStep(steps: seq<Step>, s: System, a: nat, r: string)
    requires Told(steps, s, r) && RunsOk(s) && Enabled(s, Timeout(a))
    ensures Told(steps + [Timeout(a)], Close(s, a, Expired), r)
  {
    var step, q, s' := Timeout(a), s.actors[a].run, Close(s, a, Expired);
    Worker(s, a);
    CloseIsOnlyActor(s, a, Expired);
    if q == r {
      OwnExecutes(steps, s, r);
      CloseTells(steps, step, s, a, r);
      hide RunsOk, Told, NextTold, Executes, Close;
      OwnTold(steps, step, s, s', r);
    } else {
      NotMine(s, a, r);
      hide RunsOk, Told, Close, OnlyActor;
      OthersMoveOn(s, s', a, r);
      hide SameFor;
      QuietStays(steps, s, s', r);
      assert forall b :: b != a ==> CauseOf(step, b, r).Open?;
      CalmKeeps(steps, step, s, s', r);
    }
  }

  lemma ShutDownStep(steps: seq<Step>, s: System, p: nat, q: string, r: string)
    requires Told(steps, s, r) && RunsOk(s) && Enabled(s, ShutDown(p, q))
    ensures Told(steps + [ShutDown(p, q)], CloseRegistered(s, p, q), r)
  {
    var step, b, s' := ShutDown(p, q), s.cancels[(p, q)], CloseRegistered(s, p, q);
    if q == r {
      assert Registered(s, p, q, b) by { hide ClaimOk, ActorOk, UnclaimedOk; }
      Worker(s, b);
      OwnExecutes(steps, s, r);
      CloseTells(steps, step, s, b, r);
      CloseIsOnlyActor(s, b, Canceled);
      hide RunsOk, Told, NextTold, Executes, Close;
      OwnTold(steps, step, s, s', r);
    } else {
      ClosesOther(s, p, q, r);
      assert forall a :: CauseOf(step, a, r).Open?;
      hide RunsOk, Told, SameFor, CloseRegistered;
      QuietStays(steps, s, s', r);
      CalmKeeps(steps, step, s, s', r);
    }
  }

  lemma FireStep(steps: seq<Step>, s: System, c: nat, r: string)
    requires Told(steps, s, r) && RunsOk(s) && Enabled(s, CancelFire(c))
    ensures Told(steps + [CancelFire(c)], DoCancelFire(s, c), r)
  {
    var step, s' := CancelFire(c), DoCancelFire(s, c);
    var f := s.cancellers[c];
    assert f.run != r by { hide ClaimTold, RunsOk; }
    ClosesOther(s, f.process, f.run, r);
    assert Quiet(s', r) by { hide ClaimTold, RunsOk, SameFor, CloseRegistered; }
    assert forall a :: CauseOf(step, a, r).Open?;
    hide RunsOk, Told, CloseRegistered;
    assert SameFor(s, s', r);
    CalmKeeps(steps, step, s, s', r);
  }

  lemma CancelSaveStep(steps: seq<Step>, s: System, c: nat, r: string)
    requires Told(steps, s, r) && RunsOk(s) && Enabled(s, CancelSave(c))
    ensures Told(steps + [CancelSave(c)], DoCancelSave(s, c), r)
  {
    var step, s' := CancelSave(c), DoCancelSave(s, c);
    assert s.cancellers[c].run != r && Quiet(s', r) by { hide ClaimTold, RunsOk, WithStatus; }
    OthersCancel(s, c, r);
    assert forall a :: CauseOf(step, a, r).Open?;
    hide RunsOk, Told, DoCancelSave, SameFor;
    CalmKeeps(steps, step, s, s', r);
  }

  /** Submitting, waiting for a slot, giving up and looking up another run do not concern `r`. */
  lemma OutsideStep(steps: seq<Step>, step: Step, s: System, r: string)
    requires Told(steps, s, r) && RunsOk(s) && Enabled(s, step)
    requires step.Submit? || step.Ask? || step.GiveUp? || step.Acquire? || step.ClaimNothing? || (step.CancelRead? && step.run != r)
    ensures Told(steps + [step], Do(s, step), r)
  {
    var s' := Do(s, step);
    OutsideIsSame(s, step, r);
    assert Quiet(s', r) by { hide ClaimTold, RunsOk, OldestQueued, Free; if step.ClaimNothing? { FreedCancellers(s, step); } }
    assert forall a :: CauseOf(step, a, r).Open?;
    hide RunsOk, Told, Do, Enabled, SameFor;
    CalmKeeps(steps, step, s, s', r);
  }

  lemma FreedCancellers(s: System, step: Step)
    requires Enabled(s, step) && step.ClaimNothing?
    ensures Do(s, step).cancellers == s.cancellers
  {
  }

  lemma WaitsAlone(s: System, step: Step, r: string)
    requires Enabled(s, step) && (step.Ask? || step.GiveUp? || step.Acquire?)
    requires r in s.claims ==> s.claims[r] != step.actor
    ensures SameFor(s, Do(s, step), r)
  {
    var s' := Do(s, step);
    assert OnlyActor(s, s', step.actor) && s'.claims == s.claims && s'.table == s.table;
    hide OnlyActor, Do, Enabled;
    OthersMoveOn(s, s', step.actor, r);
  }

  lemma SubmitIsSame(s: System, run: Run, r: string)
    requires Enabled(s, Submit(run))
    ensures SameFor(s, Do(s, Submit(run)), r)
  {
  }

  lemma LookupIsSame(s: System, step: Step, r: string)
    requires Enabled(s, step) && step.CancelRead?
    ensures SameFor(s, Do(s, step), r)
  {
    hide Terminal;
  }

  lemma OutsideIsSame(s: System, step: Step, r: string)
    requires RunsOk(s) && Enabled(s, step)
    requires step.Submit? || step.Ask? || step.GiveUp? || step.Acquire? || step.ClaimNothing? || step.CancelRead?
    ensures SameFor(s, Do(s, step), r)
  {
    hide RunsOk, SameFor, Free, OldestQueued;
    match step
    case ClaimNothing(a) => FreesOther(s, a, r);
    case GiveUp(a) => NotMine(s, a, r); WaitsAlone(s, step, r);
    case Acquire(a) => NotMine(s, a, r); WaitsAlone(s, step, r);
    case Ask(_, _, _) => WaitsAlone(s, step, r);
    case Submit(run) => SubmitIsSame(s, run, r);
    case _ => LookupIsSame(s, step, r);
  }

  lemma StepTells(steps: seq<Step>, step: Step, s: System, r: string)
    requires Told(steps, s, r) && RunsOk(s) && Enabled(s, step)
    requires step.CancelRead? ==> step.run != r
    ensures Told(steps + [step], Do(s, step), r)
  {
    hide RunsOk, Told, OldestQueued, DoLook, DoSave, DoLaunch, DoProgress, DoCleanup, DoRelease, At, Free, ClaimedBy, Close, CloseRegistered, DoCancelFire, DoCancelSave;
    if OfExecution(step) {
      if s.actors[step.actor].run == r { OwnStep(steps, step, s, r); } else { OthersStep(steps, step, s, r); }
    } else {
      match step
      case ClaimOne(a) => ClaimStep(steps, step, s, a, s.actors[a].target.value, r);
      case ClaimNext(a, q) => ClaimStep(steps, step, s, a, q, r);
      case Timeout(a) => TimeoutStep(steps, s, a, r);
      case ShutDown(p, q) => ShutDownStep(steps, s, p, q, r);
      case CancelFire(c) => FireStep(steps, s, c, r);
      case CancelSave(c) => CancelSaveStep(steps, s, c, r);
      case _ => OutsideStep(steps, step, s, r);
    }
  }

  lemma {:induction false} ReachesTold(cap: nat, steps: seq<Step>, s: System, r: string)
    requires Reaches(cap, steps, s) && Uncancelled(steps, r)
    ensures Told(steps, s, r) && RunsOk(s)
  {
    hide Enabled, Do, RunsOk;
    ReachableInv(cap, steps, s);
    if steps == [] {
      assert Told(steps, s, r);
    } else {
      var n := |steps| - 1;
      var t :| Reaches(cap, steps[..n], t) && Enabled(t, steps[n]) && s == Do(t, steps[n]);
      hide AllSlotsOk, Told;
      assert Uncancelled(steps[..n], r);
      ReachesTold(cap, steps[..n], t, r);
      if steps[n].CancelRead? { assert steps[n] == CancelRead(steps[n].canceller, steps[n].process, steps[n].run); }
      StepTells(steps[..n], steps[n], t, r);
      assert steps[..n] + [steps[n]] == steps;
    }
  }

  // ----- what it means for clients -----

  /** A run whose execution has returned: its claimant looked at its context last at `k`. */
  lemma ReturnedTold(cap: nat, steps: seq<Step>, s: System, r: string) returns (k: nat)
    requires Reaches(cap, steps, s) && Uncancelled(steps, r) && r in s.done && !s.done[r].Finished?
    ensures r in s.claims && Fits(steps, s.claims[r], r, k, s.done[r])
  {
    ReachesTold(cap, steps, s, r);
    assert ClaimOk(s, r);
    hide RunsOk, Fits, ActorTold;
    assert EndsAs(steps, s.claims[r], r, s.done[r]);
    k :| Fits(steps, s.claims[r], r, k, s.done[r]);
  }

  /**
   An execution that fails with nobody asking to cancel its run says why: at its
   last look its context had timed out first, or had been shut down first, or was
   still open.
   */
  lemma FailureSaysWhy(cap: nat, steps: seq<Step>, s: System, r: string) returns (a: nat, k: nat)
    requires Reaches(cap, steps, s) && r in s.done && !s.done[r].Finished?
    requires forall i, c, p :: 0 <= i < |steps| ==> steps[i] != CancelRead(c, p, r)
    ensures r in s.claims && a == s.claims[r]
    ensures k < |steps| && steps[k] == Look(a) && forall j :: k < j < |steps| ==> steps[j] != Look(a)
    ensures s.done[r] == TimedOut <==> exists i: nat :: i < k && TimeoutFirst(steps, a, r, i)
    ensures s.done[r] == Cancelled <==> exists i: nat :: i < k && ShutDownFirst(steps, a, r, i)
    ensures s.done[r] == Failed <==> forall i :: 0 <= i < k ==> steps[i] != Timeout(a) && (steps[i].ShutDown? ==> steps[i].run != r)
    ensures s.done[r].TimedOut? || s.done[r].Cancelled? || s.done[r].Failed?
  {
    hide Reaches;
    k := ReturnedTold(cap, steps, s, r);
    a := s.claims[r];
    hide Closing;
    var pre := steps[..k];
    ClosingMeans(pre, a, r);
    forall i: nat | i < k ensures TimeoutFirst(steps, a, r, i) <==> TimeoutFirst(pre, a, r, i) {}
    forall i: nat | i < k ensures ShutDownFirst(steps, a, r, i) <==> ShutDownFirst(pre, a, r, i) {}
  }

  /** The moves of a run's stored status that a step may make when nobody asks to cancel it. */
  predicate MovesOn(was: Status, now: Status) {
    match was
    case Queued => now.Building?
    case Building => now.SandboxStarting? || Fails(now)
    case SandboxStarting => now.HealthChecking? || Fails(now)
    case HealthChecking => now.Benchmarking? || Fails(now)
    case Benchmarking => now.Validating? || Fails(now)
    case Validating => now.Scoring? || Fails(now)
    case Scoring => now.Finished? || Fails(now)
    case _ => false
  }

  predicate Fails(status: Status) {
    status.Failed? || status.Cancelled? || status.TimedOut?
  }

  lemma SaveMovesOn(steps: seq<Step>, s: System, a: nat, r: string)
    requires Executes(steps, s, a, r) && Enabled(s, Save(a))
    ensures var was, t := s.table[r].status, DoSave(s, a).table;
      r in t && (t[r].status == was || MovesOn(was, t[r].status))
  {
    PcIsTold(steps, s, a, r);
    var pc := s.actors[a].pc;
    hide EndsAs, StageStatus, Closing, DoSave, ActorTold;
    if pc.Saving? {
      StageInOrder(pc.stage);
      SaveStores(s, a, r, StageStatus(pc.stage));
    } else if pc.FailSaving? {
      NamesAnEnding(steps, a, r, pc.status);
      SaveStores(s, a, r, pc.status);
    } else {
      SaveStores(s, a, r, Finished);
    }
  }

  /** Without a cancel a run's stored status goes through the stages in order and ends at most once. */
  lemma StagesInOrder(cap: nat, steps: seq<Step>, s: System, step: Step, r: string)
    requires Reaches(cap, steps, s) && Enabled(s, step) && r in s.table
    requires forall i, c, p :: 0 <= i < |steps| ==> steps[i] != CancelRead(c, p, r)
    ensures var was, t := s.table[r].status, Do(s, step).table;
      r in t && (t[r].status == was || MovesOn(was, t[r].status))
  {
    hide Reaches, RunsOk, MovesOn, Told;
    ReachesTold(cap, steps, s, r);
    if !Writes(step) {
      OthersKeepTable(s, step);
    } else if step.Save? && s.actors[step.actor].run == r {
      Worker(s, step.actor);
      OwnExecutes(steps, s, r);
      hide Executes;
      SaveMovesOn(steps, s, step.actor, r);
    } else {
      OtherWrites(steps, s, step, r);
    }
  }

  lemma ClaimMovesOn(s: System, a: nat, q: string, r: string)
    requires a in s.actors && r in s.table
    ensures var was, t := s.table[r].status, ClaimedBy(s, a, q).table;
      r in t && (t[r].status == was || MovesOn(was, t[r].status))
  {
  }

  lemma OtherWrites(steps: seq<Step>, s: System, step: Step, r: string)
    requires Told(steps, s, r) && RunsOk(s) && Enabled(s, step) && r in s.table && Writes(step)
    requires step.Save? ==> s.actors[step.actor].run != r
    ensures var was, t := s.table[r].status, Do(s, step).table;
      r in t && (t[r].status == was || MovesOn(was, t[r].status))
  {
    hide RunsOk, ClaimTold, OldestQueued, DoSave, DoCancelSave, ClaimedBy, MovesOn;
    match step
    case Save(b) => OthersSave(s, b, r);
    case CancelSave(c) => OthersCancel(s, c, r);
    case ClaimOne(a) => ClaimMovesOn(s, a, s.actors[a].target.value, r);
    case ClaimNext(a, q) => ClaimMovesOn(s, a, q, r);
    case Submit(_) =>
  }
}
