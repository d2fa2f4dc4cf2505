/** What every interleaving of starts, cancels, timeouts and executions keeps. */
module RunSafety {
  import opened Types
  import opened RunStore
  import opened RunLifecycle

  // ----- the invariant -----

  ghost predicate Works(s: System, a: nat, r: string) {
    a in s.actors && (s.actors[a].Launching? || s.actors[a].Executing?) && s.actors[a].run == r
  }

  /** A claimed run has left the queue, and its one claimant is at work on it or has returned. */
  ghost predicate ClaimOk(s: System, r: string)
    requires r in s.claims
  {
    && r in s.table && !s.table[r].status.Queued?
    && (r in s.done ==> s.claims[r] !in s.actors && Terminal(s.table[r].status) && s.done[r] == s.table[r].status)
    && (r !in s.done ==> Works(s, s.claims[r], r))
  }

  ghost predicate ActorOk(s: System, a: nat)
    requires a in s.actors
  {
    var e := s.actors[a];
    && (e.Launching? || e.Executing? ==> e.run in s.claims && s.claims[e.run] == a)
    && (e.Executing? ==> e.run in s.table && PcOk(e.pc, s.table[e.run].status, e.ctx, e.passed, e.run in s.early))
    && (e.Launching? ==> e.run !in s.early && e.run in s.table && !s.table[e.run].status.Finished?)
  }

  ghost predicate PcOk(pc: Pc, stored: Status, ctx: Context, passed: bool, early: bool) {
    && (pc.FailSaving? ==> Terminal(pc.status) && !pc.status.Finished?)
    && (pc.Finishing? || pc.Publishing? ==> passed)
    && (pc.Publishing? || pc.Leaving? || pc.Releasing? ==> Terminal(stored))
    && (early ==> !ctx.Open? && !passed && !stored.Finished?)
    && (!ctx.Open? && !passed ==> early)
    && (stored.Finished? ==> passed)
  }

  /** Without a claimant a run was never finished by anyone. */
  ghost predicate UnclaimedOk(s: System) {
    && (forall r :: r in s.table ==> s.table[r].id == r)
    && (forall r :: r in s.table && r !in s.claims ==> !s.table[r].status.Finished?)
    && (forall r :: r in s.early ==> r in s.claims)
    && (forall r :: r in s.early && r in s.done ==> !s.done[r].Finished?)
    && (forall r :: r in s.done ==> r in s.claims)
  }

  /** A registered cancel function belongs to an execution that has not cleaned up yet. */
  ghost predicate Registered(s: System, p: nat, r: string, a: nat) {
    Runs(s, a) && s.actors[a].process == p && s.actors[a].run == r && !s.actors[a].pc.Releasing?
  }

  ghost predicate CancelsOk(s: System) {
    forall p, r :: (p, r) in s.cancels ==> Registered(s, p, r, s.cancels[(p, r)])
  }

  /** Who holds one of the process's build slots. */
  ghost function Holders(s: System, p: nat): set<nat> {
    set a | a in s.actors && !s.actors[a].Waiting? && s.actors[a].process == p
  }

  ghost predicate SlotsOk(s: System, p: nat) {
    s.InUse(p) == |Holders(s, p)| <= s.cap
  }

  ghost predicate RunsOk(s: System) {
    && (forall r :: r in s.claims ==> ClaimOk(s, r))
    && (forall a :: a in s.actors ==> ActorOk(s, a))
    && UnclaimedOk(s) && CancelsOk(s)
  }

  ghost predicate Inv(s: System) {
    RunsOk(s) && forall p :: SlotsOk(s, p)
  }

  // ----- slots -----

  /** One actor starts or stops holding a slot of its process, and the counter follows. */
  lemma SlotsMove(s: System, s': System, p: nat, a: nat)
    requires SlotsOk(s, p) && s'.cap == s.cap
    requires forall b :: b != a ==> (b in Holders(s', p) <==> b in Holders(s, p))
    requires s'.InUse(p) == s.InUse(p) + (if a in Holders(s', p) then 1 else 0) - (if a in Holders(s, p) then 1 else 0)
    requires s'.InUse(p) <= s.cap
    ensures SlotsOk(s', p)
  {
    var h, h' := Holders(s, p), Holders(s', p);
    if a in h && a !in h' { assert h' == h - {a}; }
    else if a !in h && a in h' { assert h' == h + {a}; }
    else { assert h' == h; }
  }

  /** Nobody but `a` changes, and `a` keeps what slot it has. */
  ghost predicate MovesOnly(s: System, s': System, a: nat) {
    && s'.cap == s.cap && s'.slots == s.slots
    && (forall b :: b != a ==> (b in s'.actors <==> b in s.actors) && (b in s.actors ==> s'.actors[b] == s.actors[b]))
    && ((a in s'.actors && !s'.actors[a].Waiting?) <==> (a in s.actors && !s.actors[a].Waiting?))
    && (a in s'.actors && a in s.actors ==> s'.actors[a].process == s.actors[a].process)
  }

  lemma SlotsStay(s: System, s': System, a: nat)
    requires forall p :: SlotsOk(s, p)
    requires MovesOnly(s, s', a)
    ensures forall p :: SlotsOk(s', p)
  {
    forall p ensures SlotsOk(s', p) {
      assert SlotsOk(s, p);
      SlotsMove(s, s', p, a);
    }
  }

  lemma SlotFreed(s: System, a: nat)
    requires forall p :: SlotsOk(s, p)
    requires a in s.actors && !s.actors[a].Waiting?
    ensures forall p :: SlotsOk(Free(s, a), p)
    ensures s.InUse(s.actors[a].process) > 0
  {
    var s', q := Free(s, a), s.actors[a].process;
    assert SlotsOk(s, q) && a in Holders(s, q);
    assert |Holders(s, q)| > 0 by { assert Holders(s, q) == (Holders(s, q) - {a}) + {a}; }
    forall p ensures SlotsOk(s', p) {
      assert SlotsOk(s, p);
      SlotsMove(s, s', p, a);
    }
  }

  lemma SlotTaken(s: System, a: nat)
    requires forall p :: SlotsOk(s, p)
    requires Enabled(s, Acquire(a))
    ensures forall p :: SlotsOk(Do(s, Acquire(a)), p)
  {
    var s' := Do(s, Acquire(a));
    forall p ensures SlotsOk(s', p) {
      assert SlotsOk(s, p);
      SlotsMove(s, s', p, a);
    }
  }

  // ----- each step -----

  lemma SubmitKeeps(s: System, run: Run)
    requires RunsOk(s) && run.id !in s.table && run.status.Queued?
    ensures RunsOk(s.(table := s.table[run.id := run]))
  {
  }

  lemma WaitKeeps(s: System, s': System, a: nat)
    requires RunsOk(s) && s' == s.(actors := s'.actors, slots := s'.slots)
    requires forall b :: b != a ==> (b in s'.actors <==> b in s.actors) && (b in s.actors ==> s'.actors[b] == s.actors[b])
    requires a in s.actors ==> !s.actors[a].Launching? && !s.actors[a].Executing?
    requires a in s'.actors ==> !s'.actors[a].Launching? && !s'.actors[a].Executing?
    requires forall r :: r in s.claims && s.claims[r] == a ==> r !in s.done || a !in s'.actors
    ensures RunsOk(s')
  {
    hide PcOk;
  }

  /** `a` claims the queued run `r`. */
  ghost predicate ClaimsRun(s: System, s': System, a: nat, r: string) {
    && a in s.actors && s.actors[a].Holding? && r in s.table && s.table[r].status.Queued?
    && s' == s.(table := Claimed(s.table, r), claims := s.claims[r := a], actors := s.actors[a := Launching(s.actors[a].process, r)])
  }

  lemma QueuedIsUnclaimed(s: System, r: string)
    requires RunsOk(s) && r in s.table && s.table[r].status.Queued?
    ensures r !in s.claims && r !in s.early && r !in s.done
  {
    hide ActorOk, CancelsOk;
    assert r in s.claims ==> ClaimOk(s, r);
  }

  lemma ClaimKeepsRest(s: System, s': System, a: nat, r: string)
    requires UnclaimedOk(s) && CancelsOk(s) && ClaimsRun(s, s', a, r) && r !in s.early && r !in s.done
    ensures UnclaimedOk(s') && CancelsOk(s')
  {
  }

  lemma ClaimKeepsClaim(s: System, s': System, a: nat, r: string, x: string)
    requires RunsOk(s) && ClaimsRun(s, s', a, r) && r !in s.claims && r !in s.done && x in s'.claims
    ensures ClaimOk(s', x)
  {
    hide ActorOk, CancelsOk, UnclaimedOk;
    if x != r { assert ClaimOk(s, x); }
  }

  lemma ClaimKeepsActor(s: System, s': System, a: nat, r: string, b: nat)
    requires RunsOk(s) && ClaimsRun(s, s', a, r) && r !in s.claims && r !in s.early && b in s'.actors
    ensures ActorOk(s', b)
  {
    hide PcOk, ClaimOk, CancelsOk, UnclaimedOk;
    if b != a { assert ActorOk(s, b); }
  }

  /** Leaving the queue makes the claimant the one owner of the run. */
  lemma ClaimKeeps(s: System, s': System, a: nat, r: string)
    requires RunsOk(s) && ClaimsRun(s, s', a, r)
    ensures RunsOk(s')
  {
    hide ClaimOk, ActorOk, CancelsOk, UnclaimedOk, ClaimsRun;
    ClaimIsOfQueued(s, s', a, r);
    QueuedIsUnclaimed(s, r);
    ClaimKeepsRest(s, s', a, r);
    forall x | x in s'.claims ensures ClaimOk(s', x) { ClaimKeepsClaim(s, s', a, r, x); }
    forall b | b in s'.actors ensures ActorOk(s', b) { ClaimKeepsActor(s, s', a, r, b); }
  }

  lemma ClaimIsOfQueued(s: System, s': System, a: nat, r: string)
    requires ClaimsRun(s, s', a, r)
    ensures r in s.table && s.table[r].status.Queued?
  {
  }

  lemma LaunchKeeps(s: System, a: nat)
    requires RunsOk(s) && a in s.actors && s.actors[a].Launching?
    ensures RunsOk(DoLaunch(s, a))
  {
    assert ActorOk(s, a);
  }

  /** An execution moves on without touching the store. */
  lemma MoveKeeps(s: System, s': System, a: nat, e: Actor)
    requires RunsOk(s) && Runs(s, a) && s' == s.(actors := s.actors[a := e])
    requires e.Executing? && e.process == s.actors[a].process && e.run == s.actors[a].run
    requires e.run in s.table && PcOk(e.pc, s.table[e.run].status, e.ctx, e.passed, e.run in s.early)
    requires !e.pc.Releasing?
    ensures RunsOk(s')
  {
    hide PcOk;
    assert ActorOk(s, a);
  }

  lemma ActorIsOk(s: System, a: nat)
    requires RunsOk(s) && a in s.actors
    ensures ActorOk(s, a)
  {
  }

  lemma LookKeeps(s: System, a: nat)
    requires RunsOk(s) && Runs(s, a) && (s.actors[a].pc.Checking? || s.actors[a].pc.LastCheck? || s.actors[a].pc.Failing?)
    ensures RunsOk(DoLook(s, a))
  {
    hide RunsOk;
    ActorIsOk(s, a);
    MoveKeeps(s, DoLook(s, a), a, DoLook(s, a).actors[a]);
  }

  lemma ProgressKeeps(s: System, a: nat)
    requires RunsOk(s) && Runs(s, a) && (s.actors[a].pc.Working? || s.actors[a].pc.Publishing?)
    ensures RunsOk(DoProgress(s, a))
  {
    assert ActorOk(s, a);
    hide RunsOk;
    MoveKeeps(s, DoProgress(s, a), a, DoProgress(s, a).actors[a]);
  }

  lemma BreakKeeps(s: System, a: nat)
    requires RunsOk(s) && Runs(s, a)
    ensures RunsOk(At(s, a, Failing))
  {
    assert ActorOk(s, a);
    hide RunsOk;
    MoveKeeps(s, At(s, a, Failing), a, s.actors[a].(pc := Failing));
  }

  /** Writing a status that is not `Finished` spoils nothing, and spoils no ending. */
  lemma WriteKeeps(s: System, r: string, status: Status)
    requires RunsOk(s) && !status.Queued?
    requires !status.Finished? && r in s.table && (Terminal(status) || r !in s.done)
    requires forall a :: Runs(s, a) && s.actors[a].run == r && !Terminal(status) ==> !s.actors[a].pc.Publishing? && !s.actors[a].pc.Leaving? && !s.actors[a].pc.Releasing?
    ensures RunsOk(s.(table := WithStatus(s.table, r, status)))
  {
    var s' := s.(table := WithStatus(s.table, r, status));
    forall x | x in s'.claims ensures ClaimOk(s', x) { assert ClaimOk(s, x); }
    forall a | a in s'.actors ensures ActorOk(s', a) { assert ActorOk(s, a); }
  }

  lemma SaveStageKeeps(s: System, a: nat)
    requires RunsOk(s) && Runs(s, a) && s.actors[a].pc.Saving?
    ensures RunsOk(DoSave(s, a))
  {
    assert ActorOk(s, a);
    var e := s.actors[a];
    assert ClaimOk(s, e.run);
    WriteKeeps(s, e.run, StageStatus(e.pc.stage));
    var mid := s.(table := WithStatus(s.table, e.run, StageStatus(e.pc.stage)));
    hide RunsOk;
    MoveKeeps(mid, DoSave(s, a), a, e.(pc := Working(e.pc.stage)));
  }

  lemma SaveFailureKeeps(s: System, a: nat)
    requires RunsOk(s) && Runs(s, a) && s.actors[a].pc.FailSaving?
    ensures RunsOk(DoSave(s, a))
  {
    assert ActorOk(s, a);
    var e := s.actors[a];
    WriteKeeps(s, e.run, e.pc.status);
    var mid := s.(table := WithStatus(s.table, e.run, e.pc.status));
    hide RunsOk;
    MoveKeeps(mid, DoSave(s, a), a, e.(pc := Leaving));
  }

  /** Nobody else can have written an ending that the finisher would be refused over, unless it stands. */
  lemma FinishWrites(s: System, r: string)
    requires RunsOk(s) && r in s.claims && r !in s.done && r !in s.early
    requires forall a :: Runs(s, a) && s.actors[a].run == r ==> s.actors[a].passed
    requires Runs(s, s.claims[r])
    ensures RunsOk(s.(table := WithStatus(s.table, r, Finished)))
  {
    var s' := s.(table := WithStatus(s.table, r, Finished));
    assert ClaimOk(s, r);
    forall x | x in s'.claims ensures ClaimOk(s', x) { assert ClaimOk(s, x); }
    forall b | b in s'.actors ensures ActorOk(s', b) { assert ActorOk(s, b); }
  }

  /** An execution about to finish owns its run and has passed its last look. */
  lemma FinishingOwns(s: System, a: nat)
    requires RunsOk(s) && Runs(s, a) && s.actors[a].pc.Finishing?
    ensures var r := s.actors[a].run;
      && r in s.claims && s.claims[r] == a && r !in s.done && r !in s.early && s.actors[a].passed
      && r in s.table && s.table[r].id == r
      && forall b :: Runs(s, b) && s.actors[b].run == r ==> s.actors[b].passed
  {
    hide CancelsOk;
    assert ActorOk(s, a);
    assert ClaimOk(s, s.actors[a].run);
    assert forall b :: Runs(s, b) && s.actors[b].run == s.actors[a].run ==> ActorOk(s, b);
  }

  lemma FinishedMayPublish(t: Table, r: string, ctx: Context)
    requires r in t && t[r].id == r
    ensures r in WithStatus(t, r, Finished) && PcOk(Publishing, WithStatus(t, r, Finished)[r].status, ctx, true, false)
  {
  }

  lemma SaveFinishedKeeps(s: System, a: nat)
    requires RunsOk(s) && Runs(s, a) && s.actors[a].pc.Finishing?
    ensures RunsOk(DoSave(s, a))
  {
    hide RunsOk, PcOk, WithStatus;
    var e := s.actors[a];
    FinishingOwns(s, a);
    FinishWrites(s, e.run);
    FinishedMayPublish(s.table, e.run, e.ctx);
    var mid := s.(table := WithStatus(s.table, e.run, Finished));
    MoveKeeps(mid, DoSave(s, a), a, e.(pc := Publishing));
  }

  lemma CancelSaveKeeps(s: System, c: nat)
    requires RunsOk(s) && c in s.cancellers && s.cancellers[c].Fired?
    ensures RunsOk(DoCancelSave(s, c))
  {
    hide RunsOk;
    var r := s.cancellers[c].run;
    if r in s.table { WriteKeeps(s, r, Cancelled); }
    CancellersDoNotMatter(s.(table := WithStatus(s.table, r, Cancelled)), s.cancellers - {c});
  }

  lemma CancellersDoNotMatter(s: System, cancellers: map<nat, Canceller>)
    requires RunsOk(s)
    ensures RunsOk(s.(cancellers := cancellers))
  {
    hide PcOk;
  }

  lemma CleanupKeeps(s: System, s': System, a: nat)
    requires RunsOk(s) && Runs(s, a) && s.actors[a].pc.Leaving? && s' == DoCleanup(s, a)
    ensures RunsOk(s')
  {
    var e := s.actors[a];
    assert ActorOk(s, a);
    forall p, r | (p, r) in s'.cancels ensures Registered(s', p, r, s'.cancels[(p, r)]) {
      assert Registered(s, p, r, s.cancels[(p, r)]);
    }
    forall x | x in s'.claims ensures ClaimOk(s', x) { assert ClaimOk(s, x); }
    forall b | b in s'.actors ensures ActorOk(s', b) { assert ActorOk(s, b); }
  }

  lemma ReleaseKeeps(s: System, s': System, a: nat)
    requires RunsOk(s) && Runs(s, a) && s.actors[a].pc.Releasing? && s' == DoRelease(s, a)
    ensures RunsOk(s')
  {
    var e := s.actors[a];
    assert ActorOk(s, a) && ClaimOk(s, e.run);
    forall p, r | (p, r) in s'.cancels ensures Registered(s', p, r, s'.cancels[(p, r)]) {
      assert Registered(s, p, r, s.cancels[(p, r)]);
    }
    forall x | x in s'.claims ensures ClaimOk(s', x) { assert ClaimOk(s, x); }
    forall b | b in s'.actors ensures ActorOk(s', b) { assert ActorOk(s, b); }
  }

  lemma CloseKeeps(s: System, s': System, a: nat, cause: Context)
    requires RunsOk(s) && !cause.Open? && s' == Close(s, a, cause)
    ensures RunsOk(s')
  {
    if Runs(s, a) && s.actors[a].ctx.Open? {
      assert ActorOk(s, a) && ClaimOk(s, s.actors[a].run);
      forall x | x in s'.claims ensures ClaimOk(s', x) { assert ClaimOk(s, x); }
      forall b | b in s'.actors ensures ActorOk(s', b) { assert ActorOk(s, b); }
      forall p, r | (p, r) in s'.cancels ensures Registered(s', p, r, s'.cancels[(p, r)]) {
        assert Registered(s, p, r, s.cancels[(p, r)]);
      }
    }
  }

  // ----- every reachable state -----

  lemma CancelFireKeeps(s: System, c: nat)
    requires RunsOk(s) && c in s.cancellers && s.cancellers[c].Found?
    ensures RunsOk(DoCancelFire(s, c))
  {
    hide RunsOk;
    var p, r := s.cancellers[c].process, s.cancellers[c].run;
    if (p, r) in s.cancels { CloseKeeps(s, CloseRegistered(s, p, r), s.cancels[(p, r)], Canceled); }
    CancellersDoNotMatter(CloseRegistered(s, p, r), s.cancellers[c := Fired(r)]);
  }

  lemma FreeKeeps(s: System, a: nat)
    requires RunsOk(s) && a in s.actors && s.actors[a].Holding?
    ensures RunsOk(Free(s, a))
  {
    hide RunsOk;
    NobodyElsesClaim(s, a);
    WaitKeeps(s, Free(s, a), a);
  }

  lemma NobodyElsesClaim(s: System, a: nat)
    requires RunsOk(s) && a in s.actors && !s.actors[a].Launching? && !s.actors[a].Executing?
    ensures forall r :: r in s.claims ==> s.claims[r] != a
  {
    forall r | r in s.claims ensures s.claims[r] != a { assert ClaimOk(s, r); }
  }

  lemma ClaimedByKeeps(s: System, a: nat, r: string)
    requires RunsOk(s) && a in s.actors && s.actors[a].Holding?
    ensures RunsOk(ClaimedBy(s, a, r))
  {
    hide RunsOk;
    if r in s.table && s.table[r].status.Queued? {
      ClaimKeeps(s, ClaimedBy(s, a, r), a, r);
    } else {
      FreeKeeps(s, a);
    }
  }

  lemma RunsStep(s: System, step: Step)
    requires RunsOk(s) && Enabled(s, step)
    ensures RunsOk(Do(s, step))
  {
    hide RunsOk;
    match step
    case Submit(run) => SubmitKeeps(s, run);
    case Ask(a, _, _) => WaitKeeps(s, Do(s, step), a);
    case GiveUp(a) =>
      NobodyElsesClaim(s, a);
      WaitKeeps(s, Do(s, step), a);
    case Acquire(a) =>
      NobodyElsesClaim(s, a);
      WaitKeeps(s, Do(s, step), a);
    case ClaimOne(a) => ClaimedByKeeps(s, a, s.actors[a].target.value);
    case ClaimNext(a, r) => ClaimedByKeeps(s, a, r);
    case ClaimNothing(a) => FreeKeeps(s, a);
    case Launch(a) => LaunchKeeps(s, a);
    case Look(a) => LookKeeps(s, a);
    case Save(a) =>
      if s.actors[a].pc.Saving? { SaveStageKeeps(s, a); }
      else if s.actors[a].pc.Finishing? { SaveFinishedKeeps(s, a); }
      else { SaveFailureKeeps(s, a); }
    case Progress(a) => ProgressKeeps(s, a);
    case Break(a) => BreakKeeps(s, a);
    case Cleanup(a) => CleanupKeeps(s, DoCleanup(s, a), a);
    case Release(a) => ReleaseKeeps(s, DoRelease(s, a), a);
    case Timeout(a) => CloseKeeps(s, Do(s, step), a, Expired);
    case ShutDown(p, r) => CloseKeeps(s, Do(s, step), s.cancels[(p, r)], Canceled);
    case CancelRead(c, p, r) =>
      if !Terminal(s.table[r].status) { CancellersDoNotMatter(s, s.cancellers[c := Found(p, r)]); }
    case CancelFire(c) => CancelFireKeeps(s, c);
    case CancelSave(c) => CancelSaveKeeps(s, c);
  }

  ghost predicate AllSlotsOk(s: System) {
    forall p :: SlotsOk(s, p)
  }

  lemma ExecutionMoves(s: System, s': System, a: nat)
    requires Runs(s, a) && Runs(s', a) && s'.slots == s.slots && s'.cap == s.cap
    requires s'.actors == s.actors[a := s'.actors[a]] && s'.actors[a].process == s.actors[a].process
    ensures MovesOnly(s, s', a)
  {
  }

  lemma LookMoves(s: System, a: nat)
    requires Runs(s, a)
    ensures MovesOnly(s, DoLook(s, a), a)
  {
    hide MovesOnly;
    var e := s.actors[a];
    if e.pc.LastCheck? && e.ctx.Open? {
      ExecutionMoves(s, s.(actors := s.actors[a := e.(pc := Finishing, passed := true)]), a);
    } else {
      AtMoves(s, a, DoLook(s, a).actors[a].pc);
    }
  }

  lemma AtMoves(s: System, a: nat, pc: Pc)
    requires Runs(s, a)
    ensures MovesOnly(s, At(s, a, pc), a)
  {
  }

  /** What a save leaves behind: work on the stage, or the way out. */
  function AfterSave(e: Actor): Pc
    requires e.Executing?
  {
    match e.pc
    case Saving(stage) => Working(stage)
    case Finishing => Publishing
    case FailSaving(_) => Leaving
    case _ => e.pc
  }

  lemma SaveActors(s: System, a: nat)
    requires Runs(s, a)
    ensures DoSave(s, a).actors == s.actors[a := s.actors[a].(pc := AfterSave(s.actors[a]))] && DoSave(s, a).slots == s.slots
  {
    hide WithStatus, StageStatus, Terminal;
    if s.actors[a].pc == AfterSave(s.actors[a]) { assert DoSave(s, a).actors == s.actors; }
  }

  lemma SaveMoves(s: System, a: nat)
    requires Runs(s, a)
    ensures MovesOnly(s, DoSave(s, a), a)
  {
    hide DoSave, MovesOnly, AfterSave;
    SaveActors(s, a);
    ExecutionMoves(s, DoSave(s, a), a);
  }

  lemma CloseMoves(s: System, a: nat, cause: Context)
    ensures MovesOnly(s, Close(s, a, cause), a)
  {
    if Runs(s, a) && s.actors[a].ctx.Open? {
      hide MovesOnly;
      ExecutionMoves(s, Close(s, a, cause), a);
    }
  }

  lemma OthersMove(s: System, s': System)
    requires s'.cap == s.cap && s'.slots == s.slots && s'.actors == s.actors
    ensures MovesOnly(s, s', 0)
  {
  }

  lemma CloseThenMoves(s: System, p: nat, r: string, cancellers: map<nat, Canceller>)
    requires forall q :: SlotsOk(s, q)
    ensures forall q :: SlotsOk(CloseRegistered(s, p, r).(cancellers := cancellers), q)
  {
    var mid := CloseRegistered(s, p, r);
    hide SlotsOk, MovesOnly;
    if (p, r) in s.cancels {
      CloseMoves(s, s.cancels[(p, r)], Canceled);
      SlotsStay(s, mid, s.cancels[(p, r)]);
    }
    OthersMove(mid, mid.(cancellers := cancellers));
    SlotsStay(mid, mid.(cancellers := cancellers), 0);
  }

  lemma ClaimedBySlots(s: System, a: nat, r: string)
    requires forall p :: SlotsOk(s, p)
    requires a in s.actors && s.actors[a].Holding?
    ensures forall p :: SlotsOk(ClaimedBy(s, a, r), p)
  {
    hide SlotsOk;
    if r in s.table && s.table[r].status.Queued? {
      SlotsStay(s, ClaimedBy(s, a, r), a);
    } else {
      SlotFreed(s, a);
    }
  }

  lemma SlotsStep(s: System, step: Step)
    requires AllSlotsOk(s) && Enabled(s, step)
    ensures AllSlotsOk(Do(s, step))
  {
    hide SlotsOk, MovesOnly, DoLook, DoSave, Close, WithStatus, Free, ClaimedBy;
    var s' := Do(s, step);
    match step
    case Acquire(a) => SlotTaken(s, a);
    case ClaimNothing(a) => SlotFreed(s, a);
    case Release(a) =>
      SlotFreed(s, a);
      SlotsIgnoreDone(Free(s, a), DoRelease(s, a).done);
    case ClaimOne(a) => ClaimedBySlots(s, a, s.actors[a].target.value);
    case ClaimNext(a, r) => ClaimedBySlots(s, a, r);
    case Look(a) =>
      LookMoves(s, a);
      SlotsStay(s, s', a);
    case Save(a) =>
      SaveMoves(s, a);
      SlotsStay(s, s', a);
    case Timeout(a) =>
      CloseMoves(s, a, Expired);
      SlotsStay(s, s', a);
    case ShutDown(p, r) =>
      CloseMoves(s, s.cancels[(p, r)], Canceled);
      SlotsStay(s, s', s.cancels[(p, r)]);
    case CancelFire(c) =>
      CloseThenMoves(s, s.cancellers[c].process, s.cancellers[c].run, s'.cancellers);
    case _ => QuietStep(s, s', step);
  }

  lemma QuietStep(s: System, s': System, step: Step)
    requires AllSlotsOk(s) && Enabled(s, step) && s' == Do(s, step)
    requires step.Ask? || step.GiveUp? || step.Submit? || step.CancelRead? || step.CancelSave?
      || step.Launch? || step.Progress? || step.Break? || step.Cleanup?
    ensures AllSlotsOk(s')
  {
    hide AllSlotsOk, WithStatus;
    if step.Ask? || step.GiveUp? || step.Launch? {
      OneMoves(s, s', step.actor);
    } else if step.Progress? || step.Break? || step.Cleanup? {
      StageStep(s, s', step);
    } else {
      ActorsStay(s, s');
    }
  }

  lemma StageStep(s: System, s': System, step: Step)
    requires AllSlotsOk(s) && Enabled(s, step) && s' == Do(s, step)
    requires step.Progress? || step.Break? || step.Cleanup?
    ensures AllSlotsOk(s')
  {
    hide SlotsOk, MovesOnly, DoProgress, DoCleanup, At;
    var a := step.actor;
    if step.Cleanup? {
      CleanupMoves(s, a);
    } else if step.Break? {
      AtMoves(s, a, Failing);
    } else {
      ProgressMoves(s, a);
    }
    SlotsStay(s, s', a);
  }

  lemma ProgressMoves(s: System, a: nat)
    requires Runs(s, a)
    ensures MovesOnly(s, DoProgress(s, a), a)
  {
    hide MovesOnly;
    AtMoves(s, a, DoProgress(s, a).actors[a].pc);
  }

  lemma CleanupMoves(s: System, a: nat)
    requires Runs(s, a)
    ensures MovesOnly(s, DoCleanup(s, a), a)
  {
  }

  lemma ActorsStay(s: System, s': System)
    requires AllSlotsOk(s) && s'.cap == s.cap && s'.slots == s.slots && s'.actors == s.actors
    ensures AllSlotsOk(s')
  {
    forall p ensures SlotsOk(s', p) {
      assert SlotsOk(s, p);
      assert Holders(s', p) == Holders(s, p);
    }
  }

  lemma OneMoves(s: System, s': System, a: nat)
    requires AllSlotsOk(s) && s'.cap == s.cap && s'.slots == s.slots
    requires forall b :: b != a ==> (b in s'.actors <==> b in s.actors) && (b in s.actors ==> s'.actors[b] == s.actors[b])
    requires (a in s'.actors && !s'.actors[a].Waiting?) <==> (a in s.actors && !s.actors[a].Waiting?)
    requires a in s'.actors && a in s.actors ==> s'.actors[a].process == s.actors[a].process
    ensures AllSlotsOk(s')
  {
    SlotsStay(s, s', a);
  }

  lemma SlotsIgnoreDone(s: System, done: map<string, Status>)
    requires AllSlotsOk(s)
    ensures AllSlotsOk(s.(done := done))
  {
    forall p ensures SlotsOk(s.(done := done), p) {
      assert SlotsOk(s, p);
      assert Holders(s.(done := done), p) == Holders(s, p);
    }
  }

  lemma {:induction false} ReachableInv(cap: nat, steps: seq<Step>, s: System)
    requires Reaches(cap, steps, s)
    ensures RunsOk(s) && AllSlotsOk(s) && s.cap == cap
  {
    hide Enabled, Do;
    if steps == [] {
      EmptyIsOk(cap);
    } else {
      var n := |steps| - 1;
      var t :| Reaches(cap, steps[..n], t) && Enabled(t, steps[n]) && s == Do(t, steps[n]);
      hide RunsOk, AllSlotsOk;
      ReachableInv(cap, steps[..n], t);
      RunsStep(t, steps[n]);
      SlotsStep(t, steps[n]);
    }
  }

  lemma EmptyIsOk(cap: nat)
    ensures RunsOk(Empty(cap)) && AllSlotsOk(Empty(cap))
  {
    assert forall p :: Holders(Empty(cap), p) == {};
  }

  // ----- what it means for clients -----

  /** `s'` is where these further steps lead from `s`. */
  ghost predicate Follows(s: System, steps: seq<Step>, s': System) {
    if steps == [] then s' == s
    else
      var n := |steps| - 1;
      exists t :: Follows(s, steps[..n], t) && Enabled(t, steps[n]) && s' == Do(t, steps[n])
  }

  /** Claims and endings stand, and whoever was too early stays so. */
  ghost predicate Stands(s: System, s': System) {
    && (forall r :: r in s.claims ==> r in s'.claims && s'.claims[r] == s.claims[r])
    && (forall r :: r in s.done ==> r in s'.done && s'.done[r] == s.done[r])
    && s.early <= s'.early
  }

  lemma ClaimedByStands(s: System, a: nat, r: string)
    requires RunsOk(s) && a in s.actors
    ensures Stands(s, ClaimedBy(s, a, r))
  {
    if r in s.claims { assert ClaimOk(s, r); }
  }

  lemma ReleaseStands(s: System, a: nat)
    requires RunsOk(s) && Runs(s, a)
    ensures Stands(s, DoRelease(s, a))
  {
    var r := s.actors[a].run;
    assert ActorOk(s, a);
    assert ClaimOk(s, r);
  }

  lemma SameRecordStands(s: System, s': System)
    requires s'.claims == s.claims && s'.done == s.done && s.early <= s'.early
    ensures Stands(s, s')
  {
  }

  lemma OtherStepStands(s: System, step: Step)
    requires Enabled(s, step) && !step.ClaimOne? && !step.ClaimNext? && !step.Release?
    ensures Stands(s, Do(s, step))
  {
    hide OldestQueued, At, Free, DoLook, DoSave, DoProgress, DoCleanup, DoLaunch, DoCancelSave, Close, CloseRegistered,
      DoCancelFire, Stands;
    SameRecordStands(s, Do(s, step));
  }

  lemma StepStands(s: System, step: Step)
    requires RunsOk(s) && Enabled(s, step)
    ensures Stands(s, Do(s, step))
  {
    hide RunsOk, OldestQueued, Stands, ClaimedBy, DoRelease;
    if step.ClaimOne? {
      ClaimedByStands(s, step.actor, s.actors[step.actor].target.value);
    } else if step.ClaimNext? {
      ClaimedByStands(s, step.actor, step.run);
    } else if step.Release? {
      ReleaseStands(s, step.actor);
    } else {
      OtherStepStands(s, step);
    }
  }

  lemma {:induction false} FollowedStands(s: System, steps: seq<Step>, s': System)
    requires RunsOk(s) && Follows(s, steps, s')
    ensures RunsOk(s') && Stands(s, s')
  {
    hide RunsOk, Enabled, Do;
    if steps == [] {
      SameRecordStands(s, s');
    } else {
      var n := |steps| - 1;
      var t :| Follows(s, steps[..n], t) && Enabled(t, steps[n]) && s' == Do(t, steps[n]);
      FollowedStands(s, steps[..n], t);
      RunsStep(t, steps[n]);
      StepStands(t, steps[n]);
    }
  }

  /** Build slots in use are pending claims plus live executions, and never more than the cap. */
  lemma SlotsAreAccounted(cap: nat, steps: seq<Step>, s: System, p: nat)
    requires Reaches(cap, steps, s)
    ensures s.InUse(p) == |Holders(s, p)| <= cap
  {
    ReachableInv(cap, steps, s);
    assert SlotsOk(s, p);
  }

  /** Nobody else ever gets to work on a run, neither at the same time nor later. */
  lemma ExecutedAtMostOnce(cap: nat, steps: seq<Step>, s: System, more: seq<Step>, s': System, a: nat, b: nat, r: string)
    requires Reaches(cap, steps, s) && Follows(s, more, s')
    requires Works(s, a, r) && Works(s', b, r)
    ensures a == b
  {
    ReachableInv(cap, steps, s);
    FollowedStands(s, more, s');
    assert ActorOk(s, a) && ActorOk(s', b);
  }

  /** Once an execution has returned its run's ending is terminal and stays what it is. */
  lemma ReturnedIsFinal(cap: nat, steps: seq<Step>, s: System, more: seq<Step>, s': System, r: string)
    requires Reaches(cap, steps, s) && Follows(s, more, s')
    requires r in s.done
    ensures r in s.table && Terminal(s.table[r].status)
    ensures r in s'.table && s'.table[r].status == s.table[r].status
  {
    ReachableInv(cap, steps, s);
    FollowedStands(s, more, s');
    assert ClaimOk(s, r) && ClaimOk(s', r);
  }

  /** A registered cancel that fires before the run's last look at its context keeps it from finishing. */
  lemma EarlyCancelIsHeeded(cap: nat, steps: seq<Step>, s: System, c: nat, more: seq<Step>, s': System)
    requires Reaches(cap, steps, s) && Enabled(s, CancelFire(c))
    requires var f := s.cancellers[c];
      (f.process, f.run) in s.cancels && Runs(s, s.cancels[(f.process, f.run)]) && !s.actors[s.cancels[(f.process, f.run)]].passed
    requires Follows(Do(s, CancelFire(c)), more, s')
    ensures var r := s.cancellers[c].run; r in s'.table && !s'.table[r].status.Finished?
  {
    var f, mid := s.cancellers[c], Do(s, CancelFire(c));
    var a := s.cancels[(f.process, f.run)];
    ReachableInv(cap, steps, s);
    assert Registered(s, f.process, f.run, a) && ActorOk(s, a);
    assert f.run in mid.early;
    RunsStep(s, CancelFire(c));
    hide Do, Enabled, AllSlotsOk;
    FollowedStands(mid, more, s');
    EarlyNeverFinishes(s', f.run);
  }

  lemma EarlyNeverFinishes(s: System, r: string)
    requires RunsOk(s) && r in s.early
    ensures r in s.table && !s.table[r].status.Finished?
  {
    assert ClaimOk(s, r);
    if r !in s.done { assert ActorOk(s, s.claims[r]); }
  }

  ghost predicate StoredAs(s: System, r: string, status: Status) {
    r in s.table && s.table[r].status == status
  }

  lemma MissedCancel(s: System, c: nat) returns (s': System)
    requires c in s.cancellers && s.cancellers[c].Found? && (s.cancellers[c].process, s.cancellers[c].run) !in s.cancels
    requires var r := s.cancellers[c].run; r in s.table && !Terminal(s.table[r].status) && s.table[r].id == r
    ensures Follows(s, [CancelFire(c), CancelSave(c)], s')
    ensures StoredAs(s', s.cancellers[c].run, Cancelled) && s'.actors == s.actors && s'.table[s.cancellers[c].run].id == s.cancellers[c].run
  {
    hide Follows;
    var s1 := Do(s, CancelFire(c));
    s' := Do(s1, CancelSave(c));
    FollowsOne(s, CancelFire(c), s1);
    FollowsMore(s, [CancelFire(c)], s1, CancelSave(c), s');
    assert [CancelFire(c)] + [CancelSave(c)] == [CancelFire(c), CancelSave(c)];
  }

  lemma StageSteps(s: System, a: nat, r: string)
    requires a in s.actors && s.actors[a].Launching? && s.actors[a].run == r && r in s.table && s.table[r].id == r
    ensures Enabled(s, Launch(a))
    ensures Enabled(Do(s, Launch(a)), Look(a)) && Enabled(Do(Do(s, Launch(a)), Look(a)), Save(a))
    ensures StoredAs(Do(Do(Do(s, Launch(a)), Look(a)), Save(a)), r, Building)
  {
    var s2 := Do(Do(s, Launch(a)), Look(a));
    assert s2.actors[a].pc == Saving(0) && s2.table == s.table && s2.actors[a].run == r;
  }

  lemma StageOverwrites(s: System, a: nat, r: string) returns (s': System)
    requires a in s.actors && s.actors[a].Launching? && s.actors[a].run == r && r in s.table && s.table[r].id == r
    ensures Follows(s, [Launch(a), Look(a), Save(a)], s') && StoredAs(s', r, Building)
  {
    hide Follows, Enabled, Do;
    StageSteps(s, a, r);
    var s1 := Do(s, Launch(a));
    var s2 := Do(s1, Look(a));
    s' := Do(s2, Save(a));
    FollowsOne(s, Launch(a), s1);
    FollowsMore(s, [Launch(a)], s1, Look(a), s2);
    assert [Launch(a)] + [Look(a)] == [Launch(a), Look(a)];
    FollowsMore(s, [Launch(a), Look(a)], s2, Save(a), s');
    assert [Launch(a), Look(a)] + [Save(a)] == [Launch(a), Look(a), Save(a)];
  }

  // ----- a stored ending that does not last -----

  const VICTIM := Run("r", Queued, 0)

  /** A run is submitted, claimed, and looked up by a cancel before its execution has registered anything. */
  function UntilClaimed(): seq<Step> {
    [Submit(VICTIM), Ask(1, 0, Some("r")), Acquire(1), ClaimOne(1), CancelRead(7, 0, "r")]
  }

  lemma ReachesMore(cap: nat, steps: seq<Step>, t: System, step: Step)
    requires Reaches(cap, steps, t) && Enabled(t, step)
    ensures Reaches(cap, steps + [step], Do(t, step))
  {
    hide Enabled, Do;
    assert (steps + [step])[..|steps|] == steps;
  }

  lemma ReachesThenFollows(cap: nat, steps: seq<Step>, t: System, more: seq<Step>, s: System)
    requires Reaches(cap, steps, t) && Follows(t, more, s)
    ensures Reaches(cap, steps + more, s)
  {
    hide Enabled, Do;
    if more == [] {
      assert steps + more == steps;
    } else {
      var n := |more| - 1;
      var u :| Follows(t, more[..n], u) && Enabled(u, more[n]) && s == Do(u, more[n]);
      ReachesThenFollows(cap, steps, t, more[..n], u);
      assert (steps + more)[..|steps + more| - 1] == steps + more[..n];
    }
  }

  /** The state before the cancel looks the run up. */
  lemma ClaimedVictim(cap: nat) returns (s: System)
    requires cap >= 1
    ensures Reaches(cap, [Submit(VICTIM), Ask(1, 0, Some("r")), Acquire(1), ClaimOne(1)], s)
    ensures s.actors == map[1 := Launching(0, "r")] && s.cancellers == map[] && s.cancels == map[]
    ensures s.table == map["r" := VICTIM.(status := Building)]
  {
    var waiting := AskedVictim(cap);
    hide Reaches;
    var holding := Do(waiting, Acquire(1));
    ReachesMore(cap, [Submit(VICTIM), Ask(1, 0, Some("r"))], waiting, Acquire(1));
    assert [Submit(VICTIM), Ask(1, 0, Some("r"))] + [Acquire(1)] == [Submit(VICTIM), Ask(1, 0, Some("r")), Acquire(1)];
    s := Do(holding, ClaimOne(1));
    ReachesMore(cap, [Submit(VICTIM), Ask(1, 0, Some("r")), Acquire(1)], holding, ClaimOne(1));
    assert [Submit(VICTIM), Ask(1, 0, Some("r")), Acquire(1)] + [ClaimOne(1)]
        == [Submit(VICTIM), Ask(1, 0, Some("r")), Acquire(1), ClaimOne(1)];
  }

  lemma AskedVictim(cap: nat) returns (s: System)
    ensures Reaches(cap, [Submit(VICTIM), Ask(1, 0, Some("r"))], s)
    ensures s == Empty(cap).(table := map["r" := VICTIM], actors := map[1 := Waiting(0, Some("r"))])
  {
    StartsEmpty(cap);
    hide Reaches;
    var queued := Do(Empty(cap), Submit(VICTIM));
    ReachesMore(cap, [], Empty(cap), Submit(VICTIM));
    assert [] + [Submit(VICTIM)] == [Submit(VICTIM)];
    s := Do(queued, Ask(1, 0, Some("r")));
    ReachesMore(cap, [Submit(VICTIM)], queued, Ask(1, 0, Some("r")));
    assert [Submit(VICTIM)] + [Ask(1, 0, Some("r"))] == [Submit(VICTIM), Ask(1, 0, Some("r"))];
  }

  lemma ClaimedAndSought(cap: nat) returns (s: System)
    requires cap >= 1
    ensures Reaches(cap, UntilClaimed(), s)
    ensures s.actors == map[1 := Launching(0, "r")] && s.cancellers == map[7 := Found(0, "r")] && s.cancels == map[]
    ensures s.table == map["r" := VICTIM.(status := Building)]
  {
    hide Reaches;
    var claimed := ClaimedVictim(cap);
    s := Do(claimed, CancelRead(7, 0, "r"));
    ReachesMore(cap, [Submit(VICTIM), Ask(1, 0, Some("r")), Acquire(1), ClaimOne(1)], claimed, CancelRead(7, 0, "r"));
    assert [Submit(VICTIM), Ask(1, 0, Some("r")), Acquire(1), ClaimOne(1)] + [CancelRead(7, 0, "r")] == UntilClaimed();
  }

  lemma StartsEmpty(cap: nat)
    ensures Reaches(cap, [], Empty(cap))
  {
  }

  /**
   A cancel that looks for the cancel function before the execution registers it
   is written down and then overwritten: before an execution returns, a stored
   ending is not final. This is a run from the empty store, whatever the cap.
   */
  lemma UnregisteredCancelIsOverwritten(cap: nat) returns (cancelled: System, overwritten: System)
    requires cap >= 1
    ensures Reaches(cap, UntilClaimed() + [CancelFire(7), CancelSave(7)], cancelled) && StoredAs(cancelled, "r", Cancelled)
    ensures Reaches(cap, UntilClaimed() + [CancelFire(7), CancelSave(7)] + [Launch(1), Look(1), Save(1)], overwritten)
    ensures StoredAs(overwritten, "r", Building)
  {
    hide Follows, Reaches, UntilClaimed;
    var s := ClaimedAndSought(cap);
    cancelled := MissedCancel(s, 7);
    overwritten := StageOverwrites(cancelled, 1, "r");
    ReachesThenFollows(cap, UntilClaimed(), s, [CancelFire(7), CancelSave(7)], cancelled);
    ReachesThenFollows(cap, UntilClaimed() + [CancelFire(7), CancelSave(7)], cancelled, [Launch(1), Look(1), Save(1)], overwritten);
  }

  /** The one write that does not respect a stored ending: an execution that has looked at its context saves a stage. */
  predicate Overwrites(s: System, step: Step, r: string) {
    step.Save? && Runs(s, step.actor) && s.actors[step.actor].pc.Saving? && s.actors[step.actor].run == r
  }

  lemma StageIsNoEnding(stage: nat)
    ensures !Terminal(StageStatus(stage))
  {
  }

  lemma NamedAfterKey(s: System, r: string)
    requires RunsOk(s) && r in s.table
    ensures s.table[r].id == r
  {
    hide ClaimOk, ActorOk, CancelsOk;
  }

  /** A write that would turn one ending into another is dropped; a stage is written over any. */
  lemma WriteOverEnding(t: Table, q: string, status: Status, r: string)
    requires r in t && Terminal(t[r].status) && q in t && t[q].id == q && t[r].id == r
    ensures r in WithStatus(t, q, status)
    ensures WithStatus(t, q, status)[r].status != t[r].status <==> q == r && !Terminal(status)
  {
  }

  lemma SaveRespectsEndings(s: System, a: nat, r: string)
    requires RunsOk(s) && Enabled(s, Save(a)) && r in s.table && Terminal(s.table[r].status)
    ensures r in DoSave(s, a).table
    ensures DoSave(s, a).table[r].status != s.table[r].status <==> Overwrites(s, Save(a), r)
  {
    var q, pc := s.actors[a].run, s.actors[a].pc;
    NamedAfterKey(s, r);
    assert ActorOk(s, a);
    NamedAfterKey(s, q);
    hide RunsOk, WithStatus, Terminal;
    if pc.Saving? {
      StageIsNoEnding(pc.stage);
      WriteOverEnding(s.table, q, StageStatus(pc.stage), r);
    } else if pc.Finishing? {
      FinishedIsEnding();
      WriteOverEnding(s.table, q, Finished, r);
    } else {
      WriteOverEnding(s.table, q, pc.status, r);
    }
    hide StageStatus;
  }

  lemma FinishedIsEnding()
    ensures Terminal(Finished) && Terminal(Cancelled)
  {
  }

  lemma ClaimLeavesEndings(s: System, a: nat, q: string, r: string)
    requires a in s.actors && r in s.table && Terminal(s.table[r].status)
    ensures r in ClaimedBy(s, a, q).table && ClaimedBy(s, a, q).table[r] == s.table[r]
  {
  }

  lemma CancelSaveLeavesEndings(s: System, c: nat, r: string)
    requires RunsOk(s) && Enabled(s, CancelSave(c)) && r in s.table && Terminal(s.table[r].status)
    ensures r in DoCancelSave(s, c).table && DoCancelSave(s, c).table[r].status == s.table[r].status
  {
    var q := s.cancellers[c].run;
    NamedAfterKey(s, r);
    FinishedIsEnding();
    if q in s.table {
      NamedAfterKey(s, q);
      WriteOverEnding(s.table, q, Cancelled, r);
    }
    hide RunsOk, Terminal;
  }

  /** The steps that write to the store. */
  predicate Writes(step: Step) {
    step.Submit? || step.ClaimOne? || step.ClaimNext? || step.Save? || step.CancelSave?
  }

  lemma OthersKeepTable(s: System, step: Step)
    requires Enabled(s, step) && !Writes(step)
    ensures Do(s, step).table == s.table
  {
    hide OldestQueued, At, Free, DoLook, DoProgress, DoCleanup, DoLaunch, DoRelease, Close, CloseRegistered, DoCancelFire;
  }

  /** Exactly one kind of step changes a stored ending: an execution past its context check saving a stage of that run. */
  lemma EndingChangesIff(s: System, step: Step, r: string)
    requires RunsOk(s) && Enabled(s, step) && r in s.table && Terminal(s.table[r].status)
    ensures r in Do(s, step).table
    ensures Do(s, step).table[r].status != s.table[r].status <==> Overwrites(s, step, r)
  {
    if Writes(step) { WriteChangesIff(s, step, r); } else { OthersKeepTable(s, step); }
    hide RunsOk, Enabled, Do, Terminal;
  }

  lemma WriteChangesIff(s: System, step: Step, r: string)
    requires RunsOk(s) && Enabled(s, step) && r in s.table && Terminal(s.table[r].status) && Writes(step)
    ensures r in Do(s, step).table
    ensures Do(s, step).table[r].status != s.table[r].status <==> Overwrites(s, step, r)
  {
    hide RunsOk, OldestQueued, DoSave, DoCancelSave, ClaimedBy, Terminal;
    match step
    case ClaimOne(a) => ClaimLeavesEndings(s, a, s.actors[a].target.value, r);
    case ClaimNext(a, q) => ClaimLeavesEndings(s, a, q, r);
    case Save(a) => SaveRespectsEndings(s, a, r);
    case CancelSave(c) => CancelSaveLeavesEndings(s, c, r);
    case Submit(_) =>
  }

  /** The states a run passes through. */
  ghost predicate Passes(states: seq<System>, steps: seq<Step>) {
    && |states| == |steps| + 1
    && forall i :: 0 <= i < |steps| ==> Enabled(states[i], steps[i]) && states[i + 1] == Do(states[i], steps[i])
  }

  lemma {:induction false} PassesOk(states: seq<System>, steps: seq<Step>, i: nat)
    requires Passes(states, steps) && RunsOk(states[0]) && i <= |steps|
    ensures RunsOk(states[i])
  {
    hide RunsOk, Enabled, Do;
    if i > 0 {
      PassesOk(states, steps, i - 1);
      assert Enabled(states[i - 1], steps[i - 1]);
      RunsStep(states[i - 1], steps[i - 1]);
    }
  }

  ghost predicate Keeps(states: seq<System>, r: string, status: Status, n: nat) {
    forall i :: 0 <= i < |states| && i <= n ==> StoredAs(states[i], r, status)
  }

  ghost predicate NobodyOverwrites(states: seq<System>, steps: seq<Step>, r: string, n: nat)
    requires |states| > |steps|
  {
    forall i :: 0 <= i < |steps| && i < n ==> !Overwrites(states[i], steps[i], r)
  }

  lemma {:induction false} KeptUpTo(states: seq<System>, steps: seq<Step>, r: string, status: Status, n: nat)
    requires Passes(states, steps) && RunsOk(states[0]) && n <= |steps|
    requires StoredAs(states[0], r, status) && Terminal(status)
    ensures Keeps(states, r, status, n) <==> NobodyOverwrites(states, steps, r, n)
  {
    hide RunsOk, Enabled, Do, Overwrites, Terminal;
    if n > 0 {
      KeptUpTo(states, steps, r, status, n - 1);
      PassesOk(states, steps, n - 1);
      assert Enabled(states[n - 1], steps[n - 1]) && states[n] == Do(states[n - 1], steps[n - 1]);
      if Keeps(states, r, status, n - 1) {
        assert StoredAs(states[n - 1], r, status);
        EndingChangesIff(states[n - 1], steps[n - 1], r);
      }
    }
  }

  /** Over any run, a stored ending lasts from one moment to another exactly when no stage is saved over it in between. */
  lemma EndingLastsIff(cap: nat, before: seq<Step>, states: seq<System>, steps: seq<Step>, r: string, status: Status)
    requires Passes(states, steps) && Reaches(cap, before, states[0])
    requires StoredAs(states[0], r, status) && Terminal(status)
    ensures (forall i :: 0 <= i < |states| ==> StoredAs(states[i], r, status))
        <==> (forall i :: 0 <= i < |steps| ==> !Overwrites(states[i], steps[i], r))
  {
    hide Enabled, Do, Overwrites, Terminal, Passes, Reaches, StoredAs, RunsOk, AllSlotsOk;
    PassesLength(states, steps);
    ReachableInv(cap, before, states[0]);
    KeptUpTo(states, steps, r, status, |steps|);
  }

  lemma PassesLength(states: seq<System>, steps: seq<Step>)
    requires Passes(states, steps)
    ensures |states| == |steps| + 1
  {
  }

  lemma FollowsOne(s: System, step: Step, s': System)
    requires Enabled(s, step) && s' == Do(s, step)
    ensures Follows(s, [step], s')
  {
    hide Enabled, Do;
    assert Follows(s, [], s);
    FollowsMore(s, [], s, step, s');
    assert [] + [step] == [step];
  }

  lemma FollowsMore(s: System, steps: seq<Step>, t: System, step: Step, s': System)
    requires Follows(s, steps, t) && Enabled(t, step) && s' == Do(t, step)
    ensures Follows(s, steps + [step], s')
  {
    hide Enabled, Do;
    assert (steps + [step])[..|steps|] == steps;
  }

  // ----- when a stored ending is final -----

  /** The actor will save a stage of `r`, or would if it went on undisturbed. */
  predicate MaySave(e: Actor, r: string) {
    match e
    case Launching(_, q) => q == r
    case Executing(_, q, pc, ctx, _) =>
      && q == r
      && (match pc
          case Saving(_) => true
          case Checking(_) => ctx.Open?
          case Working(stage) => ctx.Open? && stage + 1 < STAGES
          case _ => false)
    case _ => false
  }

  ghost predicate SomebodyMaySave(s: System, r: string) {
    exists a: nat :: a in s.actors && MaySave(s.actors[a], r)
  }

  /** Every continuation keeps the ending. */
  ghost predicate IsFinal(s: System, r: string, status: Status) {
    forall steps, s' :: Follows(s, steps, s') ==> StoredAs(s', r, status)
  }

  lemma ClosingSavesNothing(s: System, a: nat, cause: Context, r: string, b: nat)
    requires cause != Open && b in Close(s, a, cause).actors && MaySave(Close(s, a, cause).actors[b], r)
    ensures b in s.actors && MaySave(s.actors[b], r)
  {
  }

  lemma ClaimingSavesNothing(s: System, a: nat, q: string, r: string, b: nat)
    requires a in s.actors && r in s.table && Terminal(s.table[r].status)
    requires b in ClaimedBy(s, a, q).actors && MaySave(ClaimedBy(s, a, q).actors[b], r)
    ensures b in s.actors && MaySave(s.actors[b], r)
  {
  }

  lemma MovingSavesNothing(s: System, a: nat, pc: Pc, r: string, b: nat)
    requires Runs(s, a) && (MaySave(s.actors[a].(pc := pc), r) ==> MaySave(s.actors[a], r))
    requires b in At(s, a, pc).actors && MaySave(At(s, a, pc).actors[b], r)
    ensures b in s.actors && MaySave(s.actors[b], r)
  {
    hide MaySave;
  }

  lemma PassingSavesNothing(s: System, a: nat, r: string, b: nat)
    requires Runs(s, a) && s.actors[a].pc.LastCheck? && b in DoLook(s, a).actors && MaySave(DoLook(s, a).actors[b], r)
    ensures b in s.actors && MaySave(s.actors[b], r)
  {
  }

  lemma LookSavesNothing(s: System, a: nat, r: string, b: nat)
    requires Enabled(s, Look(a)) && b in DoLook(s, a).actors && MaySave(DoLook(s, a).actors[b], r)
    ensures b in s.actors && MaySave(s.actors[b], r)
  {
    var e := s.actors[a];
    hide At;
    if e.pc.Checking? {
      MovingSavesNothing(s, a, if e.ctx.Open? then Saving(e.pc.stage) else Failing, r, b);
    } else if e.pc.LastCheck? {
      PassingSavesNothing(s, a, r, b);
    } else {
      MovingSavesNothing(s, a, FailSaving(FailureStatus(e.ctx)), r, b);
    }
  }

  lemma SaverWasSaving(e: Actor, r: string)
    requires e.Executing? && MaySave(e.(pc := AfterSave(e)), r)
    ensures MaySave(e, r)
  {
  }

  lemma SaveSavesNothing(s: System, a: nat, r: string, b: nat)
    requires Enabled(s, Save(a)) && b in DoSave(s, a).actors && MaySave(DoSave(s, a).actors[b], r)
    ensures b in s.actors && MaySave(s.actors[b], r)
  {
    hide MaySave, DoSave, AfterSave;
    SaveActors(s, a);
    if b == a { SaverWasSaving(s.actors[a], r); }
  }

  lemma ProgressSavesNothing(s: System, a: nat, r: string, b: nat)
    requires Enabled(s, Progress(a)) && b in DoProgress(s, a).actors && MaySave(DoProgress(s, a).actors[b], r)
    ensures b in s.actors && MaySave(s.actors[b], r)
  {
    var e := s.actors[a];
    hide At;
    if e.pc.Working? {
      MovingSavesNothing(s, a, if e.pc.stage + 1 < STAGES then Checking(e.pc.stage + 1) else LastCheck, r, b);
    } else {
      MovingSavesNothing(s, a, Leaving, r, b);
    }
  }

  lemma LaunchSavesNothing(s: System, a: nat, r: string, b: nat)
    requires Enabled(s, Launch(a)) && b in DoLaunch(s, a).actors && MaySave(DoLaunch(s, a).actors[b], r)
    ensures b in s.actors && MaySave(s.actors[b], r)
  {
  }

  lemma LeavingSavesNothing(s: System, a: nat, r: string, b: nat)
    requires Runs(s, a)
    requires (b in DoCleanup(s, a).actors && MaySave(DoCleanup(s, a).actors[b], r)) || (b in DoRelease(s, a).actors && MaySave(DoRelease(s, a).actors[b], r))
    ensures b in s.actors && MaySave(s.actors[b], r)
  {
  }

  predicate OfExecution(step: Step) {
    step.Launch? || step.Look? || step.Save? || step.Progress? || step.Break? || step.Cleanup? || step.Release?
  }

  /** Whatever an execution does, it was on its way to a save if it still is. */
  lemma ExecutingSavesNothing(s: System, step: Step, r: string, b: nat)
    requires OfExecution(step) && Enabled(s, step) && b in Do(s, step).actors && MaySave(Do(s, step).actors[b], r)
    ensures b in s.actors && MaySave(s.actors[b], r)
  {
    hide MaySave, At, DoLaunch, DoLook, DoSave, DoProgress, DoCleanup, DoRelease;
    match step
    case Launch(a) => LaunchSavesNothing(s, a, r, b);
    case Look(a) => LookSavesNothing(s, a, r, b);
    case Save(a) => SaveSavesNothing(s, a, r, b);
    case Progress(a) => ProgressSavesNothing(s, a, r, b);
    case Break(a) => FailingSavesNothing(s, a, r); MovingSavesNothing(s, a, Failing, r, b);
    case Cleanup(a) => LeavingSavesNothing(s, a, r, b);
    case Release(a) => LeavingSavesNothing(s, a, r, b);
  }

  lemma FailingSavesNothing(s: System, a: nat, r: string)
    requires Runs(s, a)
    ensures !MaySave(s.actors[a].(pc := Failing), r)
  {
  }

  /** While `r` has an ending stored, nobody new sets out to save a stage of it. */
  lemma NobodyNewSaves(s: System, step: Step, r: string, b: nat)
    requires Enabled(s, step) && r in s.table && Terminal(s.table[r].status)
    requires b in Do(s, step).actors && MaySave(Do(s, step).actors[b], r)
    ensures b in s.actors && MaySave(s.actors[b], r)
  {
    if OfExecution(step) { ExecutingSavesNothing(s, step, r, b); } else { OthersSaveNothing(s, step, r, b); }
    hide MaySave, Enabled, Do, Terminal;
  }

  lemma OthersSaveNothing(s: System, step: Step, r: string, b: nat)
    requires !OfExecution(step) && Enabled(s, step) && r in s.table && Terminal(s.table[r].status)
    requires b in Do(s, step).actors && MaySave(Do(s, step).actors[b], r)
    ensures b in s.actors && MaySave(s.actors[b], r)
  {
    hide MaySave, Close, ClaimedBy, OldestQueued, DoLook, DoSave, DoProgress, DoCleanup, DoRelease, DoLaunch, WithStatus, At, DoCancelFire, CloseRegistered, Terminal;
    match step
    case ClaimOne(a) => ClaimingSavesNothing(s, a, s.actors[a].target.value, r, b);
    case ClaimNext(a, q) => ClaimingSavesNothing(s, a, q, r, b);
    case Timeout(a) => ClosingSavesNothing(s, a, Expired, r, b);
    case ShutDown(p, q) => ShuttingSavesNothing(s, p, q, r, b);
    case CancelFire(c) => FiredActors(s, c); ShuttingSavesNothing(s, s.cancellers[c].process, s.cancellers[c].run, r, b);
    case Ask(a, p, target) => AskingSavesNothing(p, target, r);
    case Acquire(a) => AskingSavesNothing(s.actors[a].process, s.actors[a].target, r);
    case _ =>
  }

  lemma FiredActors(s: System, c: nat)
    requires c in s.cancellers && s.cancellers[c].Found?
    ensures DoCancelFire(s, c).actors == CloseRegistered(s, s.cancellers[c].process, s.cancellers[c].run).actors
  {
  }

  lemma ShuttingSavesNothing(s: System, p: nat, q: string, r: string, b: nat)
    requires b in CloseRegistered(s, p, q).actors && MaySave(CloseRegistered(s, p, q).actors[b], r)
    ensures b in s.actors && MaySave(s.actors[b], r)
  {
    hide MaySave, Close;
    if (p, q) in s.cancels { ClosingSavesNothing(s, s.cancels[(p, q)], Canceled, r, b); }
  }

  lemma AskingSavesNothing(p: nat, target: Option<string>, r: string)
    ensures !MaySave(Waiting(p, target), r) && !MaySave(Holding(p, target), r)
  {
  }

  lemma OverwriterMaySave(s: System, step: Step, r: string)
    requires Enabled(s, step) && Overwrites(s, step, r)
    ensures SomebodyMaySave(s, r)
  {
    assert MaySave(s.actors[step.actor], r);
  }

  /** With nobody left to save a stage, the ending stays through every continuation. */
  lemma {:induction false} NobodySavesLasts(s: System, steps: seq<Step>, s': System, r: string, status: Status)
    requires RunsOk(s) && StoredAs(s, r, status) && Terminal(status) && !SomebodyMaySave(s, r)
    requires Follows(s, steps, s')
    ensures RunsOk(s') && StoredAs(s', r, status) && !SomebodyMaySave(s', r)
  {
    hide RunsOk, Enabled, Do, Terminal, MaySave, Overwrites;
    if steps != [] {
      var n := |steps| - 1;
      var t :| Follows(s, steps[..n], t) && Enabled(t, steps[n]) && s' == Do(t, steps[n]);
      NobodySavesLasts(s, steps[..n], t, r, status);
      RunsStep(t, steps[n]);
      EndingChangesIff(t, steps[n], r);
      if Overwrites(t, steps[n], r) { OverwriterMaySave(t, steps[n], r); }
      forall b: nat | b in s'.actors && MaySave(s'.actors[b], r) ensures b in t.actors && MaySave(t.actors[b], r) {
        NobodyNewSaves(t, steps[n], r, b);
      }
    }
  }

  /** An actor about to save a stage needs at most three steps to do so. */
  function SavingSteps(e: Actor, a: nat): seq<Step> {
    if e.Launching? then [Launch(a), Look(a), Save(a)]
    else if e.Executing? && e.pc.Working? then [Progress(a), Look(a), Save(a)]
    else if e.Executing? && e.pc.Checking? then [Look(a), Save(a)]
    else [Save(a)]
  }

  lemma SavesAStage(s: System, a: nat, r: string) returns (s': System)
    requires Runs(s, a) && s.actors[a].pc.Saving? && s.actors[a].run == r && r in s.table && s.table[r].id == r
    ensures Enabled(s, Save(a)) && s' == Do(s, Save(a)) && r in s'.table && !Terminal(s'.table[r].status)
  {
    s' := Do(s, Save(a));
    StageIsNoEnding(s.actors[a].pc.stage);
    hide StageStatus, Terminal;
  }

  lemma LooksAndSaves(s: System, a: nat, r: string) returns (mid: System, s': System)
    requires Runs(s, a) && s.actors[a].pc.Checking? && s.actors[a].ctx.Open? && s.actors[a].run == r && r in s.table && s.table[r].id == r
    ensures Enabled(s, Look(a)) && mid == Do(s, Look(a)) && Enabled(mid, Save(a)) && s' == Do(mid, Save(a))
    ensures r in s'.table && !Terminal(s'.table[r].status)
  {
    hide Terminal, DoSave;
    mid := Do(s, Look(a));
    s' := SavesAStage(mid, a, r);
  }

  lemma SaverOverwrites(s: System, a: nat, r: string) returns (s': System)
    requires a in s.actors && MaySave(s.actors[a], r) && r in s.table && s.table[r].id == r
    ensures Follows(s, SavingSteps(s.actors[a], a), s') && r in s'.table && !Terminal(s'.table[r].status)
  {
    hide Follows, Terminal, DoSave, DoLook;
    var e := s.actors[a];
    if e.Launching? || e.pc.Working? {
      var first := if e.Launching? then Launch(a) else Progress(a);
      var s1 := Do(s, first);
      var s2;
      s2, s' := LooksAndSaves(s1, a, r);
      hide Do, Enabled;
      FollowsOne(s, first, s1);
      FollowsMore(s, [first], s1, Look(a), s2);
      FollowsMore(s, [first] + [Look(a)], s2, Save(a), s');
      assert [first] + [Look(a)] + [Save(a)] == SavingSteps(e, a);
    } else if e.pc.Checking? {
      var s1;
      s1, s' := LooksAndSaves(s, a, r);
      hide Do, Enabled;
      FollowsOne(s, Look(a), s1);
      FollowsMore(s, [Look(a)], s1, Save(a), s');
      assert [Look(a)] + [Save(a)] == SavingSteps(e, a);
    } else {
      s' := SavesAStage(s, a, r);
      hide Do, Enabled;
      FollowsOne(s, Save(a), s');
    }
  }

  /**
   In every reachable state, a stored ending of `r` is final over all continuations
   if and only if nobody is launching `r`, saving a stage of it, or on the way to
   one with an open context.
   */
  lemma EndingIsFinalIff(cap: nat, before: seq<Step>, s: System, r: string, status: Status)
    requires Reaches(cap, before, s) && StoredAs(s, r, status) && Terminal(status)
    ensures IsFinal(s, r, status) <==> !SomebodyMaySave(s, r)
  {
    ReachableInv(cap, before, s);
    NamedAfterKey(s, r);
    hide RunsOk, Reaches, Follows, Terminal, MaySave, AllSlotsOk;
    if SomebodyMaySave(s, r) {
      var a: nat :| a in s.actors && MaySave(s.actors[a], r);
      var s' := SaverOverwrites(s, a, r);
      assert !StoredAs(s', r, status);
    } else {
      forall steps, s' | Follows(s, steps, s') ensures StoredAs(s', r, status) {
        NobodySavesLasts(s, steps, s', r, status);
      }
    }
  }
}
