/**
 Processes that share one run store: requests wait for a build slot, claim a run
 and execute it, while cancels, timeouts and shutdowns fire at any moment. Every
 store operation is one step; so is every look at a context or at the table of
 cancel functions.
 */
module RunLifecycle {
  import opened Types
  import opened RunStore

  /** A run's context: what `ctx.Err()` says, first cause wins. */
  datatype Context = Open | Canceled | Expired

  /** Where an execution stands. `stage` counts the six transitions from Building to Scoring. */
  datatype Pc =
    | Checking(stage: nat)            // about to look at the context before a transition
    | Saving(stage: nat)              // has looked, and writes the new status
    | Working(stage: nat)
    | LastCheck
    | Finishing                       // about to write Finished
    | Publishing                      // has written it
    | Failing                         // about to look at the context to name the failure
    | FailSaving(status: Status)
    | Leaving                         // deferred cleanup: drop the cancel function
    | Releasing                       // deferred cleanup: give the slot back

  datatype Actor =
    | Waiting(process: nat, target: Option<string>)   // parked on the slot channel
    | Holding(process: nat, target: Option<string>)   // has a slot, about to claim
    | Launching(process: nat, run: string)            // has claimed, about to register its cancel function
    | Executing(process: nat, run: string, pc: Pc, ctx: Context, passed: bool)  // `passed` its last look at the context

  /** A cancel request between reading the run and writing it. */
  datatype Canceller =
    | Found(process: nat, run: string)
    | Fired(run: string)

  /** `claims` and `done` remember who claimed each run and which executions have returned. */
  datatype System = System(
    table: Table,
    cap: nat,
    slots: map<nat, nat>,
    cancels: map<(nat, string), nat>,
    actors: map<nat, Actor>,
    cancellers: map<nat, Canceller>,
    claims: map<string, nat>,
    done: map<string, Status>,
    early: set<string>)
  {
    function InUse(p: nat): nat {
      if p in slots then slots[p] else 0
    }
  }

  const STAGES := 6

  function StageStatus(stage: nat): Status {
    if stage == 0 then Building
    else if stage == 1 then SandboxStarting
    else if stage == 2 then HealthChecking
    else if stage == 3 then Benchmarking
    else if stage == 4 then Validating
    else Scoring
  }

  function FailureStatus(ctx: Context): Status {
    match ctx
    case Canceled => Cancelled
    case Expired => TimedOut
    case Open => Failed
  }

  function Empty(cap: nat): System {
    System(map[], cap, map[], map[], map[], map[], map[], map[], {})
  }

  datatype Step =
    | Submit(queued: Run)
    | Ask(actor: nat, process: nat, target: Option<string>)
    | GiveUp(actor: nat)
    | Acquire(actor: nat)
    | ClaimOne(actor: nat)                  // StartRun
    | ClaimNext(actor: nat, run: string)    // StartNextQueued, finding `run`
    | ClaimNothing(actor: nat)              // StartNextQueued, finding none
    | Launch(actor: nat)
    | Look(actor: nat)                      // an execution's look at its context
    | Save(actor: nat)                      // an execution's write
    | Progress(actor: nat)                  // a stage's work succeeds
    | Break(actor: nat)                     // a stage fails or panics
    | Cleanup(actor: nat)
    | Release(actor: nat)
    | Timeout(actor: nat)
    | ShutDown(process: nat, run: string)
    | CancelRead(canceller: nat, process: nat, run: string)
    | CancelFire(canceller: nat)
    | CancelSave(canceller: nat)

  predicate Runs(s: System, a: nat) {
    a in s.actors && s.actors[a].Executing?
  }

  predicate Enabled(s: System, step: Step) {
    match step
    case Submit(run) => run.id !in s.table && run.status.Queued?
    case Ask(a, _, _) => a !in s.actors && forall r :: r in s.claims ==> s.claims[r] != a
    case GiveUp(a) => a in s.actors && s.actors[a].Waiting?
    case Acquire(a) => a in s.actors && s.actors[a].Waiting? && s.InUse(s.actors[a].process) < s.cap
    case ClaimOne(a) => a in s.actors && s.actors[a].Holding? && s.actors[a].target.Some?
    case ClaimNext(a, r) => a in s.actors && s.actors[a].Holding? && s.actors[a].target.None? && OldestQueued(s.table, r)
    case ClaimNothing(a) =>
      && a in s.actors && s.actors[a].Holding? && s.actors[a].target.None?
      && forall r :: r in s.table ==> !s.table[r].status.Queued?
    case Launch(a) => a in s.actors && s.actors[a].Launching?
    case Look(a) => Runs(s, a) && (s.actors[a].pc.Checking? || s.actors[a].pc.LastCheck? || s.actors[a].pc.Failing?)
    case Save(a) => Runs(s, a) && (s.actors[a].pc.Saving? || s.actors[a].pc.Finishing? || s.actors[a].pc.FailSaving?)
    case Progress(a) => Runs(s, a) && (s.actors[a].pc.Working? || s.actors[a].pc.Publishing?)
    // Preparing artifacts, writing the run's own files or any stage may fail or panic.
    case Break(a) =>
      Runs(s, a) && (s.actors[a].pc.Checking? || s.actors[a].pc.Saving? || s.actors[a].pc.Working? ||
                     s.actors[a].pc.LastCheck? || s.actors[a].pc.Finishing? || s.actors[a].pc.Publishing?)
    case Cleanup(a) => Runs(s, a) && s.actors[a].pc.Leaving?
    case Release(a) => Runs(s, a) && s.actors[a].pc.Releasing? && s.InUse(s.actors[a].process) > 0
    case Timeout(a) => Runs(s, a) && s.actors[a].ctx.Open?
    case ShutDown(p, r) => (p, r) in s.cancels
    case CancelRead(c, _, r) => c !in s.cancellers && r in s.table
    case CancelFire(c) => c in s.cancellers && s.cancellers[c].Found?
    case CancelSave(c) => c in s.cancellers && s.cancellers[c].Fired?
  }

  /** Closes a context that is still open; a run closed before its last look is remembered. */
  function Close(s: System, a: nat, cause: Context): (r: System)
    ensures r.table == s.table && r.cap == s.cap && r.claims == s.claims && r.done == s.done && s.early <= r.early
  {
    if Runs(s, a) && s.actors[a].ctx.Open? then
      var e := s.actors[a];
      s.(actors := s.actors[a := e.(ctx := cause)], early := if e.passed then s.early else s.early + {e.run})
    else s
  }

  function CloseRegistered(s: System, p: nat, r: string): (after: System)
    ensures after.table == s.table && after.cap == s.cap && after.claims == s.claims && after.done == s.done && s.early <= after.early
  {
    if (p, r) in s.cancels then Close(s, s.cancels[(p, r)], Canceled) else s
  }

  function At(s: System, a: nat, pc: Pc): (r: System)
    requires Runs(s, a)
    ensures r.table == s.table && r.cap == s.cap && r.claims == s.claims && r.done == s.done && r.early == s.early
  {
    s.(actors := s.actors[a := s.actors[a].(pc := pc)])
  }

  function WithStatus(t: Table, r: string, status: Status): Table {
    if r in t then Written(t, t[r].(status := status)) else t
  }

  function Free(s: System, a: nat): (r: System)
    requires a in s.actors
    ensures r.table == s.table && r.cap == s.cap && r.claims == s.claims && r.done == s.done && r.early == s.early
  {
    var p := s.actors[a].process;
    s.(actors := s.actors - {a}, slots := s.slots[p := if s.InUse(p) > 0 then s.InUse(p) - 1 else 0])
  }

  function DoLaunch(s: System, a: nat): (r: System)
    requires a in s.actors && s.actors[a].Launching?
    ensures r.table == s.table && r.cap == s.cap && r.claims == s.claims && r.done == s.done && r.early == s.early
  {
    var p, r := s.actors[a].process, s.actors[a].run;
    s.(actors := s.actors[a := Executing(p, r, Checking(0), Open, false)], cancels := s.cancels[(p, r) := a])
  }

  function DoLook(s: System, a: nat): (r: System)
    requires Runs(s, a)
    ensures r.table == s.table && r.cap == s.cap && r.claims == s.claims && r.done == s.done && r.early == s.early
  {
    var e := s.actors[a];
    match e.pc
    case Checking(stage) => At(s, a, if e.ctx.Open? then Saving(stage) else Failing)
    case LastCheck => if e.ctx.Open? then s.(actors := s.actors[a := e.(pc := Finishing, passed := true)]) else At(s, a, Failing)
    case _ => At(s, a, FailSaving(FailureStatus(e.ctx)))
  }

  function DoSave(s: System, a: nat): (r: System)
    requires Runs(s, a)
    ensures r.cap == s.cap && r.claims == s.claims && r.done == s.done && r.early == s.early
  {
    var e := s.actors[a];
    match e.pc
    case Saving(stage) => At(s.(table := WithStatus(s.table, e.run, StageStatus(stage))), a, Working(stage))
    case Finishing => At(s.(table := WithStatus(s.table, e.run, Finished)), a, Publishing)
    case FailSaving(status) => At(s.(table := WithStatus(s.table, e.run, status)), a, Leaving)
    case _ => s
  }

  function DoProgress(s: System, a: nat): (r: System)
    requires Runs(s, a)
    ensures r.table == s.table && r.cap == s.cap && r.claims == s.claims && r.done == s.done && r.early == s.early
  {
    match s.actors[a].pc
    case Working(stage) => At(s, a, if stage + 1 < STAGES then Checking(stage + 1) else LastCheck)
    case _ => At(s, a, Leaving)
  }

  function DoCleanup(s: System, a: nat): (r: System)
    requires Runs(s, a)
    ensures r.table == s.table && r.cap == s.cap && r.claims == s.claims && r.done == s.done && r.early == s.early
  {
    var e := s.actors[a];
    At(s.(cancels := s.cancels - {(e.process, e.run)}), a, Releasing)
  }

  function DoRelease(s: System, a: nat): (r: System)
    requires Runs(s, a)
    ensures r.table == s.table && r.cap == s.cap
  {
    var r := s.actors[a].run;
    Free(s, a).(done := if r in s.table then s.done[r := s.table[r].status] else s.done)
  }

  function DoCancelFire(s: System, c: nat): (r: System)
    requires c in s.cancellers && s.cancellers[c].Found?
    ensures r.table == s.table && r.cap == s.cap && r.claims == s.claims && r.done == s.done && s.early <= r.early
  {
    var p, r := s.cancellers[c].process, s.cancellers[c].run;
    CloseRegistered(s, p, r).(cancellers := s.cancellers[c := Fired(r)])
  }

  function DoCancelSave(s: System, c: nat): (r: System)
    requires c in s.cancellers
    ensures r.cap == s.cap && r.claims == s.claims && r.done == s.done && r.early == s.early
  {
    s.(table := WithStatus(s.table, s.cancellers[c].run, Cancelled), cancellers := s.cancellers - {c})
  }

  function Do(s: System, step: Step): (r: System)
    requires Enabled(s, step)
    ensures r.cap == s.cap
  {
    match step
    case Submit(run) => s.(table := s.table[run.id := run])
    case Ask(a, p, target) => s.(actors := s.actors[a := Waiting(p, target)])
    case GiveUp(a) => s.(actors := s.actors - {a})
    case Acquire(a) =>
      var p := s.actors[a].process;
      s.(actors := s.actors[a := Holding(p, s.actors[a].target)], slots := s.slots[p := s.InUse(p) + 1])
    case ClaimOne(a) => ClaimedBy(s, a, s.actors[a].target.value)
    case ClaimNext(a, r) => ClaimedBy(s, a, r)
    case ClaimNothing(a) => Free(s, a)
    case Launch(a) => DoLaunch(s, a)
    case Look(a) => DoLook(s, a)
    case Save(a) => DoSave(s, a)
    case Progress(a) => DoProgress(s, a)
    case Break(a) => At(s, a, Failing)
    case Cleanup(a) => DoCleanup(s, a)
    case Release(a) => DoRelease(s, a)
    case Timeout(a) => Close(s, a, Expired)
    case ShutDown(p, r) => CloseRegistered(s, p, r)
    case CancelRead(c, p, r) =>
      if Terminal(s.table[r].status) then s else s.(cancellers := s.cancellers[c := Found(p, r)])
    case CancelFire(c) => DoCancelFire(s, c)
    case CancelSave(c) => DoCancelSave(s, c)
  }

  /** Only a queued run is claimed; otherwise the slot goes back at once. */
  function ClaimedBy(s: System, a: nat, r: string): (after: System)
    requires a in s.actors
    ensures after.cap == s.cap
  {
    if r in s.table && s.table[r].status.Queued? then
      s.(table := Claimed(s.table, r), claims := s.claims[r := a], actors := s.actors[a := Launching(s.actors[a].process, r)])
    else Free(s, a)
  }

  ghost predicate Reaches(cap: nat, steps: seq<Step>, s: System) {
    if steps == [] then s == Empty(cap)
    else
      var n := |steps| - 1;
      exists t :: Reaches(cap, steps[..n], t) && Enabled(t, steps[n]) && s == Do(t, steps[n])
  }
}
