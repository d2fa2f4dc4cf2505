/**
 The ring-fed engine, while misses are harmless, takes step for step what the
 locked engine could take; so the validator accepts all of its runs too.
 */
module DisruptorEndToEnd {
  import opened Types
  import opened BookSpec
  import BookSafety
  import opened EngineSpec
  import opened Replay
  import opened Validator
  import opened Disruptor
  import opened DisruptorSafety
  import Ring
  import C = ConcurrentEngine
  import EndToEnd

  // ----- what clients send -----

  predicate CorrectRequest(s: Engine, req: Request) {
    req.NewRequest? ==>
      && req.input.knownSide && req.Id() != "" && req.input.order.symbol != ""
      && req.Id() !in s.sent
  }

  /** Every id is new; a cancel may name any order. */
  predicate OwnIds(s: Engine, move: Move) {
    match move
    case InRing(_, step) => step.Claim? ==> CorrectRequest(s, step.item)
    case Lookup(_, id, _) => id != "" && id !in s.sent
    case _ => true
  }

  /** A cancel that missed the index draws its number while its order neither rests nor is about to. */
  predicate HarmlessMove(s: Engine, move: Move) {
    move.Miss? && move.goroutine in s.lookups ==> !C.RestsOrWill(s.core, s.lookups[move.goroutine].orig)
  }

  predicate Correct(s: Engine, move: Move) {
    OwnIds(s, move) && HarmlessMove(s, move)
  }

  ghost predicate CorrectRun(moves: seq<Move>, s: Engine) {
    if moves == [] then s == Start(Normal)
    else
      var n := |moves| - 1;
      exists t :: CorrectRun(moves[..n], t) && Allowed(t, moves[n]) && Correct(t, moves[n]) && s == Taken(t, moves[n])
  }

  /** Every claim answered and no cancel under way. */
  predicate Quiet(s: Engine) {
    s.lookups == map[] && forall i :: 0 <= i < |s.shards| ==> |s.shards[i].answers| == |s.shards[i].ring.claims|
  }

  // ----- the step of the locked engine a move is -----

  function CoreStep(s: Engine, move: Move): Option<C.Step>
    requires Allowed(s, move)
  {
    match move
    case InRing(_, _) => None
    case Begin(i) =>
      (match s.shards[i].hand.value
       case NewRequest(input) =>
         if Malformed(input) then Some(C.Reject(Named(input.order))) else Some(C.LockAndDraw(Named(input.order)))
       case CancelRequest(t) => Some(C.LockCancel(t)))
    case FillOne(i) => Some(C.FillOne(SymbolInHand(s, i)))
    case DeleteFilled(i) => Some(C.DeleteFilled(SymbolInHand(s, i)))
    case Settle(i) => Some(C.Settle(SymbolInHand(s, i)))
    case StoreIndex(i) => Some(C.StoreIndex(SymbolInHand(s, i)))
    case DeleteCancelled(i) => Some(C.DeleteCancelled(SymbolInHand(s, i)))
    case Lookup(_, id, orig) => Some(C.Lookup(id, orig))
    case Miss(p) => Some(C.DrawMiss(s.lookups[p]))
  }

  ghost predicate Follows(core: C.Engine, core': C.Engine, step: Option<C.Step>) {
    match step
    case None => core' == core
    case Some(st) => C.Enabled(core, st) && C.Harmless(core, st) && core' == C.Do(core, st)
  }

  // ----- requests that have not begun -----

  function Started(sh: Shard): nat {
    |sh.answers| + if sh.partial.Some? then 1 else 0
  }

  predicate Waits(s: Engine, i: nat, k: nat) {
    i < |s.shards| && Started(s.shards[i]) <= k < |s.shards[i].ring.claims|
  }

  function At(s: Engine, i: nat, k: nat): Request
    requires Waits(s, i, k)
  {
    s.shards[i].ring.claims[k]
  }

  predicate PendingOk(s: Engine, req: Request) {
    && req.Id() in s.sent
    && match req
       case NewRequest(input) =>
         && input.knownSide && input.order.clientOrderId != "" && input.order.symbol != ""
         && req.Id() !in s.core.ids
       case CancelRequest(t) => t in s.core.tickets
  }

  ghost predicate WaitingOk(s: Engine) {
    forall i, k :: Waits(s, i, k) ==> PendingOk(s, At(s, i, k))
  }

  ghost predicate WaitingDistinct(s: Engine) {
    forall i, k, j, m :: Waits(s, i, k) && Waits(s, j, m) && At(s, i, k).Id() == At(s, j, m).Id() ==> i == j && k == m
  }

  ghost predicate LookupsOk(s: Engine) {
    && (forall p :: p in s.lookups ==> s.lookups[p] in s.core.tickets && s.lookups[p].id in s.sent)
    && (forall p, q :: p in s.lookups && q in s.lookups && s.lookups[p].id == s.lookups[q].id ==> p == q)
    && (forall p, i, k :: p in s.lookups && Waits(s, i, k) ==> At(s, i, k).Id() != s.lookups[p].id)
  }

  ghost predicate IdsOk(s: Engine) {
    !s.core.limits && s.core.ids <= s.sent
  }

  predicate UnderWay(s: Engine, t: C.Ticket, p: nat) {
    p in s.lookups && s.lookups[p] == t
  }

  predicate Queued(s: Engine, t: C.Ticket, i: nat, k: nat) {
    Waits(s, i, k) && At(s, i, k) == CancelRequest(t)
  }

  ghost predicate TicketsOk(s: Engine) {
    forall t :: t in s.core.tickets ==> (exists p :: UnderWay(s, t, p)) || exists i, k :: Queued(s, t, i, k)
  }

  ghost predicate ClientsOk(s: Engine) {
    s.mode == Normal && WaitingOk(s) && WaitingDistinct(s) && LookupsOk(s) && IdsOk(s) && TicketsOk(s)
  }

  // ----- a matcher's steps are steps of the locked engine -----

  /** The request in hand is the first that waits. */
  lemma HandWaits(s: Engine, i: nat)
    requires EngineOk(s) && Allowed(s, Begin(i))
    ensures i < SHARDS && Waits(s, i, |s.shards[i].answers|) && At(s, i, |s.shards[i].answers|) == s.shards[i].hand.value
    ensures Started(s.shards[i]) == |s.shards[i].answers|
  {
    hide ShardOk, SymbolOk;
    HandReady(s, i);
    HandIsClaimed(s.shards[i], i, s);
  }

  lemma IdleInHand(s: Engine, i: nat)
    requires EngineOk(s) && Allowed(s, Begin(i))
    ensures SymbolInHand(s, i) !in s.core.locks
    ensures forall id :: id in s.core.index && s.core.index[id] == SymbolInHand(s, i) <==> Live(s.core.BookAt(SymbolInHand(s, i)), id)
  {
    hide ShardOk, SymbolOk, EngineOk, Live;
    HandReady(s, i);
    IdleUntilBegun(s.core, s.shards[i], SymbolInHand(s, i), s.mode);
  }

  lemma PendingAt(s: Engine, i: nat, k: nat)
    requires WaitingOk(s) && Waits(s, i, k)
    ensures PendingOk(s, At(s, i, k))
  {
    hide PendingOk;
  }

  lemma BeginOrderFollows(s: Engine, i: nat)
    requires EngineOk(s) && ClientsOk(s) && Allowed(s, Begin(i)) && s.shards[i].hand.value.NewRequest?
    ensures Follows(s.core, Taken(s, Begin(i)).core, CoreStep(s, Begin(i)))
  {
    hide EngineOk, WaitingDistinct, LookupsOk, TicketsOk, C.DoReject, C.DoLockAndDraw, WaitingOk, Live;
    HandWaits(s, i);
    PendingAt(s, i, |s.shards[i].answers|);
    IdleInHand(s, i);
  }

  lemma GoneCancel(core: C.Engine, t: C.Ticket)
    requires t.found.Some? && !Cancel(core.BookAt(t.found.value), t.orig).1
    ensures C.DoLockCancel(core, t) == C.DoDrawMiss(core, t)
  {
    hide Cancel;
  }

  lemma BeginCancelFollows(s: Engine, i: nat)
    requires EngineOk(s) && ClientsOk(s) && Allowed(s, Begin(i)) && s.shards[i].hand.value.CancelRequest?
    ensures Follows(s.core, Taken(s, Begin(i)).core, CoreStep(s, Begin(i)))
  {
    hide EngineOk, WaitingDistinct, LookupsOk, TicketsOk, C.DoLockCancel, C.DoDrawMiss, WaitingOk, Live, Cancel;
    var t := s.shards[i].hand.value.ticket;
    HandWaits(s, i);
    PendingAt(s, i, |s.shards[i].answers|);
    IdleInHand(s, i);
    if t.orig !in s.core.index {
      BookSafety.CancelMissing(s.core.BookAt(t.found.value), t.orig);
      GoneCancel(s.core, t);
    }
  }

  lemma LookupFollows(s: Engine, p: nat, id: string, orig: string)
    requires ClientsOk(s) && Allowed(s, Lookup(p, id, orig)) && Correct(s, Lookup(p, id, orig))
    ensures Follows(s.core, Taken(s, Lookup(p, id, orig)).core, CoreStep(s, Lookup(p, id, orig)))
  {
    hide WaitingOk, WaitingDistinct, LookupsOk, TicketsOk;
  }

  lemma MissFollows(s: Engine, p: nat)
    requires ClientsOk(s) && Allowed(s, Miss(p)) && Correct(s, Miss(p))
    ensures Follows(s.core, Taken(s, Miss(p)).core, CoreStep(s, Miss(p)))
  {
    hide C.RestsOrWill, WaitingOk, WaitingDistinct, TicketsOk;
  }

  lemma SettleFollows(s: Engine, i: nat)
    requires ClientsOk(s) && Allowed(s, Settle(i))
    ensures Follows(s.core, Taken(s, Settle(i)).core, CoreStep(s, Settle(i)))
  {
    hide WaitingOk, WaitingDistinct, LookupsOk, TicketsOk, Tradable, Rest;
  }

  lemma OtherFollows(s: Engine, move: Move)
    requires ClientsOk(s) && Allowed(s, move) && !move.Begin? && !move.Miss? && !move.Settle? && !move.Lookup?
    ensures Follows(s.core, Taken(s, move).core, CoreStep(s, move))
  {
    hide WaitingOk, WaitingDistinct, TicketsOk, IdsOk, Tradable, TradeOnce, Ring.Do, Ring.Enabled, Routed;
  }

  lemma MoveFollows(s: Engine, move: Move)
    requires EngineOk(s) && ClientsOk(s) && Allowed(s, move) && Correct(s, move)
    ensures Follows(s.core, Taken(s, move).core, CoreStep(s, move))
  {
    hide EngineOk, ClientsOk, Follows, CoreStep, Taken, Allowed, Correct;
    match move
    case Begin(i) => BeginFollows(s, i);
    case Miss(p) => MissFollows(s, p);
    case Lookup(p, id, orig) => LookupFollows(s, p, id, orig);
    case Settle(i) => SettleFollows(s, i);
    case _ => OtherFollows(s, move);
  }

  lemma BeginFollows(s: Engine, i: nat)
    requires EngineOk(s) && ClientsOk(s) && Allowed(s, Begin(i))
    ensures Follows(s.core, Taken(s, Begin(i)).core, CoreStep(s, Begin(i)))
  {
    hide EngineOk, ClientsOk, Follows, CoreStep, Taken;
    if s.shards[i].hand.value.NewRequest? { BeginOrderFollows(s, i); } else { BeginCancelFollows(s, i); }
  }

  // ----- the queues keep their shape -----

  /** The same requests wait in the same places. */
  ghost predicate SameQueues(s: Engine, s': Engine) {
    && |s'.shards| == |s.shards|
    && forall i :: 0 <= i < |s.shards| ==>
         Started(s'.shards[i]) == Started(s.shards[i]) && s'.shards[i].ring.claims == s.shards[i].ring.claims
  }

  lemma SameWaits(s: Engine, s': Engine, i: nat, k: nat)
    requires SameQueues(s, s')
    ensures Waits(s', i, k) <==> Waits(s, i, k)
    ensures Waits(s, i, k) ==> At(s', i, k) == At(s, i, k)
  {
    hide Started;
  }

  ghost predicate SameClients(s: Engine, s': Engine) {
    && s'.mode == s.mode && s'.lookups == s.lookups && s'.sent == s.sent
    && s'.core.limits == s.core.limits && s'.core.ids == s.core.ids && s'.core.tickets == s.core.tickets
  }

  ghost predicate WaitAlike(s: Engine, s': Engine) {
    forall i, k :: (Waits(s', i, k) <==> Waits(s, i, k)) && (Waits(s, i, k) ==> At(s', i, k) == At(s, i, k))
  }

  lemma SameShardsWaitAlike(s: Engine, s': Engine)
    requires s'.shards == s.shards
    ensures WaitAlike(s, s')
  {
  }

  lemma WaitDistinctAlike(s: Engine, s': Engine)
    requires WaitingDistinct(s) && WaitAlike(s, s')
    ensures WaitingDistinct(s')
  {
    hide Waits, At;
  }

  lemma QueuesWaitAlike(s: Engine, s': Engine)
    requires SameQueues(s, s')
    ensures WaitAlike(s, s')
  {
    hide Waits, SameQueues;
    forall i, k ensures (Waits(s', i, k) <==> Waits(s, i, k)) && (Waits(s, i, k) ==> At(s', i, k) == At(s, i, k)) {
      SameWaits(s, s', i, k);
    }
  }

  lemma SamePending(s: Engine, s': Engine)
    requires WaitingOk(s) && LookupsOk(s) && WaitAlike(s, s') && SameClients(s, s')
    ensures WaitingOk(s') && LookupsOk(s')
  {
    hide Waits, At;
    forall i, k | Waits(s', i, k) ensures PendingOk(s', At(s', i, k)) {
      assert PendingOk(s, At(s, i, k));
    }
  }

  lemma NothingNew(s: Engine, s': Engine)
    requires ClientsOk(s) && SameQueues(s, s') && SameClients(s, s')
    ensures ClientsOk(s')
  {
    hide SameQueues, Waits, At, WaitingOk, WaitingDistinct, LookupsOk, TicketsOk, WaitAlike;
    QueuesWaitAlike(s, s');
    SamePending(s, s');
    WaitDistinctAlike(s, s');
    QueuedAlike(s, s');
  }

  lemma QueuedAlike(s: Engine, s': Engine)
    requires TicketsOk(s) && s'.lookups == s.lookups && s'.core.tickets <= s.core.tickets
    requires WaitAlike(s, s')
    ensures TicketsOk(s')
  {
    hide Waits, At;
    forall t | t in s'.core.tickets ensures (exists p :: UnderWay(s', t, p)) || exists i, k :: Queued(s', t, i, k) {
      if p :| UnderWay(s, t, p) {
        assert UnderWay(s', t, p);
      } else {
        var i, k :| Queued(s, t, i, k);
        assert Queued(s', t, i, k);
      }
    }
  }

  lemma WorkIsQuiet(s: Engine, move: Move)
    requires Allowed(s, move) && !move.Begin? && !move.Lookup? && !move.Miss? && !move.InRing?
    ensures SameQueues(s, Taken(s, move)) && SameClients(s, Taken(s, move))
  {
    hide Tradable, TradeOnce, Rest;
  }

  lemma RingIsQuiet(s: Engine, i: nat, step: Ring.Step<Request>)
    requires Allowed(s, InRing(i, step)) && !step.Claim?
    ensures SameQueues(s, Taken(s, InRing(i, step))) && SameClients(s, Taken(s, InRing(i, step)))
  {
    hide Ring.SlotOf;
  }

  // A claim.

  lemma ClaimQueues(s: Engine, i: nat, step: Ring.Step<Request>, j: nat, k: nat)
    requires Allowed(s, InRing(i, step)) && step.Claim?
    ensures var s' := Taken(s, InRing(i, step));
      && s'.core == s.core
      && (Waits(s', j, k) ==> Waits(s, j, k) || (j == i && k == |s.shards[i].ring.claims|))
      && (Waits(s, j, k) ==> Waits(s', j, k) && At(s', j, k) == At(s, j, k))
      && (Waits(s', i, |s.shards[i].ring.claims|) ==> At(s', i, |s.shards[i].ring.claims|) == step.item)
  {
    hide Routed, Filed;
  }

  /** The claim takes the next place of the queue; everything else waits where it did. */
  ghost predicate Appends(s: Engine, s': Engine, i: nat, n: nat, req: Request) {
    && (forall j, k :: Waits(s', j, k) ==> Waits(s, j, k) || (j == i && k == n))
    && (forall j, k :: Waits(s, j, k) ==> Waits(s', j, k) && At(s', j, k) == At(s, j, k))
    && !Waits(s, i, n)
    && (Waits(s', i, n) ==> At(s', i, n) == req)
  }

  lemma ClaimAppends(s: Engine, i: nat, step: Ring.Step<Request>)
    requires Allowed(s, InRing(i, step)) && step.Claim?
    ensures Appends(s, Taken(s, InRing(i, step)), i, |s.shards[i].ring.claims|, step.item)
  {
    var s' := Taken(s, InRing(i, step));
    var n := |s.shards[i].ring.claims|;
    forall j, k ensures (Waits(s', j, k) ==> Waits(s, j, k) || (j == i && k == n))
                     && (Waits(s, j, k) ==> Waits(s', j, k) && At(s', j, k) == At(s, j, k)) {
      ClaimQueues(s, i, step, j, k);
    }
    ClaimQueues(s, i, step, i, n);
    assert !Waits(s, i, n);
    hide Waits, At, Allowed, Taken;
  }

  lemma AppendedDistinct(s: Engine, s': Engine, i: nat, n: nat, req: Request)
    requires WaitingDistinct(s) && Appends(s, s', i, n, req)
    requires forall j, k :: Waits(s, j, k) ==> At(s, j, k).Id() != req.Id()
    ensures WaitingDistinct(s')
  {
    hide Waits, At;
  }

  lemma AppendedTickets(s: Engine, s': Engine, i: nat, n: nat, req: Request)
    requires TicketsOk(s) && Appends(s, s', i, n, req) && s'.core.tickets == s.core.tickets && s'.lookups == s.lookups
    ensures TicketsOk(s')
  {
    hide Waits, At;
    forall t | t in s'.core.tickets ensures (exists p :: UnderWay(s', t, p)) || exists j, k :: Queued(s', t, j, k) {
      if p :| UnderWay(s, t, p) {
        assert UnderWay(s', t, p);
      } else {
        var j, k :| Queued(s, t, j, k);
        assert Queued(s', t, j, k);
      }
    }
  }

  lemma ClaimOrderKeeps(s: Engine, i: nat, step: Ring.Step<Request>)
    requires ClientsOk(s) && Allowed(s, InRing(i, step)) && step.Claim? && step.item.NewRequest? && CorrectRequest(s, step.item)
    ensures ClientsOk(Taken(s, InRing(i, step)))
  {
    var s', req, n := Taken(s, InRing(i, step)), step.item, |s.shards[i].ring.claims|;
    assert s'.core == s.core && s'.lookups == s.lookups && s'.sent == s.sent + {req.Id()} + {req.Id()};
    assert s'.mode == s.mode;
    ClaimAppends(s, i, step);
    assert forall j, k :: Waits(s, j, k) ==> PendingOk(s, At(s, j, k));
    hide Waits, At, Allowed, Taken, Routed;
    AppendedDistinct(s, s', i, n, req);
    AppendedTickets(s, s', i, n, req);
    hide WaitingDistinct, TicketsOk;
    forall j, k | Waits(s', j, k) ensures PendingOk(s', At(s', j, k)) {
      if Waits(s, j, k) { assert PendingOk(s, At(s, j, k)); }
    }
    assert IdsOk(s');
    hide IdsOk, PendingOk;
  }

  lemma AppendedOwnTicket(s: Engine, s': Engine, i: nat, n: nat, t: C.Ticket, p: nat)
    requires TicketsOk(s) && Appends(s, s', i, n, CancelRequest(t)) && Waits(s', i, n)
    requires s'.core.tickets == s.core.tickets && p in s.lookups && s.lookups[p] == t && s'.lookups == s.lookups - {p}
    ensures TicketsOk(s')
  {
    hide Waits, At;
    forall u | u in s'.core.tickets ensures (exists q :: UnderWay(s', u, q)) || exists j, k :: Queued(s', u, j, k) {
      if q :| UnderWay(s, u, q) {
        if q == p { assert Queued(s', u, i, n); } else { assert UnderWay(s', u, q); }
      } else {
        var j, k :| Queued(s, u, j, k);
        assert Queued(s', u, j, k);
      }
    }
  }

  lemma ClaimWaits(s: Engine, i: nat, step: Ring.Step<Request>)
    requires EngineOk(s) && Allowed(s, InRing(i, step)) && step.Claim?
    ensures Waits(Taken(s, InRing(i, step)), i, |s.shards[i].ring.claims|)
  {
    assert ShardOk(s.shards[i], i, s);
    hide ShardFor, SymbolOk, ClaimsOk, GivenOk, Increasing, Routed;
  }

  lemma ClaimedCancel(s: Engine, s': Engine, i: nat, n: nat, t: C.Ticket, p: nat)
    requires WaitingOk(s) && LookupsOk(s) && Appends(s, s', i, n, CancelRequest(t)) && p in s.lookups && s.lookups[p] == t
    requires s'.lookups == s.lookups - {p} && s'.core == s.core && s'.sent == s.sent
    ensures WaitingOk(s') && LookupsOk(s')
  {
    hide Waits, At;
    forall j, k | Waits(s', j, k) ensures PendingOk(s', At(s', j, k)) {
      if Waits(s, j, k) { assert PendingOk(s, At(s, j, k)); }
    }
    hide PendingOk;
  }

  lemma ClaimShape(s: Engine, i: nat, step: Ring.Step<Request>)
    requires Allowed(s, InRing(i, step)) && step.Claim? && step.item.CancelRequest?
    ensures var s', p := Taken(s, InRing(i, step)), step.producer;
      && p in s.lookups && s.lookups[p] == step.item.ticket && s'.lookups == s.lookups - {p}
      && s'.core == s.core && s'.sent == s.sent && s'.mode == s.mode
  {
    hide Ring.Do, Ring.Enabled;
  }

  lemma ClaimCancelKeeps(s: Engine, i: nat, step: Ring.Step<Request>)
    requires EngineOk(s) && ClientsOk(s) && Allowed(s, InRing(i, step)) && step.Claim? && step.item.CancelRequest?
    ensures ClientsOk(Taken(s, InRing(i, step)))
  {
    hide EngineOk, Waits, At, Taken, WaitingOk, WaitingDistinct, TicketsOk, Appends, Ring.Enabled, Routed;
    var s', n, p, t := Taken(s, InRing(i, step)), |s.shards[i].ring.claims|, step.producer, step.item.ticket;
    ClaimShape(s, i, step);
    ClaimAppends(s, i, step);
    ClaimWaits(s, i, step);
    ClaimedCancel(s, s', i, n, t, p);
    AppendedDistinct(s, s', i, n, step.item);
    AppendedOwnTicket(s, s', i, n, t, p);
    hide LookupsOk;
  }

  // A request begins.

  /** The first request of one queue leaves it. */
  ghost predicate Leaves(s: Engine, s': Engine, i: nat, n: nat) {
    && Waits(s, i, n)
    && (forall j, k :: Waits(s', j, k) <==> Waits(s, j, k) && !(j == i && k == n))
    && (forall j, k :: Waits(s', j, k) ==> At(s', j, k) == At(s, j, k))
  }

  /** Only shard `i` starts a request more; the rings stay as they are. */
  ghost predicate StartsOne(s: Engine, s': Engine, i: nat) {
    && i < |s.shards| == |s'.shards|
    && Started(s'.shards[i]) == Started(s.shards[i]) + 1
    && (forall j :: 0 <= j < |s.shards| ==> s'.shards[j].ring == s.shards[j].ring)
    && (forall j :: 0 <= j < |s.shards| && j != i ==> s'.shards[j] == s.shards[j])
  }

  lemma BeginStartsOne(s: Engine, i: nat)
    requires Allowed(s, Begin(i))
    ensures StartsOne(s, Taken(s, Begin(i)), i)
  {
    hide StillThere, CancelInHand, Malformed, C.DoReject, C.DoLockAndDraw;
  }

  lemma OneLeaves(s: Engine, s': Engine, i: nat, n: nat)
    requires StartsOne(s, s', i) && Waits(s, i, n) && n == Started(s.shards[i])
    ensures Leaves(s, s', i, n)
  {
    hide Started;
  }

  lemma BeginLeaves(s: Engine, i: nat)
    requires EngineOk(s) && Allowed(s, Begin(i))
    ensures Leaves(s, Taken(s, Begin(i)), i, |s.shards[i].answers|)
    ensures At(s, i, |s.shards[i].answers|) == s.shards[i].hand.value
  {
    hide EngineOk, Taken, Waits, StartsOne, Leaves;
    HandWaits(s, i);
    BeginStartsOne(s, i);
    OneLeaves(s, Taken(s, Begin(i)), i, |s.shards[i].answers|);
  }

  lemma LeftDistinct(s: Engine, s': Engine, i: nat, n: nat)
    requires WaitingDistinct(s) && Leaves(s, s', i, n)
    ensures WaitingDistinct(s')
    ensures forall j, k :: Waits(s', j, k) ==> Waits(s, j, k) && At(s', j, k) == At(s, j, k) && At(s, j, k).Id() != At(s, i, n).Id()
  {
    hide Waits, At;
  }

  /** What a begun order changes for the clients: its id is used up. */
  ghost predicate UsesUp(s: Engine, s': Engine, o: NewOrder) {
    && s'.mode == s.mode && s'.lookups == s.lookups && s'.sent == s.sent
    && s'.core.limits == s.core.limits && s'.core.tickets == s.core.tickets
    && s'.core.ids == s.core.ids + {o.clientOrderId}
  }

  lemma BeginUsesUp(s: Engine, i: nat)
    requires Allowed(s, Begin(i)) && s.shards[i].hand.value.NewRequest?
    ensures UsesUp(s, Taken(s, Begin(i)), Named(s.shards[i].hand.value.input.order))
  {
    hide Malformed;
  }

  lemma LeftTickets(s: Engine, s': Engine, i: nat, n: nat)
    requires TicketsOk(s) && Leaves(s, s', i, n) && At(s, i, n).NewRequest?
    requires s'.core.tickets == s.core.tickets && s'.lookups == s.lookups
    ensures TicketsOk(s')
  {
    hide Waits, At;
    forall t | t in s'.core.tickets ensures (exists p :: UnderWay(s', t, p)) || exists j, k :: Queued(s', t, j, k) {
      if p :| UnderWay(s, t, p) {
        assert UnderWay(s', t, p);
      } else {
        var j, k :| Queued(s, t, j, k);
        assert Queued(s', t, j, k);
      }
    }
  }

  lemma UsedUpIds(s: Engine, s': Engine, o: NewOrder)
    requires IdsOk(s) && UsesUp(s, s', o) && o.clientOrderId in s.sent
    ensures IdsOk(s')
  {
  }

  lemma UsedUpWaiting(s: Engine, s': Engine, o: NewOrder)
    requires WaitingOk(s) && LookupsOk(s) && UsesUp(s, s', o)
    requires forall j, k :: Waits(s', j, k) ==> Waits(s, j, k) && At(s', j, k) == At(s, j, k) && At(s, j, k).Id() != o.clientOrderId
    ensures WaitingOk(s') && LookupsOk(s')
  {
    hide Waits, At;
    forall j, k | Waits(s', j, k) ensures PendingOk(s', At(s', j, k)) {
      assert PendingOk(s, At(s, j, k));
    }
    hide PendingOk;
  }

  lemma BeginOrderKeeps(s: Engine, i: nat)
    requires EngineOk(s) && ClientsOk(s) && Allowed(s, Begin(i)) && s.shards[i].hand.value.NewRequest?
    ensures ClientsOk(Taken(s, Begin(i)))
  {
    hide EngineOk, Malformed, Taken, Waits, At, WaitingOk, WaitingDistinct, TicketsOk, LookupsOk, IdsOk, Leaves, UsesUp, SymbolOf;
    var s', n, req := Taken(s, Begin(i)), |s.shards[i].answers|, s.shards[i].hand.value;
    var o := Named(req.input.order);
    BeginLeaves(s, i);
    BeginUsesUp(s, i);
    UsedUpMode(s, s', o);
    HandWaits(s, i);
    PendingAt(s, i, n);
    LeftDistinct(s, s', i, n);
    LeftTickets(s, s', i, n);
    UsedUpIds(s, s', o);
    UsedUpWaiting(s, s', o);
  }

  lemma UsedUpMode(s: Engine, s': Engine, o: NewOrder)
    requires UsesUp(s, s', o)
    ensures s'.mode == s.mode && s'.core.tickets == s.core.tickets && s'.lookups == s.lookups
  {
  }

  ghost predicate GivesBack(s: Engine, s': Engine, t: C.Ticket) {
    && s'.mode == s.mode && s'.sent == s.sent
    && s'.core.limits == s.core.limits && s'.core.ids == s.core.ids
    && s'.core.tickets == s.core.tickets - {t}
  }

  lemma BeginGivesBack(s: Engine, i: nat)
    requires Allowed(s, Begin(i)) && s.shards[i].hand.value.CancelRequest?
    ensures GivesBack(s, Taken(s, Begin(i)), s.shards[i].hand.value.ticket)
    ensures Taken(s, Begin(i)).lookups == s.lookups
  {
    hide Cancel;
  }

  lemma LeftOwnTicket(s: Engine, s': Engine, i: nat, n: nat, t: C.Ticket)
    requires TicketsOk(s) && Leaves(s, s', i, n) && At(s, i, n) == CancelRequest(t)
    requires s'.core.tickets == s.core.tickets - {t} && s'.lookups == s.lookups
    ensures TicketsOk(s')
  {
    hide Waits, At;
    forall u | u in s'.core.tickets ensures (exists p :: UnderWay(s', u, p)) || exists j, k :: Queued(s', u, j, k) {
      if p :| UnderWay(s, u, p) {
        assert UnderWay(s', u, p);
      } else {
        var j, k :| Queued(s, u, j, k);
        assert Queued(s', u, j, k);
      }
    }
  }

  lemma WithdrawnIds(s: Engine, s': Engine, t: C.Ticket)
    requires IdsOk(s) && GivesBack(s, s', t)
    ensures IdsOk(s')
  {
  }

  lemma GivenBackWaiting(s: Engine, s': Engine, i: nat, n: nat, t: C.Ticket)
    requires WaitingOk(s) && LookupsOk(s) && GivesBack(s, s', t) && s'.lookups == s.lookups
    requires Leaves(s, s', i, n) && At(s, i, n) == CancelRequest(t)
    requires forall j, k :: Waits(s', j, k) ==> Waits(s, j, k) && At(s', j, k) == At(s, j, k) && At(s, j, k).Id() != At(s, i, n).Id()
    ensures WaitingOk(s') && LookupsOk(s')
  {
    hide Waits, At;
    forall j, k | Waits(s', j, k) ensures PendingOk(s', At(s', j, k)) {
      assert PendingOk(s, At(s, j, k));
    }
  }

  lemma BeginCancelKeeps(s: Engine, i: nat)
    requires EngineOk(s) && ClientsOk(s) && Allowed(s, Begin(i)) && s.shards[i].hand.value.CancelRequest?
    ensures ClientsOk(Taken(s, Begin(i)))
  {
    hide EngineOk, Taken, Waits, At, WaitingOk, WaitingDistinct, TicketsOk, LookupsOk, Leaves, IdsOk;
    var s', n, t := Taken(s, Begin(i)), |s.shards[i].answers|, s.shards[i].hand.value.ticket;
    BeginLeaves(s, i);
    BeginGivesBack(s, i);
    LeavesWaits(s, s', i, n);
    LeftDistinct(s, s', i, n);
    LeftOwnTicket(s, s', i, n, t);
    WithdrawnIds(s, s', t);
    GivenBackWaiting(s, s', i, n, t);
  }

  lemma LeavesWaits(s: Engine, s': Engine, i: nat, n: nat)
    requires Leaves(s, s', i, n)
    ensures Waits(s, i, n)
  {
    hide Waits;
  }

  // A cancel outside the rings.

  lemma LookupWaiting(s: Engine, p: nat, id: string, orig: string)
    requires WaitingOk(s) && Allowed(s, Lookup(p, id, orig)) && Correct(s, Lookup(p, id, orig))
    requires WaitAlike(s, Taken(s, Lookup(p, id, orig)))
    ensures WaitingOk(Taken(s, Lookup(p, id, orig)))
  {
    hide Waits, At;
    var s' := Taken(s, Lookup(p, id, orig));
    forall i, k | Waits(s', i, k) ensures PendingOk(s', At(s', i, k)) {
      assert PendingOk(s, At(s, i, k));
    }
  }

  lemma LookupLookups(s: Engine, p: nat, id: string, orig: string)
    requires WaitingOk(s) && LookupsOk(s) && Allowed(s, Lookup(p, id, orig)) && Correct(s, Lookup(p, id, orig))
    requires WaitAlike(s, Taken(s, Lookup(p, id, orig)))
    ensures LookupsOk(Taken(s, Lookup(p, id, orig)))
  {
    hide Waits, At;
    var s' := Taken(s, Lookup(p, id, orig));
    forall i, k | Waits(s', i, k) ensures At(s', i, k).Id() in s.sent {
      assert PendingOk(s, At(s, i, k));
    }
  }

  lemma LookupKeeps(s: Engine, p: nat, id: string, orig: string)
    requires ClientsOk(s) && Allowed(s, Lookup(p, id, orig)) && Correct(s, Lookup(p, id, orig))
    ensures ClientsOk(Taken(s, Lookup(p, id, orig)))
  {
    hide Waits, At, WaitingOk, WaitingDistinct, LookupsOk, TicketsOk, WaitAlike;
    var s' := Taken(s, Lookup(p, id, orig));
    SameShardsWaitAlike(s, s');
    LookupWaiting(s, p, id, orig);
    LookupLookups(s, p, id, orig);
    WaitDistinctAlike(s, s');
    LookupTickets(s, s', p);
  }

  lemma LookupTickets(s: Engine, s': Engine, p: nat)
    requires TicketsOk(s) && p !in s.lookups && p in s'.lookups
    requires s'.lookups == s.lookups[p := s'.lookups[p]] && s'.core.tickets == s.core.tickets + {s'.lookups[p]}
    requires WaitAlike(s, s')
    ensures TicketsOk(s')
  {
    hide Waits, At;
    forall t | t in s'.core.tickets ensures (exists q :: UnderWay(s', t, q)) || exists i, k :: Queued(s', t, i, k) {
      if t == s'.lookups[p] {
        assert UnderWay(s', t, p);
      } else if q :| UnderWay(s, t, q) {
        assert UnderWay(s', t, q);
      } else {
        var i, k :| Queued(s, t, i, k);
        assert Queued(s', t, i, k);
      }
    }
  }

  lemma MissWaiting(s: Engine, s': Engine, p: nat)
    requires WaitingOk(s) && LookupsOk(s) && WaitAlike(s, s') && p in s.lookups
    requires s'.lookups == s.lookups - {p} && GivesBack(s, s', s.lookups[p])
    ensures WaitingOk(s') && LookupsOk(s')
  {
    hide Waits, At;
    forall i, k | Waits(s', i, k) ensures PendingOk(s', At(s', i, k)) {
      assert PendingOk(s, At(s, i, k));
    }
    hide PendingOk;
  }

  lemma MissGivesBack(s: Engine, p: nat)
    requires Allowed(s, Miss(p))
    ensures GivesBack(s, Taken(s, Miss(p)), s.lookups[p]) && Taken(s, Miss(p)).lookups == s.lookups - {p}
    ensures Taken(s, Miss(p)).shards == s.shards
  {
  }

  lemma MissKeeps(s: Engine, p: nat)
    requires ClientsOk(s) && Allowed(s, Miss(p))
    ensures ClientsOk(Taken(s, Miss(p)))
  {
    hide Waits, At, WaitingOk, WaitingDistinct, LookupsOk, IdsOk, TicketsOk, WaitAlike, Taken;
    var s' := Taken(s, Miss(p));
    MissGivesBack(s, p);
    SameShardsWaitAlike(s, s');
    WithdrawnIds(s, s', s.lookups[p]);
    MissWaiting(s, s', p);
    WaitDistinctAlike(s, s');
    MissTickets(s, s', p);
  }

  lemma MissTickets(s: Engine, s': Engine, p: nat)
    requires TicketsOk(s) && p in s.lookups
    requires s'.lookups == s.lookups - {p} && s'.core.tickets == s.core.tickets - {s.lookups[p]}
    requires WaitAlike(s, s')
    ensures TicketsOk(s')
  {
    hide Waits, At;
    forall t | t in s'.core.tickets ensures (exists q :: UnderWay(s', t, q)) || exists i, k :: Queued(s', t, i, k) {
      if q :| UnderWay(s, t, q) {
        assert UnderWay(s', t, q);
      } else {
        var i, k :| Queued(s, t, i, k);
        assert Queued(s', t, i, k);
      }
    }
  }

  // ----- every run -----

  lemma ClientsKeep(s: Engine, move: Move)
    requires EngineOk(s) && ClientsOk(s) && Allowed(s, move) && Correct(s, move)
    ensures ClientsOk(Taken(s, move))
  {
    hide EngineOk, ClientsOk, Taken;
    match move
    case InRing(i, step) =>
      if !step.Claim? {
        RingIsQuiet(s, i, step);
        NothingNew(s, Taken(s, move));
      } else if step.item.NewRequest? {
        ClaimOrderKeeps(s, i, step);
      } else {
        ClaimCancelKeeps(s, i, step);
      }
    case Begin(i) => if s.shards[i].hand.value.NewRequest? { BeginOrderKeeps(s, i); } else { BeginCancelKeeps(s, i); }
    case Lookup(p, id, orig) => LookupKeeps(s, p, id, orig);
    case Miss(p) => MissKeeps(s, p);
    case _ =>
      WorkIsQuiet(s, move);
      NothingNew(s, Taken(s, move));
  }

  lemma ClientsAtStart()
    ensures ClientsOk(Start(Normal))
  {
    var s := Start(Normal);
    assert forall i, k :: !Waits(s, i, k);
    hide Waits;
  }

  /** A correct run of the rings is a run of the locked engine without its limits. */
  lemma {:induction false} CorrectRunsFollow(moves: seq<Move>, s: Engine) returns (steps: seq<C.Step>)
    requires CorrectRun(moves, s)
    ensures C.Reaches(false, steps, s.core) && EngineOk(s) && ClientsOk(s)
  {
    hide EngineOk, ClientsOk, Allowed, Taken, Correct, Follows, CoreStep, C.Enabled, C.Harmless, C.Do;
    if moves == [] {
      StartIsOk(Normal);
      ClientsAtStart();
      steps := [];
    } else {
      var n := |moves| - 1;
      var t :| CorrectRun(moves[..n], t) && Allowed(t, moves[n]) && Correct(t, moves[n]) && s == Taken(t, moves[n]);
      var before := CorrectRunsFollow(moves[..n], t);
      MoveKeeps(t, moves[n]);
      ClientsKeep(t, moves[n]);
      MoveFollows(t, moves[n]);
      steps := Extended(before, t.core, s.core, CoreStep(t, moves[n]));
    }
  }

  lemma Extended(before: seq<C.Step>, core: C.Engine, core': C.Engine, step: Option<C.Step>) returns (steps: seq<C.Step>)
    requires C.Reaches(false, before, core) && Follows(core, core', step)
    ensures C.Reaches(false, steps, core')
  {
    if step.None? {
      steps := before;
    } else {
      steps := before + [step.value];
      assert steps[..|before|] == before;
      hide C.Enabled, C.Harmless, C.Do;
    }
  }

  lemma QuietIsQuiescent(s: Engine)
    requires EngineOk(s) && ClientsOk(s) && Quiet(s)
    ensures C.Quiescent(s.core)
  {
    hide IdsOk, LookupsOk, WaitingOk, WaitingDistinct, ShardOk, SymbolOk, ShardFor, TicketsOk;
    forall x ensures x !in s.core.locks {
      if x in s.core.locks { LockedIsAtWork(s, x); }
    }
    assert s.core.locks == map[];
    hide EngineOk;
    NoTicketsLeft(s);
  }

  lemma NoTicketsLeft(s: Engine)
    requires TicketsOk(s) && Quiet(s)
    ensures s.core.tickets == {}
  {
    forall t ensures t !in s.core.tickets {
      assert forall i, k :: !Waits(s, i, k);
    }
  }

  lemma LockedIsAtWork(s: Engine, x: string)
    requires EngineOk(s) && x in s.core.locks
    ensures |s.shards| == SHARDS && |s.shards[ShardFor(x)].answers| < |s.shards[ShardFor(x)].ring.claims|
  {
    hide ShardOk, SymbolOk, ShardFor;
    var i := ShardFor(x);
    assert SymbolOk(s.core, s.shards[i], x, s.mode) && ShardOk(s.shards[i], i, s);
    LockedIsInHand(s.core, s.shards[i], x, s.mode);
    HandIsClaimed(s.shards[i], i, s);
  }

  /**
   For every run of the ring-fed engine, of requests under ids of their own, that
   comes to rest, with any interleaving of producers and matchers, any field length
   and any depth of book, each missed cancel harmless when it is numbered: however
   its events and its output were written down, the validator accepts them.
   */
  lemma EveryRingRunValidates(moves: seq<Move>, s: Engine, events: seq<Event>, lines: seq<OutputLine>)
    requires CorrectRun(moves, s) && Quiet(s)
    requires EndToEnd.Recorded(events, s.core.hist) && Validator.HasOrders(events)
    requires EndToEnd.Printed(lines, s.core)
    ensures Accepts(events, lines)
  {
    hide CorrectRun, EngineOk, ClientsOk, C.Reaches, C.Quiescent, EndToEnd.Recorded, Validator.HasOrders, EndToEnd.Printed;
    var steps := CorrectRunsFollow(moves, s);
    QuietIsQuiescent(s);
    EndToEnd.EveryInterleavingValidates(false, steps, s.core, events, lines);
  }
}
