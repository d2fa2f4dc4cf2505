/**
 The early cancel of `CancelRace` as a run of the ring-fed engine, over a single
 connection. A producer hands the ask to its ring and goes on; while the matcher
 works on it, the cancel misses the index; it draws its number only after the
 ask rests. Nothing in disruptor.go:190-209 prevents this; clients that wait for
 their answers never get there.
 */
module RingRace {
  import opened Types
  import opened BookSpec
  import opened EngineSpec
  import opened Disruptor
  import opened DisruptorSafety
  import opened DisruptorEndToEnd
  import Ring
  import Validator
  import EndToEnd
  import C = ConcurrentEngine
  import S = ConcurrentSafety
  import R = CancelRace

  const HOME := ShardFor("X")

  function Sent(o: NewOrder): Request {
    NewRequest(Incoming(o, true))
  }

  // ----- one item through an idle ring -----

  /** `n` items have gone through, and the next slot is free. */
  predicate Ready(r: Ring.Ring<Request>, n: nat) {
    && r.size == RING_SIZE && Ring.Shaped(r)
    && r.prod == n && r.cons == n && r.producers == map[] && r.consumer.Polling?
    && n < RING_SIZE && forall j :: n <= j < RING_SIZE ==> r.seqs[j] == j
  }

  ghost predicate RingLeads(r: Ring.Ring<Request>, steps: seq<Ring.Step<Request>>, r': Ring.Ring<Request>)
    decreases |steps|
  {
    if steps == [] then r == r'
    else Ring.Shaped(r) && Ring.Enabled(r, steps[0]) && RingLeads(Ring.Do(r, steps[0]), steps[1..], r')
  }

  lemma RingLeadsOn(r: Ring.Ring<Request>, step: Ring.Step<Request>, steps: seq<Ring.Step<Request>>, r': Ring.Ring<Request>)
    requires Ring.Shaped(r) && Ring.Enabled(r, step) && RingLeads(Ring.Do(r, step), steps, r')
    ensures RingLeads(r, [step] + steps, r')
  {
    hide Ring.Enabled, Ring.Do;
    assert ([step] + steps)[1..] == steps;
  }

  function WithClaim(r: Ring.Ring<Request>, n: nat, item: Request): Ring.Ring<Request> {
    r.(prod := n + 1, claims := r.claims + [item], producers := map[0 := Ring.Claimed(n, item)])
  }

  function Producing(): seq<Ring.Step<Request>> {
    [Ring.SeeFree(0), Ring.Write(0), Ring.Publish(0)]
  }

  function Consuming(): seq<Ring.Step<Request>> {
    [Ring.SeePublished, Ring.Read, Ring.Clear, Ring.Advance]
  }

  function WithItem(r: Ring.Ring<Request>, n: nat, item: Request): Ring.Ring<Request>
    requires Ready(r, n)
  {
    WithClaim(r, n, item).(producers := map[], data := r.data[n := Some(item)], seqs := r.seqs[n := n + 1])
  }

  function HandedOver(r: Ring.Ring<Request>, n: nat, item: Request): Ring.Ring<Request>
    requires Ready(r, n)
  {
    WithItem(r, n, item).(data := r.data[n := None], cons := n + 1, consumer := Ring.Freeing(item))
  }

  function Passed(r: Ring.Ring<Request>, n: nat, item: Request): Ring.Ring<Request>
    requires Ready(r, n)
  {
    HandedOver(r, n, item).(seqs := r.seqs[n := n + RING_SIZE], consumer := Ring.Polling, consumed := r.consumed + [item])
  }

  lemma ClaimIsEnabled(r: Ring.Ring<Request>, n: nat, item: Request)
    requires Ready(r, n)
    ensures Ring.Enabled(r, Ring.Claim(0, item)) && Ring.Do(r, Ring.Claim(0, item)) == WithClaim(r, n, item)
  {
  }

  lemma ProducerPublishes(r: Ring.Ring<Request>, n: nat, item: Request)
    requires Ready(r, n)
    ensures RingLeads(WithClaim(r, n, item), Producing(), WithItem(r, n, item))
  {
    var r1 := WithClaim(r, n, item);
    var r2 := r1.(producers := map[0 := Ring.Writing(n, item)]);
    var r3 := r2.(data := r.data[n := Some(item)], producers := map[0 := Ring.Written(n, item)]);
    var r4 := WithItem(r, n, item);
    assert Ring.Enabled(r1, Ring.SeeFree(0)) && Ring.Do(r1, Ring.SeeFree(0)) == r2;
    assert Ring.Enabled(r2, Ring.Write(0)) && Ring.Do(r2, Ring.Write(0)) == r3;
    assert Ring.Enabled(r3, Ring.Publish(0)) && Ring.Do(r3, Ring.Publish(0)) == r4;
    assert RingLeads(r4, [], r4);
    hide Ring.Enabled, Ring.Do, WithClaim, WithItem, RingLeads;
    RingLeadsOn(r3, Ring.Publish(0), [], r4);
    RingLeadsOn(r2, Ring.Write(0), [Ring.Publish(0)] + [], r4);
    RingLeadsOn(r1, Ring.SeeFree(0), [Ring.Write(0)] + ([Ring.Publish(0)] + []), r4);
    assert Producing() == [Ring.SeeFree(0)] + ([Ring.Write(0)] + ([Ring.Publish(0)] + []));
  }

  lemma MatcherTakes(r: Ring.Ring<Request>, n: nat, item: Request)
    requires Ready(r, n)
    ensures RingLeads(WithItem(r, n, item), Consuming(), HandedOver(r, n, item))
  {
    var r4, r8 := WithItem(r, n, item), HandedOver(r, n, item);
    var r5 := r4.(consumer := Ring.Reading);
    var r6 := r4.(consumer := Ring.Clearing(item));
    var r7 := r4.(data := r.data[n := None], consumer := Ring.Advancing(item));
    assert r4.data[n := None] == r.data[n := None];
    assert Ring.Enabled(r4, Ring.SeePublished) && Ring.Do(r4, Ring.SeePublished) == r5;
    assert Ring.Enabled(r5, Ring.Read) && Ring.Do(r5, Ring.Read) == r6;
    assert Ring.Enabled(r6, Ring.Clear) && Ring.Do(r6, Ring.Clear) == r7;
    assert Ring.Enabled(r7, Ring.Advance) && Ring.Do(r7, Ring.Advance) == r8;
    assert RingLeads(r8, [], r8);
    hide Ring.Enabled, Ring.Do, WithItem, HandedOver, RingLeads;
    RingLeadsOn(r7, Ring.Advance, [], r8);
    RingLeadsOn(r6, Ring.Clear, [Ring.Advance] + [], r8);
    RingLeadsOn(r5, Ring.Read, [Ring.Clear] + ([Ring.Advance] + []), r8);
    RingLeadsOn(r4, Ring.SeePublished, [Ring.Read] + ([Ring.Clear] + ([Ring.Advance] + [])), r8);
    assert Consuming() == [Ring.SeePublished] + ([Ring.Read] + ([Ring.Clear] + ([Ring.Advance] + [])));
  }

  lemma FreeIsEnabled(r: Ring.Ring<Request>, n: nat, item: Request)
    requires Ready(r, n)
    ensures Ring.Shaped(HandedOver(r, n, item)) && Ring.Enabled(HandedOver(r, n, item), Ring.Free)
    ensures Ring.Do(HandedOver(r, n, item), Ring.Free) == Passed(r, n, item)
    ensures n + 1 < RING_SIZE ==> Ready(Passed(r, n, item), n + 1)
  {
    assert WithItem(r, n, item).seqs[n := n + RING_SIZE] == r.seqs[n := n + RING_SIZE];
  }

  // ----- the same in the engine -----

  lemma Extend(moves: seq<Move>, s: Engine, move: Move) returns (longer: seq<Move>)
    requires Reachable(Normal, moves, s) && Allowed(s, move)
    ensures Reachable(Normal, longer, Taken(s, move))
  {
    hide Allowed, Taken;
    longer := moves + [move];
    assert longer[..|moves|] == moves;
  }

  function AtRing(s: Engine, i: nat, r: Ring.Ring<Request>): Engine
    requires i < |s.shards|
  {
    s.(shards := s.shards[i := s.shards[i].(ring := r)])
  }

  predicate Inner(steps: seq<Ring.Step<Request>>) {
    forall k :: 0 <= k < |steps| ==> !steps[k].Claim? && !steps[k].Free?
  }

  lemma OneInner(s: Engine, i: nat, step: Ring.Step<Request>)
    requires i < |s.shards| && s.shards[i].hand.None? && !step.Claim? && !step.Free?
    requires Ring.Shaped(s.shards[i].ring) && Ring.Enabled(s.shards[i].ring, step)
    ensures Allowed(s, InRing(i, step)) && Taken(s, InRing(i, step)) == AtRing(s, i, Ring.Do(s.shards[i].ring, step))
  {
    hide Ring.Enabled, Ring.Do;
  }

  /** Steps inside one ring move only that ring. */
  lemma {:induction false} InnerSteps(moves: seq<Move>, s: Engine, i: nat, steps: seq<Ring.Step<Request>>, r': Ring.Ring<Request>)
    returns (longer: seq<Move>)
    requires Reachable(Normal, moves, s) && i < |s.shards| && s.shards[i].hand.None?
    requires Inner(steps) && RingLeads(s.shards[i].ring, steps, r')
    ensures Reachable(Normal, longer, AtRing(s, i, r'))
    decreases |steps|
  {
    hide Reachable, Allowed, Taken, Ring.Enabled, Ring.Do;
    if steps == [] {
      longer := moves;
      assert AtRing(s, i, r') == s;
    } else {
      OneInner(s, i, steps[0]);
      var t := AtRing(s, i, Ring.Do(s.shards[i].ring, steps[0]));
      var more := Extend(moves, s, InRing(i, steps[0]));
      longer := InnerSteps(more, t, i, steps[1..], r');
      assert AtRing(t, i, r') == AtRing(s, i, r');
    }
  }

  /** The engine once `item` is in the hands of matcher `i`. */
  function Handed(s: Engine, i: nat, n: nat, item: Request): Engine
    requires i < |s.shards| && Ready(s.shards[i].ring, n)
  {
    s.(shards := s.shards[i := s.shards[i].(ring := Passed(s.shards[i].ring, n, item), hand := Some(item))],
       homes := Filed(s.homes, item), sent := s.sent + {item.Id()})
  }

  function AfterClaim(s: Engine, i: nat, n: nat, item: Request): Engine
    requires i < |s.shards| && Ready(s.shards[i].ring, n)
  {
    AtRing(s, i, WithClaim(s.shards[i].ring, n, item)).(homes := Filed(s.homes, item), sent := s.sent + {item.Id()})
  }

  lemma ClaimItem(s: Engine, i: nat, n: nat, item: Request)
    requires i < |s.shards| && Ready(s.shards[i].ring, n) && item.NewRequest? && Routed(s, i, 0, item)
    ensures Allowed(s, InRing(i, Ring.Claim(0, item))) && Taken(s, InRing(i, Ring.Claim(0, item))) == AfterClaim(s, i, n, item)
  {
    hide Routed, Filed, Ready;
    ClaimIsEnabled(s.shards[i].ring, n, item);
    assert Ring.Shaped(s.shards[i].ring) by { hide *; ReadyIsShaped(s.shards[i].ring, n); }
    hide Ring.Enabled, Ring.Do;
  }

  lemma ReadyIsShaped(r: Ring.Ring<Request>, n: nat)
    requires Ready(r, n)
    ensures Ring.Shaped(r)
  {
  }

  lemma FreeItem(s: Engine, i: nat, n: nat, item: Request)
    requires i < |s.shards| && Ready(s.shards[i].ring, n) && s.shards[i].hand.None?
    ensures var t := AtRing(AfterClaim(s, i, n, item), i, HandedOver(s.shards[i].ring, n, item));
      Allowed(t, InRing(i, Ring.Free)) && Taken(t, InRing(i, Ring.Free)) == Handed(s, i, n, item)
  {
    FreeIsEnabled(s.shards[i].ring, n, item);
    hide Ready, Filed, Ring.Enabled, Ring.Do, Passed;
  }

  lemma PassThrough(moves: seq<Move>, s: Engine, i: nat, n: nat, item: Request) returns (longer: seq<Move>)
    requires Reachable(Normal, moves, s) && i < |s.shards| && Ready(s.shards[i].ring, n) && s.shards[i].hand.None?
    requires item.NewRequest? && Routed(s, i, 0, item)
    ensures Reachable(Normal, longer, Handed(s, i, n, item))
  {
    hide Reachable, Allowed, Taken, Routed, RingLeads, Ready, Filed, Handed, HandedOver, WithItem;
    var r := s.shards[i].ring;
    ClaimItem(s, i, n, item);
    longer := Extend(moves, s, InRing(i, Ring.Claim(0, item)));
    var s1 := AfterClaim(s, i, n, item);
    ProducerPublishes(r, n, item);
    longer := InnerSteps(longer, s1, i, Producing(), WithItem(r, n, item));
    var s2 := AtRing(s1, i, WithItem(r, n, item));
    MatcherTakes(r, n, item);
    longer := InnerSteps(longer, s2, i, Consuming(), HandedOver(r, n, item));
    FreeItem(s, i, n, item);
    assert AtRing(s2, i, HandedOver(r, n, item)) == AtRing(s1, i, HandedOver(r, n, item));
    longer := Extend(longer, AtRing(s1, i, HandedOver(r, n, item)), InRing(i, Ring.Free));
  }

  // ----- the matcher of "X" -----

  predicate OthersQuiet(s: Engine) {
    |s.shards| == SHARDS && forall j :: 0 <= j < SHARDS && j != HOME ==> |s.shards[j].answers| == |s.shards[j].ring.claims|
  }

  /** The matcher has answered `n` requests and has nothing to do. */
  predicate Idle(s: Engine, n: nat) {
    && s.mode == Normal && OthersQuiet(s)
    && var sh := s.shards[HOME];
       sh.hand == None && sh.partial == None && |sh.answers| == n == |sh.ring.claims| && Ready(sh.ring, n)
  }

  /** It has an order in hand, begun or not. */
  predicate Busy(s: Engine, n: nat, o: NewOrder, begun: bool) {
    && s.mode == Normal && OthersQuiet(s)
    && var sh := s.shards[HOME];
       sh.hand == Some(Sent(o)) && sh.partial.Some? == begun && |sh.answers| == n && |sh.ring.claims| == n + 1 && Ready(sh.ring, n + 1)
  }

  lemma StartIsIdle()
    ensures Idle(Start(Normal), 0) && Reachable(Normal, [], Start(Normal))
  {
    hide Fnv1a;
  }

  lemma HandedIsBusy(s: Engine, n: nat, o: NewOrder)
    requires Idle(s, n) && n + 1 < RING_SIZE
    ensures Busy(Handed(s, HOME, n, Sent(o)), n, o, false)
  {
    hide ShardFor;
    FreeIsEnabled(s.shards[HOME].ring, n, Sent(o));
    hide Ready, Filed, Ring.Enabled, Ring.Do;
  }

  lemma SendOrder(moves: seq<Move>, s: Engine, n: nat, o: NewOrder) returns (longer: seq<Move>, t: Engine)
    requires Reachable(Normal, moves, s) && Idle(s, n) && n + 1 < RING_SIZE
    requires o.symbol == "X" && o.clientOrderId !in s.homes && s.lookups == map[]
    ensures Reachable(Normal, longer, t) && Busy(t, n, o, false) && t.core == s.core && t.lookups == s.lookups
    ensures t.homes.Keys <= s.homes.Keys + {o.clientOrderId}
  {
    assert Routed(s, HOME, 0, Sent(o)) by { hide Fnv1a; }
    hide Reachable, Routed, ShardFor, Busy, Ready;
    t := Handed(s, HOME, n, Sent(o));
    longer := PassThrough(moves, s, HOME, n, Sent(o));
    HandedIsBusy(s, n, o);
  }

  lemma BeginOrder(s: Engine, n: nat, o: NewOrder)
    requires Busy(s, n, o, false) && Rejection(o) == None && o.symbol == "X"
    ensures var t := Taken(s, Begin(HOME));
      Allowed(s, Begin(HOME)) && Busy(t, n, o, true) && t.core == C.DoLockAndDraw(s.core, o) && t.lookups == s.lookups && t.homes == s.homes
  {
    hide ShardFor, Ready, Rejection, C.DoLockAndDraw;
    assert Named(o) == o;
  }

  lemma LookAway(s: Engine, n: nat, o: NewOrder, id: string, orig: string)
    requires Busy(s, n, o, true) && s.lookups == map[] && orig !in s.core.index
    ensures var t := Taken(s, Lookup(0, id, orig));
      && Allowed(s, Lookup(0, id, orig)) && Busy(t, n, o, true) && t.core == C.DoLookup(s.core, id, orig)
      && t.lookups == map[0 := C.Ticket(id, orig, None)] && t.homes == s.homes
  {
    hide ShardFor, Ready, C.DoLookup;
  }

  lemma SettleOrder(s: Engine, n: nat, o: NewOrder)
    requires Busy(s, n, o, true) && o.symbol == "X" && C.CanSettle(s.core, "X")
    ensures var t := Taken(s, Settle(HOME)); var job := s.core.locks["X"];
      && Allowed(s, Settle(HOME)) && t.core == C.DoSettle(s.core, "X", Normal) && t.lookups == s.lookups && t.homes == s.homes
      && (if job.active.qty > 0 && !job.market then Busy(t, n, o, true) else Idle(t, n + 1))
  {
    hide ShardFor, Ready, C.DoSettle, Tradable;
  }

  lemma IndexOrder(s: Engine, n: nat, o: NewOrder)
    requires Busy(s, n, o, true) && o.symbol == "X" && C.Enabled(s.core, C.StoreIndex("X"))
    ensures var t := Taken(s, StoreIndex(HOME));
      && Allowed(s, StoreIndex(HOME)) && Idle(t, n + 1)
      && t.core == C.DoStoreIndex(s.core, "X") && t.lookups == s.lookups && t.homes == s.homes
  {
    hide ShardFor, Ready, C.DoStoreIndex;
  }

  lemma MissAtLast(s: Engine, n: nat, ticket: C.Ticket)
    requires Idle(s, n) && s.lookups == map[0 := ticket] && ticket.found == None
    ensures var t := Taken(s, Miss(0));
      && Allowed(s, Miss(0)) && Idle(t, n) && t.core == C.DoDrawMiss(s.core, ticket) && t.lookups == map[] && t.homes == s.homes
  {
    hide ShardFor, Ready, C.DoDrawMiss;
  }

  lemma TradeOrder(s: Engine, n: nat, o: NewOrder)
    requires Busy(s, n, o, true) && o.symbol == "X" && C.Enabled(s.core, C.FillOne("X"))
    ensures var t := Taken(s, FillOne(HOME));
      Allowed(s, FillOne(HOME)) && Busy(t, n, o, true) && t.core == C.DoFillOne(s.core, "X") && t.lookups == s.lookups
  {
    hide ShardFor, Ready, C.DoFillOne, Tradable, TradeOnce;
  }

  lemma ForgetOrder(s: Engine, n: nat, o: NewOrder)
    requires Busy(s, n, o, true) && o.symbol == "X" && C.Enabled(s.core, C.DeleteFilled("X"))
    ensures var t := Taken(s, DeleteFilled(HOME));
      Allowed(s, DeleteFilled(HOME)) && Busy(t, n, o, true) && t.core == C.DoDeleteFilled(s.core, "X") && t.lookups == s.lookups
  {
    hide ShardFor, Ready, C.DoDeleteFilled;
  }

  // ----- the run -----

  lemma AskIsWorkedOn() returns (moves: seq<Move>, s: Engine)
    ensures Reachable(Normal, moves, s) && Busy(s, 0, R.ASK, true) && s.core == R.Placing(false) && s.lookups == map[] && s.homes.Keys <= {"a"}
  {
    StartIsIdle();
    FreshStart();
    R.PlaceAsk(false);
    hide Reachable, Allowed, Taken, Idle, Busy, Start, C.Enabled, C.DoLockAndDraw, R.Placing;
    moves, s := SendOrder([], Start(Normal), 0, R.ASK);
    BeginOrder(s, 0, R.ASK);
    moves := Extend(moves, s, Begin(HOME));
    s := Taken(s, Begin(HOME));
  }

  lemma AskThenCancel() returns (moves: seq<Move>, s: Engine)
    ensures Reachable(Normal, moves, s) && Idle(s, 1) && s.core == R.Missed(false) && s.lookups == map[] && "b" !in s.homes
  {
    moves, s := AskIsWorkedOn();
    R.LookTooEarly(false);
    R.RestAsk(false);
    R.IndexAsk(false);
    R.MissLate(false);
    assert "a" !in R.Placing(false).index && R.Looked(false).locks["X"] == C.Matching(Admit(R.ASK, 1), false, None);
    hide Reachable, Allowed, Taken, Idle, Busy, C.Enabled, C.CanSettle, C.DoLookup, C.DoSettle, C.DoStoreIndex, C.DoDrawMiss;
    hide R.Placing, R.Looked, R.Resting, R.Indexed, R.Missed;
    LookAway(s, 0, R.ASK, "c", "a");
    moves := Extend(moves, s, Lookup(0, "c", "a"));
    s := Taken(s, Lookup(0, "c", "a"));
    SettleOrder(s, 0, R.ASK);
    moves := Extend(moves, s, Settle(HOME));
    s := Taken(s, Settle(HOME));
    IndexOrder(s, 0, R.ASK);
    moves := Extend(moves, s, StoreIndex(HOME));
    s := Taken(s, StoreIndex(HOME));
    MissAtLast(s, 1, R.MISSED);
    moves := Extend(moves, s, Miss(0));
    s := Taken(s, Miss(0));
  }

  lemma FreshStart()
    ensures Start(Normal).core == C.Initial(false) && Start(Normal).lookups == map[] && Start(Normal).homes == map[]
  {
  }

  lemma BidTrades(moves: seq<Move>, s: Engine) returns (longer: seq<Move>, t: Engine)
    requires Reachable(Normal, moves, s) && Idle(s, 1) && s.core == R.Missed(false) && s.lookups == map[] && "b" !in s.homes
    ensures Reachable(Normal, longer, t) && Idle(t, 2) && t.core == R.AtRest(false) && t.lookups == map[]
  {
    R.PlaceBid(false);
    R.TradeBid(false);
    R.ForgetAsk(false);
    R.SettleBid(false);
    assert R.Forgotten(false).locks["X"].active.qty == 0;
    hide Reachable, Allowed, Taken, Idle, Busy, C.Enabled, C.CanSettle, C.DoLockAndDraw, C.DoFillOne, C.DoDeleteFilled, C.DoSettle;
    hide R.Missed, R.Bidding, R.Trading, R.Forgotten, R.AtRest;
    longer, t := SendOrder(moves, s, 1, R.BID);
    BeginOrder(t, 1, R.BID);
    longer := Extend(longer, t, Begin(HOME));
    t := Taken(t, Begin(HOME));
    TradeOrder(t, 1, R.BID);
    longer := Extend(longer, t, FillOne(HOME));
    t := Taken(t, FillOne(HOME));
    ForgetOrder(t, 1, R.BID);
    longer := Extend(longer, t, DeleteFilled(HOME));
    t := Taken(t, DeleteFilled(HOME));
    SettleOrder(t, 1, R.BID);
    longer := Extend(longer, t, Settle(HOME));
    t := Taken(t, Settle(HOME));
  }

  lemma IdleIsQuiet(s: Engine, n: nat)
    requires Idle(s, n) && s.lookups == map[]
    ensures Quiet(s)
  {
    hide ShardFor, Ready;
  }

  /**
   A reachable run of the ring-fed engine, every id of it new, that comes to rest:
   the engine traded, the replay of its log does not, and however events and
   output were written down the validator refuses it.
   */
  lemma PipelinedCancelIsRefused() returns (moves: seq<Move>, s: Engine)
    ensures Reachable(Normal, moves, s) && Quiet(s)
    ensures s.core.hist == R.HIST
    ensures C.TradesOf(s.core.trades, "X") == [R.TRADED] && C.Replayed(s.core.hist, "X").fills == []
    ensures forall events, lines :: EndToEnd.Recorded(events, s.core.hist) && EndToEnd.Printed(lines, s.core) ==> !Validator.Accepts(events, lines)
  {
    R.RestsInTheEnd(false);
    R.NothingReplayed("X");
    hide Reachable, Quiet, Idle, R.AtRest, R.Missed, C.Quiescent, EndToEnd.Recorded, EndToEnd.Printed, Validator.Accepts, C.TradesOf, C.Replayed;
    moves, s := AskThenCancel();
    moves, s := BidTrades(moves, s);
    IdleIsQuiet(s, 2);
    forall events, lines | EndToEnd.Recorded(events, s.core.hist) && EndToEnd.Printed(lines, s.core) ensures !Validator.Accepts(events, lines) {
      R.OneTradeTooMany(false, events, lines);
    }
  }

  // ----- clients that wait -----

  /** Clients cancel what was answered, or a name of `strangers`, which no order has. */
  predicate Patient(s: Engine, strangers: set<string>, move: Move)
    requires Allowed(s, move)
  {
    match move
    case Begin(i) => s.shards[i].hand.value.NewRequest? ==> s.shards[i].hand.value.Id() !in strangers
    case Lookup(_, _, orig) => orig in s.core.returned || orig in strangers
    case _ => true
  }

  ghost predicate PatientRun(strangers: set<string>, moves: seq<Move>, s: Engine) {
    if moves == [] then s == Start(Normal)
    else
      var n := |moves| - 1;
      exists t :: PatientRun(strangers, moves[..n], t) && Allowed(t, moves[n]) && OwnIds(t, moves[n]) && Patient(t, strangers, moves[n])
        && s == Taken(t, moves[n])
  }

  lemma PatientMissIsHarmless(s: Engine, strangers: set<string>, p: nat)
    requires ClientsOk(s) && C.Inv(s.core) && R.MissesOk(s.core, strangers) && Allowed(s, Miss(p))
    ensures HarmlessMove(s, Miss(p))
  {
    hide WaitingOk, WaitingDistinct, TicketsOk, C.Inv, R.MissesOk, C.RestsOrWill;
    R.PatientStepIsHarmless(s.core, strangers, C.DrawMiss(s.lookups[p]));
  }

  lemma PatientInCore(s: Engine, strangers: set<string>, move: Move)
    requires Allowed(s, move) && Patient(s, strangers, move)
    requires CoreStep(s, move).Some? && C.Harmless(s.core, CoreStep(s, move).value)
    ensures R.Patient(s.core, strangers, CoreStep(s, move).value)
  {
    hide Malformed, SymbolOf, C.CanSettle, C.RestsOrWill;
  }

  lemma MissesStayOk(s: Engine, strangers: set<string>, move: Move)
    requires EngineOk(s) && ClientsOk(s) && C.Inv(s.core) && R.MissesOk(s.core, strangers)
    requires Allowed(s, move) && Correct(s, move) && Patient(s, strangers, move)
    ensures R.MissesOk(Taken(s, move).core, strangers)
  {
    hide EngineOk, ClientsOk, C.Inv, R.MissesOk, Allowed, Correct, Patient, Taken, CoreStep, C.Enabled, C.Harmless, C.Do, R.Patient;
    MoveFollows(s, move);
    if CoreStep(s, move).Some? {
      PatientInCore(s, strangers, move);
      R.PatientStep(s.core, strangers, CoreStep(s, move).value);
    }
  }

  /** Every run of clients that wait is a correct one; so the validator accepts it. */
  lemma {:induction false} WaitingClientsAreSafe(strangers: set<string>, moves: seq<Move>, s: Engine)
    requires PatientRun(strangers, moves, s)
    ensures CorrectRun(moves, s) && R.MissesOk(s.core, strangers)
  {
    hide EngineOk, ClientsOk, C.Inv, R.MissesOk, Allowed, OwnIds, HarmlessMove, Patient, Taken, Start, C.Reaches;
    if moves == [] {
      FreshStart();
      R.NoMissesAtStart(false, strangers);
    } else {
      var n := |moves| - 1;
      var t :| PatientRun(strangers, moves[..n], t) && Allowed(t, moves[n]) && OwnIds(t, moves[n]) && Patient(t, strangers, moves[n])
        && s == Taken(t, moves[n]);
      WaitingClientsAreSafe(strangers, moves[..n], t);
      var steps := CorrectRunsFollow(moves[..n], t);
      S.ReachableInv(false, steps, t.core);
      if moves[n].Miss? { PatientMissIsHarmless(t, strangers, moves[n].goroutine); } else { NoMissNoHarm(t, moves[n]); }
      MissesStayOk(t, strangers, moves[n]);
    }
  }

  lemma NoMissNoHarm(s: Engine, move: Move)
    requires !move.Miss?
    ensures HarmlessMove(s, move)
  {
  }
}
