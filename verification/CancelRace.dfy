/**
 When the replay stays in agreement with the locked engine: exactly while no
 order is turned away for its length, no residual for want of room, and a cancel
 that missed the index draws its number while its order neither rests nor is
 about to.

 A client that waits for its order's answer before it cancels never causes such
 a miss: the closed-loop bots wait (main.rs of the bot fleet, 606-640) unless the
 answer times out, and requests of one WebSocket connection to the locked engine
 are handled one after the other. The open-loop bots do not wait (main.rs, 494-503 and 763-776): they may
 cancel an order as soon as it is sent. Then the replay can cancel an order that
 the engine goes on to trade, and the validator refuses a run in which the
 engine did nothing but follow its code.
 */
module CancelRace {
  import opened Types
  import opened Sequences
  import opened BookSpec
  import opened BookSafety
  import opened EngineSpec
  import opened Replay
  import opened Validator
  import opened ConcurrentEngine
  import opened ConcurrentSafety
  import opened EndToEnd

  // ----- the exact condition -----

  lemma CancelShrinks(b: Book, id: string)
    requires Live(b, id)
    ensures Cancel(b, id).0 != b
  {
    FindIffIn(b.buys, id);
    FindIffIn(b.sells, id);
    hide Find;
    var b' := Cancel(b, id).0;
    assert |b'.buys| + |b'.sells| < |b.buys| + |b.sells|;
  }

  /** After a missed cancel the replay still agrees with a book exactly unless the order rests there or will. */
  lemma MissAgreesIff(s: Engine, s': Engine, t: Ticket, sym: string)
    requires Simulates(s, sym) && s' == DoDrawMiss(s, t)
    ensures Simulates(s', sym) <==> !(RestsOrWill(s, t.orig) && Homes(s.hist)[t.orig] == sym)
  {
    hide Homes, Replayed, TradesOf, Live, Cancel;
    ReplayedAppend(s.hist, Logged(s'.counter, Withdraw(t.id, t.orig)), sym);
    assert Projected(s', sym) == Projected(s, sym);
    hide Projected;
    var b := Replayed(s.hist, sym).book;
    if Live(b, t.orig) { CancelShrinks(b, t.orig); } else { CancelMissing(b, t.orig); }
  }

  lemma MissIsHarmlessIff(s: Engine, s': Engine, t: Ticket)
    requires (forall sym :: Simulates(s, sym)) && s' == DoDrawMiss(s, t)
    ensures (forall sym :: Simulates(s', sym)) <==> !RestsOrWill(s, t.orig)
  {
    hide Simulates, Homes, Projected;
    forall sym ensures Simulates(s', sym) <==> !(RestsOrWill(s, t.orig) && Homes(s.hist)[t.orig] == sym) {
      MissAgreesIff(s, s', t, sym);
    }
    if RestsOrWill(s, t.orig) { assert !Simulates(s', Homes(s.hist)[t.orig]); }
  }

  lemma PlacementCounts(b: Book, o: NewOrder)
    requires Rejection(o) == None
    ensures Place(b, o, Normal).0.insertSeq == b.insertSeq + 1 && Place(b, o, Normal).1.Ok?
  {
    hide Match, Insert;
  }

  /** The replay places an order that was turned away for its length. */
  lemma TooLongDisagrees(s: Engine, s': Engine, o: NewOrder)
    requires Simulates(s, o.symbol) && Rejection(o) == None && s' == DoReject(s, o)
    ensures !Simulates(s', o.symbol)
  {
    var sym := o.symbol;
    hide Homes, Replayed, TradesOf, Place;
    ReplayedAppend(s.hist, Logged(s'.counter, Submit(o)), sym);
    assert Projected(s', sym) == Projected(s, sym);
    hide Projected;
    PlacementCounts(Replayed(s.hist, sym).book, o);
  }

  lemma RestingGrows(b: Book, active: Order)
    ensures Rest(b, active, Normal) != b
  {
    var own := b.Ladder(active.side);
    assert |Insert(own, active, Priority(active.side, Normal))| == |own| + 1;
  }

  /** The replay lets rest what the cap turned away. */
  lemma DropDisagrees(s: Engine, s': Engine, sym: string)
    requires Simulates(s, sym) && HasMatched(s, sym) && !CanSettle(s, sym) && s' == DoDrop(s, sym)
    ensures !Simulates(s', sym)
  {
    var a, b := s.locks[sym].active, s.BookAt(sym);
    CompleteStops(b, a, s.locks[sym].market, Normal);
    RestingGrows(b, a);
    hide Complete, Rest, Replayed, TradesOf, Tradable;
  }

  /** After any step of any request, the replay agrees with every book if and only if the step is harmless. */
  lemma StepAgreesIff(s: Engine, step: Step)
    requires Inv(s) && Enabled(s, step)
    ensures (forall sym :: Simulates(Do(s, step), sym)) <==> Harmless(s, step)
  {
    var s' := Do(s, step);
    if Harmless(s, step) {
      StepKeeps(s, step);
      InvSimulates(s');
    } else {
      InvSimulates(s);
      hide Inv, Simulates, Rejection, FieldsFit, Tradable, RestsOrWill, CanSettle, HasMatched;
      match step
      case Reject(o) => TooLongDisagrees(s, s', o);
      case Settle(sym) => DropDisagrees(s, s', sym);
      case DrawMiss(t) => MissIsHarmlessIff(s, s', t);
      case _ =>
    }
  }

  lemma InvSimulates(s: Engine)
    requires Inv(s)
    ensures forall sym :: Simulates(s, sym)
  {
    hide HistOk, TradesOk, IndexOk, TicketOk, BookOk, LiveOk, Simulates;
    forall sym ensures Simulates(s, sym) { assert SymbolOk(s, sym); }
  }

  // ----- clients that wait -----

  /** The order's request has returned and the order no longer rests anywhere. */
  ghost predicate Gone(s: Engine, id: string) {
    id in s.returned && forall sym :: !Live(s.BookAt(sym), id)
  }

  lemma MissedIsGone(s: Engine, id: string)
    requires Inv(s) && id in s.returned && id !in s.index
    ensures Gone(s, id)
  {
    hide HistOk, TradesOk, IndexOk, TicketOk, SymbolOk, Live;
    forall sym ensures !Live(s.BookAt(sym), id) {
      InvAt(s, sym);
      if Live(s.BookAt(sym), id) { ReturnedIsIndexed(s, id, sym); }
    }
  }

  lemma ReturnedIsIndexed(s: Engine, id: string, sym: string)
    requires SymbolOk(s, sym) && Live(s.BookAt(sym), id) && id in s.returned
    ensures id in s.index
  {
    hide Simulates, BookOk, Homes, Live;
  }

  lemma GoneIsHarmless(s: Engine, id: string)
    requires Inv(s) && Gone(s, id)
    ensures !RestsOrWill(s, id)
  {
    hide HistOk, TradesOk, IndexOk, TicketOk, SymbolOk, Homes, Live;
    if id in Homes(s.hist) {
      InvAt(s, Homes(s.hist)[id]);
      GoneStaysOut(s, id, Homes(s.hist)[id]);
    }
  }

  lemma GoneStaysOut(s: Engine, id: string, sym: string)
    requires SymbolOk(s, sym) && id in s.returned && !Live(s.BookAt(sym), id)
    ensures !Live(Projected(s, sym).0, id)
  {
    hide Simulates, LiveOk, Homes, Live, MidMatch, Valid;
    ProjectedLive(s, sym, id);
  }

  /** Whatever happens next, an order that is gone does not come back. */
  lemma GoneStaysGone(s: Engine, step: Step, id: string)
    requires Inv(s) && Enabled(s, step) && Gone(s, id)
    ensures Gone(Do(s, step), id)
  {
    hide HistOk, TradesOk, IndexOk, TicketOk, SymbolOk, Live, Homes, Tradable, TradeOnce, Rest, Cancel, Rejection, FieldsFit;
    var s' := Do(s, step);
    assert id in s'.returned;
    forall sym ensures !Live(s'.BookAt(sym), id) {
      InvAt(s, sym);
      if s'.BookAt(sym) != s.BookAt(sym) { BookChangeKeepsOut(s, step, id, sym); }
    }
  }

  lemma BookChangeKeepsOut(s: Engine, step: Step, id: string, sym: string)
    requires SymbolOk(s, sym) && Enabled(s, step) && id in s.returned && !Live(s.BookAt(sym), id)
    requires Do(s, step).BookAt(sym) != s.BookAt(sym)
    ensures !Live(Do(s, step).BookAt(sym), id)
  {
    hide SymbolOk, Live, Homes, Tradable, TradeOnce, Rest, Cancel, Rejection, FieldsFit;
    match step
    case LockAndDraw(o) => SameLadders(s.BookAt(sym), s.BookAt(sym).insertSeq + 1, id);
    case FillOne(x) => FillOneAt(s, Do(s, step), x);
    case Settle(x) => if CanSettle(s, x) { SettledOut(s, x, id); }
    case LockCancel(t) => CancelledOut(s, t, id);
    case _ =>
  }

  lemma SameLadders(b: Book, n: nat, id: string)
    ensures Live(b.(insertSeq := n), id) <==> Live(b, id)
  {
  }

  lemma SettledOut(s: Engine, x: string, id: string)
    requires SymbolOk(s, x) && CanSettle(s, x) && id in s.returned && !Live(s.BookAt(x), id)
    ensures !Live(DoSettle(s, x, Normal).BookAt(x), id)
  {
    hide Simulates, LiveOk, Live, Homes, Tradable, Rest, MidMatch;
    SettleAt(s, DoSettle(s, x, Normal), x);
  }

  lemma CancelledOut(s: Engine, t: Ticket, id: string)
    requires t.found.Some? && t.found.value !in s.locks && SymbolOk(s, t.found.value)
    requires !Live(s.BookAt(t.found.value), id)
    ensures !Live(DoLockCancel(s, t).BookAt(t.found.value), id)
  {
    hide Simulates, LiveOk, Homes, Live, Valid, Cancel, MidMatch;
    CancelTakesOut(s.BookAt(t.found.value), t.orig);
  }

  /**
   A client cancels what was answered, or a name of `strangers`, which no order
   has; and the limits, if there are any, are not reached.
   */
  predicate Patient(s: Engine, strangers: set<string>, step: Step) {
    match step
    case Lookup(_, orig) => orig in s.returned || orig in strangers
    case Reject(o) => o.clientOrderId !in strangers && Rejection(o) != None
    case LockAndDraw(o) => o.clientOrderId !in strangers
    case Settle(sym) => CanSettle(s, sym)
    case _ => true
  }

  ghost predicate PatientRun(limits: bool, strangers: set<string>, steps: seq<Step>, s: Engine) {
    if steps == [] then s == Initial(limits)
    else
      var n := |steps| - 1;
      exists t :: PatientRun(limits, strangers, steps[..n], t) && Enabled(t, steps[n]) && Patient(t, strangers, steps[n]) && s == Do(t, steps[n])
  }

  /** What a patient client's missed cancels are about: strangers, or orders that are gone. */
  ghost predicate MissesOk(s: Engine, strangers: set<string>) {
    && (forall id :: id in Homes(s.hist) ==> id !in strangers)
    && (forall t :: t in s.tickets && t.found.None? ==> t.orig in strangers || Gone(s, t.orig))
  }

  lemma PatientStepIsHarmless(s: Engine, strangers: set<string>, step: Step)
    requires Inv(s) && MissesOk(s, strangers) && Enabled(s, step) && Patient(s, strangers, step)
    ensures Harmless(s, step)
  {
    hide Inv, Gone, Homes, Projected, Live, CanSettle, HasMatched, Tradable, Rejection, FieldsFit;
    if step.DrawMiss? && step.ticket.orig !in strangers { GoneIsHarmless(s, step.ticket.orig); }
  }

  lemma OneMoreHome(hist: seq<Logged>, l: Logged, strangers: set<string>)
    requires forall id :: id in Homes(hist) ==> id !in strangers
    requires l.kind.Submit? ==> IdOf(l) !in strangers
    ensures forall id :: id in Homes(hist + [l]) ==> id !in strangers
  {
    HistAppend(hist, l, "");
    hide Homes, ActionsOf;
  }

  lemma StrangersStayStrange(s: Engine, strangers: set<string>, step: Step)
    requires MissesOk(s, strangers) && Enabled(s, step) && Patient(s, strangers, step)
    ensures forall id :: id in Homes(Do(s, step).hist) ==> id !in strangers
  {
    hide Homes, Gone, Live, Tradable, TradeOnce, Rest, Cancel, Rejection, FieldsFit;
    match step
    case Reject(o) => OneMoreHome(s.hist, Logged(s.counter + 1, Submit(o)), strangers);
    case LockAndDraw(o) => OneMoreHome(s.hist, Logged(s.counter + 1, Submit(o)), strangers);
    case DrawMiss(t) => OneMoreHome(s.hist, Logged(s.counter + 1, Withdraw(t.id, t.orig)), strangers);
    case LockCancel(t) => OneMoreHome(s.hist, Logged(s.counter + 1, Withdraw(t.id, t.orig)), strangers);
    case _ =>
  }

  lemma PatientStep(s: Engine, strangers: set<string>, step: Step)
    requires Inv(s) && MissesOk(s, strangers) && Enabled(s, step) && Patient(s, strangers, step)
    ensures MissesOk(Do(s, step), strangers)
  {
    hide Inv, Gone, Homes, Tradable, TradeOnce, Rest, Cancel;
    StrangersStayStrange(s, strangers, step);
    var s' := Do(s, step);
    forall t | t in s'.tickets && t.found.None? && t.orig !in strangers ensures Gone(s', t.orig) {
      if t !in s.tickets { MissedIsGone(s, t.orig); }
      GoneStaysGone(s, step, t.orig);
    }
  }

  /** Every run of clients that wait is one in which all misses are harmless; so the validator accepts it. */
  lemma {:induction false} WaitingClientsAreSafe(limits: bool, strangers: set<string>, steps: seq<Step>, s: Engine)
    requires PatientRun(limits, strangers, steps, s)
    ensures Reaches(limits, steps, s) && MissesOk(s, strangers)
  {
    hide Inv, Enabled, Harmless, Patient, Do, MissesOk;
    if steps == [] {
      NoMissesAtStart(limits, strangers);
    } else {
      var n := |steps| - 1;
      var t :| PatientRun(limits, strangers, steps[..n], t) && Enabled(t, steps[n]) && Patient(t, strangers, steps[n]) && s == Do(t, steps[n]);
      WaitingClientsAreSafe(limits, strangers, steps[..n], t);
      ReachableInv(limits, steps[..n], t);
      PatientStepIsHarmless(t, strangers, steps[n]);
      PatientStep(t, strangers, steps[n]);
    }
  }

  lemma NoMissesAtStart(limits: bool, strangers: set<string>)
    ensures MissesOk(Initial(limits), strangers)
  {
    hide Gone;
  }

  // ----- a client that does not wait -----

  const ASK := NewOrder("a", "X", Sell, 10, 1, 0, Limit)
  const BID := NewOrder("b", "X", Buy, 10, 1, 0, Limit)
  const MISSED := Ticket("c", "a", None)
  const TRADED := Fill("b", "a", 10, 1)

  const ASKED := Logged(1, Submit(ASK))
  const CANCELLED := Logged(2, Withdraw("c", "a"))
  const BIDDEN := Logged(3, Submit(BID))
  const HIST := [ASKED, CANCELLED, BIDDEN]

  const EMPTY_LADDERS := Book([], [], 1)
  const ASK_RESTS := Book([], [Admit(ASK, 1)], 1)

  // The engine, state by state: the ask is being placed, the cancel looks it up too
  // early, the ask rests and is indexed, the cancel draws its number, the bid trades.

  function Placing(limits: bool): Engine {
    Engine(limits, 1, map["X" := EMPTY_LADDERS], map[], map["X" := Matching(Admit(ASK, 1), false, None)], {}, {}, {"a"}, [ASKED], [])
  }

  function Looked(limits: bool): Engine {
    Placing(limits).(tickets := {MISSED}, ids := {"a", "c"})
  }

  function Resting(limits: bool): Engine {
    Looked(limits).(books := map["X" := ASK_RESTS], locks := map["X" := Indexing("a")])
  }

  function Indexed(limits: bool): Engine {
    Resting(limits).(index := map["a" := "X"], locks := map[], returned := {"a"})
  }

  function Missed(limits: bool): Engine {
    Indexed(limits).(counter := 2, tickets := {}, hist := [ASKED, CANCELLED])
  }

  function Bidding(limits: bool): Engine {
    Missed(limits).(counter := 3, ids := {"a", "b", "c"}, hist := HIST,
      books := map["X" := ASK_RESTS.(insertSeq := 2)], locks := map["X" := Matching(Admit(BID, 2), false, None)])
  }

  function Trading(limits: bool): Engine {
    Bidding(limits).(counter := 4, trades := [Trade(4, "X", TRADED)],
      books := map["X" := Book([], [], 2)], locks := map["X" := Matching(Admit(BID, 2).(qty := 0), false, Some("a"))])
  }

  function Forgotten(limits: bool): Engine {
    Trading(limits).(index := map[], locks := map["X" := Matching(Admit(BID, 2).(qty := 0), false, None)])
  }

  function AtRest(limits: bool): Engine {
    Forgotten(limits).(locks := map[], returned := {"a", "b"})
  }

  lemma PlaceAsk(limits: bool)
    ensures Enabled(Initial(limits), LockAndDraw(ASK)) && DoLockAndDraw(Initial(limits), ASK) == Placing(limits)
  {
  }

  lemma LookTooEarly(limits: bool)
    ensures Enabled(Placing(limits), Lookup("c", "a")) && DoLookup(Placing(limits), "c", "a") == Looked(limits)
  {
  }

  lemma RestAsk(limits: bool)
    ensures CanSettle(Looked(limits), "X") && DoSettle(Looked(limits), "X", Normal) == Resting(limits)
  {
    assert Looked(limits).BookAt("X") == EMPTY_LADDERS;
    assert Rest(EMPTY_LADDERS, Admit(ASK, 1), Normal) == ASK_RESTS;
  }

  lemma IndexAsk(limits: bool)
    ensures Enabled(Resting(limits), StoreIndex("X")) && DoStoreIndex(Resting(limits), "X") == Indexed(limits)
  {
  }

  lemma MissLate(limits: bool)
    ensures Enabled(Indexed(limits), DrawMiss(MISSED)) && DoDrawMiss(Indexed(limits), MISSED) == Missed(limits)
  {
    assert [ASKED] + [CANCELLED] == [ASKED, CANCELLED];
  }

  lemma PlaceBid(limits: bool)
    ensures Enabled(Missed(limits), LockAndDraw(BID)) && DoLockAndDraw(Missed(limits), BID) == Bidding(limits)
  {
    assert [ASKED, CANCELLED] + [BIDDEN] == HIST;
  }

  lemma TradeBid(limits: bool)
    ensures Enabled(Bidding(limits), FillOne("X")) && DoFillOne(Bidding(limits), "X") == Trading(limits)
  {
    hide TradeOnce, Tradable, Admit;
    OneTurn();
    var s, turn := Bidding(limits), TradeOnce(ASK_RESTS.(insertSeq := 2), Admit(BID, 2));
    assert s.BookAt("X") == ASK_RESTS.(insertSeq := 2) && s.locks["X"] == Matching(Admit(BID, 2), false, None);
    assert [] + [Trade(4, "X", turn.fill)] == [Trade(4, "X", turn.fill)];
  }

  lemma OneTurn()
    ensures Tradable(ASK_RESTS.(insertSeq := 2), Admit(BID, 2), false)
    ensures TradeOnce(ASK_RESTS.(insertSeq := 2), Admit(BID, 2)) == Turn(Book([], [], 2), Admit(BID, 2).(qty := 0), TRADED, Some("a"))
  {
    assert [Admit(ASK, 1)][1..] == [];
  }

  lemma ForgetAsk(limits: bool)
    ensures Enabled(Trading(limits), DeleteFilled("X")) && DoDeleteFilled(Trading(limits), "X") == Forgotten(limits)
  {
  }

  lemma SettleBid(limits: bool)
    ensures CanSettle(Forgotten(limits), "X") && DoSettle(Forgotten(limits), "X", Normal) == AtRest(limits)
  {
  }

  ghost predicate Leads(s: Engine, steps: seq<Step>, s': Engine)
    decreases |steps|
  {
    if steps == [] then s == s' else Enabled(s, steps[0]) && Leads(Do(s, steps[0]), steps[1..], s')
  }

  lemma LeadsOn(s: Engine, step: Step, mid: Engine, rest: seq<Step>, s': Engine)
    requires Enabled(s, step) && Do(s, step) == mid && Leads(mid, rest, s')
    ensures Leads(s, [step] + rest, s')
  {
    hide Enabled, Do;
    assert ([step] + rest)[1..] == rest;
  }

  /** The early cancel is the only step that is not harmless. */
  function EarlyRun(): seq<Step> {
    [LockAndDraw(ASK), Lookup("c", "a"), Settle("X"), StoreIndex("X"), DrawMiss(MISSED)] + LateSteps()
  }

  function LateSteps(): seq<Step> {
    [LockAndDraw(BID), FillOne("X"), DeleteFilled("X"), Settle("X")]
  }

  lemma LateStepsLead(limits: bool)
    ensures Leads(Missed(limits), LateSteps(), AtRest(limits))
  {
    PlaceBid(limits);
    TradeBid(limits);
    ForgetAsk(limits);
    SettleBid(limits);
    hide Leads, CanSettle, DoLockAndDraw, DoFillOne, DoDeleteFilled, DoSettle, Missed, Bidding, Trading, Forgotten, AtRest;
    assert Leads(AtRest(limits), [], AtRest(limits)) by { NoSteps(AtRest(limits)); }
    LeadsOn(Forgotten(limits), Settle("X"), AtRest(limits), [], AtRest(limits));
    LeadsOn(Trading(limits), DeleteFilled("X"), Forgotten(limits), [Settle("X")] + [], AtRest(limits));
    LeadsOn(Bidding(limits), FillOne("X"), Trading(limits), [DeleteFilled("X")] + ([Settle("X")] + []), AtRest(limits));
    LeadsOn(Missed(limits), LockAndDraw(BID), Bidding(limits), [FillOne("X")] + ([DeleteFilled("X")] + ([Settle("X")] + [])), AtRest(limits));
    assert LateSteps() == [LockAndDraw(BID)] + ([FillOne("X")] + ([DeleteFilled("X")] + ([Settle("X")] + [])));
  }

  lemma NoSteps(s: Engine)
    ensures Leads(s, [], s)
  {
  }

  lemma EarlyRunLeads(limits: bool)
    ensures Leads(Initial(limits), EarlyRun(), AtRest(limits))
  {
    PlaceAsk(limits);
    LookTooEarly(limits);
    RestAsk(limits);
    IndexAsk(limits);
    MissLate(limits);
    LateStepsLead(limits);
    hide Leads, CanSettle, DoLockAndDraw, DoLookup, DoSettle, DoStoreIndex, DoDrawMiss, Placing, Looked, Resting, Indexed, Missed, AtRest, LateSteps, Initial;
    var r4 := [DrawMiss(MISSED)] + LateSteps();
    var r3 := [StoreIndex("X")] + r4;
    var r2 := [Settle("X")] + r3;
    var r1 := [Lookup("c", "a")] + r2;
    LeadsOn(Indexed(limits), DrawMiss(MISSED), Missed(limits), LateSteps(), AtRest(limits));
    LeadsOn(Resting(limits), StoreIndex("X"), Indexed(limits), r4, AtRest(limits));
    LeadsOn(Looked(limits), Settle("X"), Resting(limits), r3, AtRest(limits));
    LeadsOn(Placing(limits), Lookup("c", "a"), Looked(limits), r2, AtRest(limits));
    LeadsOn(Initial(limits), LockAndDraw(ASK), Placing(limits), r1, AtRest(limits));
    assert EarlyRun() == [LockAndDraw(ASK)] + r1;
  }

  // What the replay makes of the log.

  lemma NobodyPlaced()
    ensures Homes([]) == map[]
  {
  }

  lemma NothingYet(sym: string)
    ensures Replayed([], sym) == EMPTY_LEDGER
  {
  }

  lemma AskAtHome()
    ensures Homes([ASKED]) == map["a" := "X"]
  {
    hide ActionsOf, Homes;
    NobodyPlaced();
    assert [ASKED] == [] + [ASKED];
    HistAppend([], ASKED, "");
  }

  lemma AskReplayed()
    ensures Replayed([ASKED], "X").book == ASK_RESTS && Replayed([ASKED], "X").fills == []
    ensures Routed(CANCELLED.kind, Homes([ASKED]), "X") == [CancelOrder("a")]
  {
    AskAtHome();
    NothingYet("X");
    AskPlaced();
    hide ActionsOf, Homes, Replayed, Apply;
    assert [ASKED] == [] + [ASKED];
    ReplayedAppend([], ASKED, "X");
  }

  lemma AskPlaced()
    ensures var l := Apply(EMPTY_LEDGER, PlaceOrder(ASK), Normal); l.book == ASK_RESTS && l.fills == []
  {
  }

  lemma AskCancelled()
    ensures Cancel(ASK_RESTS, "a") == (EMPTY_LADDERS, true)
  {
    var asks := [Admit(ASK, 1)];
    assert Find(asks, "a") == 0 && Find([], "a") == 0;
    assert Without(asks, 0) == [];
  }

  lemma CancelReplayed()
    ensures Replayed([ASKED, CANCELLED], "X").book == EMPTY_LADDERS && Replayed([ASKED, CANCELLED], "X").fills == []
  {
    hide Replayed, ActionsOf, Homes, Cancel;
    AskReplayed();
    AskCancelled();
    assert [ASKED, CANCELLED] == [ASKED] + [CANCELLED];
    ReplayedAppend([ASKED], CANCELLED, "X");
  }

  lemma NothingReplayed(sym: string)
    ensures Replayed(HIST, sym).fills == []
  {
    if sym == "X" {
      CancelReplayed();
      BidRests(Replayed([ASKED, CANCELLED], "X"));
      hide Replayed, ActionsOf, Homes, Apply;
      assert HIST == [ASKED, CANCELLED] + [BIDDEN];
      ReplayedAppend([ASKED, CANCELLED], BIDDEN, sym);
    } else {
      NothingElsewhere(sym);
      hide Replayed, ActionsOf, Homes, Apply;
      assert HIST == [ASKED, CANCELLED] + [BIDDEN];
      ReplayedAppend([ASKED, CANCELLED], BIDDEN, sym);
    }
  }

  /** With nothing to trade against, the bid brings no fill. */
  lemma BidRests(l: Ledger)
    requires l.book == EMPTY_LADDERS && l.fills == []
    ensures Apply(l, PlaceOrder(BID), Normal).fills == []
  {
  }

  lemma NothingElsewhere(sym: string)
    requires sym != "X"
    ensures Replayed([ASKED, CANCELLED], sym).fills == []
  {
    hide ActionsOf, Homes, Replayed, Apply;
    AskAtHome();
    NothingYet(sym);
    assert [ASKED] == [] + [ASKED] && [ASKED, CANCELLED] == [ASKED] + [CANCELLED];
    ReplayedAppend([], ASKED, sym);
    ReplayedAppend([ASKED], CANCELLED, sym);
  }

  lemma NothingExpected(ordered: seq<Event>)
    requires FollowsHist(ordered, HIST)
    ensures ExpectedFills(ordered) == []
  {
    hide Replayed, FollowsHist, Sequential, CancelOwner, Under, Unlined, Values;
    assert UniqueIds(HIST);
    hide UniqueIds;
    var all := Sequential(map[], ordered, CancelOwner(ordered));
    forall sym ensures Under(Unlined(all), sym) == [] {
      ExpectedUnder(HIST, ordered, sym);
      NothingReplayed(sym);
    }
    UnlinedValues(all);
    if Unlined(all) != [] { FirstIsUnder(Unlined(all)); }
    assert |Values(Unlined(all))| == 0;
  }

  lemma FirstIsUnder(s: seq<(string, Fill)>)
    requires s != []
    ensures Under(s, s[0].0) != []
  {
  }

  lemma HomesOfRun()
    ensures Homes(HIST) == map["a" := "X", "b" := "X"]
  {
    hide ActionsOf, Homes;
    AskAtHome();
    assert [ASKED, CANCELLED] == [ASKED] + [CANCELLED];
    HistAppend([ASKED], CANCELLED, "");
    assert HIST == [ASKED, CANCELLED] + [BIDDEN];
    HistAppend([ASKED, CANCELLED], BIDDEN, "");
  }

  lemma LoggedInOrder(limits: bool)
    ensures HistOk(AtRest(limits)) && TradesOk(AtRest(limits))
  {
    var s := AtRest(limits);
    assert s.hist == HIST && s.counter == 4 && s.tickets == {} && s.ids == {"a", "b", "c"} && s.trades == [Trade(4, "X", TRADED)];
    hide AtRest, Homes, NamedOnce, Numbered, TradesOk;
    HomesOfRun();
    NamedApart(s);
    NumberedInOrder(s);
  }

  lemma NumberedInOrder(s: Engine)
    requires s.hist == HIST && s.counter == 4 && s.trades == [Trade(4, "X", TRADED)]
    ensures Numbered(s) && TradesOk(s)
  {
  }

  lemma NamedApart(s: Engine)
    requires s.hist == HIST && s.tickets == {} && s.ids == {"a", "b", "c"}
    ensures NamedOnce(s)
  {
    assert IdOf(s.hist[0]) == "a" && IdOf(s.hist[1]) == "c" && IdOf(s.hist[2]) == "b";
    assert "a" != "c" && "c" != "b" && "a" != "b";
    hide IdOf;
  }

  /** However the run is written down, the replay expects nothing, and the trade is one too many. */
  lemma OneTradeTooMany(limits: bool, events: seq<Event>, lines: seq<OutputLine>)
    requires Recorded(events, HIST) && Printed(lines, AtRest(limits))
    ensures !Accepts(events, lines)
  {
    var s := AtRest(limits);
    LoggedInOrder(limits);
    assert s.hist == HIST && s.trades == [Trade(4, "X", TRADED)];
    hide HistOk, TradesOk, Printed, InEngineOrder, ArrivalMap, FollowsHist, ExpectedFills, AllFills, Deduped, AtRest, EdgeCases.Clean;
    if events != [] {
      hide Recorded;
      OrderedAsAcknowledged(events, lines, s);
      NothingExpected(InEngineOrder(events, ArrivalMap(lines)));
      DedupedAreTrades(lines, s);
      assert |FillOnly(Deduped(AllFills(lines)))| == 1;
      OneIsNotNone(FillOnly(Deduped(AllFills(lines))));
    }
  }

  lemma OneIsNotNone(fills: seq<Fill>)
    requires fills != []
    ensures multiset([]) != multiset(fills)
  {
    assert fills[0] in multiset(fills);
  }

  /** One early cancel: the engine trades, the replay does not, and the validator refuses the run. */
  lemma EarlyCancelDiverges(limits: bool, events: seq<Event>, lines: seq<OutputLine>)
    requires Recorded(events, HIST) && Printed(lines, AtRest(limits))
    ensures Leads(Initial(limits), EarlyRun(), AtRest(limits)) && Quiescent(AtRest(limits))
    ensures AtRest(limits).hist == HIST && TradesOf(AtRest(limits).trades, "X") == [TRADED] && Replayed(HIST, "X").fills == []
    ensures !Accepts(events, lines)
  {
    RestsInTheEnd(limits);
    hide Leads, EarlyRun, Initial, AtRest, Recorded, Printed, Replayed, TradesOf, Accepts, Quiescent;
    EarlyRunLeads(limits);
    NothingReplayed("X");
    OneTradeTooMany(limits, events, lines);
  }

  lemma RestsInTheEnd(limits: bool)
    ensures Quiescent(AtRest(limits)) && AtRest(limits).hist == HIST && TradesOf(AtRest(limits).trades, "X") == [TRADED]
  {
    TradesAppend([], Trade(4, "X", TRADED), "X");
    assert [] + [Trade(4, "X", TRADED)] == [Trade(4, "X", TRADED)];
  }
}
