/** Every interleaving of the locked engine simulates sequential books, symbol by symbol. */
module ConcurrentSafety {
  import opened Types
  import opened Sequences
  import opened BookSpec
  import opened BookSafety
  import opened EngineSpec
  import opened Replay
  import opened ConcurrentEngine

  // ----- appending to the histories -----

  lemma HistAppend(hist: seq<Logged>, l: Logged, sym: string)
    ensures Homes(hist + [l]) == WithHome(Homes(hist), l.kind)
    ensures ActionsOf(hist + [l], sym) == ActionsOf(hist, sym) + Routed(l.kind, Homes(hist), sym)
  {
    assert (hist + [l])[..|hist|] == hist;
  }

  lemma RunAppend(actions: seq<Action>, a: Action)
    ensures Run(actions + [a], Normal) == Apply(Run(actions, Normal), a, Normal)
  {
    assert (actions + [a])[..|actions|] == actions;
  }

  lemma TradesAppend(trades: seq<Trade>, t: Trade, sym: string)
    ensures TradesOf(trades + [t], sym) == TradesOf(trades, sym) + (if t.symbol == sym then [t.fill] else [])
  {
    assert (trades + [t])[..|trades|] == trades;
  }

  // ----- symbols a step does not touch -----

  ghost predicate Extends(h: map<string, string>, h': map<string, string>) {
    forall id :: id in h ==> id in h' && h'[id] == h[id]
  }

  /** Nothing the invariant says about `sym` can change from `s` to `s'`. */
  ghost predicate Untouched(s: Engine, s': Engine, sym: string) {
    && s'.BookAt(sym) == s.BookAt(sym)
    && (sym in s'.locks <==> sym in s.locks) && (sym in s.locks ==> s'.locks[sym] == s.locks[sym])
    && Extends(Homes(s.hist), Homes(s'.hist))
    && s.returned <= s'.returned
    && (forall id :: id in s'.returned && id !in s.returned ==> id !in Homes(s.hist) || Homes(s.hist)[id] != sym)
    && (forall id :: id in s.index && id in Homes(s.hist) && Homes(s.hist)[id] == sym ==> id in s'.index)
  }

  lemma UntouchedKeeps(s: Engine, s': Engine, sym: string)
    requires Untouched(s, s', sym) && BookOk(s, sym) && LiveOk(s, sym)
    ensures BookOk(s', sym) && LiveOk(s', sym) && Projected(s', sym) == Projected(s, sym)
  {
    hide Valid, Complete, Homes;
  }

  // ----- the ladders under one fill -----

  /** One fill leaves the completed book as it was and takes the first of the fills to come. */
  lemma CompleteStep(b: Book, active: Order, market: bool, mode: Mode)
    requires Tradable(b, active, market)
    ensures var r := TradeOnce(b, active);
      && Complete(b, active, market, mode).0 == Complete(r.book, r.active, market, mode).0
      && Complete(b, active, market, mode).1 == [r.fill] + Complete(r.book, r.active, market, mode).1
  {
    var side := Opposite(active.side);
    MatchStep([], active, b.Ladder(side), market);
    hide Match, Rest, Reduce;
  }

  lemma CompleteStops(b: Book, active: Order, market: bool, mode: Mode)
    requires !Tradable(b, active, market)
    ensures Complete(b, active, market, mode) == (if active.qty > 0 && !market then Rest(b, active, mode) else b, [])
  {
  }

  lemma TradeKeepsValid(b: Book, active: Order, market: bool, mode: Mode)
    requires MidMatch(b, active, market, mode) && Tradable(b, active, market)
    ensures var r := TradeOnce(b, active);
      && MidMatch(r.book, r.active, market, mode)
      && r.active.orderId == active.orderId
      && (forall id :: Live(r.book, id) ==> Live(b, id))
      && (r.filled.Some? ==> Live(b, r.filled.value) && !Live(r.book, r.filled.value))
  {
    var b0 := b.(insertSeq := b.insertSeq - 1);
    var side := Opposite(active.side);
    var opp := b.Ladder(side);
    assert opp[0] in opp && b0.Ladder(side) == opp;
    assert opp[0].qty > 0;
    var qty := Min(active.qty, opp[0].qty);
    hide Valid, Reduce, Crosses, MakeFill;
    ReduceKeepsValid(b0, side, qty, mode);
    hide InLadder;
    assert Live(b, opp[0].orderId);
    var b' := b.With(side, Reduce(opp, qty));
    assert b'.(insertSeq := b'.insertSeq - 1) == b0.With(side, Reduce(opp, qty));
    assert forall id :: Live(b', id) <==> Live(b0.With(side, Reduce(opp, qty)), id);
  }

  lemma ReduceKeepsValid(b: Book, side: Side, qty: int, mode: Mode)
    requires Valid(b, mode) && b.Ladder(side) != [] && 0 < qty <= b.Ladder(side)[0].qty
    ensures var b' := b.With(side, Reduce(b.Ladder(side), qty));
      && Valid(b', mode)
      && (forall id :: Live(b', id) ==> Live(b, id))
      && (qty == b.Ladder(side)[0].qty ==> !Live(b', b.Ladder(side)[0].orderId))
  {
    var ladder := b.Ladder(side);
    var r := Reduce(ladder, qty);
    var d := ReducedIsSuffix(ladder, qty);
    hide Suffix, LadderOk, DistinctIds, Apart, Reduce;
    SuffixOk(r, ladder, d, side, b.insertSeq, mode);
    SuffixApart(r, ladder, d, b.Ladder(Opposite(side)));
    ReducedIds(ladder, r);
    if qty == ladder[0].qty { HeadGone(b, side, qty, mode); }
    hide InLadder;
  }

  lemma ReducedIsSuffix(ladder: seq<Order>, qty: int) returns (d: nat)
    requires ladder != [] && 0 < qty <= ladder[0].qty && forall o :: o in ladder ==> o.qty > 0
    ensures Suffix(Reduce(ladder, qty), ladder, d)
  {
    assert forall i :: 0 <= i < |ladder| ==> ladder[i] in ladder && ladder[i].qty > 0;
    if qty == ladder[0].qty {
      d := 1;
      assert forall i :: 0 <= i < |ladder| - 1 ==> ladder[1..][i] == ladder[1 + i];
    } else {
      d := 0;
      var r := Reduce(ladder, qty);
      assert forall i :: 1 <= i < |ladder| ==> r[i] == ladder[i];
    }
  }

  lemma ReducedIds(ladder: seq<Order>, r: seq<Order>)
    requires forall o :: o in r ==> InLadder(ladder, o.orderId)
    ensures forall id :: InLadder(r, id) ==> InLadder(ladder, id)
  {
  }

  lemma HeadGone(b: Book, side: Side, qty: int, mode: Mode)
    requires Valid(b, mode) && b.Ladder(side) != [] && qty == b.Ladder(side)[0].qty
    ensures !Live(b.With(side, Reduce(b.Ladder(side), qty)), b.Ladder(side)[0].orderId)
  {
    var top := b.Ladder(side)[0];
    assert top in b.Ladder(side);
    var rest := b.Ladder(side)[1..];
    forall o | o in rest ensures o.orderId != top.orderId {
      var i :| 0 <= i < |rest| && rest[i] == o;
      assert b.Ladder(side)[i + 1] == o;
    }
  }

  /** What cannot match at the front cannot match further back. */
  lemma NothingCrosses(ladder: seq<Order>, active: Order, bound: nat, mode: Mode)
    requires LadderOk(ladder, Opposite(active.side), bound, mode)
    requires ladder == [] || !Crosses(active, ladder[0], false)
    ensures forall o :: o in ladder ==> !Crosses(active, o, false)
  {
    forall o | o in ladder ensures !Crosses(active, o, false) {
      var i :| 0 <= i < |ladder| && ladder[i] == o;
      var rank := Priority(Opposite(active.side), mode);
      assert i > 0 ==> Less(rank(ladder[0]), rank(ladder[i]));
    }
  }

  /** Finishing the request in hand brings at most its own id to life. */
  lemma ProjectedLive(s: Engine, sym: string, id: string)
    requires BookOk(s, sym) && !Live(s.BookAt(sym), id)
    requires sym in s.locks && s.locks[sym].Matching? ==> id != s.locks[sym].active.orderId
    ensures !Live(Projected(s, sym).0, id)
  {
    if sym in s.locks && s.locks[sym].Matching? {
      var b, a := s.BookAt(sym), s.locks[sym].active;
      var b0 := b.(insertSeq := b.insertSeq - 1);
      CompleteKeepsValid(b0, a, s.locks[sym].market, Normal);
      assert b0.(insertSeq := b0.insertSeq + 1) == b;
      assert forall x :: Live(b0, x) <==> Live(b, x);
    }
  }

  // ----- the histories keep their shape -----

  /** `s'` has acknowledged one more request, under an id nobody else uses. */
  ghost predicate Acknowledges(s: Engine, s': Engine, l: Logged) {
    && s'.counter == s.counter + 1 == l.seqNo && s'.hist == s.hist + [l]
    && s.ids <= s'.ids && s'.tickets <= s.tickets
    && IdOf(l) != "" && IdOf(l) in s'.ids
    && (forall i :: 0 <= i < |s.hist| ==> IdOf(s.hist[i]) != IdOf(l))
    && (forall t :: t in s'.tickets ==> t.id != IdOf(l))
  }

  lemma NumbersGrow(s: Engine, s': Engine, l: Logged)
    requires Numbered(s) && Acknowledges(s, s', l)
    ensures Numbered(s')
  {
    hide IdOf;
  }

  lemma NamesGrow(s: Engine, s': Engine, l: Logged)
    requires NamedOnce(s) && Acknowledges(s, s', l)
    ensures NamedOnce(s')
  {
    hide IdOf;
  }

  /** One more acknowledgement: its number is the newest and its id is new. */
  lemma HistGrows(s: Engine, s': Engine, l: Logged)
    requires HistOk(s) && Acknowledges(s, s', l)
    requires l.kind.Submit? ==> IdOf(l) !in Homes(s.hist)
    ensures HistOk(s') && Extends(Homes(s.hist), Homes(s'.hist))
    ensures Homes(s'.hist) == WithHome(Homes(s.hist), l.kind)
  {
    NumbersGrow(s, s', l);
    NamesGrow(s, s', l);
    HistAppend(s.hist, l, "");
    hide Homes, Numbered, NamedOnce, ActionsOf;
  }

  /** A number drawn for a trade comes after every number drawn before. */
  lemma TradesGrow(s: Engine, s': Engine, t: Trade)
    requires TradesOk(s) && s'.counter == s.counter + 1 == t.seqNo && s'.trades == s.trades + [t]
    ensures TradesOk(s')
  {
  }

  lemma SameTrades(s: Engine, s': Engine)
    requires TradesOk(s) && s'.trades == s.trades && s.counter <= s'.counter
    ensures TradesOk(s')
  {
  }

  lemma SameIndex(s: Engine, s': Engine)
    requires IndexOk(s) && s'.index == s.index && s'.returned == s.returned && s'.hist == s.hist
    ensures IndexOk(s')
  {
    hide Homes;
  }

  lemma TicketKept(s: Engine, s': Engine, t: Ticket)
    requires TicketOk(s, t) && s.ids <= s'.ids && Extends(Homes(s.hist), Homes(s'.hist))
    ensures TicketOk(s', t)
  {
    hide Homes;
  }

  // ----- replaying one more request -----

  /** A request adds to the replay of a book what it routes there. */
  lemma ReplayedAppend(hist: seq<Logged>, l: Logged, sym: string)
    ensures var routed := Routed(l.kind, Homes(hist), sym);
      && (routed == [] ==> Replayed(hist + [l], sym) == Replayed(hist, sym))
      && (|routed| == 1 ==> Replayed(hist + [l], sym) == Apply(Replayed(hist, sym), routed[0], Normal))
  {
    HistAppend(hist, l, sym);
    var routed := Routed(l.kind, Homes(hist), sym);
    hide Homes, ActionsOf, Run, Apply;
    if |routed| == 1 {
      RunAppend(ActionsOf(hist, sym), routed[0]);
      assert routed == [routed[0]];
    } else if routed == [] {
      assert ActionsOf(hist, sym) + [] == ActionsOf(hist, sym);
    }
  }

  lemma ApplyRejected(l: Ledger, o: NewOrder)
    requires Rejection(o) != None
    ensures Apply(l, PlaceOrder(o), Normal) == l
  {
    hide Complete;
  }

  lemma ApplyAdmitted(l: Ledger, o: NewOrder)
    requires Rejection(o) == None
    ensures var l' := Apply(l, PlaceOrder(o), Normal);
      var b := l.book.(insertSeq := l.book.insertSeq + 1);
      var r := Complete(b, Admit(o, b.insertSeq), o.orderType == Market, Normal);
      l'.book == r.0 && l'.fills == l.fills + r.1
  {
    hide Complete;
  }

  /** A symbol the step neither touches nor routes anything new to. */
  lemma Elsewhere(s: Engine, s': Engine, sym: string)
    requires SymbolOk(s, sym) && Untouched(s, s', sym)
    requires Replayed(s'.hist, sym).book == Replayed(s.hist, sym).book
    requires Replayed(s'.hist, sym).fills == Replayed(s.hist, sym).fills
    requires TradesOf(s'.trades, sym) == TradesOf(s.trades, sym)
    ensures SymbolOk(s', sym)
  {
    hide BookOk, LiveOk, Untouched, Projected, Replayed, TradesOf;
    UntouchedKeeps(s, s', sym);
  }

  /** What the invariant says of one symbol. */
  lemma InvAt(s: Engine, sym: string)
    requires Inv(s)
    ensures SymbolOk(s, sym)
  {
    hide SymbolOk, HistOk, TradesOk, IndexOk, TicketOk;
  }

  // ----- each step keeps the invariant -----

  lemma RejectAt(s: Engine, s': Engine, o: NewOrder, sym: string)
    requires SymbolOk(s, sym) && o.clientOrderId !in Homes(s.hist) && Rejection(o) != None
    requires s' == DoReject(s, o)
    ensures SymbolOk(s', sym)
  {
    var l := Logged(s'.counter, Submit(o));
    HistAppend(s.hist, l, "");
    hide SymbolOk, Homes, Replayed, TradesOf, ActionsOf, Rejection;
    ReplayedAppend(s.hist, l, sym);
    ApplyRejected(Replayed(s.hist, sym), o);
    hide Apply;
    Elsewhere(s, s', sym);
  }

  lemma RejectKeeps(s: Engine, s': Engine, o: NewOrder)
    requires Inv(s) && Fresh(s, o) && Rejection(o) != None
    requires s' == DoReject(s, o)
    ensures Inv(s')
  {
    hide SymbolOk, Homes, Rejection;
    HistGrows(s, s', Logged(s'.counter, Submit(o)));
    hide NamedOnce, Numbered;
    forall sym ensures SymbolOk(s', sym) {
      RejectAt(s, s', o, sym);
    }
    forall t | t in s'.tickets ensures TicketOk(s', t) { TicketKept(s, s', t); }
  }

  lemma LockAndDrawSimulates(s: Engine, s': Engine, o: NewOrder)
    requires Simulates(s, o.symbol) && Rejection(o) == None && o.symbol !in s.locks
    requires s' == DoLockAndDraw(s, o)
    ensures Simulates(s', o.symbol)
  {
    var sym := o.symbol;
    hide Homes, Replayed, TradesOf, ActionsOf, Complete;
    ReplayedAppend(s.hist, Logged(s'.counter, Submit(o)), sym);
    ApplyAdmitted(Replayed(s.hist, sym), o);
    hide Apply, Rejection;
    assert Projected(s, sym) == (s.BookAt(sym), []);
    assert TradesOf(s.trades, sym) + [] == TradesOf(s.trades, sym);
  }

  lemma LockAndDrawBook(s: Engine, s': Engine, o: NewOrder)
    requires BookOk(s, o.symbol) && LiveOk(s, o.symbol) && Rejection(o) == None && o.symbol !in s.locks
    requires o.clientOrderId !in Homes(s.hist) && o.clientOrderId !in s.returned
    requires s' == DoLockAndDraw(s, o)
    ensures BookOk(s', o.symbol) && LiveOk(s', o.symbol)
  {
    var sym := o.symbol;
    HistAppend(s.hist, Logged(s'.counter, Submit(o)), "");
    hide Homes, ActionsOf, Valid;
    var b := s.BookAt(sym);
    assert s'.BookAt(sym).(insertSeq := s'.BookAt(sym).insertSeq - 1) == b;
    assert forall id :: Live(s'.BookAt(sym), id) <==> Live(b, id);
    hide Live;
  }

  lemma LockAndDrawAt(s: Engine, s': Engine, o: NewOrder)
    requires SymbolOk(s, o.symbol) && Rejection(o) == None && o.symbol !in s.locks
    requires o.clientOrderId !in Homes(s.hist) && o.clientOrderId !in s.returned
    requires s' == DoLockAndDraw(s, o)
    ensures SymbolOk(s', o.symbol)
  {
    hide Simulates, BookOk, LiveOk, Homes, Rejection;
    LockAndDrawSimulates(s, s', o);
    LockAndDrawBook(s, s', o);
  }

  lemma LockAndDrawElsewhere(s: Engine, s': Engine, o: NewOrder, sym: string)
    requires SymbolOk(s, sym) && sym != o.symbol && o.clientOrderId !in Homes(s.hist)
    requires s' == DoLockAndDraw(s, o)
    ensures SymbolOk(s', sym)
  {
    var l := Logged(s'.counter, Submit(o));
    HistAppend(s.hist, l, "");
    hide SymbolOk, Homes, Replayed, TradesOf, ActionsOf;
    ReplayedAppend(s.hist, l, sym);
    hide Apply;
    Elsewhere(s, s', sym);
  }

  lemma LockAndDrawKeeps(s: Engine, s': Engine, o: NewOrder)
    requires Inv(s) && Fresh(s, o) && Rejection(o) == None && o.symbol !in s.locks
    requires s' == DoLockAndDraw(s, o)
    ensures Inv(s')
  {
    hide SymbolOk, Homes, Rejection;
    HistGrows(s, s', Logged(s'.counter, Submit(o)));
    hide NamedOnce, Numbered;
    forall sym ensures SymbolOk(s', sym) {
      if sym == o.symbol { LockAndDrawAt(s, s', o); } else { LockAndDrawElsewhere(s, s', o, sym); }
    }
    forall t | t in s'.tickets ensures TicketOk(s', t) { TicketKept(s, s', t); }
  }

  // A step that draws no acknowledgement leaves the history alone.
  ghost predicate SameHist(s: Engine, s': Engine) {
    && s'.hist == s.hist && s'.ids == s.ids && s'.tickets == s.tickets
    && s.counter <= s'.counter
  }

  lemma SameHistKeeps(s: Engine, s': Engine)
    requires HistOk(s) && SameHist(s, s')
    ensures HistOk(s')
  {
    hide Homes, IdOf;
  }

  lemma TicketsKept(s: Engine, s': Engine)
    requires (forall t :: t in s.tickets ==> TicketOk(s, t)) && SameHist(s, s')
    ensures forall t :: t in s'.tickets ==> TicketOk(s', t)
  {
    hide TicketOk, Homes;
    forall t | t in s'.tickets ensures TicketOk(s', t) { TicketKept(s, s', t); }
  }

  lemma Carry(done: seq<Fill>, f: Fill, rest: seq<Fill>)
    ensures (done + [f]) + rest == done + ([f] + rest)
  {
  }

  lemma FillSimulates(s: Engine, s': Engine, sym: string)
    requires Simulates(s, sym) && IsMatching(s, sym) && CanFill(s, sym)
    requires s' == DoFillOne(s, sym)
    ensures Simulates(s', sym)
  {
    var job := s.locks[sym];
    CompleteStep(s.BookAt(sym), job.active, job.market, Normal);
    var t := Trade(s'.counter, sym, TradeOnce(s.BookAt(sym), job.active).fill);
    assert s'.trades == s.trades + [t];
    TradesAppend(s.trades, t, sym);
    hide Complete, Replayed, TradesOf, TradeOnce, Tradable;
    Carry(TradesOf(s.trades, sym), t.fill, Projected(s', sym).1);
  }

  lemma FillKeepsBook(s: Engine, s': Engine, sym: string)
    requires BookOk(s, sym) && LiveOk(s, sym) && IsMatching(s, sym) && CanFill(s, sym)
    requires s' == DoFillOne(s, sym)
    ensures BookOk(s', sym)
  {
    var job, b := s.locks[sym], s.BookAt(sym);
    TradeKeepsValid(b, job.active, job.market, Normal);
    hide Valid, Homes, Tradable, TradeOnce, Live, MidMatch;
  }

  lemma FillKeepsLive(s: Engine, s': Engine, sym: string)
    requires BookOk(s, sym) && LiveOk(s, sym) && IsMatching(s, sym) && CanFill(s, sym)
    requires s' == DoFillOne(s, sym)
    ensures LiveOk(s', sym)
      && (forall x, id :: Live(s'.BookAt(x), id) ==> Live(s.BookAt(x), id))
  {
    var job, b := s.locks[sym], s.BookAt(sym);
    TradeKeepsValid(b, job.active, job.market, Normal);
    hide Valid, Homes, Tradable, TradeOnce, Live, MidMatch, BookOk;
  }

  lemma FillElsewhere(s: Engine, s': Engine, sym: string, x: string)
    requires SymbolOk(s, x) && x != sym && IsMatching(s, sym) && CanFill(s, sym)
    requires s' == DoFillOne(s, sym)
    ensures SymbolOk(s', x)
  {
    TradesAppend(s.trades, s'.trades[|s.trades|], x);
    hide SymbolOk, Homes, Replayed, TradesOf, TradeOnce, Tradable;
    Elsewhere(s, s', x);
  }

  lemma FillOneAt(s: Engine, s': Engine, sym: string)
    requires SymbolOk(s, sym) && IsMatching(s, sym) && CanFill(s, sym) && s' == DoFillOne(s, sym)
    ensures SymbolOk(s', sym)
    ensures forall x, id :: Live(s'.BookAt(x), id) ==> Live(s.BookAt(x), id)
  {
    hide Simulates, BookOk, LiveOk, Homes, TradeOnce, Tradable, Live;
    FillSimulates(s, s', sym);
    FillKeepsBook(s, s', sym);
    FillKeepsLive(s, s', sym);
  }

  lemma FillOneKeeps(s: Engine, s': Engine, sym: string)
    requires Inv(s) && IsMatching(s, sym) && CanFill(s, sym) && s' == DoFillOne(s, sym)
    ensures Inv(s')
  {
    hide TradesOk, SymbolOk, IndexOk, Homes, HistOk, TicketOk, TradeOnce, Tradable, Live;
    InvAt(s, sym);
    TradesGrow(s, s', s'.trades[|s.trades|]);
    FillOneAt(s, s', sym);
    SameHistKeeps(s, s');
    SameIndex(s, s');
    TicketsKept(s, s');
    forall x ensures SymbolOk(s', x) {
      InvAt(s, x);
      if x != sym { FillElsewhere(s, s', sym, x); }
    }
  }

  // Forgetting an index entry: the id it names no longer rests anywhere.

  /** `s'` differs in the index, which lost `id`, and in the lock of `sym`. */
  ghost predicate Forgets(s: Engine, s': Engine, sym: string, id: string) {
    && SameHist(s, s') && s'.counter == s.counter && s'.trades == s.trades && s'.books == s.books && s'.returned == s.returned
    && s'.index == s.index - {id}
    && (forall x :: x != sym ==> (x in s'.locks <==> x in s.locks) && (x in s.locks ==> s'.locks[x] == s.locks[x]))
    && id in Homes(s.hist) && Homes(s.hist)[id] == sym && !Live(s.BookAt(sym), id)
  }

  lemma ForgetElsewhere(s: Engine, s': Engine, sym: string, id: string, x: string)
    requires SymbolOk(s, x) && Forgets(s, s', sym, id) && x != sym
    ensures SymbolOk(s', x)
  {
    hide SymbolOk, Homes, Live, Replayed, TradesOf;
    Elsewhere(s, s', x);
  }

  lemma ForgetKeeps(s: Engine, s': Engine, sym: string, id: string)
    requires Inv(s) && Forgets(s, s', sym, id) && SymbolOk(s', sym)
    ensures Inv(s')
  {
    hide SymbolOk, HistOk, TicketOk, Homes, Live;
    SameHistKeeps(s, s');
    TicketsKept(s, s');
    SameTrades(s, s');
    hide TradesOk;
    forall x ensures SymbolOk(s', x) {
      InvAt(s, x);
      if x != sym { ForgetElsewhere(s, s', sym, id, x); }
    }
  }

  lemma DeleteFilledAt(s: Engine, s': Engine, sym: string)
    requires SymbolOk(s, sym) && HasFilled(s, sym) && s' == DoDeleteFilled(s, sym)
    ensures SymbolOk(s', sym) && Forgets(s, s', sym, s.locks[sym].filled.value)
  {
    hide Homes, Live, Replayed, TradesOf, Complete, MidMatch;
  }

  lemma DeleteFilledKeeps(s: Engine, s': Engine, sym: string)
    requires Inv(s) && HasFilled(s, sym) && s' == DoDeleteFilled(s, sym)
    ensures Inv(s')
  {
    hide SymbolOk, HistOk, TicketOk, Homes, Live, Forgets;
    InvAt(s, sym);
    DeleteFilledAt(s, s', sym);
    ForgetKeeps(s, s', sym, s.locks[sym].filled.value);
  }

  lemma DeleteCancelledAt(s: Engine, s': Engine, sym: string)
    requires SymbolOk(s, sym) && sym in s.locks && s.locks[sym].Unindexing? && s' == DoDeleteCancelled(s, sym)
    ensures SymbolOk(s', sym) && Forgets(s, s', sym, s.locks[sym].cancelled)
  {
    hide Homes, Live, Replayed, TradesOf, Complete, MidMatch, Valid;
  }

  lemma DeleteCancelledKeeps(s: Engine, s': Engine, sym: string)
    requires Inv(s) && sym in s.locks && s.locks[sym].Unindexing? && s' == DoDeleteCancelled(s, sym)
    ensures Inv(s')
  {
    hide SymbolOk, HistOk, TicketOk, Homes, Live, Forgets;
    InvAt(s, sym);
    DeleteCancelledAt(s, s', sym);
    ForgetKeeps(s, s', sym, s.locks[sym].cancelled);
  }

  // Coming to rest, or leaving what is left of a market order behind.

  lemma RestFromMatch(b: Book, active: Order, mode: Mode)
    requires MidMatch(b, active, false, mode) && !Tradable(b, active, false) && active.qty > 0
    ensures Valid(Rest(b, active, mode), mode)
    ensures forall id :: Live(Rest(b, active, mode), id) ==> Live(b, id) || id == active.orderId
  {
    hide Insert;
    var b0 := b.(insertSeq := b.insertSeq - 1);
    NothingCrosses(b.Ladder(Opposite(active.side)), active, b0.insertSeq, mode);
    hide Valid, LadderOk, Crosses;
    RestKeepsValid(b0, active, mode);
    hide InLadder;
    assert Rest(b0, active, mode).(insertSeq := b0.insertSeq + 1) == Rest(b, active, mode);
    assert forall id :: Live(Rest(b0, active, mode), id) <==> Live(Rest(b, active, mode), id);
    assert forall id :: Live(b0, id) <==> Live(b, id);
  }

  lemma MidMatchIsValid(b: Book, active: Order, market: bool, mode: Mode)
    requires MidMatch(b, active, market, mode)
    ensures Valid(b, mode)
  {
  }

  /** The residual of a limit order joins its ladder before the index learns of it. */
  lemma SettleRests(s: Engine, s': Engine, sym: string)
    requires SymbolOk(s, sym) && CanSettle(s, sym) && s' == DoSettle(s, sym, Normal)
    requires s.locks[sym].active.qty > 0 && !s.locks[sym].market
    ensures SymbolOk(s', sym)
    ensures forall id :: Live(s'.BookAt(sym), id) ==> Live(s.BookAt(sym), id) || id == s.locks[sym].active.orderId
  {
    var a, b := s.locks[sym].active, s.BookAt(sym);
    CompleteStops(b, a, false, Normal);
    hide Complete, Valid, Homes, Live, Replayed, TradesOf, MidMatch, Tradable, Rest;
    assert Simulates(s', sym) by { hide BookOk, LiveOk; }
    hide Simulates;
    SettleRestsBook(s, s', sym);
  }

  lemma SettleRestsBook(s: Engine, s': Engine, sym: string)
    requires BookOk(s, sym) && LiveOk(s, sym) && CanSettle(s, sym) && s' == DoSettle(s, sym, Normal)
    requires s.locks[sym].active.qty > 0 && !s.locks[sym].market
    ensures BookOk(s', sym) && LiveOk(s', sym)
    ensures forall id :: Live(s'.BookAt(sym), id) ==> Live(s.BookAt(sym), id) || id == s.locks[sym].active.orderId
  {
    hide Valid, Homes, Live, MidMatch, Tradable, Rest;
    RestFromMatch(s.BookAt(sym), s.locks[sym].active, Normal);
  }

  lemma SettleDrops(s: Engine, s': Engine, sym: string)
    requires SymbolOk(s, sym) && CanSettle(s, sym) && s' == DoSettle(s, sym, Normal)
    requires s.locks[sym].active.qty == 0 || s.locks[sym].market
    ensures SymbolOk(s', sym)
  {
    var a, b := s.locks[sym].active, s.BookAt(sym);
    CompleteStops(b, a, s.locks[sym].market, Normal);
    MidMatchIsValid(b, a, s.locks[sym].market, Normal);
    assert !Live(b, a.orderId);
    hide Complete, Valid, Homes, Live, Replayed, TradesOf, MidMatch, Tradable, Rest;
  }

  lemma SettleElsewhere(s: Engine, s': Engine, sym: string, x: string)
    requires SymbolOk(s, x) && x != sym && CanSettle(s, sym) && s' == DoSettle(s, sym, Normal)
    requires HasHome(s, s.locks[sym].active.orderId, sym)
    ensures SymbolOk(s', x)
  {
    hide SymbolOk, Homes, Live, Replayed, TradesOf, MidMatch, Rest, Tradable;
    Elsewhere(s, s', x);
  }

  ghost predicate HasHome(s: Engine, id: string, sym: string) {
    id in Homes(s.hist) && Homes(s.hist)[id] == sym
  }

  lemma SettleAt(s: Engine, s': Engine, sym: string)
    requires SymbolOk(s, sym) && CanSettle(s, sym) && s' == DoSettle(s, sym, Normal)
    ensures SymbolOk(s', sym)
    ensures HasHome(s, s.locks[sym].active.orderId, sym)
    ensures forall id :: Live(s'.BookAt(sym), id) ==> Live(s.BookAt(sym), id) || id == s.locks[sym].active.orderId
  {
    assert s.locks[sym].active.qty >= 0;
    assert HasHome(s, s.locks[sym].active.orderId, sym);
    hide SymbolOk, Live, Rest, Tradable;
    if s.locks[sym].active.qty > 0 && !s.locks[sym].market {
      SettleRests(s, s', sym);
    } else {
      SettleDrops(s, s', sym);
    }
  }

  lemma SettleIndex(s: Engine, s': Engine, sym: string)
    requires IndexOk(s) && SymbolOk(s, sym) && CanSettle(s, sym) && s' == DoSettle(s, sym, Normal)
    ensures IndexOk(s')
  {
    hide Homes, Simulates, LiveOk, Rest, HistOk, Tradable, MidMatch;
  }

  lemma SettleKeeps(s: Engine, s': Engine, sym: string)
    requires Inv(s) && CanSettle(s, sym) && s' == DoSettle(s, sym, Normal)
    ensures Inv(s')
  {
    hide HistOk, TicketOk, Homes, HasHome, Live, Rest, Tradable, SymbolOk, IndexOk, TradesOk;
    InvAt(s, sym);
    SettleIndex(s, s', sym);
    SettleAt(s, s', sym);
    SameHistKeeps(s, s');
    SameTrades(s, s');
    TicketsKept(s, s');
    forall x ensures SymbolOk(s', x) {
      if x != sym {
        InvAt(s, x);
        SettleElsewhere(s, s', sym, x);
      }
    }
  }

  lemma StoreIndexAt(s: Engine, s': Engine, sym: string, x: string)
    requires SymbolOk(s, x) && SymbolOk(s, sym) && sym in s.locks && s.locks[sym].Indexing? && s' == DoStoreIndex(s, sym)
    ensures SymbolOk(s', x)
  {
    hide Homes, Live, Replayed, TradesOf, Complete, MidMatch, Valid;
    if x != sym {
      assert BookOk(s, sym);
      hide SymbolOk;
      Elsewhere(s, s', x);
    }
  }

  lemma StoreIndexIndex(s: Engine, s': Engine, sym: string)
    requires IndexOk(s) && SymbolOk(s, sym) && sym in s.locks && s.locks[sym].Indexing? && s' == DoStoreIndex(s, sym)
    ensures IndexOk(s')
  {
    hide Homes, Simulates, LiveOk, Valid, MidMatch;
  }

  lemma StoreIndexKeeps(s: Engine, s': Engine, sym: string)
    requires Inv(s) && sym in s.locks && s.locks[sym].Indexing? && s' == DoStoreIndex(s, sym)
    ensures Inv(s')
  {
    hide HistOk, TicketOk, Homes, Live, SymbolOk, IndexOk, TradesOk;
    InvAt(s, sym);
    StoreIndexIndex(s, s', sym);
    SameHistKeeps(s, s');
    TicketsKept(s, s');
    SameTrades(s, s');
    forall x ensures SymbolOk(s', x) {
      InvAt(s, x);
      StoreIndexAt(s, s', sym, x);
    }
  }

  // A cancel's lookup, before any lock is taken.

  lemma LookupHist(s: Engine, s': Engine, id: string, orig: string)
    requires HistOk(s) && CanLookup(s, id) && s' == DoLookup(s, id, orig)
    requires forall t :: t in s.tickets ==> t.id in s.ids
    ensures HistOk(s')
  {
    hide Homes, IdOf;
  }

  lemma LookupSymbol(s: Engine, s': Engine, id: string, orig: string, x: string)
    requires SymbolOk(s, x) && s' == DoLookup(s, id, orig)
    ensures SymbolOk(s', x)
  {
    hide SymbolOk, Homes, Live, Replayed, TradesOf;
    Elsewhere(s, s', x);
  }

  lemma LookupTicket(s: Engine, s': Engine, id: string, orig: string)
    requires IndexOk(s) && CanLookup(s, id) && s' == DoLookup(s, id, orig)
    ensures TicketOk(s', Ticket(id, orig, if orig in s.index then Some(s.index[orig]) else None))
  {
    hide Homes;
  }

  lemma LookupKeepsTicket(s: Engine, s': Engine, id: string, orig: string, t: Ticket)
    requires TicketOk(s, t) && s' == DoLookup(s, id, orig)
    ensures TicketOk(s', t)
  {
    hide Homes, Live;
    TicketKept(s, s', t);
  }

  lemma LookupKeeps(s: Engine, s': Engine, id: string, orig: string)
    requires Inv(s) && CanLookup(s, id) && s' == DoLookup(s, id, orig)
    ensures Inv(s')
  {
    hide HistOk, Homes, Live, SymbolOk, IndexOk, TradesOk;
    LookupHist(s, s', id, orig);
    LookupTicket(s, s', id, orig);
    hide TicketOk;
    forall t | t in s'.tickets ensures TicketOk(s', t) {
      if t in s.tickets { LookupKeepsTicket(s, s', id, orig, t); }
    }
    SameTrades(s, s');
    SameIndex(s, s');
    forall x ensures SymbolOk(s', x) {
      InvAt(s, x);
      LookupSymbol(s, s', id, orig, x);
    }
  }

  // A cancel acknowledged without a lock: the replay of it must find nothing.

  lemma DrawMissSimulates(s: Engine, s': Engine, t: Ticket, sym: string)
    requires SymbolOk(s, sym) && !RestsOrWill(s, t.orig) && s' == DoDrawMiss(s, t)
    ensures Replayed(s'.hist, sym).book == Replayed(s.hist, sym).book
    ensures Replayed(s'.hist, sym).fills == Replayed(s.hist, sym).fills
  {
    hide Homes, Replayed, TradesOf, LiveOk, BookOk, Live, Cancel, Projected;
    ReplayedAppend(s.hist, Logged(s'.counter, Withdraw(t.id, t.orig)), sym);
    if t.orig in Homes(s.hist) && Homes(s.hist)[t.orig] == sym {
      CancelMissing(Replayed(s.hist, sym).book, t.orig);
    }
  }

  lemma DrawMissAt(s: Engine, s': Engine, t: Ticket, sym: string)
    requires SymbolOk(s, sym) && !RestsOrWill(s, t.orig) && s' == DoDrawMiss(s, t)
    ensures SymbolOk(s', sym)
  {
    HistAppend(s.hist, Logged(s'.counter, Withdraw(t.id, t.orig)), "");
    hide SymbolOk, RestsOrWill, Homes, Replayed, TradesOf, Live, ActionsOf;
    DrawMissSimulates(s, s', t, sym);
    Elsewhere(s, s', sym);
  }

  lemma CancelGrowsHist(s: Engine, s': Engine, t: Ticket)
    requires HistOk(s) && TicketOk(s, t) && t in s.tickets
    requires s'.counter == s.counter + 1 && s'.hist == s.hist + [Logged(s'.counter, Withdraw(t.id, t.orig))]
    requires s'.ids == s.ids && s'.tickets == s.tickets - {t}
    ensures HistOk(s') && Homes(s'.hist) == Homes(s.hist)
  {
    var l := Logged(s'.counter, Withdraw(t.id, t.orig));
    assert Acknowledges(s, s', l) by { hide Homes, Numbered; }
    hide Acknowledges, HistOk, Homes, Live;
    HistGrows(s, s', l);
  }

  lemma CancelKeepsTicket(s: Engine, s': Engine, t: Ticket)
    requires TicketOk(s, t) && s'.ids == s.ids && Homes(s'.hist) == Homes(s.hist)
    ensures TicketOk(s', t)
  {
    hide Homes;
  }

  lemma CancelKeepsIndex(s: Engine, s': Engine)
    requires IndexOk(s) && s'.index == s.index && s'.returned == s.returned && Homes(s'.hist) == Homes(s.hist)
    ensures IndexOk(s')
  {
    hide Homes;
  }

  lemma DrawMissKeeps(s: Engine, s': Engine, t: Ticket)
    requires Inv(s) && t in s.tickets && !RestsOrWill(s, t.orig) && s' == DoDrawMiss(s, t)
    ensures Inv(s')
  {
    hide HistOk, Homes, Live, SymbolOk, IndexOk, TradesOk, TicketOk, RestsOrWill;
    CancelGrowsHist(s, s', t);
    CancelKeepsIndex(s, s');
    SameTrades(s, s');
    forall u | u in s'.tickets ensures TicketOk(s', u) { CancelKeepsTicket(s, s', u); }
    forall x ensures SymbolOk(s', x) {
      InvAt(s, x);
      DrawMissAt(s, s', t, x);
    }
  }

  // A cancel under the lock of the book its order went to.

  lemma CancelTakesOut(b: Book, id: string)
    requires Valid(b, Normal)
    ensures var (b', ok) := Cancel(b, id);
      && Valid(b', Normal)
      && (forall x :: Live(b', x) ==> Live(b, x) && x != id)
      && (!ok ==> b' == b)
  {
    CancelRemovesExactly(b, id, Normal);
  }

  lemma LockCancelSimulates(s: Engine, s': Engine, t: Ticket)
    requires t.found.Some? && t.found.value !in s.locks && Simulates(s, t.found.value)
    requires HasHome(s, t.orig, t.found.value) && s' == DoLockCancel(s, t)
    ensures Simulates(s', t.found.value)
  {
    var sym := t.found.value;
    hide Homes, Replayed, TradesOf, Cancel;
    ReplayedAppend(s.hist, Logged(s'.counter, Withdraw(t.id, t.orig)), sym);
    hide Complete;
  }

  lemma LockCancelBook(s: Engine, s': Engine, t: Ticket)
    requires t.found.Some? && t.found.value !in s.locks && BookOk(s, t.found.value) && LiveOk(s, t.found.value)
    requires HasHome(s, t.orig, t.found.value) && s' == DoLockCancel(s, t) && Homes(s'.hist) == Homes(s.hist)
    ensures BookOk(s', t.found.value) && LiveOk(s', t.found.value)
    ensures forall id :: Live(s'.BookAt(t.found.value), id) ==> Live(s.BookAt(t.found.value), id)
  {
    CancelTakesOut(s.BookAt(t.found.value), t.orig);
    hide Homes, Cancel, Live, Valid, MidMatch;
  }

  lemma LockCancelElsewhere(s: Engine, s': Engine, t: Ticket, x: string)
    requires t.found.Some? && x != t.found.value && SymbolOk(s, x)
    requires HasHome(s, t.orig, t.found.value) && s' == DoLockCancel(s, t) && Homes(s'.hist) == Homes(s.hist)
    ensures SymbolOk(s', x)
  {
    hide SymbolOk, Homes, Replayed, TradesOf, Cancel;
    ReplayedAppend(s.hist, Logged(s'.counter, Withdraw(t.id, t.orig)), x);
    hide Apply;
    Elsewhere(s, s', x);
  }

  lemma LockCancelAt(s: Engine, s': Engine, t: Ticket)
    requires t.found.Some? && t.found.value !in s.locks && SymbolOk(s, t.found.value)
    requires HasHome(s, t.orig, t.found.value) && s' == DoLockCancel(s, t) && Homes(s'.hist) == Homes(s.hist)
    ensures SymbolOk(s', t.found.value)
    ensures forall id :: Live(s'.BookAt(t.found.value), id) ==> Live(s.BookAt(t.found.value), id)
  {
    hide Simulates, BookOk, LiveOk, Homes, HasHome, DoLockCancel, Live;
    LockCancelSimulates(s, s', t);
    LockCancelBook(s, s', t);
  }

  lemma FoundIsHome(s: Engine, t: Ticket)
    requires TicketOk(s, t) && t.found.Some?
    ensures HasHome(s, t.orig, t.found.value)
  {
    hide Homes, Live;
  }

  lemma LockCancelKeeps(s: Engine, s': Engine, t: Ticket)
    requires Inv(s) && t in s.tickets && t.found.Some? && t.found.value !in s.locks && s' == DoLockCancel(s, t)
    ensures Inv(s')
  {
    hide HistOk, Homes, Live, SymbolOk, IndexOk, TradesOk, TicketOk, Cancel, HasHome;
    FoundIsHome(s, t);
    CancelGrowsHist(s, s', t);
    CancelKeepsIndex(s, s');
    SameTrades(s, s');
    InvAt(s, t.found.value);
    LockCancelAt(s, s', t);
    forall u | u in s'.tickets ensures TicketOk(s', u) { CancelKeepsTicket(s, s', u); }
    forall x ensures SymbolOk(s', x) {
      InvAt(s, x);
      if x != t.found.value { LockCancelElsewhere(s, s', t, x); }
    }
  }

  // ----- every reachable state -----

  lemma StepKeeps(s: Engine, step: Step)
    requires Inv(s) && Enabled(s, step) && Harmless(s, step)
    ensures Inv(Do(s, step))
  {
    hide Inv, RestsOrWill, CanSettle, HasMatched, Rejection, FieldsFit, Tradable;
    var s' := Do(s, step);
    match step
    case Reject(o) => RejectKeeps(s, s', o);
    case LockAndDraw(o) => LockAndDrawKeeps(s, s', o);
    case FillOne(sym) => FillOneKeeps(s, s', sym);
    case DeleteFilled(sym) => DeleteFilledKeeps(s, s', sym);
    case Settle(sym) => SettleKeeps(s, s', sym);
    case StoreIndex(sym) => StoreIndexKeeps(s, s', sym);
    case Lookup(id, orig) => LookupKeeps(s, s', id, orig);
    case DrawMiss(t) => DrawMissKeeps(s, s', t);
    case LockCancel(t) => LockCancelKeeps(s, s', t);
    case DeleteCancelled(sym) => DeleteCancelledKeeps(s, s', sym);
  }

  lemma SymbolOkAtStart(limits: bool, sym: string)
    ensures SymbolOk(Initial(limits), sym)
  {
    hide MidMatch, Complete, Apply;
    assert Replayed([], sym) == EMPTY_LEDGER;
  }

  lemma InvAtStart(limits: bool)
    ensures Inv(Initial(limits))
  {
    forall sym ensures SymbolOk(Initial(limits), sym) { SymbolOkAtStart(limits, sym); }
    hide SymbolOk, TicketOk, IdOf;
  }

  /** Whatever the interleaving, while misses are harmless every reachable state is on the way to the sequential one. */
  lemma {:induction false} ReachableInv(limits: bool, steps: seq<Step>, s: Engine)
    requires Reaches(limits, steps, s)
    ensures Inv(s)
  {
    hide Inv, Enabled, Harmless, Do;
    if steps == [] {
      InvAtStart(limits);
    } else {
      var n := |steps| - 1;
      var t :| Reaches(limits, steps[..n], t) && Enabled(t, steps[n]) && Harmless(t, steps[n]) && s == Do(t, steps[n]);
      ReachableInv(limits, steps[..n], t);
      StepKeeps(t, steps[n]);
    }
  }
}
