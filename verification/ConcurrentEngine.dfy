/**
 The engine with one lock per symbol, as small steps of concurrent requests.

 A step draws at most one number from the shared counter, or touches one book
 or the index once. Steps of different symbols, and of cancels that hold no
 lock yet, interleave freely.
 */
module ConcurrentEngine {
  import opened Types
  import opened BookSpec
  import opened BookSafety
  import opened EngineSpec
  import opened Replay

  /** A request with the number its acknowledgement drew. */
  datatype Logged = Logged(seqNo: nat, kind: EventKind)

  datatype Trade = Trade(seqNo: nat, symbol: string, fill: Fill)

  /** What the holder of a book's lock still has to do. */
  datatype Job =
    | Matching(active: Order, market: bool, filled: Option<string>)
    | Indexing(resting: string)
    | Unindexing(cancelled: string)

  /** A cancel between its index lookup and its number; `found` is what the lookup saw. */
  datatype Ticket = Ticket(id: string, orig: string, found: Option<string>)

  /** `limits` says whether the engine protects itself from long fields and full sides. */
  datatype Engine = Engine(
    limits: bool,
    counter: nat,
    books: map<string, Book>,
    index: map<string, string>,
    locks: map<string, Job>,
    tickets: set<Ticket>,
    returned: set<string>,
    ids: set<string>,
    hist: seq<Logged>,
    trades: seq<Trade>)
  {
    function BookAt(sym: string): Book {
      if sym in books then books[sym] else EMPTY_BOOK
    }
  }

  function Initial(limits: bool): Engine {
    Engine(limits, 0, map[], map[], map[], {}, {}, {}, [], [])
  }

  function WithHome(homes: map<string, string>, kind: EventKind): map<string, string> {
    match kind
    case Submit(o) => homes[o.clientOrderId := o.symbol]
    case Withdraw(_, _) => homes
  }

  /** The symbol each placed id went to. */
  function Homes(hist: seq<Logged>): map<string, string> {
    if hist == [] then map[]
    else WithHome(Homes(hist[..|hist| - 1]), hist[|hist| - 1].kind)
  }

  datatype Step =
    | Reject(order: NewOrder)
    | LockAndDraw(order: NewOrder)
    | FillOne(symbol: string)
    | DeleteFilled(symbol: string)
    | Settle(symbol: string)
    | StoreIndex(symbol: string)
    | Lookup(id: string, orig: string)
    | DrawMiss(ticket: Ticket)
    | LockCancel(ticket: Ticket)
    | DeleteCancelled(symbol: string)

  /** An order as a client may send it: an id of its own, and a symbol. */
  predicate Fresh(s: Engine, o: NewOrder) {
    o.clientOrderId != "" && o.symbol != "" && o.clientOrderId !in s.ids
  }

  /** An order is turned away because it is malformed, or too long for an engine with limits. */
  predicate TurnedAway(s: Engine, o: NewOrder) {
    Rejection(o) != None || (s.limits && !FieldsFit(o))
  }

  predicate IsMatching(s: Engine, sym: string) {
    sym in s.locks && s.locks[sym].Matching? && s.locks[sym].filled.None?
  }

  predicate CanFill(s: Engine, sym: string)
    requires IsMatching(s, sym)
  {
    Tradable(s.BookAt(sym), s.locks[sym].active, s.locks[sym].market)
  }

  predicate HasMatched(s: Engine, sym: string) {
    IsMatching(s, sym) && !CanFill(s, sym)
  }

  /** What is left of the order finds room on its side, or does not want any. */
  predicate CanSettle(s: Engine, sym: string) {
    && HasMatched(s, sym)
    && (s.limits && s.locks[sym].active.qty > 0 && !s.locks[sym].market ==>
      |s.BookAt(sym).Ladder(s.locks[sym].active.side)| < MAX_RESTING_PER_SYMBOL)
  }

  predicate HasFilled(s: Engine, sym: string) {
    sym in s.locks && s.locks[sym].Matching? && s.locks[sym].filled.Some?
  }

  /** A cancel has an id of its own. It may name any order: resting, still being placed, gone or never sent. */
  predicate CanLookup(s: Engine, id: string) {
    id != "" && id !in s.ids
  }

  predicate Enabled(s: Engine, step: Step) {
    match step
    case Reject(o) => Fresh(s, o) && TurnedAway(s, o)
    case LockAndDraw(o) => Fresh(s, o) && !TurnedAway(s, o) && o.symbol !in s.locks
    case FillOne(sym) => IsMatching(s, sym) && CanFill(s, sym)
    case DeleteFilled(sym) => HasFilled(s, sym)
    case Settle(sym) => HasMatched(s, sym)
    case StoreIndex(sym) => sym in s.locks && s.locks[sym].Indexing?
    case Lookup(id, _) => CanLookup(s, id)
    case DrawMiss(t) => t in s.tickets && t.found.None?
    case LockCancel(t) => t in s.tickets && t.found.Some? && t.found.value !in s.locks
    case DeleteCancelled(sym) => sym in s.locks && s.locks[sym].Unindexing?
  }

  /** The next number goes to an acknowledgement. */
  function Acknowledged(s: Engine, kind: EventKind): Engine {
    s.(counter := s.counter + 1, hist := s.hist + [Logged(s.counter + 1, kind)])
  }

  function DoReject(s: Engine, o: NewOrder): Engine {
    Acknowledged(s, Submit(o)).(ids := s.ids + {o.clientOrderId}, returned := s.returned + {o.clientOrderId})
  }

  function DoLockAndDraw(s: Engine, o: NewOrder): Engine {
    var b := s.BookAt(o.symbol);
    Acknowledged(s, Submit(o)).(
      ids := s.ids + {o.clientOrderId},
      books := s.books[o.symbol := b.(insertSeq := b.insertSeq + 1)],
      locks := s.locks[o.symbol := Matching(Admit(o, b.insertSeq + 1), o.orderType == Market, None)])
  }

  function DoFillOne(s: Engine, sym: string): Engine
    requires IsMatching(s, sym) && CanFill(s, sym)
  {
    var job := s.locks[sym];
    var r := TradeOnce(s.BookAt(sym), job.active);
    s.(counter := s.counter + 1,
       trades := s.trades + [Trade(s.counter + 1, sym, r.fill)],
       books := s.books[sym := r.book],
       locks := s.locks[sym := Matching(r.active, job.market, r.filled)])
  }

  function DoDeleteFilled(s: Engine, sym: string): Engine
    requires HasFilled(s, sym)
  {
    var job := s.locks[sym];
    s.(index := s.index - {job.filled.value}, locks := s.locks[sym := job.(filled := None)])
  }

  function DoSettle(s: Engine, sym: string, mode: Mode): Engine
    requires IsMatching(s, sym)
  {
    var job, b := s.locks[sym], s.BookAt(sym);
    if job.active.qty > 0 && !job.market then
      s.(books := s.books[sym := Rest(b, job.active, mode)], locks := s.locks[sym := Indexing(job.active.orderId)])
    else
      s.(locks := s.locks - {sym}, returned := s.returned + {job.active.orderId})
  }

  /** A residual that meets a full side is let go. */
  function DoDrop(s: Engine, sym: string): Engine
    requires IsMatching(s, sym)
  {
    s.(locks := s.locks - {sym}, returned := s.returned + {s.locks[sym].active.orderId})
  }

  function DoStoreIndex(s: Engine, sym: string): Engine
    requires sym in s.locks && s.locks[sym].Indexing?
  {
    var id := s.locks[sym].resting;
    s.(index := s.index[id := sym], locks := s.locks - {sym}, returned := s.returned + {id})
  }

  function DoLookup(s: Engine, id: string, orig: string): Engine {
    s.(ids := s.ids + {id},
       tickets := s.tickets + {Ticket(id, orig, if orig in s.index then Some(s.index[orig]) else None)})
  }

  function DoDrawMiss(s: Engine, t: Ticket): Engine {
    Acknowledged(s, Withdraw(t.id, t.orig)).(tickets := s.tickets - {t})
  }

  function DoLockCancel(s: Engine, t: Ticket): Engine
    requires t.found.Some?
  {
    var sym := t.found.value;
    var (b, ok) := Cancel(s.BookAt(sym), t.orig);
    Acknowledged(s, Withdraw(t.id, t.orig)).(
      tickets := s.tickets - {t},
      books := if ok then s.books[sym := b] else s.books,
      locks := if ok then s.locks[sym := Unindexing(t.orig)] else s.locks)
  }

  function DoDeleteCancelled(s: Engine, sym: string): Engine
    requires sym in s.locks && s.locks[sym].Unindexing?
  {
    s.(index := s.index - {s.locks[sym].cancelled}, locks := s.locks - {sym})
  }

  function Do(s: Engine, step: Step): Engine
    requires Enabled(s, step)
  {
    match step
    case Reject(o) => DoReject(s, o)
    case LockAndDraw(o) => DoLockAndDraw(s, o)
    case FillOne(sym) => DoFillOne(s, sym)
    case DeleteFilled(sym) => DoDeleteFilled(s, sym)
    case Settle(sym) => if CanSettle(s, sym) then DoSettle(s, sym, Normal) else DoDrop(s, sym)
    case StoreIndex(sym) => DoStoreIndex(s, sym)
    case Lookup(id, orig) => DoLookup(s, id, orig)
    case DrawMiss(t) => DoDrawMiss(s, t)
    case LockCancel(t) => DoLockCancel(s, t)
    case DeleteCancelled(sym) => DoDeleteCancelled(s, sym)
  }

  /** The order rests in its book, or will once the request that holds the book's lock is done. */
  predicate RestsOrWill(s: Engine, id: string) {
    id in Homes(s.hist) && Live(Projected(s, Homes(s.hist)[id]).0, id)
  }

  /**
   What the engine does is what a sequential book would do: no order is turned away
   for its length, no residual for want of room, and a cancel that missed the index
   draws its number while its order neither rests nor is about to.
   */
  predicate Harmless(s: Engine, step: Step) {
    match step
    case Reject(o) => Rejection(o) != None
    case Settle(sym) => CanSettle(s, sym)
    case DrawMiss(t) => !RestsOrWill(s, t.orig)
    case _ => true
  }

  /** Every state some interleaving reaches after these steps, each of them harmless. */
  ghost predicate Reaches(limits: bool, steps: seq<Step>, s: Engine) {
    if steps == [] then s == Initial(limits)
    else
      var n := |steps| - 1;
      exists t :: Reaches(limits, steps[..n], t) && Enabled(t, steps[n]) && Harmless(t, steps[n]) && s == Do(t, steps[n])
  }

  predicate Quiescent(s: Engine) {
    s.locks == map[] && s.tickets == {}
  }

  // ----- what a sequential book would have done -----

  /** What a request asks of the book of `sym`, given who has been placed where. */
  function Routed(kind: EventKind, homes: map<string, string>, sym: string): seq<Action> {
    match kind
    case Submit(o) => if o.symbol == sym then [PlaceOrder(o)] else []
    case Withdraw(_, orig) => if orig in homes && homes[orig] == sym then [CancelOrder(orig)] else []
  }

  /** The actions one symbol's book sees when requests arrive in counter order. */
  function ActionsOf(hist: seq<Logged>, sym: string): seq<Action> {
    if hist == [] then []
    else
      var n := |hist| - 1;
      ActionsOf(hist[..n], sym) + Routed(hist[n].kind, Homes(hist[..n]), sym)
  }

  function Replayed(hist: seq<Logged>, sym: string): Ledger {
    Run(ActionsOf(hist, sym), Normal)
  }

  /** The book once the request holding its lock has finished on its own. */
  function Projected(s: Engine, sym: string): (Book, seq<Fill>) {
    if sym in s.locks && s.locks[sym].Matching? then
      Complete(s.BookAt(sym), s.locks[sym].active, s.locks[sym].market, Normal)
    else (s.BookAt(sym), [])
  }

  function TradesOf(trades: seq<Trade>, sym: string): seq<Fill> {
    if trades == [] then []
    else
      var n := |trades| - 1;
      TradesOf(trades[..n], sym) + (if trades[n].symbol == sym then [trades[n].fill] else [])
  }

  // ----- the invariant -----

  /** The live book and the fills drawn so far are on the way to the sequential ones. */
  ghost predicate Simulates(s: Engine, sym: string) {
    && Replayed(s.hist, sym).book == Projected(s, sym).0
    && Replayed(s.hist, sym).fills == TradesOf(s.trades, sym) + Projected(s, sym).1
  }

  /** Of the order being matched, `b` has already counted the insertion. */
  ghost predicate MidMatch(b: Book, active: Order, market: bool, mode: Mode) {
    && active.insertSeq == b.insertSeq > 0 && active.qty >= 0 && (market || active.price > 0)
    && Valid(b.(insertSeq := b.insertSeq - 1), mode)
    && !Live(b, active.orderId)
  }

  ghost predicate BookOk(s: Engine, sym: string) {
    var b := s.BookAt(sym);
    if sym in s.locks && s.locks[sym].Matching? then
      var a := s.locks[sym].active;
      && MidMatch(b, a, s.locks[sym].market, Normal)
      && a.orderId in Homes(s.hist) && Homes(s.hist)[a.orderId] == sym && a.orderId !in s.returned
      && (s.locks[sym].filled.Some? ==>
        var f := s.locks[sym].filled.value;
        !Live(b, f) && f in Homes(s.hist) && Homes(s.hist)[f] == sym)
    else
      && Valid(b, Normal)
      && (sym in s.locks && s.locks[sym].Unindexing? ==>
        var c := s.locks[sym].cancelled;
        !Live(b, c) && c in Homes(s.hist) && Homes(s.hist)[c] == sym)
      && (sym in s.locks && s.locks[sym].Indexing? ==>
        var r := s.locks[sym].resting;
        r in Homes(s.hist) && Homes(s.hist)[r] == sym && r !in s.returned)
  }

  /** Resting orders live in their home book, and the index knows those whose request has returned. */
  ghost predicate LiveOk(s: Engine, sym: string) {
    forall id :: Live(s.BookAt(sym), id) ==>
      && id in Homes(s.hist) && Homes(s.hist)[id] == sym
      && (id in s.returned || (sym in s.locks && s.locks[sym] == Indexing(id)))
      && (id in s.returned ==> id in s.index)
  }

  /** The index never names a book other than the order's own. */
  ghost predicate IndexOk(s: Engine) {
    && (forall id :: id in s.index ==> id in Homes(s.hist) && s.index[id] == Homes(s.hist)[id])
    && (forall id :: id in s.returned ==> id in Homes(s.hist))
  }

  /** A cancel that found its order knows the book it went to. */
  ghost predicate TicketOk(s: Engine, t: Ticket) {
    && t.id in s.ids && t.id != ""
    && (t.found.Some? ==> t.orig in Homes(s.hist) && Homes(s.hist)[t.orig] == t.found.value)
  }

  /** Acknowledgement numbers go up. */
  ghost predicate Numbered(s: Engine) {
    && (forall i :: 0 <= i < |s.hist| ==> 0 < s.hist[i].seqNo <= s.counter)
    && (forall i, j :: 0 <= i < j < |s.hist| ==> s.hist[i].seqNo < s.hist[j].seqNo)
  }

  /** No two requests share an id, neither among the acknowledged nor among the pending. */
  ghost predicate NamedOnce(s: Engine) {
    && (forall i :: 0 <= i < |s.hist| ==> IdOf(s.hist[i]) in s.ids && IdOf(s.hist[i]) != "")
    && (forall i, j :: 0 <= i < j < |s.hist| ==> IdOf(s.hist[i]) != IdOf(s.hist[j]))
    && (forall t1, t2 :: t1 in s.tickets && t2 in s.tickets && t1 != t2 ==> t1.id != t2.id)
    && (forall t, i :: t in s.tickets && 0 <= i < |s.hist| ==> IdOf(s.hist[i]) != t.id)
  }

  ghost predicate HistOk(s: Engine) {
    && Numbered(s) && NamedOnce(s)
    && (forall id :: id in Homes(s.hist) ==> id in s.ids)
  }

  function IdOf(l: Logged): string {
    match l.kind
    case Submit(o) => o.clientOrderId
    case Withdraw(id, _) => id
  }

  ghost predicate TradesOk(s: Engine) {
    && (forall i :: 0 <= i < |s.trades| ==> 0 < s.trades[i].seqNo <= s.counter)
    && (forall i, j :: 0 <= i < j < |s.trades| ==> s.trades[i].seqNo < s.trades[j].seqNo)
  }

  ghost predicate SymbolOk(s: Engine, sym: string) {
    Simulates(s, sym) && BookOk(s, sym) && LiveOk(s, sym)
  }

  ghost predicate Inv(s: Engine) {
    && HistOk(s) && TradesOk(s) && IndexOk(s)
    && (forall sym :: SymbolOk(s, sym))
    && (forall t :: t in s.tickets ==> TicketOk(s, t))
  }
}
