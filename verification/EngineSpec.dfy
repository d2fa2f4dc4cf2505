/**
 What one request does to one book, with and without the protective limits: the
 locked engine refuses over-long fields and stops a full side from growing, the
 ring-fed engine does neither.
 */
module EngineSpec {
  import opened Types
  import opened Sequences
  import opened BookSpec
  import opened BookSafety
  import Utf8

  const MAX_RESTING_PER_SYMBOL := 100_000
  const MAX_ORDER_FIELD_LEN := 256

  datatype Status = Accepted | Rejected | Canceled | NotFound

  datatype Reason = NoReason | InvalidOrder | FieldTooLong | BookFull | ResidualDropped

  datatype Ack = Ack(clientOrderId: string, status: Status, reason: Reason, engineSeq: nat)

  /** A fill with the number it drew. */
  datatype Delivery = Delivery(engineSeq: nat, fill: Fill)

  function FillsIn(ds: seq<Delivery>): (r: seq<Fill>)
    ensures |r| == |ds| && forall i :: 0 <= i < |ds| ==> r[i] == ds[i].fill
  {
    seq(|ds|, i requires 0 <= i < |ds| => ds[i].fill)
  }

  /** Numbers drawn one after the other, starting after `last`. */
  ghost predicate NumberedFrom(ds: seq<Delivery>, last: nat) {
    forall i :: 0 <= i < |ds| ==> ds[i].engineSeq == last + 1 + i
  }

  lemma NoNumbers(last: nat)
    ensures NumberedFrom([], last)
  {
  }

  lemma StepNumbers(ds: seq<Delivery>, last: nat, n: nat, f: Fill)
    requires NumberedFrom(ds, last) && n == last + 1 + |ds|
    ensures NumberedFrom(ds + [Delivery(n, f)], last)
  {
  }

  /** A placement as it arrives: the side may be neither of the two there are. */
  datatype Incoming = Incoming(order: NewOrder, knownSide: bool)

  datatype Outcome = Outcome(book: Book, status: Status, reason: Reason, fills: seq<Fill>)

  /** An empty symbol means the default one. */
  function SymbolOf(symbol: string): string {
    if symbol == "" then "DEFAULT" else symbol
  }

  predicate Malformed(input: Incoming) {
    !input.knownSide || Rejection(input.order) != None
  }

  /** A field is measured in bytes. */
  predicate Fits(field: string) {
    |Utf8.Encode(field)| <= MAX_ORDER_FIELD_LEN
  }

  lemma ShortAsciiFits(field: string)
    requires Utf8.Ascii(field) && |field| <= MAX_ORDER_FIELD_LEN
    ensures Fits(field)
  {
    Utf8.OneByteEachIff(field);
  }

  predicate FieldsFit(o: NewOrder) {
    Fits(o.clientOrderId) && Fits(o.symbol)
  }

  /** The match of an admitted order. */
  function Matching(b: Book, o: NewOrder): Matched {
    Match(Admit(o, b.insertSeq + 1), b.Ladder(Opposite(o.side)), o.orderType == Market)
  }

  /** The book once an order has matched as far as it can, before any residual rests. */
  function AfterMatch(b: Book, o: NewOrder): Book {
    b.(insertSeq := b.insertSeq + 1).With(Opposite(o.side), Matching(b, o).ladder)
  }

  predicate LeavesResidual(b: Book, o: NewOrder) {
    Matching(b, o).residual.qty > 0 && o.orderType != Market
  }

  /** What is left after the match wants to rest on a side that is full. */
  predicate HitsCap(b: Book, o: NewOrder) {
    LeavesResidual(b, o) && |b.Ladder(o.side)| >= MAX_RESTING_PER_SYMBOL
  }

  // ----- one turn of the matching loop -----

  predicate Tradable(b: Book, active: Order, market: bool) {
    var opp := b.Ladder(Opposite(active.side));
    active.qty > 0 && opp != [] && Crosses(active, opp[0], market)
  }

  datatype Turn = Turn(book: Book, active: Order, fill: Fill, filled: Option<string>)

  /** One turn of the matching loop against a book whose opposite side is not empty. */
  function TradeOnce(b: Book, active: Order): Turn
    requires b.Ladder(Opposite(active.side)) != []
  {
    var side := Opposite(active.side);
    var opp := b.Ladder(side);
    var qty := Min(active.qty, opp[0].qty);
    Turn(b.With(side, Reduce(opp, qty)), active.(qty := active.qty - qty), MakeFill(active, opp[0], qty),
          if opp[0].qty == qty then Some(opp[0].orderId) else None)
  }

  // ----- one placement -----

  /** One placement against the book of its symbol. */
  function Submitted(b: Book, input: Incoming, mode: Mode, limits: bool): Outcome {
    var o := input.order;
    if Malformed(input) then Outcome(b, Rejected, InvalidOrder, [])
    else if limits && !FieldsFit(o) then Outcome(b, Rejected, FieldTooLong, [])
    else if limits && HitsCap(b, o) then
      if Matching(b, o).fills == [] then Outcome(AfterMatch(b, o), Rejected, BookFull, [])
      else Outcome(AfterMatch(b, o), Accepted, ResidualDropped, Matching(b, o).fills)
    else
      var r := Place(b, o, mode);
      assert r.1.Ok?;
      Outcome(r.0, Accepted, NoReason, r.1.value)
  }

  /** What the client sees: the book is not part of an answer. */
  predicate SameAnswer(a: Outcome, b: Outcome) {
    a.status == b.status && a.reason == b.reason && a.fills == b.fills
  }

  /**
   The two engines answer alike exactly when the request is malformed or neither
   limit fires; and exactly then they leave the same book behind.
   */
  lemma LimitsInvisibleIff(b: Book, input: Incoming, mode: Mode)
    ensures SameAnswer(Submitted(b, input, mode, true), Submitted(b, input, mode, false))
      <==> Malformed(input) || (FieldsFit(input.order) && !HitsCap(b, input.order))
    ensures Submitted(b, input, mode, true).book == Submitted(b, input, mode, false).book
      <==> Malformed(input) || (FieldsFit(input.order) && !HitsCap(b, input.order))
  {
    hide Match, Insert;
  }

  /** Whatever the limits do, the book stays sorted and uncrossed. */
  lemma SubmittedKeepsValid(b: Book, input: Incoming, mode: Mode, limits: bool)
    requires Valid(b, mode) && !Live(b, input.order.clientOrderId)
    ensures var b' := Submitted(b, input, mode, limits).book;
      Valid(b', mode) && forall id :: Live(b', id) ==> Live(b, id) || id == input.order.clientOrderId
  {
    var o := input.order;
    if Malformed(input) || (limits && !FieldsFit(o)) {
    } else if limits && HitsCap(b, o) {
      AfterMatchIsValid(b, o, mode);
    } else {
      hide Complete, Match;
      PlaceKeepsValid(b, o, mode);
    }
  }

  lemma AfterMatchIsValid(b: Book, o: NewOrder, mode: Mode)
    requires Valid(b, mode) && !Live(b, o.clientOrderId) && Rejection(o) == None
    ensures Valid(AfterMatch(b, o), mode)
    ensures forall id :: Live(AfterMatch(b, o), id) ==> Live(b, id)
  {
    hide Match;
    var active := Admit(o, b.insertSeq + 1);
    var opp := Opposite(o.side);
    MatchKeepsValid(b, active, o.orderType == Market, mode);
    var m := Match(active, b.Ladder(opp), o.orderType == Market);
    var b' := b.With(opp, m.ladder);
    assert AfterMatch(b, o) == b'.(insertSeq := b.insertSeq + 1);
  }

  /** The steps of an admitted placement: match, then rest or let go. */
  lemma SubmittedInSteps(b: Book, o: NewOrder, mode: Mode)
    requires Rejection(o) == None && FieldsFit(o)
    ensures var r := Submitted(b, Incoming(o, true), mode, true);
      && r.fills == Matching(b, o).fills
      && (!LeavesResidual(b, o) ==> r == Outcome(AfterMatch(b, o), Accepted, NoReason, r.fills))
      && (HitsCap(b, o) ==> r == Outcome(AfterMatch(b, o), if r.fills == [] then Rejected else Accepted, if r.fills == [] then BookFull else ResidualDropped, r.fills))
      && (LeavesResidual(b, o) && !HitsCap(b, o) ==> r == Outcome(Rest(AfterMatch(b, o), Matching(b, o).residual, mode), Accepted, NoReason, r.fills))
  {
    hide Match, Insert;
  }

  lemma MatchingKeepsOwnSide(b: Book, o: NewOrder)
    ensures AfterMatch(b, o).Ladder(o.side) == b.Ladder(o.side)
  {
  }

  lemma FindsItAt(ladder: seq<Order>, at: nat)
    requires at < |ladder| && DistinctIds(ladder)
    ensures Find(ladder, ladder[at].orderId) == at
  {
  }

  /** Cancelling the order at one position of a ladder takes out that position. */
  lemma CancelAt(b: Book, side: Side, at: nat, mode: Mode)
    requires Valid(b, mode) && at < |b.Ladder(side)|
    ensures Cancel(b, b.Ladder(side)[at].orderId) == (b.With(side, Without(b.Ladder(side), at)), true)
  {
    var o := b.Ladder(side)[at];
    FindsItAt(b.Ladder(side), at);
    assert o in b.Ladder(side);
    assert Find(b.buys, o.orderId) < |b.buys| ==> b.buys[Find(b.buys, o.orderId)] in b.buys;
  }

  /** A well-formed limit order: match, then rest what is left. */
  lemma LimitInSteps(b: Book, o: NewOrder)
    requires Rejection(o) == None && o.orderType == Limit
    ensures Place(b, o, Normal).1 == Result.Ok(Matching(b, o).fills)
    ensures Place(b, o, Normal).0 == if Matching(b, o).residual.qty > 0 then Rest(AfterMatch(b, o), Matching(b, o).residual, Normal) else AfterMatch(b, o)
  {
    hide Match, Insert;
  }
}
