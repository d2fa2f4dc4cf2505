/**
 Price-time matching as the API contract describes it: two ladders kept in
 priority order, an incoming order that walks the opposite ladder from the
 front, and a residual that rests unless the order is a market order.

 Every book and engine of the repository is proved against these functions.
 */
module BookSpec {
  import opened Types
  import opened Sequences

  /** `Broken` is the engine's deliberate inversion of time priority. */
  datatype Mode = Normal | Broken

  /** Highest bid or lowest ask first, then time, then order of insertion. */
  function Priority(side: Side, mode: Mode): Order -> Rank {
    (o: Order) => Rank(
      if side.Buy? then -o.price else o.price,
      if mode.Broken? then 0 - o.tsNs as int else o.tsNs as int,
      o.insertSeq)
  }

  predicate Crosses(active: Order, resting: Order, market: bool) {
    market || (if active.side.Buy? then resting.price <= active.price else active.price <= resting.price)
  }

  function MakeFill(active: Order, resting: Order, qty: int): Fill {
    if active.side.Buy? then Fill(active.orderId, resting.orderId, resting.price, qty)
    else Fill(resting.orderId, active.orderId, resting.price, qty)
  }

  datatype Matched = Matched(fills: seq<Fill>, residual: Order, ladder: seq<Order>)

  /** Fills against the front of the ladder until nothing is left to trade. */
  function Match(active: Order, ladder: seq<Order>, market: bool): Matched
    decreases |ladder|
  {
    if active.qty <= 0 || ladder == [] || !Crosses(active, ladder[0], market) then
      Matched([], active, ladder)
    else
      var qty := Min(active.qty, ladder[0].qty);
      var fill := MakeFill(active, ladder[0], qty);
      var left := active.(qty := active.qty - qty);
      if ladder[0].qty == qty then
        var rest := Match(left, ladder[1..], market);
        Matched([fill] + rest.fills, rest.residual, rest.ladder)
      else
        Matched([fill], left, [ladder[0].(qty := ladder[0].qty - qty)] + ladder[1..])
  }

  /** The ladder after its front order has traded `qty`. */
  function Reduce(ladder: seq<Order>, qty: int): seq<Order>
    requires ladder != []
  {
    if ladder[0].qty == qty then ladder[1..]
    else [ladder[0].(qty := ladder[0].qty - qty)] + ladder[1..]
  }

  function After(fills: seq<Fill>, m: Matched): Matched {
    m.(fills := fills + m.fills)
  }

  /** One turn of the matching loop: trade with the front order, then go on. */
  lemma MatchStep(done: seq<Fill>, active: Order, ladder: seq<Order>, market: bool)
    requires active.qty > 0 && ladder != [] && Crosses(active, ladder[0], market)
    ensures var qty := Min(active.qty, ladder[0].qty);
      After(done, Match(active, ladder, market))
      == After(done + [MakeFill(active, ladder[0], qty)],
               Match(active.(qty := active.qty - qty), Reduce(ladder, qty), market))
  {
    var qty := Min(active.qty, ladder[0].qty);
    var rest := Match(active.(qty := active.qty - qty), Reduce(ladder, qty), market);
    assert done + ([MakeFill(active, ladder[0], qty)] + rest.fills)
        == (done + [MakeFill(active, ladder[0], qty)]) + rest.fills;
  }

  lemma MatchStops(done: seq<Fill>, active: Order, ladder: seq<Order>, market: bool)
    requires active.qty <= 0 || ladder == [] || !Crosses(active, ladder[0], market)
    ensures After(done, Match(active, ladder, market)) == Matched(done, active, ladder)
  {
    assert done + [] == done;
  }

  datatype Book = Book(buys: seq<Order>, sells: seq<Order>, insertSeq: nat) {
    function Ladder(side: Side): seq<Order> {
      if side.Buy? then buys else sells
    }

    function With(side: Side, ladder: seq<Order>): Book {
      if side.Buy? then this.(buys := ladder) else this.(sells := ladder)
    }
  }

  const EMPTY_BOOK := Book([], [], 0)

  /** Why an order is turned away before it touches the book. */
  function Rejection(input: NewOrder): Option<OrderBookError> {
    if input.clientOrderId == "" then Some(MissingOrderId)
    else if input.qty <= 0 then Some(NonPositiveQuantity)
    else if input.orderType == Limit && input.price <= 0 then Some(NonPositiveLimitPrice)
    else None
  }

  function Admit(input: NewOrder, insertSeq: nat): Order {
    Order(input.clientOrderId, input.side, input.price, input.qty, input.tsNs, insertSeq)
  }

  function Rest(b: Book, o: Order, mode: Mode): Book {
    b.With(o.side, Insert(b.Ladder(o.side), o, Priority(o.side, mode)))
  }

  /** What an admitted order does to the book, from its match to its residual. */
  function Complete(b: Book, active: Order, market: bool, mode: Mode): (r: (Book, seq<Fill>)) {
    var m := Match(active, b.Ladder(Opposite(active.side)), market);
    var b' := b.With(Opposite(active.side), m.ladder);
    (if m.residual.qty > 0 && !market then Rest(b', m.residual, mode) else b', m.fills)
  }

  function Place(b: Book, input: NewOrder, mode: Mode): (r: (Book, Result<seq<Fill>, OrderBookError>)) {
    match Rejection(input)
    case Some(e) => (b, Err(e))
    case None =>
      var r := Complete(b.(insertSeq := b.insertSeq + 1), Admit(input, b.insertSeq + 1), input.orderType == Market, mode);
      (r.0, Ok(r.1))
  }

  /** The index of the first order named `id`, or the length. */
  function Find(ladder: seq<Order>, id: string): (i: nat)
    ensures i <= |ladder|
    ensures i < |ladder| ==> ladder[i].orderId == id
    ensures forall j :: 0 <= j < i ==> ladder[j].orderId != id
  {
    if ladder == [] || ladder[0].orderId == id then 0
    else
      var k := Find(ladder[1..], id);
      assert forall j :: 1 <= j < k + 1 ==> ladder[j] == ladder[1..][j - 1];
      k + 1
  }

  function Without(ladder: seq<Order>, i: nat): seq<Order>
    requires i < |ladder|
  {
    ladder[..i] + ladder[i + 1..]
  }

  function Cancel(b: Book, id: string): (r: (Book, bool)) {
    var i, j := Find(b.buys, id), Find(b.sells, id);
    if i < |b.buys| then (b.(buys := Without(b.buys, i)), true)
    else if j < |b.sells| then (b.(sells := Without(b.sells, j)), true)
    else (b, false)
  }

  // ----- the invariant of a book -----

  ghost predicate LadderOk(ladder: seq<Order>, side: Side, bound: nat, mode: Mode) {
    && StrictlySorted(ladder, Priority(side, mode))
    && forall o :: o in ladder ==> o.side == side && o.qty > 0 && o.price > 0 && o.insertSeq <= bound
  }

  /** Every bid is below every ask, the best ones included, and no id is on both sides. */
  ghost predicate Apart(buys: seq<Order>, sells: seq<Order>) {
    forall bid, ask :: bid in buys && ask in sells ==> bid.price < ask.price && bid.orderId != ask.orderId
  }

  predicate InLadder(ladder: seq<Order>, id: string) {
    exists o :: o in ladder && o.orderId == id
  }

  predicate Live(b: Book, id: string) {
    InLadder(b.buys, id) || InLadder(b.sells, id)
  }

  ghost predicate DistinctIds(ladder: seq<Order>) {
    forall i, j :: 0 <= i < j < |ladder| ==> ladder[i].orderId != ladder[j].orderId
  }

  ghost predicate Valid(b: Book, mode: Mode) {
    && LadderOk(b.buys, Buy, b.insertSeq, mode)
    && LadderOk(b.sells, Sell, b.insertSeq, mode)
    && DistinctIds(b.buys) && DistinctIds(b.sells)
    && Apart(b.buys, b.sells)
  }

  // ----- what a match does, without its recursion -----

  function QtySum(fills: seq<Fill>): int {
    if fills == [] then 0 else fills[0].qty + QtySum(fills[1..])
  }

  /** Fill `k` trades with the `k`-th order of the ladder, at that order's price. */
  ghost predicate Touches(active: Order, ladder: seq<Order>, market: bool, fills: seq<Fill>) {
    && |fills| <= |ladder|
    && forall k :: 0 <= k < |fills| ==>
      && Crosses(active, ladder[k], market)
      && fills[k] == MakeFill(active, ladder[k], fills[k].qty)
      && 0 < fills[k].qty <= ladder[k].qty
      && (k < |fills| - 1 ==> fills[k].qty == ladder[k].qty)
  }

  /**
   Either the last order touched keeps a remainder and the active order is
   spent, or every order touched is gone and the active order stops because it
   is spent, the ladder is empty or the next price is beyond its limit.
   */
  ghost predicate Stops(ladder: seq<Order>, market: bool, m: Matched) {
    var n := |m.fills|;
    && n <= |ladder|
    && m.residual.qty >= 0
    && if n > 0 && m.fills[n - 1].qty < ladder[n - 1].qty then (
         && m.residual.qty == 0
         && m.ladder == [ladder[n - 1].(qty := ladder[n - 1].qty - m.fills[n - 1].qty)] + ladder[n..]
       ) else (
         && m.ladder == ladder[n..]
         && (m.residual.qty == 0 || n == |ladder| || !Crosses(m.residual, ladder[n], market))
       )
  }

  ghost predicate WalksTheLadder(active: Order, ladder: seq<Order>, market: bool, m: Matched) {
    && Touches(active, ladder, market, m.fills)
    && Stops(ladder, market, m)
    && m.residual == active.(qty := active.qty - QtySum(m.fills))
  }

  lemma WalkCons(active: Order, ladder: seq<Order>, market: bool, rest: Matched)
    requires active.qty > 0 && ladder != [] && Crosses(active, ladder[0], market)
    requires 0 < ladder[0].qty <= active.qty
    requires WalksTheLadder(active.(qty := active.qty - ladder[0].qty), ladder[1..], market, rest)
    ensures WalksTheLadder(active, ladder, market, rest.(fills := [MakeFill(active, ladder[0], ladder[0].qty)] + rest.fills))
  {
    var m := rest.(fills := [MakeFill(active, ladder[0], ladder[0].qty)] + rest.fills);
    assert m.fills[1..] == rest.fills;
    TouchesCons(active, ladder, market, rest.fills);
    StopsCons(ladder, market, rest, MakeFill(active, ladder[0], ladder[0].qty));
  }

  lemma TouchesCons(active: Order, ladder: seq<Order>, market: bool, rest: seq<Fill>)
    requires active.qty > 0 && ladder != [] && Crosses(active, ladder[0], market)
    requires 0 < ladder[0].qty <= active.qty
    requires Touches(active.(qty := active.qty - ladder[0].qty), ladder[1..], market, rest)
    ensures Touches(active, ladder, market, [MakeFill(active, ladder[0], ladder[0].qty)] + rest)
  {
    var fills := [MakeFill(active, ladder[0], ladder[0].qty)] + rest;
    assert forall k :: 0 < k < |fills| ==> fills[k] == rest[k - 1] && ladder[k] == ladder[1..][k - 1];
  }

  lemma StopsCons(ladder: seq<Order>, market: bool, rest: Matched, f: Fill)
    requires ladder != [] && f.qty == ladder[0].qty && Stops(ladder[1..], market, rest)
    ensures Stops(ladder, market, rest.(fills := [f] + rest.fills))
  {
    assert ladder[1..][|rest.fills|..] == ladder[|rest.fills| + 1..];
  }

  lemma WalkStops(active: Order, ladder: seq<Order>, market: bool)
    requires active.qty == 0 || (active.qty > 0 && (ladder == [] || !Crosses(active, ladder[0], market)))
    ensures WalksTheLadder(active, ladder, market, Matched([], active, ladder))
  {
    assert ladder[0..] == ladder;
  }

  lemma WalkEndsInside(active: Order, ladder: seq<Order>, market: bool)
    requires active.qty > 0 && ladder != [] && Crosses(active, ladder[0], market) && active.qty < ladder[0].qty
    ensures WalksTheLadder(active, ladder, market, Match(active, ladder, market))
  {
    assert QtySum([MakeFill(active, ladder[0], active.qty)]) == active.qty;
  }

  lemma {:induction false} MatchWalksTheLadder(active: Order, ladder: seq<Order>, market: bool)
    requires active.qty >= 0
    requires forall o :: o in ladder ==> o.qty > 0
    ensures WalksTheLadder(active, ladder, market, Match(active, ladder, market))
    decreases |ladder|
  {
    hide WalksTheLadder, MakeFill, Crosses;
    if active.qty == 0 || ladder == [] || !Crosses(active, ladder[0], market) {
      WalkStops(active, ladder, market);
    } else {
      assert ladder[0] in ladder;
      if ladder[0].qty <= active.qty {
        var left := active.(qty := active.qty - ladder[0].qty);
        MatchWalksTheLadder(left, ladder[1..], market);
        WalkCons(active, ladder, market, Match(left, ladder[1..], market));
      } else {
        WalkEndsInside(active, ladder, market);
      }
    }
  }

  /** No other outcome walks the ladder: `Match` is the only one. */
  lemma {:induction false} WalkIsUnique(active: Order, ladder: seq<Order>, market: bool, m: Matched)
    requires active.qty >= 0
    requires forall o :: o in ladder ==> o.qty > 0
    requires WalksTheLadder(active, ladder, market, m)
    ensures m == Match(active, ladder, market)
    decreases |ladder|
  {
    hide Touches, Stops;
    if m.fills == [] {
      WalkNone(active, ladder, market, m);
    } else {
      WalkHead(active, ladder, market, m);
      if m.fills[0].qty == ladder[0].qty {
        WalkTail(active, ladder, market, m);
        WalkIsUnique(active.(qty := active.qty - m.fills[0].qty), ladder[1..], market, m.(fills := m.fills[1..]));
        assert m.fills == [m.fills[0]] + m.fills[1..];
      }
    }
  }

  lemma WalkNone(active: Order, ladder: seq<Order>, market: bool, m: Matched)
    requires active.qty >= 0 && WalksTheLadder(active, ladder, market, m) && m.fills == []
    ensures m == Match(active, ladder, market)
  {
    assert ladder[0..] == ladder;
  }

  lemma WalkHead(active: Order, ladder: seq<Order>, market: bool, m: Matched)
    requires WalksTheLadder(active, ladder, market, m) && m.fills != []
    ensures ladder != [] && Crosses(active, ladder[0], market) && active.qty > 0
    ensures 0 < m.fills[0].qty <= ladder[0].qty
    ensures m.fills[0] == MakeFill(active, ladder[0], Min(active.qty, ladder[0].qty))
    ensures m.fills[0].qty < ladder[0].qty ==>
      && m.fills == [m.fills[0]] && m.residual == active.(qty := 0)
      && m.ladder == [ladder[0].(qty := ladder[0].qty - active.qty)] + ladder[1..]
  {
    FillsArePositive(m.fills[1..]);
    assert QtySum(m.fills) == m.fills[0].qty + QtySum(m.fills[1..]);
    if m.fills[0].qty < ladder[0].qty {
      assert |m.fills| == 1;
      assert m.fills == [m.fills[0]] && m.fills[1..] == [];
    }
  }

  lemma WalkTail(active: Order, ladder: seq<Order>, market: bool, m: Matched)
    requires WalksTheLadder(active, ladder, market, m)
    requires m.fills != [] && ladder != [] && m.fills[0].qty == ladder[0].qty
    ensures WalksTheLadder(active.(qty := active.qty - m.fills[0].qty), ladder[1..], market, m.(fills := m.fills[1..]))
  {
    var rest := m.(fills := m.fills[1..]);
    forall k | 0 <= k < |rest.fills|
      ensures Crosses(active, ladder[1..][k], market)
      ensures rest.fills[k] == MakeFill(active, ladder[1..][k], rest.fills[k].qty)
      ensures 0 < rest.fills[k].qty <= ladder[1..][k].qty
      ensures k < |rest.fills| - 1 ==> rest.fills[k].qty == ladder[1..][k].qty
    {
      assert rest.fills[k] == m.fills[k + 1] && ladder[1..][k] == ladder[k + 1];
    }
    assert ladder[1..][|rest.fills|..] == ladder[|m.fills|..];
    assert Stops(ladder[1..], market, rest) by { assert Stops(ladder, market, m); }
  }

  lemma {:induction false} FillsArePositive(fills: seq<Fill>)
    requires forall k :: 0 <= k < |fills| ==> fills[k].qty > 0
    ensures QtySum(fills) >= |fills|
  {
    if fills != [] { FillsArePositive(fills[1..]); }
  }
}
