/** The executable oracle: two vectors, sorted in full after every insertion. */
module NaiveOracle {
  import opened Types
  import opened Sequences
  import opened BookSpec
  import opened BookSafety

  /** Both vectors in order of priority; an id may rest more than once. */
  ghost predicate InOrder(b: Book) {
    LadderOk(b.buys, Buy, b.insertSeq, Normal) && LadderOk(b.sells, Sell, b.insertSeq, Normal)
  }

  class NaiveBook {
    var buys: seq<Order>
    var sells: seq<Order>
    var insertSeq: nat

    ghost predicate WellFormed()
      reads this
    {
      InOrder(View())
    }

    ghost function View(): Book
      reads this
    {
      Book(buys, sells, insertSeq)
    }

    constructor ()
      ensures WellFormed() && View() == EMPTY_BOOK
    {
      buys, sells, insertSeq := [], [], 0;
    }

    method ProcessNewOrder(input: NewOrder) returns (r: Result<seq<Fill>, OrderBookError>)
      requires WellFormed()
      modifies this
      ensures WellFormed() && (View(), r) == Place(old(View()), input, Normal)
    {
      hide Match, InOrder, StableSort, Complete;
      ghost var before := View();
      PlaceKeepsOrder(before, input);
      if input.clientOrderId == "" { return Err(MissingOrderId); }
      if input.qty <= 0 { return Err(NonPositiveQuantity); }
      if input.orderType == Limit && input.price <= 0 { return Err(NonPositiveLimitPrice); }

      insertSeq := insertSeq + 1;
      var active := Order(input.clientOrderId, input.side, input.price, input.qty, input.tsNs, insertSeq);
      var market := input.orderType == Market;
      var fills;
      CompleteBySorting(before, active, market);
      if active.side.Buy? {
        fills, active := MatchBuy(active, market);
        if active.qty > 0 && !market {
          buys := buys + [active];
          Sort();
        }
      } else {
        fills, active := MatchSell(active, market);
        if active.qty > 0 && !market {
          sells := sells + [active];
          Sort();
        }
      }
      return Ok(fills);
    }

    method Cancel(orderId: string) returns (found: bool)
      requires WellFormed()
      modifies this
      ensures WellFormed() && (View(), found) == BookSpec.Cancel(old(View()), orderId)
    {
      hide InOrder;
      CancelKeepsOrder(View(), orderId);
      var i := Find(buys, orderId);
      if i < |buys| {
        buys := buys[..i] + buys[i + 1..];
        return true;
      }
      i := Find(sells, orderId);
      if i < |sells| {
        sells := sells[..i] + sells[i + 1..];
        return true;
      }
      return false;
    }

    method MatchBuy(incoming: Order, market: bool) returns (fills: seq<Fill>, active: Order)
      requires incoming.side.Buy?
      modifies this`sells
      ensures Matched(fills, active, sells) == Match(incoming, old(sells), market)
      ensures active == incoming.(qty := active.qty)
    {
      hide Match;
      fills, active := [], incoming;
      assert After([], Match(incoming, sells, market)) == Match(incoming, sells, market);
      while active.qty > 0 && sells != []
        invariant active == incoming.(qty := active.qty)
        invariant After(fills, Match(active, sells, market)) == Match(incoming, old(sells), market)
        decreases |sells|, active.qty
      {
        if !market && active.price < sells[0].price {
          break;
        }
        var qty := Min(active.qty, sells[0].qty);
        MatchStep(fills, active, sells, market);
        fills := fills + [Fill(active.orderId, sells[0].orderId, sells[0].price, qty)];
        active := active.(qty := active.qty - qty);
        ghost var front := sells;
        sells := sells[0 := sells[0].(qty := sells[0].qty - qty)];
        if sells[0].qty == 0 { sells := sells[1..]; }
        assert sells == Reduce(front, qty);
      }
      MatchStops(fills, active, sells, market);
    }

    method MatchSell(incoming: Order, market: bool) returns (fills: seq<Fill>, active: Order)
      requires incoming.side.Sell?
      modifies this`buys
      ensures Matched(fills, active, buys) == Match(incoming, old(buys), market)
      ensures active == incoming.(qty := active.qty)
    {
      hide Match;
      fills, active := [], incoming;
      assert After([], Match(incoming, buys, market)) == Match(incoming, buys, market);
      while active.qty > 0 && buys != []
        invariant active == incoming.(qty := active.qty)
        invariant After(fills, Match(active, buys, market)) == Match(incoming, old(buys), market)
        decreases |buys|, active.qty
      {
        if !market && active.price > buys[0].price {
          break;
        }
        var qty := Min(active.qty, buys[0].qty);
        MatchStep(fills, active, buys, market);
        fills := fills + [Fill(buys[0].orderId, active.orderId, buys[0].price, qty)];
        active := active.(qty := active.qty - qty);
        ghost var front := buys;
        buys := buys[0 := buys[0].(qty := buys[0].qty - qty)];
        if buys[0].qty == 0 { buys := buys[1..]; }
        assert buys == Reduce(front, qty);
      }
      MatchStops(fills, active, buys, market);
    }

    /** Both vectors are sorted again, whichever one has changed. */
    method Sort()
      modifies this`buys, this`sells
      ensures buys == StableSort(old(buys), Priority(Buy, Normal))
      ensures sells == StableSort(old(sells), Priority(Sell, Normal))
    {
      buys := StableSort(buys, Priority(Buy, Normal));
      sells := StableSort(sells, Priority(Sell, Normal));
    }
  }

  /** A full sort of both vectors after a push is one insertion into one ladder. */
  lemma PushAndSort(own: seq<Order>, o: Order, other: seq<Order>, side: Side, bound: nat)
    requires LadderOk(own, side, bound, Normal) && LadderOk(other, Opposite(side), bound, Normal)
    ensures StableSort(own + [o], Priority(side, Normal)) == Insert(own, o, Priority(side, Normal))
    ensures StableSort(other, Priority(Opposite(side), Normal)) == other
  {
    hide StableSort, Insert;
    StrictIsSorted(own, Priority(side, Normal));
    StrictIsSorted(other, Priority(Opposite(side), Normal));
    AppendThenSort(own, o, Priority(side, Normal));
    StableSortOfSorted(other, Priority(Opposite(side), Normal));
  }

  /** Matching, pushing what is left and sorting both vectors completes a placement. */
  lemma CompleteBySorting(b: Book, active: Order, market: bool)
    requires InOrder(b) && active.qty >= 0
    ensures var opp := Opposite(active.side);
      var m, own := Match(active, b.Ladder(opp), market), b.Ladder(active.side);
      var matched := b.(insertSeq := b.insertSeq + 1).With(opp, m.ladder);
      Complete(b.(insertSeq := b.insertSeq + 1), active, market, Normal)
      == (if m.residual.qty > 0 && !market then
            matched.With(opp, StableSort(m.ladder, Priority(opp, Normal))).With(active.side, StableSort(own + [m.residual], Priority(active.side, Normal)))
          else matched, m.fills)
  {
    hide Match, StableSort, Insert, LadderOk;
    var opp := Opposite(active.side);
    MatchKeepsLadder(active, b.Ladder(opp), market, opp, b.insertSeq, Normal);
    var m := Match(active, b.Ladder(opp), market);
    PushAndSort(b.Ladder(active.side), m.residual, m.ladder, active.side, b.insertSeq);
  }

  lemma LadderOkLater(ladder: seq<Order>, side: Side, bound: nat)
    requires LadderOk(ladder, side, bound, Normal)
    ensures LadderOk(ladder, side, bound + 1, Normal)
  {
  }

  lemma InOrderEitherSide(b: Book, side: Side)
    ensures InOrder(b) <==>
      LadderOk(b.Ladder(side), side, b.insertSeq, Normal) && LadderOk(b.Ladder(Opposite(side)), Opposite(side), b.insertSeq, Normal)
  {
    hide LadderOk;
  }

  lemma CompleteKeepsOrder(b: Book, active: Order, market: bool)
    requires InOrder(b) && active.qty >= 0 && (market || active.price > 0) && active.insertSeq == b.insertSeq + 1
    ensures InOrder(Complete(b.(insertSeq := b.insertSeq + 1), active, market, Normal).0)
  {
    hide Match, Insert, LadderOk, InOrder, Priority;
    var side, opp := active.side, Opposite(active.side);
    var own := b.Ladder(side);
    InOrderEitherSide(b, side);
    MatchKeepsLadder(active, b.Ladder(opp), market, opp, b.insertSeq, Normal);
    var m := Match(active, b.Ladder(opp), market);
    LadderOkLater(m.ladder, opp, b.insertSeq);
    LadderOkLater(own, side, b.insertSeq);
    if m.residual.qty > 0 && !market { InsertLadderOk(own, m.residual, side, b.insertSeq, Normal); }
    InOrderEitherSide(Complete(b.(insertSeq := b.insertSeq + 1), active, market, Normal).0, side);
  }

  lemma PlaceKeepsOrder(b: Book, input: NewOrder)
    requires InOrder(b)
    ensures InOrder(Place(b, input, Normal).0)
  {
    hide Complete, InOrder;
    if Rejection(input) == None { CompleteKeepsOrder(b, Admit(input, b.insertSeq + 1), input.orderType == Market); }
  }

  lemma WithoutKeepsOrder(ladder: seq<Order>, i: nat, side: Side, bound: nat)
    requires LadderOk(ladder, side, bound, Normal) && i < |ladder|
    ensures LadderOk(Without(ladder, i), side, bound, Normal)
  {
    WithoutSorted(ladder, i, Priority(side, Normal));
    forall o | o in Without(ladder, i) ensures o in ladder {
      WithoutIndex(ladder, i);
    }
  }

  lemma CancelKeepsOrder(b: Book, id: string)
    requires InOrder(b)
    ensures InOrder(BookSpec.Cancel(b, id).0)
  {
    hide LadderOk, Without;
    var i, j := Find(b.buys, id), Find(b.sells, id);
    if i < |b.buys| {
      WithoutKeepsOrder(b.buys, i, Buy, b.insertSeq);
    } else if j < |b.sells| {
      WithoutKeepsOrder(b.sells, j, Sell, b.insertSeq);
    }
  }
}
