/** The shipping order book as an object: loops over the front of a tree, updated in place. */
module PriceLevelBook {
  import opened Types
  import opened BookSpec
  import opened LevelBook

  function Continue(fills: seq<Fill>, m: LevelMatch): LevelMatch {
    m.(fills := fills + m.fills)
  }

  lemma TreeStep(done: seq<Fill>, active: Order, tree: map<int, Level>, index: map<string, Entry>, market: bool, bound: nat)
    requires TreeOk(tree, Opposite(active.side), bound)
    requires active.qty > 0 && tree != map[]
    ensures tree.Keys != {}
    ensures var price := Best(tree.Keys, Opposite(active.side));
      var key := Front(tree[price].Keys);
      var resting := tree[price][key];
      var qty := Min(active.qty, resting.qty);
      && resting.price == price && 0 < qty <= resting.qty
      && TreeOk(Trade(tree, price, key, qty), Opposite(active.side), bound)
      && Continue(done, MatchTree(active, tree, index, market, bound)) ==
         if !Crosses(active, resting, market) then LevelMatch(done, active, tree, index)
         else Continue(done + [MakeFill(active, resting, qty)],
                MatchTree(active.(qty := active.qty - qty), Trade(tree, price, key, qty),
                          if resting.qty == qty then index - {resting.orderId} else index, market, bound))
  {
    assert tree.Keys != {};
    var price := Best(tree.Keys, Opposite(active.side));
    var key := Front(tree[price].Keys);
    var resting := tree[price][key];
    assert Filed(resting, price, key, Opposite(active.side), bound);
    var qty := Min(active.qty, resting.qty);
    TradeKeepsOk(tree, price, key, qty, Opposite(active.side), bound);
    if Crosses(active, resting, market) {
      var rest := MatchTree(active.(qty := active.qty - qty), Trade(tree, price, key, qty),
                            if resting.qty == qty then index - {resting.orderId} else index, market, bound);
      assert done + ([MakeFill(active, resting, qty)] + rest.fills) == (done + [MakeFill(active, resting, qty)]) + rest.fills;
    } else {
      assert done + [] == done;
    }
  }

  class OrderBook {
    var buys: map<int, Level>
    var sells: map<int, Level>
    var index: map<string, Entry>
    var insertSeq: nat

    ghost function View(): Levels
      reads this
    {
      Levels(buys, sells, index, insertSeq)
    }

    ghost predicate WellFormed()
      reads this
    {
      LevelsOk(View())
    }

    constructor ()
      ensures WellFormed() && View() == EMPTY_LEVELS
    {
      buys, sells, index, insertSeq := map[], map[], map[], 0;
    }

    method ProcessNewOrder(input: NewOrder) returns (r: Result<seq<Fill>, OrderBookError>)
      requires WellFormed()
      modifies this
      ensures WellFormed() && (View(), r) == PlaceLevels(old(View()), input)
    {
      hide MatchTree, File;
      if input.clientOrderId == "" { return Err(MissingOrderId); }
      if input.qty <= 0 { return Err(NonPositiveQuantity); }
      if input.orderType == Limit && input.price <= 0 { return Err(NonPositiveLimitPrice); }

      insertSeq := insertSeq + 1;
      var active := Order(input.clientOrderId, input.side, input.price, input.qty, input.tsNs, insertSeq);
      var market := input.orderType == Market;
      var fills;
      if active.side.Buy? {
        fills, active := MatchBuy(active, market);
        if active.qty > 0 && !market { RestInBook(active); }
      } else {
        fills, active := MatchSell(active, market);
        if active.qty > 0 && !market { RestInBook(active); }
      }
      return Ok(fills);
    }

    method Cancel(orderId: string) returns (found: bool)
      requires WellFormed()
      modifies this
      ensures WellFormed() && (View(), found) == CancelLevels(old(View()), orderId)
    {
      if orderId !in index { return false; }
      var e := index[orderId];
      index := index - {orderId};
      if e.side.Buy? {
        if e.price !in buys { return false; }
        var level := buys[e.price] - {e.key};
        Unfiled(buys, e.price, level);
        buys := buys[e.price := level];
        if level == map[] { buys := buys - {e.price}; }
      } else {
        if e.price !in sells { return false; }
        var level := sells[e.price] - {e.key};
        Unfiled(sells, e.price, level);
        sells := sells[e.price := level];
        if level == map[] { sells := sells - {e.price}; }
      }
      return true;
    }

    method RestInBook(order: Order)
      requires WellFormed() && order.qty > 0 && order.insertSeq <= insertSeq
      modifies this
      ensures WellFormed() && View() == RestOrder(old(View()), order)
    {
      RestKeepsOk(View(), order);
      index := index[order.orderId := Entry(order.side, order.price, Key(order))];
      if order.side.Buy? {
        var level := if order.price in buys then buys[order.price] else map[];
        buys := buys[order.price := level[Key(order) := order]];
      } else {
        var level := if order.price in sells then sells[order.price] else map[];
        sells := sells[order.price := level[Key(order) := order]];
      }
    }

    method MatchBuy(incoming: Order, market: bool) returns (fills: seq<Fill>, active: Order)
      requires incoming.side.Buy? && TreeOk(sells, Sell, insertSeq)
      modifies this`sells, this`index
      ensures LevelMatch(fills, active, sells, index) == MatchTree(incoming, old(sells), old(index), market, insertSeq)
    {
      hide MatchTree, TreeOk, Trade;
      fills, active := [], incoming;
      assert Continue([], MatchTree(incoming, sells, index, market, insertSeq)) == MatchTree(incoming, sells, index, market, insertSeq);
      while active.qty > 0
        invariant active.side.Buy? && TreeOk(sells, Sell, insertSeq)
        invariant Continue(fills, MatchTree(active, sells, index, market, insertSeq))
               == MatchTree(incoming, old(sells), old(index), market, insertSeq)
        decreases active.qty
      {
        if sells == map[] { break; }
        TreeStep(fills, active, sells, index, market, insertSeq);
        var bestPrice := Best(sells.Keys, Sell);
        if !market && active.price < bestPrice { break; }
        var frontKey := Front(sells[bestPrice].Keys);
        var resting := sells[bestPrice][frontKey];
        var qty := Min(active.qty, resting.qty);
        fills := fills + [Fill(active.orderId, resting.orderId, resting.price, qty)];
        active := active.(qty := active.qty - qty);
        ghost var tree := sells;
        var level := sells[bestPrice];
        level := if resting.qty == qty then level - {frontKey} else level[frontKey := resting.(qty := resting.qty - qty)];
        if resting.qty == qty { index := index - {resting.orderId}; }
        sells := sells[bestPrice := level];
        if level == map[] { sells := sells - {bestPrice}; }
        TradedAs(tree, bestPrice, frontKey, qty, sells);
      }
      TreeStops(fills, active, sells, index, market, insertSeq);
    }

    method MatchSell(incoming: Order, market: bool) returns (fills: seq<Fill>, active: Order)
      requires incoming.side.Sell? && TreeOk(buys, Buy, insertSeq)
      modifies this`buys, this`index
      ensures LevelMatch(fills, active, buys, index) == MatchTree(incoming, old(buys), old(index), market, insertSeq)
    {
      hide MatchTree, TreeOk, Trade;
      fills, active := [], incoming;
      assert Continue([], MatchTree(incoming, buys, index, market, insertSeq)) == MatchTree(incoming, buys, index, market, insertSeq);
      while active.qty > 0
        invariant active.side.Sell? && TreeOk(buys, Buy, insertSeq)
        invariant Continue(fills, MatchTree(active, buys, index, market, insertSeq))
               == MatchTree(incoming, old(buys), old(index), market, insertSeq)
        decreases active.qty
      {
        if buys == map[] { break; }
        TreeStep(fills, active, buys, index, market, insertSeq);
        var bestPrice := Best(buys.Keys, Buy);
        if !market && active.price > bestPrice { break; }
        var frontKey := Front(buys[bestPrice].Keys);
        var resting := buys[bestPrice][frontKey];
        var qty := Min(active.qty, resting.qty);
        fills := fills + [Fill(resting.orderId, active.orderId, resting.price, qty)];
        active := active.(qty := active.qty - qty);
        ghost var tree := buys;
        var level := buys[bestPrice];
        level := if resting.qty == qty then level - {frontKey} else level[frontKey := resting.(qty := resting.qty - qty)];
        if resting.qty == qty { index := index - {resting.orderId}; }
        buys := buys[bestPrice := level];
        if level == map[] { buys := buys - {bestPrice}; }
        TradedAs(tree, bestPrice, frontKey, qty, buys);
      }
      TreeStops(fills, active, buys, index, market, insertSeq);
    }
  }

  lemma TradedAs(tree: map<int, Level>, price: int, key: LevelKey, qty: int, tree': map<int, Level>)
    requires price in tree && key in tree[price]
    requires var o := tree[price][key];
      var level := if o.qty == qty then tree[price] - {key} else tree[price][key := o.(qty := o.qty - qty)];
      tree' == if level == map[] then tree[price := level] - {price} else tree[price := level]
    ensures tree' == Trade(tree, price, key, qty)
  {
    Unfiled(tree, price, tree[price] - {key});
    var o := tree[price][key];
    if o.qty != qty { assert key in tree[price][key := o.(qty := o.qty - qty)]; }
  }

  lemma Unfiled(tree: map<int, Level>, price: int, level: Level)
    ensures tree[price := level] - {price} == tree - {price}
  {
  }

  lemma TreeStops(done: seq<Fill>, active: Order, tree: map<int, Level>, index: map<string, Entry>, market: bool, bound: nat)
    requires TreeOk(tree, Opposite(active.side), bound)
    requires active.qty <= 0 || tree == map[] ||
      Continue(done, MatchTree(active, tree, index, market, bound)) == LevelMatch(done, active, tree, index)
    ensures Continue(done, MatchTree(active, tree, index, market, bound)) == LevelMatch(done, active, tree, index)
  {
    assert done + [] == done;
  }
}
