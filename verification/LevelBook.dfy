/**
 The shipping order book: a tree of price levels, each a tree of orders keyed by
 time and insertion, beside an index from order id to level and key.

 The functions below are the book's own steps on values, for every input, ids
 in use twice included. `LevelRefinement` relates them to the two ladders.
 */
module LevelBook {
  import opened Types
  import opened BookSpec

  type LevelKey = (nat, nat)

  type Level = map<LevelKey, Order>

  datatype Entry = Entry(side: Side, price: int, key: LevelKey)

  datatype Levels = Levels(
    buys: map<int, Level>,
    sells: map<int, Level>,
    index: map<string, Entry>,
    insertSeq: nat)
  {
    function Tree(side: Side): map<int, Level> {
      if side.Buy? then buys else sells
    }

    function With(side: Side, tree: map<int, Level>): Levels {
      if side.Buy? then this.(buys := tree) else this.(sells := tree)
    }
  }

  const EMPTY_LEVELS := Levels(map[], map[], map[], 0)

  function Key(o: Order): LevelKey {
    (o.tsNs, o.insertSeq)
  }

  predicate KeyLeq(a: LevelKey, b: LevelKey) {
    a.0 < b.0 || (a.0 == b.0 && a.1 <= b.1)
  }

  predicate PriceLeq(side: Side, a: int, b: int) {
    if side.Buy? then b <= a else a <= b
  }

  // ----- first entries of a tree -----

  lemma Member<T>(s: set<T>) returns (x: T)
    requires s != {}
    ensures x in s
  {
    x :| x in s;
  }

  lemma {:induction false} BestExists(prices: set<int>, side: Side)
    requires prices != {}
    ensures exists p :: p in prices && forall q :: q in prices ==> PriceLeq(side, p, q)
  {
    var x := Member(prices);
    var rest := prices - {x};
    assert forall q :: q in prices ==> q == x || q in rest;
    if rest == {} {
      assert forall q :: q in prices ==> PriceLeq(side, x, q);
    } else {
      BestExists(rest, side);
      var p :| p in rest && forall q :: q in rest ==> PriceLeq(side, p, q);
      var best := if PriceLeq(side, x, p) then x else p;
      forall q | q in prices ensures PriceLeq(side, best, q) {
        assert q == x || q in rest;
      }
      assert best in prices;
    }
  }

  lemma {:induction false} FrontExists(keys: set<LevelKey>)
    requires keys != {}
    ensures exists p :: p in keys && forall q :: q in keys ==> KeyLeq(p, q)
  {
    var x :| x in keys;
    var rest := keys - {x};
    assert forall q :: q in keys ==> q == x || q in rest;
    if rest == {} {
      assert forall q :: q in keys ==> KeyLeq(x, q);
    } else {
      FrontExists(rest);
      var p :| p in rest && forall q :: q in rest ==> KeyLeq(p, q);
      var best := if KeyLeq(x, p) then x else p;
      forall q | q in keys ensures KeyLeq(best, q) {
        assert q == x || q in rest;
      }
      assert best in keys;
    }
  }

  /** The first price of an ask tree, the last price of a bid tree. */
  function Best(prices: set<int>, side: Side): (p: int)
    requires prices != {}
    ensures p in prices && forall q :: q in prices ==> PriceLeq(side, p, q)
  {
    BestExists(prices, side);
    var p :| p in prices && forall q :: q in prices ==> PriceLeq(side, p, q);
    p
  }

  function Front(keys: set<LevelKey>): (k: LevelKey)
    requires keys != {}
    ensures k in keys && forall j :: j in keys ==> KeyLeq(k, j)
  {
    FrontExists(keys);
    var k :| k in keys && forall j :: j in keys ==> KeyLeq(k, j);
    k
  }

  // ----- the representation invariant -----

  /** No level is empty, and every order is filed under its own price and key. */
  ghost predicate TreeOk(tree: map<int, Level>, side: Side, bound: nat) {
    && (forall p :: p in tree ==> tree[p] != map[])
    && (forall p, k :: p in tree && k in tree[p] ==> Filed(tree[p][k], p, k, side, bound))
  }

  ghost predicate Filed(o: Order, p: int, k: LevelKey, side: Side, bound: nat) {
    o.price == p && Key(o) == k && o.qty > 0 && o.side == side && o.insertSeq <= bound
  }

  ghost predicate LevelsOk(b: Levels) {
    TreeOk(b.buys, Buy, b.insertSeq) && TreeOk(b.sells, Sell, b.insertSeq)
  }

  // ----- the book's operations -----

  function Remove(tree: map<int, Level>, price: int, key: LevelKey): map<int, Level>
    requires price in tree
  {
    var level := tree[price] - {key};
    if level == map[] then tree - {price} else tree[price := level]
  }

  /** Takes `qty` from the order at `price` and `key`, unfiling it when that is all it has. */
  function Trade(tree: map<int, Level>, price: int, key: LevelKey, qty: int): map<int, Level>
    requires price in tree && key in tree[price]
  {
    var o := tree[price][key];
    if o.qty == qty then Remove(tree, price, key)
    else tree[price := tree[price][key := o.(qty := o.qty - qty)]]
  }

  lemma TradeKeepsOk(tree: map<int, Level>, price: int, key: LevelKey, qty: int, side: Side, bound: nat)
    requires TreeOk(tree, side, bound)
    requires price in tree && key in tree[price] && 0 < qty <= tree[price][key].qty
    ensures TreeOk(Trade(tree, price, key, qty), side, bound)
  {
  }

  datatype LevelMatch = LevelMatch(fills: seq<Fill>, residual: Order, tree: map<int, Level>, index: map<string, Entry>)

  function MatchTree(active: Order, tree: map<int, Level>, index: map<string, Entry>, market: bool, ghost bound: nat): (m: LevelMatch)
    requires TreeOk(tree, Opposite(active.side), bound)
    ensures TreeOk(m.tree, Opposite(active.side), bound)
    ensures m.residual == active.(qty := m.residual.qty)
    ensures active.qty >= 0 ==> m.residual.qty >= 0
    decreases if active.qty > 0 then active.qty else 0
  {
    if active.qty <= 0 || tree == map[] then LevelMatch([], active, tree, index)
    else
      assert tree.Keys != {};
      var price := Best(tree.Keys, Opposite(active.side));
      var key := Front(tree[price].Keys);
      var resting := tree[price][key];
      if !Crosses(active, resting, market) then LevelMatch([], active, tree, index)
      else
        var qty := Min(active.qty, resting.qty);
        TradeKeepsOk(tree, price, key, qty, Opposite(active.side), bound);
        var rest := MatchTree(
          active.(qty := active.qty - qty),
          Trade(tree, price, key, qty),
          if resting.qty == qty then index - {resting.orderId} else index,
          market, bound);
        rest.(fills := [MakeFill(active, resting, qty)] + rest.fills)
  }

  function File(tree: map<int, Level>, o: Order): map<int, Level> {
    var level := if o.price in tree then tree[o.price] else map[];
    tree[o.price := level[Key(o) := o]]
  }

  function RestOrder(b: Levels, o: Order): Levels {
    b.With(o.side, File(b.Tree(o.side), o)).(index := b.index[o.orderId := Entry(o.side, o.price, Key(o))])
  }

  lemma FileKeepsOk(tree: map<int, Level>, o: Order, bound: nat)
    requires TreeOk(tree, o.side, bound) && o.qty > 0 && o.insertSeq <= bound
    ensures TreeOk(File(tree, o), o.side, bound)
  {
    var r := File(tree, o);
    assert Key(o) in r[o.price];
    forall p, k | p in r && k in r[p] ensures Filed(r[p][k], p, k, o.side, bound) {
      if !(p == o.price && k == Key(o)) { assert p in tree && k in tree[p]; }
    }
  }

  lemma RestKeepsOk(b: Levels, o: Order)
    requires LevelsOk(b) && o.qty > 0 && o.insertSeq <= b.insertSeq
    ensures LevelsOk(RestOrder(b, o))
  {
    FileKeepsOk(b.Tree(o.side), o, b.insertSeq);
  }

  function PlaceLevels(b: Levels, input: NewOrder): (r: (Levels, Result<seq<Fill>, OrderBookError>))
    requires LevelsOk(b)
    ensures LevelsOk(r.0)
  {
    match Rejection(input)
    case Some(e) => (b, Err(e))
    case None =>
      var n := b.insertSeq + 1;
      var active, market, opp := Admit(input, n), input.orderType == Market, Opposite(input.side);
      var m := MatchTree(active, b.Tree(opp), b.index, market, n);
      var b' := b.With(opp, m.tree).(index := m.index, insertSeq := n);
      if m.residual.qty > 0 && !market then
        RestKeepsOk(b', m.residual);
        (RestOrder(b', m.residual), Ok(m.fills))
      else (b', Ok(m.fills))
  }

  function CancelLevels(b: Levels, id: string): (r: (Levels, bool))
    requires LevelsOk(b)
    ensures LevelsOk(r.0)
  {
    if id !in b.index then (b, false)
    else
      var e := b.index[id];
      var b' := b.(index := b.index - {id});
      var tree := b.Tree(e.side);
      if e.price !in tree then (b', false)
      else (b'.With(e.side, Remove(tree, e.price, e.key)), true)
  }
}
