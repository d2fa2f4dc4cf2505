/** The price-level book does what the two sorted ladders do. */
module LevelRefinement {
  import opened Types
  import opened Sequences
  import opened BookSpec
  import opened BookSafety
  import opened LevelBook

  predicate At(tree: map<int, Level>, o: Order) {
    o.price in tree && Key(o) in tree[o.price] && tree[o.price][Key(o)] == o
  }

  ghost predicate Holds(tree: map<int, Level>, ladder: seq<Order>) {
    forall o: Order :: o in ladder <==> At(tree, o)
  }

  ghost predicate Indexed(index: map<string, Entry>, ladder: seq<Order>) {
    forall o :: o in ladder ==> o.orderId in index && index[o.orderId] == Entry(o.side, o.price, Key(o))
  }

  /** The index holds exactly the resting orders. */
  ghost predicate IndexOk(index: map<string, Entry>, ladder: seq<Order>, other: seq<Order>) {
    && Indexed(index, ladder) && Indexed(index, other)
    && forall id :: id in index ==> InLadder(ladder, id) || InLadder(other, id)
  }

  ghost predicate NoSharedId(a: seq<Order>, b: seq<Order>) {
    forall o, p :: o in a && p in b ==> o.orderId != p.orderId
  }

  ghost predicate Represents(b: Levels, s: Book) {
    && LevelsOk(b) && Valid(s, Normal) && b.insertSeq == s.insertSeq
    && Holds(b.buys, s.buys) && Holds(b.sells, s.sells)
    && IndexOk(b.index, s.buys, s.sells)
  }

  lemma EmptyRepresents()
    ensures Represents(EMPTY_LEVELS, EMPTY_BOOK)
  {
  }

  // ----- the front of the tree is the front of the ladder -----

  lemma FrontIsBest(tree: map<int, Level>, ladder: seq<Order>, side: Side, bound: nat)
    requires TreeOk(tree, side, bound) && Holds(tree, ladder) && LadderOk(ladder, side, bound, Normal)
    ensures tree == map[] <==> ladder == []
    ensures ladder != [] ==>
      && Best(tree.Keys, side) == ladder[0].price
      && Front(tree[ladder[0].price].Keys) == Key(ladder[0])
      && tree[ladder[0].price][Key(ladder[0])] == ladder[0]
  {
    assert ladder != [] ==> ladder[0] in ladder && At(tree, ladder[0]);
    if tree != map[] {
      assert tree.Keys != {};
      var p := Best(tree.Keys, side);
      var k := Front(tree[p].Keys);
      var o := tree[p][k];
      assert Filed(o, p, k, side, bound) && At(tree, o) && o in ladder;
      assert ladder[0] in ladder && At(tree, ladder[0]);
      SmallestFirst(ladder, o, Priority(side, Normal));
    }
  }

  lemma TailMembers(ladder: seq<Order>, side: Side, bound: nat)
    requires ladder != [] && LadderOk(ladder, side, bound, Normal) && DistinctIds(ladder)
    ensures LadderOk(ladder[1..], side, bound, Normal) && DistinctIds(ladder[1..])
    ensures forall o :: o in ladder[1..] <==> o in ladder && o != ladder[0]
    ensures forall o :: o in ladder[1..] ==> o.orderId != ladder[0].orderId && Less(Priority(side, Normal)(ladder[0]), Priority(side, Normal)(o))
  {
    assert forall i :: 0 <= i < |ladder[1..]| ==> ladder[1..][i] == ladder[i + 1];
  }

  lemma ReduceOk(ladder: seq<Order>, qty: int, side: Side, bound: nat)
    requires ladder != [] && LadderOk(ladder, side, bound, Normal) && DistinctIds(ladder)
    requires 0 < qty <= ladder[0].qty
    ensures LadderOk(Reduce(ladder, qty), side, bound, Normal) && DistinctIds(Reduce(ladder, qty))
  {
    TailMembers(ladder, side, bound);
    var rank := Priority(side, Normal);
    var r := Reduce(ladder, qty);
    if ladder[0].qty != qty {
      assert rank(r[0]) == rank(ladder[0]);
      assert forall i :: 0 < i < |r| ==> r[i] == ladder[1..][i - 1];
    }
  }

  lemma AtRemove(tree: map<int, Level>, price: int, key: LevelKey, o: Order)
    requires price in tree
    ensures At(Remove(tree, price, key), o) <==> At(tree, o) && !(o.price == price && Key(o) == key)
  {
    var level := tree[price] - {key};
    if o.price == price && Key(o) != key {
      assert Key(o) in tree[price] <==> Key(o) in level;
    }
  }

  /** Trading with the order at one price and key touches that order alone. */
  lemma TradeAt(tree: map<int, Level>, top: Order, qty: int, o: Order)
    requires At(tree, top) && 0 < qty <= top.qty
    ensures At(Trade(tree, top.price, Key(top), qty), o)
      <==> (qty < top.qty && o == top.(qty := top.qty - qty)) || (At(tree, o) && !(o.price == top.price && Key(o) == Key(top)))
  {
    AtRemove(tree, top.price, Key(top), o);
  }

  /** Behind the front order stand the others, under other keys. */
  lemma BehindTheFront(tree: map<int, Level>, ladder: seq<Order>, side: Side, bound: nat, o: Order)
    requires Holds(tree, ladder) && ladder != [] && LadderOk(ladder, side, bound, Normal) && DistinctIds(ladder)
    ensures o in ladder[1..] <==> At(tree, o) && !(o.price == ladder[0].price && Key(o) == Key(ladder[0]))
  {
    TailMembers(ladder, side, bound);
    hide LadderOk, DistinctIds;
    assert At(tree, o) <==> o in ladder;
    assert At(tree, ladder[0]) by { assert ladder[0] in ladder; }
  }

  lemma ReduceMembers(ladder: seq<Order>, qty: int, o: Order)
    requires ladder != []
    ensures o in Reduce(ladder, qty)
      <==> (qty != ladder[0].qty && o == ladder[0].(qty := ladder[0].qty - qty)) || o in ladder[1..]
  {
  }

  lemma TradeHolds(tree: map<int, Level>, ladder: seq<Order>, qty: int, side: Side, bound: nat)
    requires TreeOk(tree, side, bound) && Holds(tree, ladder)
    requires ladder != [] && LadderOk(ladder, side, bound, Normal) && DistinctIds(ladder)
    requires 0 < qty <= ladder[0].qty && At(tree, ladder[0])
    ensures Holds(Trade(tree, ladder[0].price, Key(ladder[0]), qty), Reduce(ladder, qty))
  {
    hide Reduce, Trade, TreeOk, LadderOk, DistinctIds, Key;
    forall o: Order ensures o in Reduce(ladder, qty) <==> At(Trade(tree, ladder[0].price, Key(ladder[0]), qty), o) {
      TradeAt(tree, ladder[0], qty, o);
      BehindTheFront(tree, ladder, side, bound, o);
      ReduceMembers(ladder, qty, o);
    }
  }

  lemma TradeIndexed(index: map<string, Entry>, ladder: seq<Order>, other: seq<Order>, qty: int, side: Side, bound: nat)
    requires ladder != [] && LadderOk(ladder, side, bound, Normal) && DistinctIds(ladder)
    requires NoSharedId(ladder, other) && IndexOk(index, ladder, other)
    requires 0 < qty <= ladder[0].qty
    ensures NoSharedId(Reduce(ladder, qty), other)
    ensures IndexOk(if ladder[0].qty == qty then index - {ladder[0].orderId} else index, Reduce(ladder, qty), other)
  {
    TailMembers(ladder, side, bound);
    var top := ladder[0];
    assert top in ladder;
    var r := Reduce(ladder, qty);
    var index' := if top.qty == qty then index - {top.orderId} else index;
    forall id | id in index' ensures InLadder(r, id) || InLadder(other, id) {
      if InLadder(ladder, id) {
        var o :| o in ladder && o.orderId == id;
        if o == top {
          assert r[0] in r && r[0].orderId == id;
        } else {
          assert o in r;
        }
      }
    }
  }

  /** Walking the tree produces the fills of walking the ladder and keeps the two in step. */
  lemma {:induction false} MatchTreeRefines(active: Order, tree: map<int, Level>, index: map<string, Entry>,
                                            ladder: seq<Order>, other: seq<Order>, market: bool, bound: nat)
    requires active.qty >= 0
    requires var side := Opposite(active.side);
      TreeOk(tree, side, bound) && Holds(tree, ladder) && LadderOk(ladder, side, bound, Normal) && DistinctIds(ladder)
    requires NoSharedId(ladder, other) && IndexOk(index, ladder, other)
    ensures var l, m := MatchTree(active, tree, index, market, bound), Match(active, ladder, market);
      && l.fills == m.fills && l.residual == m.residual
      && Holds(l.tree, m.ladder) && IndexOk(l.index, m.ladder, other)
    decreases active.qty
  {
    var side := Opposite(active.side);
    FrontIsBest(tree, ladder, side, bound);
    if active.qty > 0 && ladder != [] && Crosses(active, ladder[0], market) {
      var top := ladder[0];
      assert top in ladder && At(tree, top);
      var qty := Min(active.qty, top.qty);
      TradeKeepsOk(tree, top.price, Key(top), qty, side, bound);
      TradeHolds(tree, ladder, qty, side, bound);
      TradeIndexed(index, ladder, other, qty, side, bound);
      ReduceOk(ladder, qty, side, bound);
      MatchStep([], active, ladder, market);
      var index' := if top.qty == qty then index - {top.orderId} else index;
      MatchTreeRefines(active.(qty := active.qty - qty), Trade(tree, top.price, Key(top), qty), index',
                       Reduce(ladder, qty), other, market, bound);
    }
  }

  lemma FileHolds(tree: map<int, Level>, ladder: seq<Order>, o: Order, side: Side)
    requires Holds(tree, ladder) && forall p :: p in ladder ==> p.insertSeq < o.insertSeq
    ensures Holds(File(tree, o), Insert(ladder, o, Priority(side, Normal)))
  {
    InsertMembers(ladder, o, Priority(side, Normal));
    var tree' := File(tree, o);
    forall p: Order ensures p in Insert(ladder, o, Priority(side, Normal)) <==> At(tree', p) {
      assert At(tree, p) <==> p in ladder;
    }
  }

  lemma FileIndexed(index: map<string, Entry>, ladder: seq<Order>, other: seq<Order>, o: Order, ladder': seq<Order>)
    requires IndexOk(index, ladder, other) && !InLadder(ladder, o.orderId) && !InLadder(other, o.orderId)
    requires forall p :: p in ladder' <==> p == o || p in ladder
    ensures IndexOk(index[o.orderId := Entry(o.side, o.price, Key(o))], ladder', other)
  {
    assert o in ladder';
    forall id | InLadder(ladder, id) ensures InLadder(ladder', id) {
      var p :| p in ladder && p.orderId == id;
      assert p in ladder';
    }
  }

  // ----- whole operations -----

  /** `Represents` without its invariants, read from one side. */
  ghost predicate InStep(b: Levels, s: Book, side: Side) {
    && Holds(b.Tree(side), s.Ladder(side)) && Holds(b.Tree(Opposite(side)), s.Ladder(Opposite(side)))
    && IndexOk(b.index, s.Ladder(side), s.Ladder(Opposite(side)))
  }

  lemma InStepEitherSide(b: Levels, s: Book, side: Side)
    ensures InStep(b, s, side) <==> InStep(b, s, Buy)
  {
  }

  lemma MatchInStep(b: Levels, s: Book, active: Order, market: bool, n: nat)
    requires Represents(b, s) && active.qty >= 0 && n >= s.insertSeq
    ensures var opp := Opposite(active.side);
      var l, m := MatchTree(active, b.Tree(opp), b.index, market, n), Match(active, s.Ladder(opp), market);
      && l.fills == m.fills && l.residual == m.residual
      && InStep(b.With(opp, l.tree).(index := l.index, insertSeq := n), s.With(opp, m.ladder).(insertSeq := n), active.side)
  {
    hide Match, MatchTree;
    var opp := Opposite(active.side);
    MatchTreeRefines(active, b.Tree(opp), b.index, s.Ladder(opp), s.Ladder(active.side), market, n);
  }

  lemma RestInStep(b: Levels, s: Book, o: Order)
    requires InStep(b, s, o.side) && !Live(s, o.orderId)
    requires forall p :: p in s.Ladder(o.side) ==> p.insertSeq < o.insertSeq
    ensures InStep(RestOrder(b, o), Rest(s, o, Normal), o.side)
  {
    hide Insert;
    var own := s.Ladder(o.side);
    FileHolds(b.Tree(o.side), own, o, o.side);
    InsertMembers(own, o, Priority(o.side, Normal));
    FileIndexed(b.index, own, s.Ladder(Opposite(o.side)), o, Insert(own, o, Priority(o.side, Normal)));
  }

  lemma PlaceLevelsIs(b: Levels, input: NewOrder)
    requires LevelsOk(b) && Rejection(input) == None
    ensures var n, opp := b.insertSeq + 1, Opposite(input.side);
      var m := MatchTree(Admit(input, n), b.Tree(opp), b.index, input.orderType == Market, n);
      var b' := b.With(opp, m.tree).(index := m.index, insertSeq := n);
      && PlaceLevels(b, input).1 == Ok(m.fills)
      && PlaceLevels(b, input).0 == (if m.residual.qty > 0 && input.orderType == Limit then RestOrder(b', m.residual) else b')
  {
  }

  lemma PlaceIs(s: Book, input: NewOrder)
    requires Rejection(input) == None
    ensures var n, opp := s.insertSeq + 1, Opposite(input.side);
      var m := Match(Admit(input, n), s.Ladder(opp), input.orderType == Market);
      var s' := s.With(opp, m.ladder).(insertSeq := n);
      && Place(s, input, Normal).1 == Ok(m.fills)
      && Place(s, input, Normal).0 == (if m.residual.qty > 0 && input.orderType == Limit then Rest(s', m.residual, Normal) else s')
  {
  }

  /** The two books after the match, before anything comes to rest. */
  lemma MatchedInStep(b: Levels, s: Book, active: Order, market: bool, n: nat) returns (b': Levels, s': Book)
    requires Represents(b, s) && !Live(s, active.orderId) && active.qty >= 0 && n == s.insertSeq + 1
    ensures var opp := Opposite(active.side);
      var l, m := MatchTree(active, b.Tree(opp), b.index, market, n), Match(active, s.Ladder(opp), market);
      && l.fills == m.fills && l.residual == m.residual
      && b' == b.With(opp, l.tree).(index := l.index, insertSeq := n)
      && s' == s.With(opp, m.ladder).(insertSeq := n)
    ensures Match(active, s.Ladder(Opposite(active.side)), market).residual.side == active.side
    ensures Match(active, s.Ladder(Opposite(active.side)), market).residual.orderId == active.orderId
    ensures Match(active, s.Ladder(Opposite(active.side)), market).residual.insertSeq == n || active.insertSeq != n
    ensures InStep(b', s', active.side) && !Live(s', active.orderId)
    ensures forall p :: p in s'.Ladder(active.side) ==> p.insertSeq < n
  {
    hide Match, MatchTree;
    var opp := Opposite(active.side);
    MatchInStep(b, s, active, market, n);
    MatchKeepsValid(s, active, market, Normal);
    b' := b.With(opp, MatchTree(active, b.Tree(opp), b.index, market, n).tree)
      .(index := MatchTree(active, b.Tree(opp), b.index, market, n).index, insertSeq := n);
    s' := s.With(opp, Match(active, s.Ladder(opp), market).ladder).(insertSeq := n);
  }

  lemma SettledInStep(b: Levels, s: Book, o: Order, rests: bool)
    requires InStep(b, s, o.side)
    requires rests ==> !Live(s, o.orderId) && forall p :: p in s.Ladder(o.side) ==> p.insertSeq < o.insertSeq
    ensures InStep(if rests then RestOrder(b, o) else b, if rests then Rest(s, o, Normal) else s, o.side)
    ensures rests ==> RestOrder(b, o).insertSeq == b.insertSeq && Rest(s, o, Normal).insertSeq == s.insertSeq
  {
    if rests { RestInStep(b, s, o); }
  }

  lemma PlaceInStep(b: Levels, s: Book, input: NewOrder)
    requires Represents(b, s) && !Live(s, input.clientOrderId) && Rejection(input) == None
    ensures var b', s' := PlaceLevels(b, input), Place(s, input, Normal);
      b'.1 == s'.1 && b'.0.insertSeq == s'.0.insertSeq && InStep(b'.0, s'.0, input.side)
  {
    hide Match, MatchTree, Place, PlaceLevels, InStep, Live, Rest, RestOrder, Valid, LevelsOk, Holds, IndexOk;
    var n := s.insertSeq + 1;
    var active, market := Admit(input, n), input.orderType == Market;
    var b', s' := MatchedInStep(b, s, active, market, n);
    var m := Match(active, s.Ladder(Opposite(input.side)), market);
    SettledInStep(b', s', m.residual, m.residual.qty > 0 && !market);
    PlaceLevelsIs(b, input);
    PlaceIs(s, input);
  }

  lemma PlaceRefines(b: Levels, s: Book, input: NewOrder)
    requires Represents(b, s) && !Live(s, input.clientOrderId)
    ensures PlaceLevels(b, input).1 == Place(s, input, Normal).1
    ensures Represents(PlaceLevels(b, input).0, Place(s, input, Normal).0)
  {
    hide Match, MatchTree;
    PlaceKeepsValid(s, input, Normal);
    if Rejection(input) == None {
      PlaceInStep(b, s, input);
      InStepEitherSide(PlaceLevels(b, input).0, Place(s, input, Normal).0, input.side);
    }
  }

  lemma IndexedIsLive(b: Levels, s: Book, id: string)
    requires Represents(b, s)
    ensures id in b.index <==> Live(s, id)
  {
    hide LevelsOk, Valid, Holds;
  }

  /** Where the index finds an order, there it is filed. */
  lemma WhereItRests(b: Levels, s: Book, id: string) returns (side: Side, o: Order)
    requires Represents(b, s) && Live(s, id)
    ensures o in s.Ladder(side) && o.orderId == id && At(b.Tree(side), o)
    ensures id in b.index && b.index[id] == Entry(side, o.price, Key(o))
  {
    hide LevelsOk, At, Key;
    side := if InLadder(s.buys, id) then Buy else Sell;
    o :| o in s.Ladder(side) && o.orderId == id;
    var ladder := s.Ladder(side);
    assert LadderOk(ladder, side, s.insertSeq, Normal) && Holds(b.Tree(side), ladder) && Indexed(b.index, ladder);
    hide Valid, LadderOk, Holds, Indexed;
    assert o.side == side by { SideOfMember(ladder, side, s.insertSeq, o); }
    assert At(b.Tree(side), o) by { HeldIsAt(b.Tree(side), ladder, o); }
    IndexedEntry(b.index, ladder, o);
  }

  lemma SideOfMember(ladder: seq<Order>, side: Side, bound: nat, o: Order)
    requires LadderOk(ladder, side, bound, Normal) && o in ladder
    ensures o.side == side
  {
  }

  lemma HeldIsAt(tree: map<int, Level>, ladder: seq<Order>, o: Order)
    requires Holds(tree, ladder) && o in ladder
    ensures At(tree, o)
  {
    hide At;
  }

  lemma IndexedEntry(index: map<string, Entry>, ladder: seq<Order>, o: Order)
    requires Indexed(index, ladder) && o in ladder
    ensures o.orderId in index && index[o.orderId] == Entry(o.side, o.price, Key(o))
  {
    hide Key;
  }

  lemma CancelLevelsIs(b: Levels, id: string, side: Side, o: Order)
    requires LevelsOk(b) && At(b.Tree(side), o) && id in b.index && b.index[id] == Entry(side, o.price, Key(o))
    ensures CancelLevels(b, id) == (b.(index := b.index - {id}).With(side, Remove(b.Tree(side), o.price, Key(o))), true)
  {
    hide Key, TreeOk;
  }

  /** A cancel leaves the other side alone. */
  lemma OtherSideStays(s: Book, id: string, side: Side, o: Order)
    requires Valid(s, Normal) && o in s.Ladder(side) && o.orderId == id
    ensures Cancel(s, id).0.Ladder(Opposite(side)) == s.Ladder(Opposite(side))
  {
    assert Find(s.buys, id) < |s.buys| ==> s.buys[Find(s.buys, id)] in s.buys;
  }

  lemma NoSharedIds(s: Book, side: Side)
    requires Valid(s, Normal)
    ensures NoSharedId(s.Ladder(side), s.Ladder(Opposite(side)))
  {
  }

  lemma CancelInStep(b: Levels, s: Book, id: string, side: Side, o: Order)
    requires Represents(b, s) && o in s.Ladder(side) && o.orderId == id && At(b.Tree(side), o)
    requires id in b.index && b.index[id] == Entry(side, o.price, Key(o))
    ensures InStep(CancelLevels(b, id).0, Cancel(s, id).0, side)
  {
    CancelLevelsIs(b, id, side, o);
    var s' := Cancel(s, id).0;
    var tree, ladder, other := b.Tree(side), s.Ladder(side), s.Ladder(Opposite(side));
    CancelRemovesExactly(s, id, Normal);
    OtherSideStays(s, id, side, o);
    NoSharedIds(s, side);
    InStepEitherSide(b, s, side);
    assert DistinctIds(ladder);
    hide Valid, LevelsOk, Cancel, CancelLevels, Remove, Holds, IndexOk, NoSharedId, DistinctIds, At, Key;
    RemoveHolds(tree, ladder, o, s'.Ladder(side));
    RemoveIndexed(b.index, ladder, other, o, s'.Ladder(side));
  }

  lemma CancelRefines(b: Levels, s: Book, id: string)
    requires Represents(b, s)
    ensures var (b', found) := CancelLevels(b, id);
      var (s', ok) := Cancel(s, id);
      found == ok && Represents(b', s')
  {
    CancelRemovesExactly(s, id, Normal);
    IndexedIsLive(b, s, id);
    if Live(s, id) {
      var side, o := WhereItRests(b, s, id);
      CancelInStep(b, s, id, side, o);
      CancelLevelsIs(b, id, side, o);
      InStepEitherSide(CancelLevels(b, id).0, Cancel(s, id).0, side);
      hide Live, Valid, Holds, IndexOk, Cancel, At, Key, Remove;
    } else {
      CancelMissing(s, id);
      hide Live, Valid, Holds, IndexOk, Cancel;
    }
  }

  lemma RemoveHolds(tree: map<int, Level>, ladder: seq<Order>, o: Order, ladder': seq<Order>)
    requires Holds(tree, ladder) && o in ladder && DistinctIds(ladder)
    requires forall p :: p in ladder' <==> p in ladder && p.orderId != o.orderId
    ensures At(tree, o) && Holds(Remove(tree, o.price, Key(o)), ladder')
  {
    assert At(tree, o);
    var tree' := Remove(tree, o.price, Key(o));
    forall p: Order ensures p in ladder' <==> At(tree', p) {
      assert At(tree, p) <==> p in ladder;
      if p.price == o.price && Key(p) == Key(o) {
        assert p in ladder ==> p == o;
      } else {
        assert p in ladder ==> p.orderId != o.orderId;
      }
      AtRemove(tree, o.price, Key(o), p);
    }
  }

  lemma RemoveIndexed(index: map<string, Entry>, ladder: seq<Order>, other: seq<Order>, o: Order, ladder': seq<Order>)
    requires IndexOk(index, ladder, other) && o in ladder && NoSharedId(ladder, other)
    requires forall p :: p in ladder' <==> p in ladder && p.orderId != o.orderId
    ensures IndexOk(index - {o.orderId}, ladder', other)
  {
    forall id | id in index && id != o.orderId ensures InLadder(ladder', id) || InLadder(other, id) {
      if InLadder(ladder, id) {
        var p :| p in ladder && p.orderId == id;
        assert p in ladder';
      }
    }
  }

  // ----- every run -----

  /** Runs the price-level book, noting each placement's fills and each cancel's answer. */
  function RunLevels(actions: seq<Action>): (r: (Levels, seq<Reply>))
    ensures LevelsOk(r.0) && |r.1| == |actions|
  {
    if actions == [] then (EMPTY_LEVELS, [])
    else
      var (b, replies) := RunLevels(actions[..|actions| - 1]);
      match actions[|actions| - 1]
      case PlaceOrder(o) => var (b', r) := PlaceLevels(b, o); (b', replies + [Placed(r)])
      case CancelOrder(id) => var (b', ok) := CancelLevels(b, id); (b', replies + [Cancelled(ok)])
  }

  datatype Reply = Placed(result: Result<seq<Fill>, OrderBookError>) | Cancelled(found: bool)

  function RunLadders(actions: seq<Action>): (r: (Book, seq<Reply>))
    ensures |r.1| == |actions|
  {
    if actions == [] then (EMPTY_BOOK, [])
    else
      var (s, replies) := RunLadders(actions[..|actions| - 1]);
      match actions[|actions| - 1]
      case PlaceOrder(o) => var (s', r) := Place(s, o, Normal); (s', replies + [Placed(r)])
      case CancelOrder(id) => var (s', ok) := Cancel(s, id); (s', replies + [Cancelled(ok)])
  }

  /** No order is placed under an id that is resting at that moment. */
  ghost predicate NoLiveReuse(actions: seq<Action>) {
    forall k :: 0 <= k < |actions| && actions[k].PlaceOrder? ==>
      !Live(RunLadders(actions[..k]).0, actions[k].order.clientOrderId)
  }

  /** Same fills and same cancel answers, action by action, for every run. */
  lemma {:induction false} RunsRefine(actions: seq<Action>)
    requires NoLiveReuse(actions)
    ensures RunLevels(actions).1 == RunLadders(actions).1
    ensures Represents(RunLevels(actions).0, RunLadders(actions).0)
  {
    if actions == [] {
      EmptyRepresents();
    } else {
      var n := |actions| - 1;
      assert NoLiveReuse(actions[..n]) by {
        assert forall k :: 0 <= k < n ==> actions[..n][..k] == actions[..k];
      }
      RunsRefine(actions[..n]);
      var b, s := RunLevels(actions[..n]).0, RunLadders(actions[..n]).0;
      match actions[n]
      case PlaceOrder(o) => PlaceRefines(b, s, o);
      case CancelOrder(id) => CancelRefines(b, s, id);
    }
  }
}
