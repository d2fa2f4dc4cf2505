/** What every operation keeps and what whole runs conserve, for any stream of orders. */
module BookSafety {
  import opened Types
  import opened Sequences
  import opened BookSpec

  // ----- matching only shortens a ladder from the front -----

  lemma {:induction false} MatchOnlyShortens(active: Order, ladder: seq<Order>, market: bool)
    ensures |Match(active, ladder, market).ladder| <= |ladder| && Match(active, ladder, market).residual.side == active.side
    decreases |ladder|
  {
    if active.qty > 0 && ladder != [] && Crosses(active, ladder[0], market) {
      var qty := Min(active.qty, ladder[0].qty);
      if ladder[0].qty == qty { MatchOnlyShortens(active.(qty := active.qty - qty), ladder[1..], market); }
    }
  }

  /** A ladder the match has shortened. */
  ghost predicate Suffix(s: seq<Order>, ladder: seq<Order>, d: nat) {
    && d + |s| == |ladder|
    && forall i :: 0 <= i < |s| ==> s[i] == ladder[d + i].(qty := s[i].qty) && s[i].qty > 0
  }

  lemma MatchLeavesSuffix(active: Order, ladder: seq<Order>, market: bool) returns (d: nat)
    requires active.qty >= 0
    requires forall o :: o in ladder ==> o.qty > 0
    ensures var m := Match(active, ladder, market);
      && Suffix(m.ladder, ladder, d)
      && m.residual == active.(qty := m.residual.qty)
      && (m.residual.qty > 0 && m.ladder != [] ==> !Crosses(m.residual, m.ladder[0], market))
  {
    hide Match;
    MatchWalksTheLadder(active, ladder, market);
    d := StopsLeavesSuffix(ladder, market, Match(active, ladder, market));
  }

  lemma StopsLeavesSuffix(ladder: seq<Order>, market: bool, m: Matched) returns (d: nat)
    requires Stops(ladder, market, m)
    requires forall o :: o in ladder ==> o.qty > 0
    ensures Suffix(m.ladder, ladder, d)
    ensures m.residual.qty > 0 && m.ladder != [] ==> !Crosses(m.residual, m.ladder[0], market)
  {
    var n := |m.fills|;
    assert forall i :: 0 <= i < |ladder| ==> ladder[i] in ladder;
    if n > 0 && m.fills[n - 1].qty < ladder[n - 1].qty {
      d := n - 1;
      assert forall i :: 0 < i < |m.ladder| ==> m.ladder[i] == ladder[n..][i - 1] == ladder[d + i];
    } else {
      d := n;
    }
  }

  lemma SuffixLadderOk(s: seq<Order>, ladder: seq<Order>, d: nat, side: Side, bound: nat, mode: Mode)
    requires Suffix(s, ladder, d) && LadderOk(ladder, side, bound, mode)
    ensures LadderOk(s, side, bound, mode)
    ensures forall o :: o in s ==> InLadder(ladder, o.orderId)
  {
    var rank := Priority(side, mode);
    forall i, j | 0 <= i < j < |s| ensures Less(rank(s[i]), rank(s[j])) {
      assert Less(rank(ladder[d + i]), rank(ladder[d + j]));
    }
    forall o | o in s
      ensures InLadder(ladder, o.orderId) && o.side == side && o.qty > 0 && o.price > 0 && o.insertSeq <= bound
    {
      var i :| 0 <= i < |s| && s[i] == o;
      assert ladder[d + i] in ladder;
    }
  }

  lemma SuffixOk(s: seq<Order>, ladder: seq<Order>, d: nat, side: Side, bound: nat, mode: Mode)
    requires Suffix(s, ladder, d) && LadderOk(ladder, side, bound, mode) && DistinctIds(ladder)
    ensures LadderOk(s, side, bound, mode) && DistinctIds(s)
    ensures forall o :: o in s ==> InLadder(ladder, o.orderId)
  {
    SuffixLadderOk(s, ladder, d, side, bound, mode);
    hide LadderOk, InLadder;
    forall i, j | 0 <= i < j < |s| ensures s[i].orderId != s[j].orderId {
      assert ladder[d + i].orderId != ladder[d + j].orderId;
    }
  }

  lemma SuffixApart(s: seq<Order>, ladder: seq<Order>, d: nat, other: seq<Order>)
    requires Suffix(s, ladder, d)
    ensures Apart(ladder, other) ==> Apart(s, other)
    ensures Apart(other, ladder) ==> Apart(other, s)
  {
    forall o, p | o in s && p in other
      ensures Apart(ladder, other) ==> o.price < p.price && o.orderId != p.orderId
      ensures Apart(other, ladder) ==> p.price < o.price && p.orderId != o.orderId
    {
      var i :| 0 <= i < |s| && s[i] == o;
      assert ladder[d + i] in ladder;
    }
  }

  /** A newer order than any in the ladder finds its place in it. */
  lemma InsertLadderOk(s: seq<Order>, x: Order, side: Side, bound: nat, mode: Mode)
    requires LadderOk(s, side, bound, mode)
    requires x.side == side && x.qty > 0 && x.price > 0 && x.insertSeq == bound + 1
    ensures LadderOk(Insert(s, x, Priority(side, mode)), side, bound + 1, mode)
  {
    hide Insert;
    var rank := Priority(side, mode);
    forall y | y in s ensures rank(y) != rank(x) { assert y.insertSeq <= bound; }
    InsertStrictlySorted(s, x, rank);
    InsertMembers(s, x, rank);
  }

  lemma InsertOk(s: seq<Order>, x: Order, side: Side, bound: nat, mode: Mode)
    requires LadderOk(s, side, bound, mode) && DistinctIds(s) && !InLadder(s, x.orderId)
    requires x.side == side && x.qty > 0 && x.price > 0 && x.insertSeq == bound + 1
    ensures var r := Insert(s, x, Priority(side, mode));
      && LadderOk(r, side, bound + 1, mode) && DistinctIds(r)
      && forall o :: o in r <==> o == x || o in s
  {
    hide Insert, LadderOk, InLadder, DistinctIds;
    var rank := Priority(side, mode);
    InsertLadderOk(s, x, side, bound, mode);
    InsertMembers(s, x, rank);
    InsertDistinct(s, x, rank);
  }

  lemma InsertDistinct(s: seq<Order>, x: Order, rank: Order -> Rank)
    requires DistinctIds(s) && !InLadder(s, x.orderId)
    ensures DistinctIds(Insert(s, x, rank))
  {
    var k := InsertionPoint(s, x, rank);
    hide Insert;
    assert forall j :: 0 <= j < |s| ==> s[j] in s;
  }

  lemma InsertMembers<T>(s: seq<T>, x: T, rank: T -> Rank)
    ensures forall o :: o in Insert(s, x, rank) <==> o == x || o in s
  {
    InsertMultiset(s, x, rank);
    var r := Insert(s, x, rank);
    forall o ensures o in r <==> o == x || o in s {
      assert o in r <==> o in multiset(r);
      assert o in s <==> o in multiset(s);
    }
  }

  // ----- every operation keeps the book valid -----

  /** What is left of an order after its match would not trade with what is left of the ladder. */
  lemma ResidualIsBeyond(active: Order, ladder: seq<Order>, bound: nat, mode: Mode)
    requires active.qty >= 0 && LadderOk(ladder, Opposite(active.side), bound, mode)
    ensures var m := Match(active, ladder, false);
      m.residual.qty > 0 ==> forall o :: o in m.ladder ==> !Crosses(m.residual, o, false)
  {
    hide Match;
    var d := MatchLeavesSuffix(active, ladder, false);
    var m := Match(active, ladder, false);
    if m.residual.qty > 0 {
      forall o | o in m.ladder ensures !Crosses(m.residual, o, false) {
        var i :| 0 <= i < |m.ladder| && m.ladder[i] == o;
        var rank := Priority(Opposite(active.side), mode);
        assert i > 0 ==> Less(rank(ladder[d]), rank(ladder[d + i]));
      }
    }
  }

  lemma MatchKeepsLadder(active: Order, ladder: seq<Order>, market: bool, side: Side, bound: nat, mode: Mode)
    requires LadderOk(ladder, side, bound, mode) && active.qty >= 0
    ensures var m := Match(active, ladder, market);
      LadderOk(m.ladder, side, bound, mode) && m.residual == active.(qty := m.residual.qty)
  {
    hide Match;
    var d := MatchLeavesSuffix(active, ladder, market);
    hide Suffix;
    SuffixLadderOk(Match(active, ladder, market).ladder, ladder, d, side, bound, mode);
  }

  lemma MatchKeepsValid(b: Book, active: Order, market: bool, mode: Mode)
    requires Valid(b, mode) && active.qty >= 0
    ensures var opp := Opposite(active.side);
      var b' := b.With(opp, Match(active, b.Ladder(opp), market).ladder);
      Valid(b', mode) && forall id :: Live(b', id) ==> Live(b, id)
  {
    hide Match;
    var side := active.side;
    var opp := b.Ladder(Opposite(side));
    var d := MatchLeavesSuffix(active, opp, market);
    var m := Match(active, opp, market);
    SuffixOk(m.ladder, opp, d, Opposite(side), b.insertSeq, mode);
    SuffixApart(m.ladder, opp, d, b.Ladder(side));
  }

  lemma RestKeepsValid(b: Book, o: Order, mode: Mode)
    requires Valid(b, mode) && !Live(b, o.orderId)
    requires o.qty > 0 && o.price > 0 && o.insertSeq == b.insertSeq + 1
    requires forall p :: p in b.Ladder(Opposite(o.side)) ==> !Crosses(o, p, false)
    ensures Valid(Rest(b, o, mode).(insertSeq := b.insertSeq + 1), mode)
    ensures forall id :: Live(Rest(b, o, mode), id) ==> Live(b, id) || id == o.orderId
  {
    hide Insert;
    var own, opp := b.Ladder(o.side), b.Ladder(Opposite(o.side));
    InsertOk(own, o, o.side, b.insertSeq, mode);
    var r := Insert(own, o, Priority(o.side, mode));
    forall p, q | p in r && q in opp
      ensures p.orderId != q.orderId
      ensures if o.side.Buy? then p.price < q.price else q.price < p.price
    {
      assert p == o || p in own;
    }
  }

  /** A match leaves nothing of its own order behind, and a residual that would not trade. */
  lemma ResidualMayRest(b: Book, active: Order, market: bool, mode: Mode)
    requires Valid(b, mode) && !Live(b, active.orderId) && active.qty >= 0
    ensures var opp := Opposite(active.side);
      var m := Match(active, b.Ladder(opp), market);
      var b' := b.With(opp, m.ladder);
      && m.residual == active.(qty := m.residual.qty) && b'.insertSeq == b.insertSeq
      && Valid(b', mode) && !Live(b', active.orderId) && (forall id :: Live(b', id) ==> Live(b, id))
      && (m.residual.qty > 0 && !market ==> forall p :: p in b'.Ladder(opp) ==> !Crosses(m.residual, p, false))
  {
    hide Match, Crosses, InLadder;
    var opp := Opposite(active.side);
    MatchKeepsValid(b, active, market, mode);
    var d := MatchLeavesSuffix(active, b.Ladder(opp), market);
    if !market { ResidualIsBeyond(active, b.Ladder(opp), b.insertSeq, mode); }
    hide Apart, LadderOk, DistinctIds, Suffix;
  }

  lemma CompleteWithNumber(b: Book, active: Order, market: bool, mode: Mode)
    ensures var opp := Opposite(active.side);
      var m := Match(active, b.Ladder(opp), market);
      var b' := b.With(opp, m.ladder);
      Complete(b.(insertSeq := b.insertSeq + 1), active, market, mode).0
      == (if m.residual.qty > 0 && !market then Rest(b', m.residual, mode) else b').(insertSeq := b.insertSeq + 1)
  {
    hide Match, Insert;
  }

  lemma Renumbered(b: Book, n: nat, mode: Mode)
    requires Valid(b, mode) && n >= b.insertSeq
    ensures Valid(b.(insertSeq := n), mode)
    ensures forall id :: Live(b.(insertSeq := n), id) <==> Live(b, id)
  {
  }

  /** The two ladders after an admitted order has matched and come to rest. */
  lemma CompleteKeepsValid(b: Book, active: Order, market: bool, mode: Mode)
    requires Valid(b, mode) && !Live(b, active.orderId)
    requires active.qty >= 0 && (market || active.price > 0) && active.insertSeq == b.insertSeq + 1
    ensures Valid(Complete(b.(insertSeq := b.insertSeq + 1), active, market, mode).0, mode)
    ensures forall id :: Live(Complete(b.(insertSeq := b.insertSeq + 1), active, market, mode).0, id) ==> Live(b, id) || id == active.orderId
  {
    hide Match, Rest, Valid, Live, Crosses, Complete;
    var opp := Opposite(active.side);
    ResidualMayRest(b, active, market, mode);
    CompleteWithNumber(b, active, market, mode);
    var m := Match(active, b.Ladder(opp), market);
    var b' := b.With(opp, m.ladder);
    if m.residual.qty > 0 && !market {
      RestKeepsValid(b', m.residual, mode);
      RenumberedLive(Rest(b', m.residual, mode), b.insertSeq + 1);
    } else {
      Renumbered(b', b.insertSeq + 1, mode);
    }
  }

  lemma RenumberedLive(b: Book, n: nat)
    ensures forall id :: Live(b.(insertSeq := n), id) <==> Live(b, id)
  {
  }

  lemma PlaceKeepsValid(b: Book, input: NewOrder, mode: Mode)
    requires Valid(b, mode) && !Live(b, input.clientOrderId)
    ensures Valid(Place(b, input, mode).0, mode)
    ensures forall id :: Live(Place(b, input, mode).0, id) ==> Live(b, id) || id == input.clientOrderId
  {
    hide Complete;
    if Rejection(input) == None {
      CompleteKeepsValid(b, Admit(input, b.insertSeq + 1), input.orderType == Market, mode);
    }
  }

  lemma WithoutMembers(s: seq<Order>, i: nat)
    requires i < |s| && DistinctIds(s)
    ensures DistinctIds(Without(s, i))
    ensures forall o :: o in Without(s, i) <==> o in s && o.orderId != s[i].orderId
  {
    var r := Without(s, i);
    WithoutIndex(s, i);
    hide Without;
    forall o | o in r ensures o in s && o.orderId != s[i].orderId {
      var j :| 0 <= j < |r| && r[j] == o;
      assert s[if j < i then j else j + 1] == o;
    }
    forall o | o in s && o.orderId != s[i].orderId ensures o in r {
      var j :| 0 <= j < |s| && s[j] == o;
      assert r[if j < i then j else j - 1] == o;
    }
  }

  lemma WithoutIndex(s: seq<Order>, i: nat)
    requires i < |s|
    ensures var r := Without(s, i);
      && |r| == |s| - 1
      && (forall j :: 0 <= j < |r| ==> r[j] == s[if j < i then j else j + 1])
  {
  }

  lemma WithoutSorted(s: seq<Order>, i: nat, rank: Order -> Rank)
    requires i < |s| && StrictlySorted(s, rank)
    ensures StrictlySorted(Without(s, i), rank)
  {
    WithoutIndex(s, i);
  }

  /** A cancel succeeds exactly for a resting order, takes away that order and nothing else. */
  lemma CancelRemovesExactly(b: Book, id: string, mode: Mode)
    requires Valid(b, mode)
    ensures var (b', ok) := Cancel(b, id);
      && Valid(b', mode) && b'.insertSeq == b.insertSeq
      && ok == Live(b, id)
      && (forall o :: o in b'.buys <==> o in b.buys && o.orderId != id)
      && (forall o :: o in b'.sells <==> o in b.sells && o.orderId != id)
  {
    var i, j := Find(b.buys, id), Find(b.sells, id);
    if i < |b.buys| {
      WithoutMembers(b.buys, i);
      WithoutSorted(b.buys, i, Priority(Buy, mode));
      assert b.buys[i] in b.buys;
    } else if j < |b.sells| {
      WithoutMembers(b.sells, j);
      WithoutSorted(b.sells, j, Priority(Sell, mode));
      assert b.sells[j] in b.sells;
    }
  }

  lemma FindIffIn(ladder: seq<Order>, id: string)
    ensures Find(ladder, id) < |ladder| <==> InLadder(ladder, id)
  {
    if Find(ladder, id) < |ladder| { assert ladder[Find(ladder, id)] in ladder; }
  }

  lemma CancelMissing(b: Book, id: string)
    requires !Live(b, id)
    ensures Cancel(b, id) == (b, false)
  {
    FindIffIn(b.buys, id);
    FindIffIn(b.sells, id);
  }

  /**
   The `k`-th fill of a placement is with the order that is best once the first
   `k` are gone, at that order's price, and never beyond the incoming limit. The
   bid's owner is the buyer and the ask's the seller, whichever came in.
   */
  lemma FillsTakeTheBest(b: Book, input: NewOrder, mode: Mode, k: nat)
    requires Valid(b, mode) && Rejection(input) == None
    requires k < |Place(b, input, mode).1.value|
    ensures var opp, f := b.Ladder(Opposite(input.side)), Place(b, input, mode).1.value[k];
      && k < |opp|
      && f.buyOrderId == (if input.side.Buy? then input.clientOrderId else opp[k].orderId)
      && f.sellOrderId == (if input.side.Buy? then opp[k].orderId else input.clientOrderId)
      && f.price == opp[k].price && 0 < f.qty <= opp[k].qty
      && (input.orderType == Limit ==> if input.side.Buy? then f.price <= input.price else input.price <= f.price)
      && (forall j :: k < j < |opp| ==>
        && Less(Priority(Opposite(input.side), mode)(opp[k]), Priority(Opposite(input.side), mode)(opp[j]))
        && if input.side.Buy? then opp[k].price <= opp[j].price else opp[j].price <= opp[k].price)
  {
    hide Match;
    var active := Admit(input, b.insertSeq + 1);
    MatchWalksTheLadder(active, b.Ladder(Opposite(input.side)), input.orderType == Market);
  }

  // ----- conservation -----

  function QtyOf(ladder: seq<Order>, id: string): int {
    if ladder == [] then 0
    else (if ladder[0].orderId == id then ladder[0].qty else 0) + QtyOf(ladder[1..], id)
  }

  function RestingQty(b: Book, id: string): int {
    QtyOf(b.buys, id) + QtyOf(b.sells, id)
  }

  /** Everything traded under `id`, on either side. */
  function Traded(fills: seq<Fill>, id: string): int {
    if fills == [] then 0
    else
      (if fills[0].buyOrderId == id then fills[0].qty else 0)
      + (if fills[0].sellOrderId == id then fills[0].qty else 0)
      + Traded(fills[1..], id)
  }

  function Share(o: Order, id: string): int {
    if o.orderId == id then o.qty else 0
  }

  lemma {:induction false} TradedConcat(a: seq<Fill>, b: seq<Fill>, id: string)
    ensures Traded(a + b, id) == Traded(a, id) + Traded(b, id)
  {
    if a == [] {
      assert a + b == b;
    } else {
      TradedConcat(a[1..], b, id);
      assert (a + b)[1..] == a[1..] + b;
    }
  }

  lemma FillTraded(active: Order, resting: Order, qty: int, id: string)
    ensures Traded([MakeFill(active, resting, qty)], id)
         == (if active.orderId == id then qty else 0) + (if resting.orderId == id then qty else 0)
  {
    assert [MakeFill(active, resting, qty)][1..] == [];
  }

  /** Whatever leaves an order during a match is in a fill. */
  lemma {:induction false} MatchConserves(active: Order, ladder: seq<Order>, market: bool, id: string)
    ensures var m := Match(active, ladder, market);
      Traded(m.fills, id) + QtyOf(m.ladder, id) + Share(m.residual, id) == QtyOf(ladder, id) + Share(active, id)
    decreases |ladder|
  {
    hide Traded, MakeFill, QtyOf;
    if active.qty <= 0 || ladder == [] || !Crosses(active, ladder[0], market) {
      NothingTraded(id);
    } else {
      var qty := Min(active.qty, ladder[0].qty);
      ReduceQty(ladder, qty, id);
      FillTraded(active, ladder[0], qty, id);
      if ladder[0].qty == qty {
        var left := active.(qty := active.qty - qty);
        MatchConserves(left, ladder[1..], market, id);
        TradedConcat([MakeFill(active, ladder[0], qty)], Match(left, ladder[1..], market).fills, id);
      }
    }
  }

  lemma NothingTraded(id: string)
    ensures Traded([], id) == 0
  {
  }

  lemma ReduceQty(ladder: seq<Order>, qty: int, id: string)
    requires ladder != []
    ensures QtyOf(Reduce(ladder, qty), id) == QtyOf(ladder, id) - (if ladder[0].orderId == id then qty else 0)
  {
  }

  lemma {:induction false} InsertQty(s: seq<Order>, x: Order, rank: Order -> Rank, id: string)
    ensures QtyOf(Insert(s, x, rank), id) == QtyOf(s, id) + Share(x, id)
  {
    if s == [] {
    } else if Less(rank(x), rank(s[0])) {
      assert ([x] + s)[1..] == s;
    } else {
      InsertQty(s[1..], x, rank, id);
      assert ([s[0]] + Insert(s[1..], x, rank))[1..] == Insert(s[1..], x, rank);
    }
  }

  lemma {:induction false} WithoutQty(s: seq<Order>, i: nat, id: string)
    requires i < |s|
    ensures QtyOf(Without(s, i), id) == QtyOf(s, id) - Share(s[i], id)
  {
    if i == 0 {
      assert Without(s, 0) == s[1..];
    } else {
      WithoutQty(s[1..], i - 1, id);
      assert Without(s, i)[1..] == Without(s[1..], i - 1);
    }
  }

  /** The part of an admitted order that neither traded nor came to rest. */
  function Dropped(b: Book, active: Order, market: bool): int {
    if market then Match(active, b.Ladder(Opposite(active.side)), market).residual.qty else 0
  }

  lemma CompleteConserves(b: Book, active: Order, market: bool, mode: Mode, id: string)
    requires active.qty >= 0 && forall o :: o in b.Ladder(Opposite(active.side)) ==> o.qty > 0
    ensures var (b', fills) := Complete(b, active, market, mode);
      RestingQty(b, id) + Share(active, id)
      == Traded(fills, id) + RestingQty(b', id) + (if active.orderId == id then Dropped(b, active, market) else 0)
  {
    hide Match, Insert;
    var opp := b.Ladder(Opposite(active.side));
    MatchConserves(active, opp, market, id);
    var d := MatchLeavesSuffix(active, opp, market);
    MatchWalksTheLadder(active, opp, market);
    var m := Match(active, opp, market);
    if m.residual.qty > 0 && !market {
      InsertQty(b.Ladder(active.side), m.residual, Priority(active.side, mode), id);
    }
  }

  // ----- whole runs -----

  datatype Action = PlaceOrder(order: NewOrder) | CancelOrder(id: string)

  /** A book together with what has gone in and out of it under each id. */
  datatype Ledger = Ledger(book: Book, accepted: map<string, int>, released: map<string, int>, fills: seq<Fill>)

  const EMPTY_LEDGER := Ledger(EMPTY_BOOK, map[], map[], [])

  function Get(m: map<string, int>, id: string): int {
    if id in m then m[id] else 0
  }

  function Apply(l: Ledger, a: Action, mode: Mode): Ledger {
    match a
    case PlaceOrder(o) =>
      var (b, r) := Place(l.book, o, mode);
      var id := o.clientOrderId;
      (match r
       case Err(_) => l
       case Ok(fills) =>
         var dropped := Dropped(l.book, Admit(o, l.book.insertSeq + 1), o.orderType == Market);
         Ledger(b, l.accepted[id := Get(l.accepted, id) + o.qty],
                l.released[id := Get(l.released, id) + dropped], l.fills + fills))
    case CancelOrder(id) =>
      var (b, ok) := Cancel(l.book, id);
      l.(book := b, released := l.released[id := Get(l.released, id) + if ok then RestingQty(l.book, id) else 0])
  }

  /** A run applies its actions one by one, from the oldest to the newest. */
  function Run(actions: seq<Action>, mode: Mode): Ledger {
    if actions == [] then EMPTY_LEDGER
    else Apply(Run(actions[..|actions| - 1], mode), actions[|actions| - 1], mode)
  }

  /** No order is placed under an id that is still resting. */
  ghost predicate LiveIdsDistinct(actions: seq<Action>, mode: Mode) {
    forall k :: 0 <= k < |actions| && actions[k].PlaceOrder? ==>
      !Live(Run(actions[..k], mode).book, actions[k].order.clientOrderId)
  }

  ghost predicate Conserves(l: Ledger) {
    forall id :: ConservesAt(l, id)
  }

  /** What was accepted under `id` has traded, still rests, or was cancelled or dropped. */
  ghost predicate ConservesAt(l: Ledger, id: string) {
    Get(l.accepted, id) == Traded(l.fills, id) + RestingQty(l.book, id) + Get(l.released, id)
  }

  ghost predicate FillsPositive(fills: seq<Fill>) {
    forall k :: 0 <= k < |fills| ==> fills[k].qty > 0
  }

  lemma ApplyKeeps(l: Ledger, a: Action, mode: Mode)
    requires Valid(l.book, mode) && Conserves(l) && FillsPositive(l.fills)
    requires a.PlaceOrder? ==> !Live(l.book, a.order.clientOrderId)
    ensures var l' := Apply(l, a, mode); Valid(l'.book, mode) && Conserves(l') && FillsPositive(l'.fills)
  {
    match a
    case PlaceOrder(o) =>
      PlaceKeepsValid(l.book, o, mode);
      if Rejection(o) == None { PlacementKeeps(l, o, mode); }
    case CancelOrder(id) =>
      CancelRemovesExactly(l.book, id, mode);
      var l' := Apply(l, a, mode);
      forall x ensures ConservesAt(l', x) {
        assert ConservesAt(l, x);
        if x != id { CancelOthers(l.book, id, x); } else { CancelReleasesAll(l.book, id, mode); }
      }
  }

  lemma {:induction false} AbsentHasNothing(ladder: seq<Order>, id: string)
    requires !InLadder(ladder, id)
    ensures QtyOf(ladder, id) == 0
  {
    if ladder != [] {
      assert ladder[0] in ladder;
      forall o | o in ladder[1..] ensures o.orderId != id { assert o in ladder; }
      AbsentHasNothing(ladder[1..], id);
    }
  }

  /** A cancel that finds its order takes all that rests under its id, and one that does not takes nothing. */
  lemma CancelReleasesAll(b: Book, id: string, mode: Mode)
    requires Valid(b, mode)
    ensures var (b', ok) := Cancel(b, id);
      RestingQty(b', id) == (if ok then 0 else RestingQty(b, id))
  {
    CancelRemovesExactly(b, id, mode);
    var (b', ok) := Cancel(b, id);
    if ok {
      assert !InLadder(b'.buys, id) && !InLadder(b'.sells, id);
      hide Cancel, InLadder;
      AbsentHasNothing(b'.buys, id);
      AbsentHasNothing(b'.sells, id);
    }
  }

  lemma PlaceConserves(b: Book, o: NewOrder, mode: Mode, id: string)
    requires Valid(b, mode) && Rejection(o) == None
    ensures var (b', r) := Place(b, o, mode);
      && r.Ok? && FillsPositive(r.value)
      && RestingQty(b, id) + (if o.clientOrderId == id then o.qty else 0)
         == Traded(r.value, id) + RestingQty(b', id)
          + (if o.clientOrderId == id then Dropped(b, Admit(o, b.insertSeq + 1), o.orderType == Market) else 0)
  {
    hide Match, Insert;
    var n := b.insertSeq + 1;
    var active, market := Admit(o, n), o.orderType == Market;
    MatchWalksTheLadder(active, b.Ladder(Opposite(o.side)), market);
    CompleteConserves(b.(insertSeq := n), active, market, mode, id);
  }

  lemma PlacementConserves(l: Ledger, o: NewOrder, mode: Mode, id: string)
    requires Valid(l.book, mode) && Rejection(o) == None && ConservesAt(l, id)
    ensures var l' := Apply(l, PlaceOrder(o), mode);
      ConservesAt(l', id) && (FillsPositive(l.fills) ==> FillsPositive(l'.fills))
  {
    hide Match, Complete;
    PlaceConserves(l.book, o, mode, id);
    TradedConcat(l.fills, Place(l.book, o, mode).1.value, id);
  }

  lemma PlacementKeeps(l: Ledger, o: NewOrder, mode: Mode)
    requires Valid(l.book, mode) && Conserves(l) && FillsPositive(l.fills)
    requires Rejection(o) == None
    ensures var l' := Apply(l, PlaceOrder(o), mode); Conserves(l') && FillsPositive(l'.fills)
  {
    assert ConservesAt(l, o.clientOrderId);
    PlacementConserves(l, o, mode, o.clientOrderId);
    forall id ensures ConservesAt(Apply(l, PlaceOrder(o), mode), id) {
      assert ConservesAt(l, id);
      PlacementConserves(l, o, mode, id);
    }
  }

  lemma CancelOthers(b: Book, id: string, x: string)
    requires x != id
    ensures RestingQty(Cancel(b, id).0, x) == RestingQty(b, x)
  {
    var i, j := Find(b.buys, id), Find(b.sells, id);
    if i < |b.buys| {
      WithoutQty(b.buys, i, x);
    } else if j < |b.sells| {
      WithoutQty(b.sells, j, x);
    }
  }

  /**
   For every run: the book stays sorted and uncrossed, every fill is positive,
   and what was accepted under an id has traded, rests or was released.
   */
  lemma {:induction false} RunsConserve(actions: seq<Action>, mode: Mode)
    requires LiveIdsDistinct(actions, mode)
    ensures var l := Run(actions, mode); Valid(l.book, mode) && Conserves(l) && FillsPositive(l.fills)
  {
    if actions != [] {
      var n := |actions| - 1;
      assert LiveIdsDistinct(actions[..n], mode) by {
        assert forall k :: 0 <= k < n ==> actions[..n][..k] == actions[..k];
      }
      RunsConserve(actions[..n], mode);
      ApplyKeeps(Run(actions[..n], mode), actions[n], mode);
    }
  }
}
