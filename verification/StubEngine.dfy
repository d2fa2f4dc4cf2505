/**
 The locked engine on the heap: ladders of order objects kept sorted by binary
 search, quantities reduced in place, and an index from ids to the objects.
 */
module StubEngine {
  import opened Types
  import opened Sequences
  import opened BookSpec
  import opened BookSafety
  import opened EngineSpec

  class RestingOrder {
    const id: string
    const symbol: string
    const side: Side
    const price: int
    const tsNs: nat
    const insertSeq: nat
    var qty: int

    constructor (o: Order, symbol: string)
      ensures Value() == o && this.symbol == symbol && fresh(this)
    {
      id, side, price, qty, tsNs, insertSeq := o.orderId, o.side, o.price, o.qty, o.tsNs, o.insertSeq;
      this.symbol := symbol;
    }

    function Value(): Order
      reads this
    {
      Order(id, side, price, qty, tsNs, insertSeq)
    }
  }

  function ValuesOf(s: seq<RestingOrder>): (r: seq<Order>)
    reads s
    ensures |r| == |s| && forall i :: 0 <= i < |s| ==> r[i] == s[i].Value()
  {
    seq(|s|, i requires 0 <= i < |s| reads s => s[i].Value())
  }

  ghost predicate NoRepeats(s: seq<RestingOrder>) {
    forall i, j :: 0 <= i < j < |s| ==> s[i] != s[j]
  }

  /** Whether `a` sorts strictly before `b`. */
  predicate OrderBefore(a: RestingOrder, b: RestingOrder, buySide: bool, broken: bool) {
    if a.price != b.price then (if buySide then a.price > b.price else a.price < b.price)
    else if a.tsNs != b.tsNs then (if broken then a.tsNs > b.tsNs else a.tsNs < b.tsNs)
    else a.insertSeq < b.insertSeq
  }

  function ModeOf(broken: bool): Mode {
    if broken then Broken else Normal
  }

  function SideOf(buySide: bool): Side {
    if buySide then Buy else Sell
  }

  lemma OrderBeforeIsPriority(a: RestingOrder, b: RestingOrder, buySide: bool, broken: bool)
    ensures var rank := Priority(SideOf(buySide), ModeOf(broken));
      OrderBefore(a, b, buySide, broken) <==> Less(rank(a.Value()), rank(b.Value()))
  {
  }

  /** Each order of the ladder sorts before all that follow. */
  ghost predicate LadderSorted(s: seq<RestingOrder>, buySide: bool, broken: bool) {
    forall i, j :: 0 <= i < j < |s| ==> OrderBefore(s[i], s[j], buySide, broken)
  }

  /** A ladder holds objects of its symbol and side, each once, in strict order. */
  ghost predicate InShape(s: seq<RestingOrder>, symbol: string, buySide: bool, broken: bool) {
    && NoRepeats(s) && LadderSorted(s, buySide, broken)
    && forall o :: o in s ==> o.side == SideOf(buySide) && o.symbol == symbol
  }

  lemma RestInShape(s: seq<RestingOrder>, gone: nat, symbol: string, buySide: bool, broken: bool)
    requires gone <= |s| && InShape(s, symbol, buySide, broken)
    ensures InShape(s[gone..], symbol, buySide, broken)
  {
    assert forall k :: 0 <= k < |s[gone..]| ==> s[gone..][k] == s[gone + k];
    assert forall k :: 0 <= k < |s| ==> s[k] in s;
  }

  lemma LadderSortedIs(s: seq<RestingOrder>, buySide: bool, broken: bool)
    ensures LadderSorted(s, buySide, broken) <==> StrictlySorted(ValuesOf(s), Priority(SideOf(buySide), ModeOf(broken)))
  {
    var rank := Priority(SideOf(buySide), ModeOf(broken));
    forall i, j | 0 <= i < j < |s|
      ensures OrderBefore(s[i], s[j], buySide, broken) <==> Less(rank(ValuesOf(s)[i]), rank(ValuesOf(s)[j]))
    {
      OrderBeforeIsPriority(s[i], s[j], buySide, broken);
    }
  }

  // ----- binary search over a ladder -----

  /** The first position whose order comes after `o`. */
  method SearchAfter(s: seq<RestingOrder>, o: RestingOrder, buySide: bool, broken: bool) returns (i: nat)
    requires LadderSorted(s, buySide, broken)
    ensures i <= |s|
    ensures forall k :: 0 <= k < i ==> !OrderBefore(o, s[k], buySide, broken)
    ensures forall k :: i <= k < |s| ==> OrderBefore(o, s[k], buySide, broken)
  {
    i := 0;
    var j := |s|;
    while i < j
      invariant 0 <= i <= j <= |s|
      invariant forall k :: 0 <= k < i ==> !OrderBefore(o, s[k], buySide, broken)
      invariant forall k :: j <= k < |s| ==> OrderBefore(o, s[k], buySide, broken)
    {
      var h := (i + j) / 2;
      if !OrderBefore(o, s[h], buySide, broken) { i := h + 1; } else { j := h; }
    }
  }

  /** The first position whose order does not come before `o`. */
  method SearchAt(s: seq<RestingOrder>, o: RestingOrder, buySide: bool, broken: bool) returns (i: nat)
    requires LadderSorted(s, buySide, broken)
    ensures i <= |s|
    ensures forall k :: 0 <= k < i ==> OrderBefore(s[k], o, buySide, broken)
    ensures forall k :: i <= k < |s| ==> !OrderBefore(s[k], o, buySide, broken)
  {
    i := 0;
    var j := |s|;
    while i < j
      invariant 0 <= i <= j <= |s|
      invariant forall k :: 0 <= k < i ==> OrderBefore(s[k], o, buySide, broken)
      invariant forall k :: j <= k < |s| ==> !OrderBefore(s[k], o, buySide, broken)
    {
      var h := (i + j) / 2;
      if OrderBefore(s[h], o, buySide, broken) { i := h + 1; } else { j := h; }
    }
  }

  lemma InsertedValues(s: seq<RestingOrder>, o: RestingOrder, i: nat, buySide: bool, broken: bool)
    requires LadderSorted(s, buySide, broken) && i <= |s|
    requires forall k :: 0 <= k < i ==> !OrderBefore(o, s[k], buySide, broken)
    requires forall k :: i <= k < |s| ==> OrderBefore(o, s[k], buySide, broken)
    ensures var rank := Priority(SideOf(buySide), ModeOf(broken));
      && ValuesOf(s[..i] + [o] + s[i..]) == Insert(ValuesOf(s), o.Value(), rank)
      && Insert(ValuesOf(s), o.Value(), rank) == StableSort(ValuesOf(s) + [o.Value()], rank)
  {
    hide Insert, StableSort;
    var rank := Priority(SideOf(buySide), ModeOf(broken));
    forall k | 0 <= k < |s| ensures OrderBefore(o, s[k], buySide, broken) <==> Less(rank(o.Value()), rank(ValuesOf(s)[k])) {
      OrderBeforeIsPriority(o, s[k], buySide, broken);
    }
    InsertAt(ValuesOf(s), o.Value(), rank, i);
    LadderSortedIs(s, buySide, broken);
    AppendThenSort(ValuesOf(s), o.Value(), rank);
    assert ValuesOf(s[..i] + [o] + s[i..]) == ValuesOf(s)[..i] + [o.Value()] + ValuesOf(s)[i..];
  }

  // ----- one book -----

  class SymbolBook {
    var insertSeq: nat
    var buys: seq<RestingOrder>
    var sells: seq<RestingOrder>
    ghost var abs: Book

    constructor ()
      ensures fresh(this) && buys == [] && sells == [] && abs == EMPTY_BOOK
      ensures forall symbol, broken :: Ok(symbol, broken)
    {
      insertSeq, buys, sells, abs := 0, [], [], EMPTY_BOOK;
    }

    function Ladder(buySide: bool): seq<RestingOrder>
      reads this
    {
      if buySide then buys else sells
    }

    function All(): seq<RestingOrder>
      reads this
    {
      buys + sells
    }

    ghost predicate Shaped(symbol: string, broken: bool)
      reads this
    {
      InShape(buys, symbol, true, broken) && InShape(sells, symbol, false, broken)
    }

    /** `abs` is what the objects say at this moment. */
    ghost predicate Tied(symbol: string, broken: bool)
      reads this, buys, sells
    {
      Shaped(symbol, broken) && abs == Book(ValuesOf(buys), ValuesOf(sells), insertSeq)
    }

    ghost predicate Ok(symbol: string, broken: bool)
      reads this, buys, sells
    {
      Tied(symbol, broken) && BookSpec.Valid(abs, ModeOf(broken))
    }

    lemma LaddersShaped(symbol: string, broken: bool, buySide: bool)
      requires Tied(symbol, broken)
      ensures InShape(Ladder(buySide), symbol, buySide, broken) && LadderSorted(Ladder(buySide), buySide, broken)
      ensures ValuesOf(Ladder(buySide)) == abs.Ladder(SideOf(buySide)) && abs.insertSeq == insertSeq
    {
    }

    lemma BothShaped(symbol: string, broken: bool, buySide: bool)
      requires InShape(Ladder(buySide), symbol, buySide, broken) && InShape(Ladder(!buySide), symbol, !buySide, broken)
      ensures Shaped(symbol, broken)
    {
    }

    lemma AllIs(buySide: bool)
      ensures forall o :: o in All() <==> o in Ladder(buySide) || o in Ladder(!buySide)
    {
    }

    lemma AllOfSymbol(symbol: string, broken: bool)
      requires Ok(symbol, broken)
      ensures OfSymbol(All(), symbol)
    {
    }

    /** What the index does not know rests nowhere. */
    lemma UnindexedIsNotLive(symbol: string, broken: bool, index: map<string, RestingOrder>, id: string)
      requires Tied(symbol, broken) && IndexKnows(index, All()) && id !in index
      ensures !Live(abs, id)
    {
      forall o | o in abs.buys ensures o.orderId != id {
        var k :| 0 <= k < |abs.buys| && abs.buys[k] == o;
        assert buys[k] in All();
      }
      forall o | o in abs.sells ensures o.orderId != id {
        var k :| 0 <= k < |abs.sells| && abs.sells[k] == o;
        assert sells[k] in All();
      }
    }

    lemma LaddersApart(symbol: string, broken: bool, buySide: bool)
      requires Tied(symbol, broken)
      ensures NoRepeats(Ladder(buySide)) && forall o :: o in Ladder(!buySide) ==> o !in Ladder(buySide)
    {
      SidesApart(Ladder(!buySide), Ladder(buySide), symbol, buySide, broken);
    }

    lemma LaddersMatch(symbol: string, broken: bool, buySide: bool)
      requires Tied(symbol, broken)
      ensures |abs.Ladder(SideOf(buySide))| == |Ladder(buySide)|
      ensures Ladder(buySide) != [] ==> abs.Ladder(SideOf(buySide))[0] == Ladder(buySide)[0].Value()
    {
    }

    /** One more insertion is on its way. */
    method Count(symbol: string, broken: bool)
      requires Ok(symbol, broken)
      modifies this`insertSeq, this`abs
      ensures Ok(symbol, broken) && abs == old(abs).(insertSeq := old(abs).insertSeq + 1) && insertSeq == abs.insertSeq
    {
      insertSeq := insertSeq + 1;
      abs := abs.(insertSeq := abs.insertSeq + 1);
    }

    /** Writes down what one ladder has become. */
    ghost method Retie(symbol: string, broken: bool, buySide: bool, values: seq<Order>)
      requires Shaped(symbol, broken) && abs.insertSeq == insertSeq
      requires ValuesOf(Ladder(buySide)) == values && ValuesOf(Ladder(!buySide)) == abs.Ladder(SideOf(!buySide))
      modifies this`abs
      ensures Tied(symbol, broken) && abs == old(abs).With(SideOf(buySide), values)
    {
      abs := abs.With(SideOf(buySide), values);
    }

    /** An upper-bound insert is what appending and stably sorting would give. */
    method InsertSorted(o: RestingOrder, buySide: bool, broken: bool) returns (ghost at: nat)
      requires LadderSorted(Ladder(buySide), buySide, broken)
      modifies this`buys, this`sells
      ensures Ladder(!buySide) == old(Ladder(!buySide))
      ensures at <= |old(Ladder(buySide))|
      ensures Ladder(buySide) == old(Ladder(buySide))[..at] + [o] + old(Ladder(buySide))[at..]
      ensures ValuesOf(Ladder(buySide)) == Insert(old(ValuesOf(Ladder(buySide))), o.Value(), Priority(SideOf(buySide), ModeOf(broken)))
      ensures ValuesOf(Ladder(buySide)) == StableSort(old(ValuesOf(Ladder(buySide))) + [o.Value()], Priority(SideOf(buySide), ModeOf(broken)))
    {
      var s := Ladder(buySide);
      var i := SearchAfter(s, o, buySide, broken);
      InsertedValues(s, o, i, buySide, broken);
      at := i;
      var s' := s[..i] + [o] + s[i..];
      if buySide { buys := s'; } else { sells := s'; }
    }

    /** Takes `ord` out of its ladder if that very object is still there. */
    method RemoveOrder(ord: RestingOrder, broken: bool) returns (removed: bool, ghost at: nat)
      requires LadderSorted(Ladder(ord.side == Buy), ord.side == Buy, broken)
      modifies this`buys, this`sells
      ensures removed <==> ord in old(Ladder(ord.side == Buy))
      ensures !removed ==> buys == old(buys) && sells == old(sells)
      ensures removed ==> (
        && Ladder(ord.side != Buy) == old(Ladder(ord.side != Buy))
        && at < |old(Ladder(ord.side == Buy))| && old(Ladder(ord.side == Buy))[at] == ord
        && Ladder(ord.side == Buy) == AllBut(old(Ladder(ord.side == Buy)), at))
    {
      var buySide := ord.side == Buy;
      var s := Ladder(buySide);
      var i := SearchAt(s, ord, buySide, broken);
      at := i;
      if ord in s { FoundWhereItIs(s, ord, i, buySide, broken); }
      if i >= |s| || s[i] != ord { return false, at; }
      var s' := s[..i] + s[i + 1..];
      if buySide { buys := s'; } else { sells := s'; }
      return true, at;
    }
  }

  function AllBut(s: seq<RestingOrder>, i: nat): seq<RestingOrder>
    requires i < |s|
  {
    s[..i] + s[i + 1..]
  }

  /** The search cannot miss an order that is there: its sort key never changes while it rests. */
  lemma FoundWhereItIs(s: seq<RestingOrder>, ord: RestingOrder, i: nat, buySide: bool, broken: bool)
    requires LadderSorted(s, buySide, broken) && ord in s && i <= |s|
    requires forall k :: 0 <= k < i ==> OrderBefore(s[k], ord, buySide, broken)
    requires forall k :: i <= k < |s| ==> !OrderBefore(s[k], ord, buySide, broken)
    ensures i < |s| && s[i] == ord
  {
    var k :| 0 <= k < |s| && s[k] == ord;
    assert !OrderBefore(ord, ord, buySide, broken);
    assert i <= k;
    assert OrderBefore(s[i], s[k], buySide, broken) || i == k;
  }

  // ----- the engine -----

  function IdsOf(s: seq<RestingOrder>): set<string> {
    set o | o in s :: o.id
  }

  /** Every one of these orders is found in the index. */
  ghost predicate IndexKnows(index: map<string, RestingOrder>, all: seq<RestingOrder>) {
    forall o :: o in all ==> o.id in index && index[o.id] == o
  }

  /** The index knows exactly the resting orders, each under its own id. */
  ghost predicate IndexExact(index: map<string, RestingOrder>, alls: map<string, seq<RestingOrder>>) {
    && (forall x :: x in alls ==> IndexKnows(index, alls[x]) && OfSymbol(alls[x], x))
    && (forall id :: id in index ==> index[id].id == id && index[id].symbol in alls && index[id] in alls[index[id].symbol])
  }

  ghost predicate Disjoint(a: seq<RestingOrder>, b: seq<RestingOrder>) {
    forall o :: o in a ==> o !in b
  }

  ghost predicate OfSymbol(all: seq<RestingOrder>, symbol: string) {
    forall o :: o in all ==> o.symbol == symbol
  }

  lemma OpenedExact(index: map<string, RestingOrder>, alls: map<string, seq<RestingOrder>>, x: string)
    requires IndexExact(index, alls) && x !in alls
    ensures IndexExact(index, alls[x := []])
  {
  }

  /** Keeping the index exact for one book keeps it exact for all. */
  lemma ExactStep(was: map<string, RestingOrder>, alls: map<string, seq<RestingOrder>>, now: map<string, RestingOrder>, x: string, after: seq<RestingOrder>)
    requires IndexExact(was, alls) && x in alls && IndexFollows(was, alls[x], now, after) && OfSymbol(after, x)
    ensures IndexExact(now, alls[x := after])
  {
    forall y | y in alls && y != x ensures IndexKnows(now, alls[y]) {
      forall o | o in alls[y] ensures o.id in now && now[o.id] == o {
        assert o.symbol == y && o !in alls[x];
      }
    }
  }

  /** One book went from `before` to `after`: the index forgot what left, learned what came and kept the rest. */
  ghost predicate IndexFollows(was: map<string, RestingOrder>, before: seq<RestingOrder>, now: map<string, RestingOrder>, after: seq<RestingOrder>) {
    && IndexKnows(now, after)
    && (forall id :: id in was && was[id] !in before ==> id in now && now[id] == was[id])
    && (forall id :: id in now ==> (now[id] in after && now[id].id == id) || (id in was && now[id] == was[id] && was[id] !in before))
  }

  lemma OutcomeIsAfterMatch(b: Book, o: NewOrder, mid: Book, b': Book, a': Order, fills: seq<Fill>)
    requires mid == b.(insertSeq := b.insertSeq + 1)
    requires MatchOutcome(mid, Admit(o, mid.insertSeq), o.orderType == Market, b', a', fills)
    ensures b' == AfterMatch(b, o) && a' == Matching(b, o).residual && fills == Matching(b, o).fills
  {
    hide BookSpec.Match;
  }

  lemma SortedWhenValid(b: Book, o: Order, mode: Mode)
    requires BookSpec.Valid(Rest(b, o, mode), mode)
    ensures StrictlySorted(Insert(b.Ladder(o.side), o, Priority(o.side, mode)), Priority(o.side, mode))
  {
    hide Insert;
  }

  lemma CancelKeepsValid(b: Book, id: string, mode: Mode)
    requires BookSpec.Valid(b, mode)
    ensures BookSpec.Valid(Cancel(b, id).0, mode)
  {
    CancelRemovesExactly(b, id, mode);
  }

  lemma RemovedInShape(s: seq<RestingOrder>, at: nat, symbol: string, buySide: bool, broken: bool)
    requires InShape(s, symbol, buySide, broken) && at < |s|
    ensures InShape(AllBut(s, at), symbol, buySide, broken)
    ensures ValuesOf(AllBut(s, at)) == Without(ValuesOf(s), at)
    ensures forall o :: o in AllBut(s, at) <==> o in s && o != s[at]
  {
    RemovedMembers(s, at);
    RemovedSorted(s, at, buySide, broken);
    RemovedValues(s, at);
    hide LadderSorted, NoRepeats, ValuesOf;
  }

  lemma RemovedMembers(s: seq<RestingOrder>, at: nat)
    requires NoRepeats(s) && at < |s|
    ensures NoRepeats(AllBut(s, at))
    ensures forall o :: o in AllBut(s, at) <==> o in s && o != s[at]
  {
    var r := AllBut(s, at);
    assert forall k :: 0 <= k < |r| ==> r[k] == s[if k < at then k else k + 1];
    forall o ensures o in r <==> o in s && o != s[at] {
      if o in r {
        var k :| 0 <= k < |r| && r[k] == o;
        assert s[if k < at then k else k + 1] == o;
      }
      if o in s && o != s[at] {
        var k :| 0 <= k < |s| && s[k] == o;
        assert r[if k < at then k else k - 1] == o;
      }
    }
  }

  lemma RemovedSorted(s: seq<RestingOrder>, at: nat, buySide: bool, broken: bool)
    requires LadderSorted(s, buySide, broken) && at < |s|
    ensures LadderSorted(AllBut(s, at), buySide, broken)
  {
    hide OrderBefore;
    var r := AllBut(s, at);
    assert forall k :: 0 <= k < |r| ==> r[k] == s[if k < at then k else k + 1];
  }

  lemma RemovedValues(s: seq<RestingOrder>, at: nat)
    requires at < |s|
    ensures ValuesOf(AllBut(s, at)) == Without(ValuesOf(s), at)
  {
  }

  lemma RemovedFromIndex(was: map<string, RestingOrder>, before: seq<RestingOrder>, id: string, after: seq<RestingOrder>)
    requires IndexKnows(was, before) && id in was && was[id] in before && was[id].id == id
    requires forall n :: n in was ==> was[n].id == n
    requires forall o :: o in after <==> o in before && o != was[id]
    ensures IndexFollows(was, before, was - {id}, after)
  {
  }

  lemma InsertedInIndex(was: map<string, RestingOrder>, before: seq<RestingOrder>, now: map<string, RestingOrder>,
                        after: seq<RestingOrder>, active: RestingOrder, after': seq<RestingOrder>)
    requires IndexFollows(was, before, now, after) && now.Keys <= was.Keys && active.id !in was
    requires forall o :: o in after' <==> o in after || o == active
    ensures IndexFollows(was, before, now[active.id := active], after')
  {
  }

  lemma ForgotFollows(was: map<string, RestingOrder>, now: map<string, RestingOrder>, own: seq<RestingOrder>, ladder: seq<RestingOrder>,
                      left: seq<RestingOrder>, gone: nat, before: seq<RestingOrder>, after: seq<RestingOrder>)
    requires Forgot(was, now, ladder, left, gone)
    requires NoRepeats(ladder) && forall o :: o in own ==> o !in ladder
    requires forall o :: o in before <==> o in own || o in ladder
    requires forall o :: o in after <==> o in own || o in left
    requires IndexKnows(was, before) && forall id :: id in was ==> was[id].id == id
    ensures IndexFollows(was, before, now, after) && now.Keys <= was.Keys
    ensures forall o :: o in after ==> o in before
  {
    GoneFromIndex(was, own, ladder, gone, before, after);
  }

  lemma GoneFromIndex(was: map<string, RestingOrder>, own: seq<RestingOrder>, ladder: seq<RestingOrder>, gone: nat,
                      before: seq<RestingOrder>, after: seq<RestingOrder>)
    requires gone <= |ladder| && NoRepeats(ladder) && forall o :: o in own ==> o !in ladder
    requires forall o :: o in before <==> o in own || o in ladder
    requires forall o :: o in after <==> o in own || o in ladder[gone..]
    requires IndexKnows(was, before) && forall id :: id in was ==> was[id].id == id
    ensures IndexFollows(was, before, was - IdsOf(ladder[..gone]), after)
  {
    var now := was - IdsOf(ladder[..gone]);
    assert ladder == ladder[..gone] + ladder[gone..];
    forall o | o in after ensures o.id !in IdsOf(ladder[..gone]) {
      assert forall g :: g in ladder[..gone] ==> g in before && g !in after;
    }
  }

  class Engine {
    var engineSeq: nat
    var books: map<string, SymbolBook>
    var index: map<string, RestingOrder>
    const broken: bool
    ghost var Repr: set<object>

    constructor (broken: bool)
      ensures engineSeq == 0 && books == map[] && index == map[] && Repr == {} && this.broken == broken && Valid()
    {
      engineSeq, books, index, Repr := 0, map[], map[], {};
      this.broken := broken;
    }

    ghost function Alls(): map<string, seq<RestingOrder>>
      reads this`books, books.Values
    {
      map x | x in books :: books[x].All()
    }

    ghost predicate Owned()
      reads this`books, this`Repr, books.Values
    {
      && (forall x :: x in books ==> books[x] in Repr && forall o :: o in books[x].All() ==> o in Repr)
      && (forall x, y :: x in books && y in books && x != y ==> books[x] != books[y])
    }

    ghost predicate Valid()
      reads this`books, this`index, this`Repr, books.Values, Repr - {this}

    {
      && Owned() && IndexExact(index, Alls())
      && (forall x :: x in books ==> books[x].Ok(x, broken))
    }

    /** The objects of different symbols are different objects. */
    ghost predicate Separate(symbol: string)
      requires symbol in books
      reads this`books, books.Values
    {
      forall x :: x in books && x != symbol ==> books[x] != books[symbol] && Disjoint(books[x].All(), books[symbol].All())
    }

    lemma SymbolsApart(symbol: string)
      requires symbol in books && Owned() && IndexExact(index, Alls())
      ensures Separate(symbol)
      ensures IndexKnows(index, books[symbol].All()) && forall id :: id in index ==> index[id].id == id
      ensures OfSymbol(books[symbol].All(), symbol)
    {
      forall x | x in books && x != symbol ensures Disjoint(books[x].All(), books[symbol].All()) {
        assert OfSymbol(Alls()[x], x) && OfSymbol(Alls()[symbol], symbol);
      }
      assert IndexKnows(index, Alls()[symbol]) && OfSymbol(Alls()[symbol], symbol);
    }

    ghost function AbsAt(symbol: string): Book
      reads this`books, books.Values
    {
      if symbol in books then books[symbol].abs else EMPTY_BOOK
    }

    /** Both parties of a fill lose its quantity, in place, and nobody else changes. */
    static method Subtract(active: RestingOrder, ladder: seq<RestingOrder>, ghost own: seq<RestingOrder>, qty: int)
      requires ladder != [] && NoRepeats(ladder) && active !in ladder && active !in own && ladder[0] !in own
      modifies active, ladder[0]
      ensures active.Value() == old(active.Value()).(qty := old(active.qty) - qty)
      ensures ValuesOf(ladder) == FrontReduced(old(ValuesOf(ladder)), qty)
      ensures ValuesOf(own) == old(ValuesOf(own))
    {
      assert forall k :: 1 <= k < |ladder| ==> ladder[k] != ladder[0] && ladder[k] in ladder;
      assert forall k :: 0 <= k < |own| ==> own[k] in own;
      active.qty := active.qty - qty;
      ladder[0].qty := ladder[0].qty - qty;
    }

    /** The front order and the incoming one give up `qty`. */
    static method Deduct(active: RestingOrder, book: SymbolBook, symbol: string, broken: bool, buys: bool, qty: int)
      requires book.Tied(symbol, broken) && active !in book.All() && book.Ladder(buys) != []
      modifies active, book`abs, book.Ladder(buys)[0]
      ensures book.Tied(symbol, broken)
      ensures active.Value() == old(active.Value()).(qty := old(active.qty) - qty)
      ensures book.abs == old(book.abs).With(SideOf(buys), FrontReduced(old(book.abs).Ladder(SideOf(buys)), qty))
    {
      ghost var b := book.abs;
      SidesApart(book.Ladder(!buys), book.Ladder(buys), symbol, buys, broken);
      assert ValuesOf(book.Ladder(!buys)) == b.Ladder(SideOf(!buys)) && ValuesOf(book.Ladder(buys)) == b.Ladder(SideOf(buys));
      assert active !in book.Ladder(buys) && active !in book.Ladder(!buys) && book.Ladder(buys)[0] !in book.Ladder(!buys);
      hide InShape, NoRepeats, OrderBefore, ValuesOf, SymbolBook.Shaped, SymbolBook.All, FrontReduced;
      Subtract(active, book.Ladder(buys), book.Ladder(!buys), qty);
      book.Retie(symbol, broken, buys, FrontReduced(b.Ladder(SideOf(buys)), qty));
    }

    /** Takes the front order off its ladder and out of the index. */
    method Pop(book: SymbolBook, symbol: string, buys: bool)
      requires book.Tied(symbol, broken) && book.Ladder(buys) != []
      modifies this`index, book`buys, book`sells, book`abs
      ensures book.Tied(symbol, broken)
      ensures book.Ladder(buys) == old(book.Ladder(buys))[1..] && book.Ladder(!buys) == old(book.Ladder(!buys))
      ensures book.abs == FrontGone(old(book.abs), SideOf(buys))
      ensures index == old(index) - {old(book.Ladder(buys))[0].id}
    {
      ghost var b := book.abs;
      RestInShape(book.Ladder(buys), 1, symbol, buys, broken);
      TailValues(book.Ladder(buys));
      hide InShape;
      index := index - {book.Ladder(buys)[0].id};
      if buys { book.buys := book.buys[1..]; } else { book.sells := book.sells[1..]; }
      book.Retie(symbol, broken, buys, FrontGone(b, SideOf(buys)).Ladder(SideOf(buys)));
    }

    /** One turn of the matching loop: a fill at the front order's price, which goes when it is spent. */
    method TradeFront(book: SymbolBook, symbol: string, active: RestingOrder, buys: bool) returns (delivery: Delivery, ghost gone: nat)
      requires book.Tied(symbol, broken) && active !in book.All() && book.Ladder(buys) != [] && active.side == SideOf(!buys)
      modifies this`engineSeq, this`index, book`buys, book`sells, book`abs, active, book.Ladder(buys)[0]
      ensures book.Tied(symbol, broken)
      ensures var t := TradeOnce(old(book.abs), old(active.Value()));
        book.abs == t.book && active.Value() == t.active && delivery == Delivery(engineSeq, t.fill)
      ensures engineSeq == old(engineSeq) + 1
      ensures gone <= 1 && book.Ladder(buys) == old(book.Ladder(buys))[gone..] && book.Ladder(!buys) == old(book.Ladder(!buys))
      ensures index == if gone == 1 then old(index) - {old(book.Ladder(buys))[0].id} else old(index)
      ensures gone == 0 ==> active.qty == 0
    {
      ghost var b := book.abs;
      TurnInSteps(b, active.Value());
      var resting := book.Ladder(buys)[0];
      assert resting.Value() == b.Ladder(SideOf(buys))[0];
      var qty := Min(active.qty, resting.qty);
      engineSeq := engineSeq + 1;
      delivery := Delivery(engineSeq, MakeFill(active.Value(), resting.Value(), qty));
      hide TradeOnce, MakeFill, SymbolBook.Shaped;
      Deduct(active, book, symbol, broken, buys, qty);
      assert resting.qty == book.abs.Ladder(SideOf(buys))[0].qty;
      gone := 0;
      if resting.qty == 0 {
        Pop(book, symbol, buys);
        gone := 1;
      }
    }

    /** Part-way through the match that began in `st`. */
    ghost predicate Midway(st: MatchStart, book: SymbolBook, symbol: string, active: RestingOrder, deliveries: seq<Delivery>, gone: nat)
      reads this, book, book.buys, book.sells, active
    {
      && book.Tied(symbol, broken) && book.Ladder(active.side == Buy) == st.own
      && active !in st.own && active !in st.ladder
      && OnTheWay(st.book, st.active, st.market, book.abs, active.Value(), deliveries)
      && Forgot(st.index, index, st.ladder, book.Ladder(active.side == Sell), gone)
      && NumberedFrom(deliveries, st.engineSeq) && engineSeq == st.engineSeq + |deliveries|
    }

    method TradeOn(ghost st: MatchStart, book: SymbolBook, symbol: string, active: RestingOrder, buys: bool, done: seq<Delivery>, ghost before: nat)
      returns (deliveries: seq<Delivery>, ghost gone: nat)
      requires Midway(st, book, symbol, active, done, before) && buys == (active.side == Sell)
      requires Tradable(book.abs, active.Value(), st.market) && book.Ladder(buys) != []
      modifies this`engineSeq, this`index, book`buys, book`sells, book`abs, active, book.Ladder(buys)[0]
      ensures Midway(st, book, symbol, active, deliveries, gone)
      ensures |book.Ladder(buys)| < old(|book.Ladder(buys)|) || (|book.Ladder(buys)| == old(|book.Ladder(buys)|) && active.qty == 0 < old(active.qty))
    {
      hide OnTheWay, Forgot, NumberedFrom, FillsIn, TradeOnce, SymbolBook.Tied, Crosses, AllPositive, OrderBefore, InShape, ValuesOf;
      StepMatch(st.book, st.active, st.market, book.abs, active.Value(), done, engineSeq + 1);
      StepNumbers(done, st.engineSeq, engineSeq + 1, TradeOnce(book.abs, active.Value()).fill);
      ForgotMembers(st.index, index, st.ladder, book.Ladder(buys), before);
      ghost var cur, known := book.Ladder(buys), index;
      var delivery, spent := TradeFront(book, symbol, active, buys);
      StepForgot(st.index, known, st.ladder, cur, before, spent);
      deliveries, gone := done + [delivery], before + spent;
    }

    /** Trades `active` against the opposite ladder until it is spent or stops crossing. */
    method Match(book: SymbolBook, symbol: string, active: RestingOrder, market: bool) returns (deliveries: seq<Delivery>, ghost gone: nat)
      requires book.Tied(symbol, broken) && active !in book.All()
      requires AllPositive(book.abs.Ladder(Opposite(active.side)))
      modifies this`engineSeq, this`index, book`buys, book`sells, book`abs, active, book.Ladder(active.side == Sell)
      ensures Midway(old(Start(book, active, market)), book, symbol, active, deliveries, gone)
      ensures MatchOutcome(old(book.abs), old(active.Value()), market, book.abs, active.Value(), FillsIn(deliveries))
    {
      hide OnTheWay, FillsIn, AllPositive, NumberedFrom, Forgot, MatchOutcome, SymbolBook.Tied, ValuesOf;
      var sell := active.side == Sell;
      ghost var st := Start(book, active, market);
      StartMatch(book.abs, active.Value(), market);
      NothingGone(index, book.Ladder(sell));
      NoNumbers(engineSeq);
      deliveries, gone := [], 0;
      assert Midway(st, book, symbol, active, [], 0);
      while active.qty > 0 && |book.Ladder(sell)| > 0
        invariant Midway(st, book, symbol, active, deliveries, gone)
        invariant forall o :: o in book.Ladder(sell) ==> o in st.ladder
        decreases |book.Ladder(sell)|, active.qty
      {
        var resting := book.Ladder(sell)[0];
        assert resting in book.Ladder(sell) && resting in st.ladder;
        book.LaddersMatch(symbol, broken, sell);
        if !market && (if sell then active.price > resting.price else active.price < resting.price) { break; }
        deliveries, gone := TradeOn(st, book, symbol, active, sell, deliveries, gone);
        ForgotMembers(st.index, index, st.ladder, book.Ladder(sell), gone);
      }
      book.LaddersMatch(symbol, broken, sell);
      EndMatch(st.book, st.active, market, book.abs, active.Value(), deliveries);
    }

    /** Matching forgets the orders it spends and no others. */
    method MatchIn(book: SymbolBook, symbol: string, active: RestingOrder, market: bool) returns (deliveries: seq<Delivery>)
      requires book.Ok(symbol, broken) && IndexKnows(index, book.All()) && active !in book.All()
      requires forall id :: id in index ==> index[id].id == id
      modifies this`engineSeq, this`index, book`buys, book`sells, book`abs, active, book.Ladder(active.side == Sell)
      ensures book.Tied(symbol, broken) && forall o :: o in book.All() ==> o in old(book.All())
      ensures IndexFollows(old(index), old(book.All()), index, book.All()) && index.Keys <= old(index.Keys)
      ensures MatchOutcome(old(book.abs), old(active.Value()), market, book.abs, active.Value(), FillsIn(deliveries))
      ensures NumberedFrom(deliveries, old(engineSeq)) && engineSeq == old(engineSeq) + |deliveries|
    {
      hide FillsIn, AllPositive, NumberedFrom, Forgot, MatchOutcome, SymbolBook.Tied, ValuesOf, BookSpec.Valid, IndexKnows, IndexFollows, OnTheWay;
      ghost var sell := active.side == Sell;
      ghost var ladder, own, was, all := book.Ladder(sell), book.Ladder(!sell), index, book.All();
      PositiveQtys(book.abs, Opposite(active.side), ModeOf(broken));
      book.LaddersApart(symbol, broken, sell);
      ghost var gone;
      assert book.Ladder(active.side == Sell) == ladder;
      deliveries, gone := Match(book, symbol, active, market);
      ForgotFollows(was, index, own, ladder, book.Ladder(sell), gone, all, book.All());
    }

    /** A new order object matches; what it could not trade stays with it. */
    method MatchNew(book: SymbolBook, symbol: string, o: NewOrder) returns (active: RestingOrder, deliveries: seq<Delivery>)
      requires book.Ok(symbol, broken) && IndexKnows(index, book.All())
      requires forall id :: id in index ==> index[id].id == id
      modifies this`engineSeq, this`index, book, book.buys, book.sells
      ensures fresh(active) && active.symbol == symbol && active.side == o.side && active.id == o.clientOrderId && active !in book.All()
      ensures book.Tied(symbol, broken) && forall x :: x in book.All() ==> x in old(book.All())
      ensures IndexFollows(old(index), old(book.All()), index, book.All()) && index.Keys <= old(index.Keys)
      ensures book.abs == AfterMatch(old(book.abs), o) && active.Value() == Matching(old(book.abs), o).residual
      ensures FillsIn(deliveries) == Matching(old(book.abs), o).fills
      ensures NumberedFrom(deliveries, old(engineSeq)) && engineSeq == old(engineSeq) + |deliveries|
    {
      hide FillsIn, NumberedFrom, MatchOutcome, SymbolBook.Ok, SymbolBook.Tied, IndexKnows, IndexFollows, AfterMatch, Matching;
      ghost var b := book.abs;
      book.Count(symbol, broken);
      active := new RestingOrder(Admit(o, book.insertSeq), symbol);
      ghost var mid := book.abs;
      deliveries := MatchIn(book, symbol, active, o.orderType == Market);
      OutcomeIsAfterMatch(b, o, mid, book.abs, active.Value(), FillsIn(deliveries));
    }

    /** What is left of an order takes its place in the ladder. */
    method InsertIn(book: SymbolBook, symbol: string, active: RestingOrder, buySide: bool)
      requires book.Tied(symbol, broken) && active !in book.All() && active.symbol == symbol && buySide == (active.side == Buy)
      requires StrictlySorted(Insert(book.abs.Ladder(active.side), active.Value(), Priority(active.side, ModeOf(broken))), Priority(active.side, ModeOf(broken)))
      modifies book`buys, book`sells, book`abs
      ensures book.Tied(symbol, broken) && book.abs == Rest(old(book.abs), active.Value(), ModeOf(broken))
      ensures book.Ladder(!buySide) == old(book.Ladder(!buySide))
      ensures forall o :: o in book.Ladder(buySide) <==> o in old(book.Ladder(buySide)) || o == active
    {
      hide Insert, StrictlySorted, NoRepeats, InShape, LadderSorted, ValuesOf, SymbolBook.Tied, SymbolBook.Shaped;
      ghost var s, b, rank := book.Ladder(buySide), book.abs, Priority(active.side, ModeOf(broken));
      book.LaddersShaped(symbol, broken, buySide);
      book.LaddersShaped(symbol, broken, !buySide);
      ghost var at := book.InsertSorted(active, buySide, broken);
      InsertedInShape(s, active, at, book.Ladder(buySide), symbol, buySide, broken);
      book.BothShaped(symbol, broken, buySide);
      book.Retie(symbol, broken, buySide, Insert(b.Ladder(active.side), active.Value(), rank));
    }

    /** The residual rests, and the index learns of it. */
    method RestIn(book: SymbolBook, symbol: string, active: RestingOrder)
      requires book.Tied(symbol, broken) && active !in book.All() && active.symbol == symbol
      requires BookSpec.Valid(Rest(book.abs, active.Value(), ModeOf(broken)), ModeOf(broken))
      modifies this`index, book`buys, book`sells, book`abs
      ensures book.Ok(symbol, broken) && book.abs == Rest(old(book.abs), active.Value(), ModeOf(broken))
      ensures forall o :: o in book.All() <==> o in old(book.All()) || o == active
      ensures index == old(index)[active.id := active]
    {
      SortedWhenValid(book.abs, active.Value(), ModeOf(broken));
      hide Insert, StrictlySorted, BookSpec.Valid, SymbolBook.Tied, Rest;
      book.AllIs(active.side == Buy);
      InsertIn(book, symbol, active, active.side == Buy);
      book.AllIs(active.side == Buy);
      index := index[active.id := active];
    }

    /** An admitted order matches, and what is left of it rests if there is room. */
    method PlaceIn(book: SymbolBook, symbol: string, o: NewOrder) returns (ack: Ack, deliveries: seq<Delivery>)
      requires book.Ok(symbol, broken) && IndexKnows(index, book.All())
      requires forall id :: id in index ==> index[id].id == id
      requires Rejection(o) == None && FieldsFit(o) && o.clientOrderId !in index
      modifies this`engineSeq, this`index, book, book.buys, book.sells
      ensures book.Ok(symbol, broken)
      ensures IndexFollows(old(index), old(book.All()), index, book.All())
      ensures forall x :: x in book.All() ==> x in old(book.All()) || fresh(x)
      ensures var r := Submitted(old(book.abs), Incoming(o, true), ModeOf(broken), true);
        && book.abs == r.book && FillsIn(deliveries) == r.fills
        && ack == Ack(o.clientOrderId, r.status, r.reason, old(engineSeq) + 1)
      ensures NumberedFrom(deliveries, ack.engineSeq) && engineSeq == ack.engineSeq + |deliveries|
    {
      hide Matching, AfterMatch, Rest, Submitted, BookSpec.Valid, IndexFollows, IndexKnows, Live, NumberedFrom, SymbolBook.Tied, Rejection, ValuesOf;
      ghost var b, was, all := book.abs, index, book.All();
      book.UnindexedIsNotLive(symbol, broken, index, o.clientOrderId);
      SubmittedInSteps(b, o, ModeOf(broken));
      MatchingKeepsOwnSide(b, o);
      SubmittedKeepsValid(b, Incoming(o, true), ModeOf(broken), true);
      engineSeq := engineSeq + 1;
      ack := Ack(o.clientOrderId, Accepted, NoReason, engineSeq);
      var active;
      active, deliveries := MatchNew(book, symbol, o);
      if active.qty > 0 && o.orderType != Market {
        book.LaddersMatch(symbol, broken, o.side == Buy);
        if |book.Ladder(o.side == Buy)| < MAX_RESTING_PER_SYMBOL {
          ghost var now, before := index, book.All();
          RestIn(book, symbol, active);
          InsertedInIndex(was, all, now, before, active, book.All());
        } else if deliveries == [] {
          ack := ack.(status := Rejected, reason := BookFull);
        } else {
          ack := ack.(reason := ResidualDropped);
        }
      }
    }

    /** A fresh book for a symbol seen for the first time. */
    method OpenBook(symbol: string, book: SymbolBook)
      requires Valid() && symbol !in books && book !in Repr
      requires book.Ok(symbol, broken) && book.All() == [] && book.abs == EMPTY_BOOK
      modifies this`books, this`Repr
      ensures Valid() && books == old(books)[symbol := book] && Repr == old(Repr) + {book}
    {
      hide IndexExact, SymbolBook.Ok;
      ghost var alls := Alls();
      books := books[symbol := book];
      Repr := Repr + {book};
      OthersStay(symbol);
      OpenedExact(index, alls, symbol);
      Reassembled(index, alls[symbol := []], symbol);
    }

    /** The book of a symbol, opened on first use. */
    method BookFor(symbol: string) returns (book: SymbolBook)
      requires Valid()
      modifies this`books, this`Repr
      ensures Valid() && symbol in books && books[symbol] == book && fresh(Repr - old(Repr))
      ensures forall x :: AbsAt(x) == old(AbsAt(x))
    {
      hide SymbolBook.Ok, IndexExact;
      if symbol !in books {
        book := new SymbolBook();
        OpenBook(symbol, book);
      }
      book := books[symbol];
    }

    /** The answer to a new order, and the fills it makes. */
    method ProcessNew(input: Incoming) returns (ack: Ack, deliveries: seq<Delivery>)
      requires Valid() && input.order.clientOrderId !in index
      modifies this, Repr
      ensures Valid() && fresh(Repr - old(Repr))
      ensures var symbol := SymbolOf(input.order.symbol);
        var r := Submitted(old(AbsAt(symbol)), input, ModeOf(broken), true);
        && AbsAt(symbol) == r.book && FillsIn(deliveries) == r.fills
        && ack == Ack(input.order.clientOrderId, r.status, r.reason, old(engineSeq) + 1)
      ensures NumberedFrom(deliveries, ack.engineSeq) && engineSeq == ack.engineSeq + |deliveries|
      ensures forall x :: x != SymbolOf(input.order.symbol) ==> AbsAt(x) == old(AbsAt(x))
    {
      hide Valid, Owned, IndexExact, SymbolBook.Ok, NumberedFrom, FillsIn, Matching, AfterMatch, Place, HitsCap, Rejection;
      var o := input.order;
      if Malformed(input) || !FieldsFit(o) {
        engineSeq := engineSeq + 1;
        NoNumbers(engineSeq);
        ack, deliveries := Ack(o.clientOrderId, Rejected, if Malformed(input) then InvalidOrder else FieldTooLong, engineSeq), [];
        assert FillsIn(deliveries) == [];
        return;
      }
      var symbol := SymbolOf(o.symbol);
      var book := BookFor(symbol);
      ack, deliveries := PlaceAt(symbol, o);
    }

    /** Books none of whose objects was touched are as good as they were. */
    twostate lemma OthersStay(symbol: string)
      requires forall x :: x in books && x != symbol ==>
        && x in old(books) && books[x] == old(books)[x] && unchanged(books[x])
        && (forall o :: o in books[x].All() ==> unchanged(o))
      requires forall x :: x in books && x != symbol ==> old(books[x].Ok(x, broken))
      ensures forall x :: x in books && x != symbol ==> books[x].Ok(x, broken)
    {
      hide InShape, BookSpec.Valid;
      forall x | x in books && x != symbol ensures books[x].Ok(x, broken) {
        var b := books[x];
        assert old(b.Ok(x, broken));
        forall i | 0 <= i < |b.buys| ensures b.buys[i].Value() == old(b.buys[i].Value()) { assert b.buys[i] in b.All(); }
        forall i | 0 <= i < |b.sells| ensures b.sells[i].Value() == old(b.sells[i].Value()) { assert b.sells[i] in b.All(); }
        assert ValuesOf(b.buys) == old(ValuesOf(b.buys)) && ValuesOf(b.sells) == old(ValuesOf(b.sells));
      }
    }

    /** One book changed within its own objects and the index followed it. */
    lemma Reassembled(was: map<string, RestingOrder>, alls: map<string, seq<RestingOrder>>, symbol: string)
      requires Owned() && symbol in books && forall x :: x in books ==> books[x].Ok(x, broken)
      requires IndexExact(was, alls) && alls.Keys == books.Keys && forall x :: x in books && x != symbol ==> books[x].All() == alls[x]
      requires IndexFollows(was, alls[symbol], index, books[symbol].All())
      ensures Valid()
    {
      hide IndexExact, SymbolBook.Ok, IndexFollows, OfSymbol;
      books[symbol].AllOfSymbol(symbol, broken);
      ExactStep(was, alls, index, symbol, books[symbol].All());
      assert Alls() == alls[symbol := books[symbol].All()];
    }

    method PlaceAt(symbol: string, o: NewOrder) returns (ack: Ack, deliveries: seq<Delivery>)
      requires Valid() && symbol in books && Rejection(o) == None && FieldsFit(o) && o.clientOrderId !in index
      modifies this, Repr
      ensures Valid() && fresh(Repr - old(Repr)) && books == old(books)
      ensures var r := Submitted(old(AbsAt(symbol)), Incoming(o, true), ModeOf(broken), true);
        && AbsAt(symbol) == r.book && FillsIn(deliveries) == r.fills
        && ack == Ack(o.clientOrderId, r.status, r.reason, old(engineSeq) + 1)
      ensures NumberedFrom(deliveries, ack.engineSeq) && engineSeq == ack.engineSeq + |deliveries|
      ensures forall x :: x != symbol ==> AbsAt(x) == old(AbsAt(x))
    {
      hide SymbolBook.Ok, IndexExact, IndexFollows, IndexKnows, OfSymbol, Submitted, NumberedFrom, FillsIn, Rejection, FieldsFit, ModeOf;
      var book := books[symbol];
      SymbolsApart(symbol);
      ghost var was, alls := index, Alls();
      ack, deliveries := PlaceIn(book, symbol, o);
      Repr := Repr + set x | x in book.All() :: x;
      OthersStay(symbol);
      Reassembled(was, alls, symbol);
    }

    /** Takes an order out of its book, if it is still there. */
    method RemoveIn(book: SymbolBook, symbol: string, ord: RestingOrder) returns (removed: bool)
      requires book.Ok(symbol, broken)
      modifies book`buys, book`sells, book`abs
      ensures book.Ok(symbol, broken)
      ensures removed <==> ord in old(book.Ladder(ord.side == Buy))
      ensures removed ==> Cancel(old(book.abs), ord.id) == (book.abs, true)
      ensures !removed ==> book.abs == old(book.abs)
      ensures forall o :: o in book.All() <==> o in old(book.All()) && !(removed && o == ord)
    {
      hide NoRepeats, InShape, LadderSorted, ValuesOf, SymbolBook.Tied, SymbolBook.Shaped, BookSpec.Valid, Cancel, Without, OrderBefore;
      var buySide := ord.side == Buy;
      book.LaddersShaped(symbol, broken, buySide);
      book.LaddersShaped(symbol, broken, !buySide);
      book.LaddersApart(symbol, broken, buySide);
      book.AllIs(buySide);
      ghost var at;
      ghost var s := book.Ladder(buySide);
      removed, at := book.RemoveOrder(ord, broken);
      if removed { TakenOut(book, symbol, ord, s, at); }
      book.AllIs(buySide);
    }

    /** Writes down that the order at `at` has left. */
    ghost method TakenOut(book: SymbolBook, symbol: string, ord: RestingOrder, s: seq<RestingOrder>, at: nat)
      requires at < |s| && s[at] == ord && book.Ladder(ord.side == Buy) == AllBut(s, at)
      requires InShape(s, symbol, ord.side == Buy, broken) && InShape(book.Ladder(ord.side == Sell), symbol, ord.side == Sell, broken)
      requires BookSpec.Valid(book.abs, ModeOf(broken)) && book.abs.insertSeq == book.insertSeq
      requires ValuesOf(s) == book.abs.Ladder(ord.side) && ValuesOf(book.Ladder(ord.side == Sell)) == book.abs.Ladder(Opposite(ord.side))
      modifies book`abs
      ensures book.Ok(symbol, broken) && Cancel(old(book.abs), ord.id) == (book.abs, true)
      ensures forall o :: o in book.Ladder(ord.side == Buy) <==> o in s && o != ord
    {
      hide NoRepeats, InShape, LadderSorted, ValuesOf, SymbolBook.Shaped, BookSpec.Valid, Cancel, Without, OrderBefore;
      ghost var b, buySide := book.abs, ord.side == Buy;
      assert b.Ladder(ord.side)[at] == ord.Value();
      CancelKeepsValid(b, ord.id, ModeOf(broken));
      CancelAt(b, ord.side, at, ModeOf(broken));
      RemovedInShape(s, at, symbol, buySide, broken);
      book.BothShaped(symbol, broken, buySide);
      book.Retie(symbol, broken, buySide, Without(b.Ladder(ord.side), at));
    }

    /** Takes an indexed order out of its book and out of the index. */
    method CancelAtHome(orig: string, ord: RestingOrder, symbol: string) returns (removed: bool)
      requires Valid() && orig in index && index[orig] == ord && ord.symbol == symbol && symbol in books
      modifies this`index, books[symbol]
      ensures Valid() && removed
      ensures Cancel(old(AbsAt(symbol)), orig) == (AbsAt(symbol), true)
      ensures forall x :: x != symbol ==> AbsAt(x) == old(AbsAt(x))
    {
      hide SymbolBook.Ok, IndexExact, IndexFollows, IndexKnows, OfSymbol, Cancel;
      var book := books[symbol];
      SymbolsApart(symbol);
      IndexedIsHome(orig, symbol);
      ghost var was, alls := index, Alls();
      removed := RemoveIn(book, symbol, ord);
      if removed { index := index - {orig}; }
      RemovedFromIndex(was, alls[symbol], orig, book.All());
      OthersStay(symbol);
      Reassembled(was, alls, symbol);
    }

    lemma IndexedIsHome(orig: string, symbol: string)
      requires Valid() && orig in index && index[orig].symbol == symbol && symbol in books
      ensures index[orig].id == orig && index[orig] in books[symbol].All()
      ensures index[orig] in books[symbol].Ladder(index[orig].side == Buy)
    {
      assert Alls()[symbol] == books[symbol].All();
    }

    /** The answer to a cancel. */
    method ProcessCancel(clientOrderId: string, orig: string) returns (ack: Ack)
      requires Valid()
      modifies this, Repr
      ensures Valid() && fresh(Repr - old(Repr)) && engineSeq == old(engineSeq) + 1
      ensures ack == Ack(clientOrderId, if orig in old(index) then Canceled else NotFound, NoReason, engineSeq)
      ensures orig in old(index) ==> var sym := old(index)[orig].symbol;
        Cancel(old(AbsAt(sym)), orig) == (AbsAt(sym), true) && forall x :: x != sym ==> AbsAt(x) == old(AbsAt(x))
      ensures orig !in old(index) ==> forall x :: AbsAt(x) == old(AbsAt(x)) && !Live(AbsAt(x), orig)
    {
      hide SymbolBook.Ok, IndexExact, Cancel, Live;
      if orig !in index {
        engineSeq := engineSeq + 1;
        forall x ensures !Live(AbsAt(x), orig) { UnknownIsNotLive(x, orig); }
        return Ack(clientOrderId, NotFound, NoReason, engineSeq);
      }
      var ord := index[orig];
      var book := BookFor(ord.symbol);
      engineSeq := engineSeq + 1;
      ack := Ack(clientOrderId, NotFound, NoReason, engineSeq);
      var removed := CancelAtHome(orig, ord, ord.symbol);
      if removed { ack := ack.(status := Canceled); }
    }

    /** The index misses nothing that rests. */
    lemma UnknownIsNotLive(x: string, id: string)
      requires Valid() && id !in index
      ensures !Live(AbsAt(x), id)
    {
      if x in books {
        SymbolsApart(x);
        books[x].UnindexedIsNotLive(x, broken, index, id);
      }
    }

    ghost function Start(book: SymbolBook, active: RestingOrder, market: bool): MatchStart
      reads this, book, active
    {
      MatchStart(book.abs, active.Value(), market, index, engineSeq, book.Ladder(active.side == Sell), book.Ladder(active.side == Buy))
    }
  }

  /** Where a match began. */
  datatype MatchStart = MatchStart(book: Book, active: Order, market: bool, index: map<string, RestingOrder>, engineSeq: nat,
                                   ladder: seq<RestingOrder>, own: seq<RestingOrder>)

  /** A ladder whose front order is reduced by `qty` and still in place. */
  ghost function FrontReduced(ladder: seq<Order>, qty: int): seq<Order>
    requires ladder != []
  {
    [ladder[0].(qty := ladder[0].qty - qty)] + ladder[1..]
  }

  ghost function FrontGone(b: Book, side: Side): Book
    requires b.Ladder(side) != []
  {
    b.With(side, b.Ladder(side)[1..])
  }

  /** Reducing the front order and taking it away once it is spent is one turn of the match. */
  lemma TurnInSteps(b: Book, active: Order)
    requires b.Ladder(Opposite(active.side)) != []
    ensures var side := Opposite(active.side);
      var qty := Min(active.qty, b.Ladder(side)[0].qty);
      var less, t := b.With(side, FrontReduced(b.Ladder(side), qty)), TradeOnce(b, active);
      && t.book == (if less.Ladder(side)[0].qty == 0 then FrontGone(less, side) else less)
      && t.active == active.(qty := active.qty - qty) && t.fill == MakeFill(active, b.Ladder(side)[0], qty)
  {
  }

  lemma SidesApart(own: seq<RestingOrder>, ladder: seq<RestingOrder>, symbol: string, buySide: bool, broken: bool)
    requires InShape(own, symbol, !buySide, broken) && InShape(ladder, symbol, buySide, broken)
    ensures NoRepeats(ladder) && (forall o :: o in own ==> o !in ladder) && (forall o :: o in ladder ==> o !in own)
  {
  }

  lemma PositiveQtys(b: Book, side: Side, mode: Mode)
    requires BookSpec.Valid(b, mode)
    ensures AllPositive(b.Ladder(side))
  {
    assert forall i :: 0 <= i < |b.Ladder(side)| ==> b.Ladder(side)[i] in b.Ladder(side);
  }

  lemma InsertedOnce(s: seq<RestingOrder>, o: RestingOrder, i: nat)
    requires i <= |s| && NoRepeats(s) && o !in s
    ensures NoRepeats(s[..i] + [o] + s[i..])
    ensures forall x :: x in s[..i] + [o] + s[i..] <==> x in s || x == o
  {
    assert s == s[..i] + s[i..];
  }

  lemma InsertedInShape(s: seq<RestingOrder>, o: RestingOrder, i: nat, s': seq<RestingOrder>, symbol: string, buySide: bool, broken: bool)
    requires InShape(s, symbol, buySide, broken) && i <= |s| && s' == s[..i] + [o] + s[i..] && o !in s
    requires o.side == SideOf(buySide) && o.symbol == symbol
    requires StrictlySorted(ValuesOf(s'), Priority(SideOf(buySide), ModeOf(broken)))
    ensures InShape(s', symbol, buySide, broken)
    ensures forall x :: x in s' <==> x in s || x == o
  {
    InsertedOnce(s, o, i);
    LadderSortedIs(s', buySide, broken);
  }

  /** Book and incoming order are what the specification's match makes of them. */
  ghost predicate MatchOutcome(b: Book, active: Order, market: bool, b': Book, active': Order, fills: seq<Fill>) {
    var side := Opposite(active.side);
    var m := BookSpec.Match(active, b.Ladder(side), market);
    b' == b.With(side, m.ladder) && active' == m.residual && fills == m.fills
  }

  /** What is left to match, once done, gives the match that was begun. */
  ghost predicate OnTheWay(b: Book, a: Order, market: bool, b': Book, a': Order, deliveries: seq<Delivery>) {
    var side := Opposite(a.side);
    && After(FillsIn(deliveries), BookSpec.Match(a', b'.Ladder(side), market)) == BookSpec.Match(a, b.Ladder(side), market)
    && b' == b.With(side, b'.Ladder(side)) && AllPositive(b'.Ladder(side)) && a'.side == a.side
  }

  lemma StartMatch(b: Book, a: Order, market: bool)
    requires AllPositive(b.Ladder(Opposite(a.side)))
    ensures OnTheWay(b, a, market, b, a, [])
  {
    hide BookSpec.Match;
    var m := BookSpec.Match(a, b.Ladder(Opposite(a.side)), market);
    assert FillsIn([]) + m.fills == m.fills;
  }

  lemma StepMatch(b: Book, a: Order, market: bool, b': Book, a': Order, deliveries: seq<Delivery>, n: nat)
    requires OnTheWay(b, a, market, b', a', deliveries)
    requires var ladder := b'.Ladder(Opposite(a'.side)); a'.qty > 0 && ladder != [] && Crosses(a', ladder[0], market)
    ensures var t := TradeOnce(b', a'); OnTheWay(b, a, market, t.book, t.active, deliveries + [Delivery(n, t.fill)])
  {
    hide BookSpec.Match;
    var t := TradeOnce(b', a');
    MatchStep(FillsIn(deliveries), a', b'.Ladder(Opposite(a.side)), market);
    assert FillsIn(deliveries + [Delivery(n, t.fill)]) == FillsIn(deliveries) + [t.fill];
  }

  lemma EndMatch(b: Book, a: Order, market: bool, b': Book, a': Order, deliveries: seq<Delivery>)
    requires OnTheWay(b, a, market, b', a', deliveries)
    requires var ladder := b'.Ladder(Opposite(a.side)); a'.qty <= 0 || ladder == [] || !Crosses(a', ladder[0], market)
    ensures MatchOutcome(b, a, market, b', a', FillsIn(deliveries))
  {
    MatchStops(FillsIn(deliveries), a', b'.Ladder(Opposite(a.side)), market);
  }

  ghost predicate AllPositive(ladder: seq<Order>) {
    forall i :: 0 <= i < |ladder| ==> ladder[i].qty > 0
  }

  /** The index has lost the first `gone` orders of the ladder, and so has the ladder. */
  ghost predicate Forgot(was: map<string, RestingOrder>, now: map<string, RestingOrder>,
                         ladder: seq<RestingOrder>, left: seq<RestingOrder>, gone: nat) {
    gone <= |ladder| && left == ladder[gone..] && now == was - IdsOf(ladder[..gone])
  }

  lemma NothingGone(index: map<string, RestingOrder>, ladder: seq<RestingOrder>)
    ensures Forgot(index, index, ladder, ladder, 0)
  {
  }

  lemma ForgotMembers(was: map<string, RestingOrder>, now: map<string, RestingOrder>, ladder: seq<RestingOrder>, left: seq<RestingOrder>, gone: nat)
    requires Forgot(was, now, ladder, left, gone)
    ensures forall o :: o in left ==> o in ladder
  {
  }

  lemma StepForgot(was: map<string, RestingOrder>, now: map<string, RestingOrder>, ladder: seq<RestingOrder>, left: seq<RestingOrder>, gone: nat, spent: nat)
    requires Forgot(was, now, ladder, left, gone) && left != [] && spent <= 1
    ensures Forgot(was, if spent == 1 then now - {left[0].id} else now, ladder, left[spent..], gone + spent)
  {
    if spent == 1 {
      assert ladder[..gone + 1] == ladder[..gone] + [ladder[gone]];
      assert IdsOf(ladder[..gone + 1]) == IdsOf(ladder[..gone]) + {ladder[gone].id};
    }
  }

  lemma TailValues(ladder: seq<RestingOrder>)
    requires ladder != []
    ensures ValuesOf(ladder[1..]) == ValuesOf(ladder)[1..]
  {
  }
}
