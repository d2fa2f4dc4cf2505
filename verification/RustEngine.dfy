/**
 The engine that keeps its orders unsorted and sorts a side only when it needs
 the front of it: it makes the reference book's fills, but takes every order for
 a limit order.
 */
module RustEngine {
  import opened Types
  import opened Sequences
  import opened BookSpec
  import opened BookSafety
  import opened EngineSpec

  datatype Bags = Bags(buys: seq<Order>, sells: seq<Order>) {
    function Bag(side: Side): seq<Order> {
      if side.Buy? then buys else sells
    }

    function With(side: Side, bag: seq<Order>): Bags {
      if side.Buy? then this.(buys := bag) else this.(sells := bag)
    }
  }

  const NO_ORDERS := Bags([], [])

  // ----- a bag and the ladder it stands for -----

  /** The same orders, whatever number each got on insertion. */
  ghost predicate Alike(s: seq<Order>, ladder: seq<Order>) {
    |s| == |ladder| && forall i :: 0 <= i < |s| ==> s[i].(insertSeq := 0) == ladder[i].(insertSeq := 0)
  }

  ghost predicate Numbered(bag: seq<Order>, bound: nat) {
    && (forall i :: 0 <= i < |bag| ==> bag[i].insertSeq <= bound)
    && (forall i, j :: 0 <= i < j < |bag| ==> bag[i].insertSeq != bag[j].insertSeq)
  }

  function Sort(bag: seq<Order>, side: Side): seq<Order> {
    StableSort(bag, Priority(side, Normal))
  }

  /** Sorted, the bag reads like the ladder. */
  ghost predicate Mirrors(bag: seq<Order>, ladder: seq<Order>, side: Side, bound: nat) {
    Numbered(bag, bound) && Alike(Sort(bag, side), ladder)
  }

  lemma SortedStrictly(bag: seq<Order>, side: Side, bound: nat)
    requires Numbered(bag, bound)
    ensures StrictlySorted(Sort(bag, side), Priority(side, Normal))
    ensures forall o :: o in Sort(bag, side) <==> o in bag
    ensures Numbered(Sort(bag, side), bound)
  {
    var rank, s := Priority(side, Normal), Sort(bag, side);
    forall i, j | 0 <= i < j < |bag| ensures rank(bag[i]) != rank(bag[j]) {
      assert bag[i].insertSeq != bag[j].insertSeq;
    }
    DistinctRanksSortStrictly(bag, rank);
    StableSortMultiset(bag, rank);
    SameMultisetSameLength(s, bag);
    forall i | 0 <= i < |s| ensures s[i].insertSeq <= bound { assert s[i] in bag; }
    DistinctNumbers(bag, s, side);
  }

  /** A strictly sorted rearrangement cannot repeat a number. */
  lemma DistinctNumbers(bag: seq<Order>, s: seq<Order>, side: Side)
    requires StrictlySorted(s, Priority(side, Normal)) && forall o :: o in s ==> o in bag
    requires forall i, j :: 0 <= i < j < |bag| ==> bag[i].insertSeq != bag[j].insertSeq
    ensures forall i, j :: 0 <= i < j < |s| ==> s[i].insertSeq != s[j].insertSeq
  {
    var rank := Priority(side, Normal);
    forall i, j | 0 <= i < j < |s| ensures s[i].insertSeq != s[j].insertSeq {
      assert Less(rank(s[i]), rank(s[j])) && s[i] in bag && s[j] in bag;
      var a :| 0 <= a < |bag| && bag[a] == s[i];
      var b :| 0 <= b < |bag| && bag[b] == s[j];
      assert a != b;
    }
  }

  /** The front order has gone: the rest of the sorted bag mirrors the rest of the ladder. */
  lemma FrontGone(bag: seq<Order>, ladder: seq<Order>, side: Side, bound: nat)
    requires Mirrors(bag, ladder, side, bound) && ladder != []
    ensures Mirrors(Sort(bag, side)[1..], ladder[1..], side, bound)
  {
    var s, rank := Sort(bag, side), Priority(side, Normal);
    SortedStrictly(bag, side, bound);
    StrictIsSorted(s, rank);
    StableSortOfSorted(s[1..], rank);
  }

  lemma SortedMirrors(bag: seq<Order>, ladder: seq<Order>, side: Side, bound: nat)
    requires Mirrors(bag, ladder, side, bound)
    ensures Mirrors(Sort(bag, side), ladder, side, bound)
  {
    SortedStrictly(bag, side, bound);
    StrictIsSorted(Sort(bag, side), Priority(side, Normal));
    StableSortOfSorted(Sort(bag, side), Priority(side, Normal));
  }

  /** The front order, reduced and pushed to the back, sorts to the front again. */
  lemma FrontReduced(bag: seq<Order>, ladder: seq<Order>, side: Side, bound: nat, qty: int)
    requires Mirrors(bag, ladder, side, bound) && ladder != []
    ensures var s := Sort(bag, side);
      Mirrors(s[1..] + [s[0].(qty := qty)], [ladder[0].(qty := qty)] + ladder[1..], side, bound)
  {
    var s := Sort(bag, side);
    SortedStrictly(bag, side, bound);
    hide StableSort, Insert, Sort;
    PushedToFront(s, side, qty);
    RotatedNumbers(s, bound, qty);
  }

  lemma PushedToFront(s: seq<Order>, side: Side, qty: int)
    requires s != [] && StrictlySorted(s, Priority(side, Normal))
    ensures Sort(s[1..] + [s[0].(qty := qty)], side) == [s[0].(qty := qty)] + s[1..]
  {
    hide StableSort, Insert;
    var front, rank := s[0].(qty := qty), Priority(side, Normal);
    StrictIsSorted(s, rank);
    AppendThenSort(s[1..], front, rank);
    assert |s| > 1 ==> Less(rank(s[0]), rank(s[1]));
    InsertAt(s[1..], front, rank, 0);
    assert s[1..][..0] + [front] + s[1..][0..] == [front] + s[1..];
  }

  lemma RotatedNumbers(s: seq<Order>, bound: nat, qty: int)
    requires s != [] && Numbered(s, bound)
    ensures Numbered(s[1..] + [s[0].(qty := qty)], bound)
  {
    var r := s[1..] + [s[0].(qty := qty)];
    assert forall i :: 0 <= i < |r| ==> r[i].insertSeq == s[if i < |s| - 1 then i + 1 else 0].insertSeq;
  }

  /** The newest order goes behind every order of its price and time, in a bag as in a ladder. */
  lemma AlikeCons(o: Order, o': Order, s: seq<Order>, ladder: seq<Order>)
    requires Alike(s, ladder) && o.(insertSeq := 0) == o'.(insertSeq := 0)
    ensures Alike([o] + s, [o'] + ladder)
  {
  }

  lemma AlikeTail(s: seq<Order>, ladder: seq<Order>)
    requires Alike(s, ladder) && s != []
    ensures Alike(s[1..], ladder[1..]) && s[0].(insertSeq := 0) == ladder[0].(insertSeq := 0)
  {
  }

  /** The newest order goes by price and time alone, whatever the numbers. */
  lemma NewestAlike(top: Order, top': Order, o: Order, o': Order, side: Side)
    requires top.(insertSeq := 0) == top'.(insertSeq := 0) && o.(insertSeq := 0) == o'.(insertSeq := 0)
    requires top.insertSeq < o.insertSeq && top'.insertSeq < o'.insertSeq
    ensures var rank := Priority(side, Normal); Less(rank(o), rank(top)) <==> Less(rank(o'), rank(top'))
  {
  }

  lemma {:induction false} InsertAlike(s: seq<Order>, ladder: seq<Order>, o: Order, o': Order, side: Side)
    requires Alike(s, ladder) && o.(insertSeq := 0) == o'.(insertSeq := 0)
    requires forall x :: x in s ==> x.insertSeq < o.insertSeq
    requires forall x :: x in ladder ==> x.insertSeq < o'.insertSeq
    ensures Alike(Insert(s, o, Priority(side, Normal)), Insert(ladder, o', Priority(side, Normal)))
  {
    var rank := Priority(side, Normal);
    if s == [] {
      AlikeCons(o, o', s, ladder);
    } else {
      assert s[0] in s && ladder[0] in ladder;
      NewestAlike(s[0], ladder[0], o, o', side);
      hide Less;
      if Less(rank(o), rank(s[0])) {
        AlikeCons(o, o', s, ladder);
      } else {
        AlikeTail(s, ladder);
        InsertAlike(s[1..], ladder[1..], o, o', side);
        AlikeCons(s[0], ladder[0], Insert(s[1..], o, rank), Insert(ladder[1..], o', rank));
      }
    }
  }

  lemma SortedNumbers(bag: seq<Order>, side: Side, bound: nat)
    requires Numbered(bag, bound) && forall o :: o in Sort(bag, side) <==> o in bag
    ensures forall x :: x in Sort(bag, side) ==> x.insertSeq <= bound
  {
    hide Sort;
    forall x | x in Sort(bag, side) ensures x.insertSeq <= bound {
      var i :| 0 <= i < |bag| && bag[i] == x;
    }
  }

  lemma PushMirrors(bag: seq<Order>, ladder: seq<Order>, o: Order, o': Order, side: Side, bound: nat)
    requires Mirrors(bag, ladder, side, bound) && o.(insertSeq := 0) == o'.(insertSeq := 0)
    requires o.insertSeq == bound + 1 && forall x :: x in ladder ==> x.insertSeq < o'.insertSeq
    ensures Mirrors(bag + [o], Insert(ladder, o', Priority(side, Normal)), side, bound + 1)
  {
    hide Insert, Alike, Sort, StrictlySorted;
    SortedStrictly(bag, side, bound);
    SortedNumbers(bag, side, bound);
    SortPushed(bag, o, side);
    InsertAlike(Sort(bag, side), ladder, o, o', side);
  }

  lemma SortPushed(bag: seq<Order>, o: Order, side: Side)
    ensures Sort(bag + [o], side) == Insert(Sort(bag, side), o, Priority(side, Normal))
  {
    hide Insert;
    assert (bag + [o])[..|bag|] == bag;
  }

  // ----- cancelling everywhere -----

  function Retain(bag: seq<Order>, id: string): (r: seq<Order>)
    ensures |r| <= |bag|
    ensures forall o :: o in r <==> o in bag && o.orderId != id
  {
    if bag == [] then []
    else
      var rest := Retain(bag[..|bag| - 1], id);
      var last := bag[|bag| - 1];
      assert bag == bag[..|bag| - 1] + [last];
      if last.orderId != id then rest + [last] else rest
  }

  lemma NumberedAppend(s: seq<Order>, o: Order, bound: nat)
    requires Numbered(s, bound) && o.insertSeq <= bound && forall x :: x in s ==> x.insertSeq != o.insertSeq
    ensures Numbered(s + [o], bound)
  {
    assert forall i :: 0 <= i < |s| ==> s[i] in s;
  }

  lemma NumberedParts(bag: seq<Order>, n: nat, bound: nat)
    requires Numbered(bag, bound) && |bag| == n + 1
    ensures Numbered(bag[..n], bound) && bag[n].insertSeq <= bound
    ensures forall x :: x in bag[..n] ==> x.insertSeq != bag[n].insertSeq
  {
  }

  lemma {:induction false} RetainNumbered(bag: seq<Order>, id: string, bound: nat)
    requires Numbered(bag, bound)
    ensures Numbered(Retain(bag, id), bound)
  {
    hide Numbered;
    if bag != [] {
      var n := |bag| - 1;
      NumberedParts(bag, n, bound);
      RetainNumbered(bag[..n], id, bound);
      if bag[n].orderId != id { NumberedAppend(Retain(bag[..n], id), bag[n], bound); }
    } else {
      NothingNumbered(bound);
    }
  }

  lemma NothingNumbered(bound: nat)
    ensures Numbered([], bound)
  {
  }

  /** Something is dropped exactly when something carries the id. */
  lemma {:induction false} RetainDrops(bag: seq<Order>, id: string)
    ensures |Retain(bag, id)| == |bag| <==> forall o :: o in bag ==> o.orderId != id
  {
    if bag != [] {
      var n := |bag| - 1;
      RetainDrops(bag[..n], id);
      assert bag == bag[..n] + [bag[n]];
      assert forall o :: o in bag <==> o in bag[..n] || o == bag[n];
    }
  }

  lemma {:induction false} RetainStrict(s: seq<Order>, id: string, rank: Order -> Rank)
    requires StrictlySorted(s, rank)
    ensures StrictlySorted(Retain(s, id), rank)
  {
    if s != [] {
      var n := |s| - 1;
      RetainStrict(s[..n], id, rank);
      var rest := Retain(s[..n], id);
      forall i | 0 <= i < |rest| ensures Less(rank(rest[i]), rank(s[n])) {
        assert rest[i] in s[..n];
      }
    }
  }

  /** Filtering and sorting commute. */
  lemma RetainSorts(bag: seq<Order>, id: string, side: Side, bound: nat)
    requires Numbered(bag, bound)
    ensures Sort(Retain(bag, id), side) == Retain(Sort(bag, side), id)
  {
    var rank := Priority(side, Normal);
    SortedStrictly(bag, side, bound);
    RetainNumbered(bag, id, bound);
    SortedStrictly(Retain(bag, id), side, bound);
    RetainStrict(Sort(bag, side), id, rank);
    SameMembersSameList(Sort(Retain(bag, id), side), Retain(Sort(bag, side), id), rank);
  }

  lemma AlikeAppend(s: seq<Order>, ladder: seq<Order>, a: Order, b: Order)
    requires Alike(s, ladder) && a.(insertSeq := 0) == b.(insertSeq := 0)
    ensures Alike(s + [a], ladder + [b])
  {
  }

  lemma AlikeParts(s: seq<Order>, ladder: seq<Order>, n: nat)
    requires Alike(s, ladder) && |s| == n + 1
    ensures Alike(s[..n], ladder[..n]) && s[n].(insertSeq := 0) == ladder[n].(insertSeq := 0)
  {
  }

  lemma {:induction false} RetainAlike(s: seq<Order>, ladder: seq<Order>, id: string)
    requires Alike(s, ladder)
    ensures Alike(Retain(s, id), Retain(ladder, id))
  {
    if s != [] {
      var n := |s| - 1;
      AlikeParts(s, ladder, n);
      RetainAlike(s[..n], ladder[..n], id);
      assert s[n].orderId == s[n].(insertSeq := 0).orderId && ladder[n].orderId == ladder[n].(insertSeq := 0).orderId;
      hide Alike;
      if s[n].orderId != id { AlikeAppend(Retain(s[..n], id), Retain(ladder[..n], id), s[n], ladder[n]); }
    }
  }

  lemma AlikeIds(s: seq<Order>, ladder: seq<Order>, id: string)
    requires Alike(s, ladder)
    ensures InLadder(ladder, id) <==> exists o :: o in s && o.orderId == id
  {
    if o :| o in s && o.orderId == id {
      var i :| 0 <= i < |s| && s[i] == o;
      assert s[i].(insertSeq := 0).orderId == ladder[i].(insertSeq := 0).orderId && ladder[i] in ladder;
    }
    if o :| o in ladder && o.orderId == id {
      var i :| 0 <= i < |ladder| && ladder[i] == o;
      assert s[i].(insertSeq := 0).orderId == ladder[i].(insertSeq := 0).orderId && s[i] in s;
    }
  }

  lemma RetainMirrors(bag: seq<Order>, ladder: seq<Order>, id: string, side: Side, bound: nat)
    requires Mirrors(bag, ladder, side, bound)
    ensures Mirrors(Retain(bag, id), Retain(ladder, id), side, bound)
    ensures |Retain(bag, id)| != |bag| <==> InLadder(ladder, id)
  {
    hide Sort, Retain, Alike, Numbered;
    RetainSorts(bag, id, side, bound);
    RetainNumbered(bag, id, bound);
    RetainDrops(bag, id);
    RetainAlike(Sort(bag, side), ladder, id);
    SortedStrictly(bag, side, bound);
    AlikeIds(Sort(bag, side), ladder, id);
  }

  /** On distinct ids, keeping the others is taking out the one. */
  lemma CancelRetains(b: Book, id: string)
    requires Valid(b, Normal)
    ensures Cancel(b, id).0 == b.(buys := Retain(b.buys, id), sells := Retain(b.sells, id))
    ensures Cancel(b, id).1 == Live(b, id)
  {
    var b' := Cancel(b, id).0;
    CancelRemovesExactly(b, id, Normal);
    RetainStrict(b.buys, id, Priority(Buy, Normal));
    RetainStrict(b.sells, id, Priority(Sell, Normal));
    SameMembersSameList(b'.buys, Retain(b.buys, id), Priority(Buy, Normal));
    SameMembersSameList(b'.sells, Retain(b.sells, id), Priority(Sell, Normal));
  }

  // ----- the engine -----

  ghost predicate MirrorsBook(bags: Bags, b: Book, bound: nat) {
    Mirrors(bags.buys, b.buys, Buy, bound) && Mirrors(bags.sells, b.sells, Sell, bound) && Valid(b, Normal)
  }

  /** Matching has got as far as `left` and `ladder` on its way to `whole`. */
  ghost predicate Towards(whole: Matched, deliveries: seq<Delivery>, left: Order, ladder: seq<Order>) {
    After(FillsIn(deliveries), Match(left, ladder, false)) == whole
  }

  lemma BeginTowards(left: Order, ladder: seq<Order>)
    ensures Towards(Match(left, ladder, false), [], left, ladder)
  {
    hide Match;
    assert FillsIn([]) + Match(left, ladder, false).fills == Match(left, ladder, false).fills;
  }

  lemma StepTowards(whole: Matched, deliveries: seq<Delivery>, left: Order, ladder: seq<Order>, n: nat)
    requires Towards(whole, deliveries, left, ladder)
    requires left.qty > 0 && ladder != [] && Crosses(left, ladder[0], false)
    ensures var qty := Min(left.qty, ladder[0].qty);
      Towards(whole, deliveries + [Delivery(n, MakeFill(left, ladder[0], qty))], left.(qty := left.qty - qty), Reduce(ladder, qty))
  {
    hide Match;
    var qty := Min(left.qty, ladder[0].qty);
    var d := Delivery(n, MakeFill(left, ladder[0], qty));
    MatchStep(FillsIn(deliveries), left, ladder, false);
    assert FillsIn(deliveries + [d]) == FillsIn(deliveries) + [d.fill];
  }

  lemma EndTowards(whole: Matched, deliveries: seq<Delivery>, left: Order, ladder: seq<Order>)
    requires Towards(whole, deliveries, left, ladder)
    requires left.qty <= 0 || ladder == [] || !Crosses(left, ladder[0], false)
    ensures whole == Matched(FillsIn(deliveries), left, ladder)
  {
    MatchStops(FillsIn(deliveries), left, ladder, false);
  }

  lemma FrontAlike(bag: seq<Order>, ladder: seq<Order>, side: Side, bound: nat)
    requires Mirrors(bag, ladder, side, bound)
    ensures |Sort(bag, side)| == |ladder|
    ensures ladder != [] ==> Sort(bag, side)[0].(insertSeq := 0) == ladder[0].(insertSeq := 0) && ladder[0] in ladder
  {
  }

  lemma ReduceStaysPositive(ladder: seq<Order>, qty: int)
    requires ladder != [] && (forall o :: o in ladder ==> o.qty > 0) && qty <= ladder[0].qty
    ensures forall o :: o in Reduce(ladder, qty) ==> o.qty > 0
    ensures |Reduce(ladder, qty)| == |ladder| - if qty == ladder[0].qty then 1 else 0
  {
    assert forall o :: o in ladder[1..] ==> o in ladder;
  }

  /** The front order of a sorted side after trading `qty`, which leaves `left` of it. */
  function AfterTrade(s: seq<Order>, left: int): seq<Order>
    requires s != []
  {
    if left > 0 then s[1..] + [s[0].(qty := left)] else s[1..]
  }

  /** What one fill does to the bag, and to the ladder it mirrors. */
  lemma TradeMirrors(bag: seq<Order>, ladder: seq<Order>, side: Side, bound: nat, qty: int)
    requires Mirrors(bag, ladder, side, bound) && ladder != [] && qty <= ladder[0].qty
    ensures Sort(bag, side) != [] && Mirrors(AfterTrade(Sort(bag, side), ladder[0].qty - qty), Reduce(ladder, qty), side, bound)
  {
    FrontAlike(bag, ladder, side, bound);
    hide Sort, Mirrors;
    if ladder[0].qty - qty > 0 {
      FrontReduced(bag, ladder, side, bound, ladder[0].qty - qty);
    } else {
      FrontGone(bag, ladder, side, bound);
    }
  }

  function BagsIn(books: map<string, Bags>, symbol: string): Bags {
    if symbol in books then books[symbol] else NO_ORDERS
  }

  ghost function RefIn(refs: map<string, Book>, symbol: string): Book {
    if symbol in refs then refs[symbol] else EMPTY_BOOK
  }

  /** Of all books, those in `todo` have still to hear of the cancel. */
  ghost predicate Cancelling(refs0: map<string, Book>, refs: map<string, Book>, todo: set<string>, orig: string) {
    forall x :: RefIn(refs, x) == if x in todo then RefIn(refs0, x) else Cancel(RefIn(refs0, x), orig).0
  }

  ghost predicate FoundIn(refs0: map<string, Book>, symbols: set<string>, orig: string) {
    exists x :: x in symbols && Live(RefIn(refs0, x), orig)
  }

  lemma CancelStep(refs0: map<string, Book>, refs: map<string, Book>, refs': map<string, Book>, todo: set<string>, seen: set<string>, x: string, orig: string)
    requires Cancelling(refs0, refs, todo, orig) && x in todo && x !in seen
    requires refs' == refs[x := Cancel(RefIn(refs, x), orig).0]
    ensures Cancelling(refs0, refs', todo - {x}, orig)
    ensures FoundIn(refs0, seen + {x}, orig) <==> FoundIn(refs0, seen, orig) || Live(RefIn(refs, x), orig)
  {
    hide Cancel, Live;
    assert RefIn(refs, x) == RefIn(refs0, x);
    if Live(RefIn(refs, x), orig) {
      assert x in seen + {x} && Live(RefIn(refs0, x), orig);
    }
    if FoundIn(refs0, seen, orig) {
      var y :| y in seen && Live(RefIn(refs0, y), orig);
      assert y in seen + {x};
    }
  }

  lemma PositiveLadder(b: Book, side: Side)
    requires Valid(b, Normal)
    ensures forall o :: o in b.Ladder(side) ==> o.qty > 0 && o.insertSeq <= b.insertSeq
  {
  }

  lemma MoreRoom(bag: seq<Order>, ladder: seq<Order>, side: Side, bound: nat)
    requires Mirrors(bag, ladder, side, bound)
    ensures Mirrors(bag, ladder, side, bound + 1)
  {
  }

  lemma BookHasRoom(bags: Bags, b: Book, bound: nat)
    requires MirrorsBook(bags, b, bound)
    ensures MirrorsBook(bags, b, bound + 1)
  {
    hide Mirrors, Valid;
    MoreRoom(bags.buys, b.buys, Buy, bound);
    MoreRoom(bags.sells, b.sells, Sell, bound);
  }

  /** Match and push on the bags keep step with match and rest in the reference book. */
  lemma AdmittedMirrors(bags: Bags, b: Book, o: NewOrder, n: nat, left: Order, bags': Bags)
    requires MirrorsBook(bags, b, n) && Rejection(o) == None && o.orderType == Limit && !Live(b, o.clientOrderId)
    requires left.insertSeq == n + 1 && left.(insertSeq := b.insertSeq + 1) == Matching(b, o).residual
    requires Mirrors(bags'.Bag(Opposite(o.side)), Matching(b, o).ladder, Opposite(o.side), n + 1)
    requires bags'.Bag(o.side) == bags.Bag(o.side) + (if left.qty > 0 then [left] else [])
    requires left.side == o.side
    ensures MirrorsBook(bags', Place(b, o, Normal).0, n + 1)
  {
    PlaceKeepsValid(b, o, Normal);
    LimitInSteps(b, o);
    PositiveLadder(b, o.side);
    hide Mirrors, Match, Place, Insert, Valid;
    var r := Matching(b, o).residual;
    if left.qty > 0 {
      PushMirrors(bags.Bag(o.side), b.Ladder(o.side), left, r, o.side, n);
    } else {
      MoreRoom(bags.Bag(o.side), b.Ladder(o.side), o.side, n);
      assert bags.Bag(o.side) + [] == bags.Bag(o.side);
    }
  }

  lemma CancelInEmpty(id: string)
    ensures Cancel(EMPTY_BOOK, id).0 == EMPTY_BOOK && !Live(EMPTY_BOOK, id)
  {
  }

  lemma CancelMirrors(bags: Bags, b: Book, id: string, bound: nat)
    requires MirrorsBook(bags, b, bound)
    ensures MirrorsBook(Bags(Retain(bags.buys, id), Retain(bags.sells, id)), Cancel(b, id).0, bound)
    ensures Live(b, id) <==> |Retain(bags.buys, id)| != |bags.buys| || |Retain(bags.sells, id)| != |bags.sells|
  {
    hide Mirrors, Retain, Cancel;
    CancelRetains(b, id);
    CancelRemovesExactly(b, id, Normal);
    RetainMirrors(bags.buys, b.buys, id, Buy, bound);
    RetainMirrors(bags.sells, b.sells, id, Sell, bound);
  }

  function Given(symbol: Option<string>): string {
    if symbol.Some? then symbol.value else "DEFAULT"
  }

  // ----- one side of one book at a time -----

  /** From `was` to `now`, at most one side of one book has changed, and that book has been opened. */
  ghost predicate TouchesOnly(was: map<string, Bags>, now: map<string, Bags>, symbol: string, side: Side) {
    && was.Keys <= now.Keys <= was.Keys + {symbol}
    && BagsIn(now, symbol).Bag(Opposite(side)) == BagsIn(was, symbol).Bag(Opposite(side))
    && forall x :: x != symbol ==> BagsIn(now, x) == BagsIn(was, x)
  }

  lemma TouchesNothing(was: map<string, Bags>, symbol: string, side: Side)
    ensures TouchesOnly(was, was, symbol, side)
  {
  }

  lemma TouchAgain(was: map<string, Bags>, now: map<string, Bags>, symbol: string, side: Side, bag: seq<Order>)
    requires TouchesOnly(was, now, symbol, side)
    ensures var later := now[symbol := BagsIn(now, symbol).With(side, bag)];
      TouchesOnly(was, later, symbol, side) && BagsIn(later, symbol).Bag(side) == bag
  {
  }

  lemma TouchTwice(was: map<string, Bags>, now: map<string, Bags>, later: map<string, Bags>, symbol: string, side: Side)
    requires TouchesOnly(was, now, symbol, side) && TouchesOnly(now, later, symbol, side)
    ensures TouchesOnly(was, later, symbol, side)
  {
  }

  // ----- what the engine makes of an order's type -----

  /** The engine never reads the type: every order is a limit order to it. */
  function AsLimit(input: Incoming): Incoming {
    input.(order := input.order.(orderType := Limit))
  }

  lemma NothingDelivered()
    ensures FillsIn([]) == []
  {
  }

  lemma SubmittedIgnoresSymbol(b: Book, input: Incoming, symbol: string)
    ensures Submitted(b, input.(order := input.order.(symbol := symbol)), Normal, false) == Submitted(b, input, Normal, false)
  {
    hide Match, Insert;
  }

  /** Where the limit is no hindrance, there might as well be none. */
  lemma {:induction false} LimitEnough(active: Order, ladder: seq<Order>)
    requires Match(active, ladder, false).residual.qty <= 0
    ensures Match(active, ladder, true) == Match(active, ladder, false)
    decreases |ladder|
  {
    if active.qty > 0 && ladder != [] && Crosses(active, ladder[0], false) {
      var qty := Min(active.qty, ladder[0].qty);
      if ladder[0].qty == qty { LimitEnough(active.(qty := active.qty - qty), ladder[1..]); }
    }
  }

  /** The order's own side grows by what is left of it, and stays as it is when nothing rests. */
  lemma OwnSideAfter(b: Book, o: NewOrder)
    requires Rejection(o) == None
    ensures |Place(b, o, Normal).0.Ladder(o.side)| == |b.Ladder(o.side)| + if LeavesResidual(b, o) then 1 else 0
  {
    hide Match, Insert;
    MatchOnlyShortens(Admit(o, b.insertSeq + 1), b.Ladder(Opposite(o.side)), o.orderType == Market);
    InsertGrows(b, o);
  }

  lemma InsertGrows(b: Book, o: NewOrder)
    ensures |Insert(b.Ladder(o.side), Matching(b, o).residual, Priority(o.side, Normal))| == |b.Ladder(o.side)| + 1
  {
  }

  lemma NoResidualNoDifference(b: Book, o: NewOrder)
    requires o.orderType == Market && Rejection(o) == None && o.price > 0
    requires Matching(b, o.(orderType := Limit)).residual.qty <= 0
    ensures Place(b, o.(orderType := Limit), Normal) == Place(b, o, Normal)
  {
    hide Match, Insert;
    LimitEnough(Admit(o, b.insertSeq + 1), b.Ladder(Opposite(o.side)));
  }

  /**
   A market order fares as it would in the reference book exactly when it is
   malformed either way, or carries a positive price within which it trades in
   full. Without a price it is turned away, and with a residual it comes to rest.
   */
  lemma MarketAgreesIff(b: Book, input: Incoming)
    requires input.order.orderType == Market
    ensures Submitted(b, AsLimit(input), Normal, false) == Submitted(b, input, Normal, false)
      <==> Malformed(input) || (input.order.price > 0 && Matching(b, AsLimit(input).order).residual.qty <= 0)
  {
    var o, l := input.order, AsLimit(input).order;
    if !Malformed(input) && o.price > 0 {
      hide Match, Place, Matching;
      if Matching(b, l).residual.qty <= 0 {
        NoResidualNoDifference(b, o);
      } else {
        OwnSideAfter(b, o);
        OwnSideAfter(b, l);
      }
    }
  }

  const UNPRICED := Incoming(NewOrder("m", "X", Buy, 0, 1, 0, Market), true)

  /** A market order without a price: refused here, accepted by the reference book. */
  lemma MarketWithoutPriceIsRefused(b: Book)
    ensures Submitted(b, AsLimit(UNPRICED), Normal, false).status == Rejected
    ensures Submitted(b, UNPRICED, Normal, false).status == Accepted
  {
    hide Complete, Match;
  }

  class Engine {
    var books: map<string, Bags>
    var engineSeq: nat
    var insertSeq: nat
    ghost var refs: map<string, Book>

    constructor ()
      ensures Valid() && books == map[] && refs == map[]
    {
      books, engineSeq, insertSeq, refs := map[], 0, 0, map[];
      new;
      assert Sort([], Buy) == [] && Sort([], Sell) == [];
    }

    function BagsAt(symbol: string): Bags
      reads this`books
    {
      BagsIn(books, symbol)
    }

    /** The reference book of a symbol after the same requests. */
    ghost function RefAt(symbol: string): Book
      reads this`refs
    {
      RefIn(refs, symbol)
    }

    ghost predicate Valid()
      reads this
    {
      && (forall x :: MirrorsBook(BagsAt(x), RefAt(x), insertSeq))
      && refs.Keys <= books.Keys
    }

    /** Sorts a side and takes its front order if that order crosses. */
    method TakeFront(symbol: string, side: Side, price: int) returns (resting: Option<Order>)
      modifies this`books
      ensures var s := Sort(old(BagsAt(symbol)).Bag(side), side);
        var crossing := s != [] && (if side.Sell? then s[0].price <= price else s[0].price >= price);
        && resting == (if crossing then Some(s[0]) else None)
        && books == old(books)[symbol := old(BagsAt(symbol)).With(side, if crossing then s[1..] else s)]
    {
      var bags := BagsAt(symbol);
      var s := Sort(bags.Bag(side), side);
      if s != [] && (if side.Sell? then s[0].price <= price else s[0].price >= price) {
        resting := Some(s[0]);
        s := s[1..];
      } else {
        resting := None;
      }
      books := books[symbol := bags.With(side, s)];
    }

    /** What is left of a resting order is pushed to the back. */
    method PutBack(symbol: string, side: Side, rest: Order)
      modifies this`books
      ensures books == if rest.qty > 0 then old(books)[symbol := old(BagsAt(symbol)).With(side, old(BagsAt(symbol)).Bag(side) + [rest])] else old(books)
    {
      if rest.qty > 0 { books := books[symbol := BagsAt(symbol).With(side, BagsAt(symbol).Bag(side) + [rest])]; }
    }

    /** One turn of the matching loop: a fill with the front order, or none when that does not cross. */
    method Turn(order: Order, symbol: string, ghost ladder: seq<Order>) returns (left: Order, fill: Option<Fill>)
      requires order.qty > 0 && forall o :: o in ladder ==> o.qty > 0
      requires Mirrors(BagsAt(symbol).Bag(Opposite(order.side)), ladder, Opposite(order.side), insertSeq)
      modifies this`books
      ensures TouchesOnly(old(books), books, symbol, Opposite(order.side)) && symbol in books
      ensures fill.Some? <==> ladder != [] && Crosses(order, ladder[0], false)
      ensures fill.None? ==> left == order && Mirrors(BagsAt(symbol).Bag(Opposite(order.side)), ladder, Opposite(order.side), insertSeq)
      ensures fill.Some? ==> (var qty := Min(order.qty, ladder[0].qty);
        && left == order.(qty := order.qty - qty) && fill.value == MakeFill(order, ladder[0], qty)
        && Mirrors(BagsAt(symbol).Bag(Opposite(order.side)), Reduce(ladder, qty), Opposite(order.side), insertSeq))
    {
      hide Mirrors, Sort, TouchesOnly, Reduce;
      var side := Opposite(order.side);
      ghost var was, bag := books, BagsAt(symbol).Bag(side);
      FrontAlike(bag, ladder, side, insertSeq);
      TouchesNothing(was, symbol, side);
      var resting := TakeFront(symbol, side, order.price);
      TouchAgain(was, was, symbol, side, if resting.Some? then Sort(bag, side)[1..] else Sort(bag, side));
      if resting.None? {
        SortedMirrors(bag, ladder, side, insertSeq);
        return order, None;
      }
      var qty := Min(order.qty, resting.value.qty);
      TradeMirrors(bag, ladder, side, insertSeq, qty);
      var rest := resting.value.(qty := resting.value.qty - qty);
      TouchAgain(was, books, symbol, side, BagsAt(symbol).Bag(side) + [rest]);
      PutBack(symbol, side, rest);
      return order.(qty := order.qty - qty), Some(MakeFill(order, resting.value, qty));
    }

    method MatchOrder(order: Order, symbol: string, ghost ladder: seq<Order>, ghost refSeq: nat) returns (left: Order, deliveries: seq<Delivery>)
      requires order.qty > 0 && forall o :: o in ladder ==> o.qty > 0
      requires Mirrors(BagsAt(symbol).Bag(Opposite(order.side)), ladder, Opposite(order.side), insertSeq)
      modifies this`books, this`engineSeq
      ensures var m := Match(order.(insertSeq := refSeq), ladder, false);
        && FillsIn(deliveries) == m.fills && left.(insertSeq := refSeq) == m.residual && left == order.(qty := left.qty)
        && Mirrors(BagsAt(symbol).Bag(Opposite(order.side)), m.ladder, Opposite(order.side), insertSeq)
      ensures TouchesOnly(old(books), books, symbol, Opposite(order.side)) && symbol in books
      ensures NumberedFrom(deliveries, old(engineSeq)) && engineSeq == old(engineSeq) + |deliveries|
    {
      hide Match, Mirrors, Towards, FillsIn, NumberedFrom, TouchesOnly, Reduce;
      var side := Opposite(order.side);
      ghost var whole, cur, was := Match(order.(insertSeq := refSeq), ladder, false), ladder, books;
      left, deliveries := order, [];
      BeginTowards(order.(insertSeq := refSeq), ladder);
      NoNumbers(engineSeq);
      TouchesNothing(was, symbol, side);
      while true
        invariant left == order.(qty := left.qty) && left.qty > 0
        invariant Towards(whole, deliveries, left.(insertSeq := refSeq), cur)
        invariant forall o :: o in cur ==> o.qty > 0
        invariant Mirrors(BagsAt(symbol).Bag(side), cur, side, insertSeq)
        invariant TouchesOnly(was, books, symbol, side)
        invariant NumberedFrom(deliveries, old(engineSeq)) && engineSeq == old(engineSeq) + |deliveries|
        decreases |cur|, left.qty
      {
        ghost var before, mid := left, books;
        var fill;
        left, fill := Turn(left, symbol, cur);
        TouchTwice(was, mid, books, symbol, side);
        if fill.None? {
          EndTowards(whole, deliveries, left.(insertSeq := refSeq), cur);
          break;
        }
        ghost var qty := Min(before.qty, cur[0].qty);
        ReduceStaysPositive(cur, qty);
        StepTowards(whole, deliveries, before.(insertSeq := refSeq), cur, engineSeq + 1);
        StepNumbers(deliveries, old(engineSeq), engineSeq + 1, fill.value);
        engineSeq := engineSeq + 1;
        deliveries := deliveries + [Delivery(engineSeq, fill.value)];
        cur := Reduce(cur, qty);
        if left.qty == 0 {
          EndTowards(whole, deliveries, left.(insertSeq := refSeq), cur);
          break;
        }
      }
    }

    /**
     A new order: the answer and the fills of the reference book for the same order
     with a limit, whatever its type. An order that names no symbol goes to the
     default one; an empty name is a name.
     */
    method NewOrder(input: Incoming, symbol: Option<string>) returns (ack: Ack, deliveries: seq<Delivery>)
      requires Valid() && !Live(RefAt(Given(symbol)), input.order.clientOrderId)
      modifies this
      ensures Valid()
      ensures forall x :: x != Given(symbol) ==> RefAt(x) == old(RefAt(x))
      ensures var r := Submitted(old(RefAt(Given(symbol))), AsLimit(input), Normal, false);
        && RefAt(Given(symbol)) == r.book && FillsIn(deliveries) == r.fills
        && ack == Ack(input.order.clientOrderId, r.status, r.reason, old(engineSeq) + 1)
      ensures NumberedFrom(deliveries, ack.engineSeq) && engineSeq == ack.engineSeq + |deliveries|
    {
      hide Place, NumberedFrom, FillsIn, Live, MirrorsBook;
      ghost var b := RefAt(Given(symbol));
      SubmittedIgnoresSymbol(b, AsLimit(input), Given(symbol));
      NoNumbers(engineSeq + 1);
      NothingDelivered();
      var o := input.order.(symbol := Given(symbol), orderType := Limit);
      engineSeq := engineSeq + 1;
      if !input.knownSide || o.clientOrderId == "" || o.qty <= 0 || o.price <= 0 {
        return Ack(o.clientOrderId, Rejected, InvalidOrder, engineSeq), [];
      }
      ack := Ack(o.clientOrderId, Accepted, NoReason, engineSeq);
      deliveries := Admitted(o);
    }

    /** A well-formed limit order matches, and what is left is pushed unsorted. */
    method Admitted(o: NewOrder) returns (deliveries: seq<Delivery>)
      requires Valid() && !Live(RefAt(o.symbol), o.clientOrderId) && o.orderType == Limit && Rejection(o) == None
      modifies this
      ensures Valid() && refs == old(refs)[o.symbol := Place(old(RefAt(o.symbol)), o, Normal).0]
      ensures Place(old(RefAt(o.symbol)), o, Normal).1 == Result.Ok(FillsIn(deliveries))
      ensures NumberedFrom(deliveries, old(engineSeq)) && engineSeq == old(engineSeq) + |deliveries|
    {
      hide Match, Mirrors, BookSpec.Valid, Place, NumberedFrom, FillsIn, Live, Insert;
      ghost var b, opp, n, bags0 := RefAt(o.symbol), Opposite(o.side), insertSeq, BagsAt(o.symbol);
      assert MirrorsBook(BagsAt(o.symbol), b, insertSeq);
      PlaceKeepsValid(b, o, Normal);
      LimitInSteps(b, o);
      PositiveLadder(b, opp);
      MoreRoom(BagsAt(o.symbol).Bag(opp), b.Ladder(opp), opp, insertSeq);
      insertSeq := insertSeq + 1;
      var order := Admit(o, insertSeq);
      var left;
      left, deliveries := MatchOrder(order, o.symbol, b.Ladder(opp), b.insertSeq + 1);
      assert BagsAt(o.symbol).Bag(o.side) == bags0.Bag(o.side) && forall x :: x != o.symbol ==> BagsAt(x) == old(BagsAt(x));
      ghost var mid := books;
      if left.qty > 0 {
        var bags := BagsAt(o.symbol);
        books := books[o.symbol := bags.With(o.side, bags.Bag(o.side) + [left])];
      }
      refs := refs[o.symbol := Place(b, o, Normal).0];
      AdmittedMirrors(bags0, b, o, n, left, BagsAt(o.symbol));
      hide MirrorsBook;
      assert insertSeq == n + 1 && MirrorsBook(BagsAt(o.symbol), RefAt(o.symbol), insertSeq);
      forall x ensures MirrorsBook(BagsAt(x), RefAt(x), insertSeq) {
        if x != o.symbol {
          assert BagsAt(x) == (if x in mid then mid[x] else NO_ORDERS) == old(BagsAt(x));
          assert old(MirrorsBook(BagsAt(x), RefAt(x), insertSeq));
          BookHasRoom(BagsAt(x), RefAt(x), n);
        }
      }
    }

    method CancelIn(symbol: string, orig: string) returns (hit: bool)
      requires symbol in books && Valid()
      modifies this`books, this`refs
      ensures Valid() && books.Keys == old(books.Keys)
      ensures hit == Live(old(RefAt(symbol)), orig) && refs == old(refs)[symbol := Cancel(old(RefAt(symbol)), orig).0]
    {
      hide MirrorsBook, Cancel, Retain, Live;
      var bags := books[symbol];
      assert MirrorsBook(BagsAt(symbol), RefAt(symbol), insertSeq);
      CancelMirrors(bags, RefAt(symbol), orig, insertSeq);
      var buys, sells := Retain(bags.buys, orig), Retain(bags.sells, orig);
      hit := |buys| != |bags.buys| || |sells| != |bags.sells|;
      books := books[symbol := Bags(buys, sells)];
      refs := refs[symbol := Cancel(RefAt(symbol), orig).0];
      forall x ensures MirrorsBook(BagsAt(x), RefAt(x), insertSeq) {
        assert old(MirrorsBook(BagsAt(x), RefAt(x), insertSeq));
      }
    }

    /** Drops the order from every book it is found in. */
    method CancelOrder(clientOrderId: string, orig: string) returns (ack: Ack)
      requires Valid()
      modifies this
      ensures Valid() && engineSeq == old(engineSeq) + 1
      ensures forall x :: RefAt(x) == Cancel(old(RefAt(x)), orig).0
      ensures ack == Ack(clientOrderId, if exists x :: Live(old(RefAt(x)), orig) then Canceled else NotFound, NoReason, engineSeq)
    {
      hide MirrorsBook, Cancel, Live, Cancelling, FoundIn;
      var todo, found := books.Keys, false;
      ghost var refs0 := refs;
      CancelBegins(refs0, books.Keys, orig);
      while todo != {}
        invariant todo <= books.Keys == old(books.Keys) && insertSeq == old(insertSeq) && engineSeq == old(engineSeq)
        invariant Valid() && Cancelling(refs0, refs, todo, orig)
        invariant found <==> FoundIn(refs0, books.Keys - todo, orig)
      {
        var x :| x in todo;
        ghost var before := refs;
        var hit := CancelIn(x, orig);
        CancelStep(refs0, before, refs, todo, books.Keys - todo, x, orig);
        assert books.Keys - todo + {x} == books.Keys - (todo - {x});
        found := found || hit;
        todo := todo - {x};
      }
      assert books.Keys - todo == books.Keys;
      CancelEnds(refs0, refs, books.Keys, orig);
      assert forall x :: old(RefAt(x)) == RefIn(refs0, x) && RefAt(x) == RefIn(refs, x);
      assert (exists x :: Live(old(RefAt(x)), orig)) <==> (exists x :: Live(RefIn(refs0, x), orig)) by {
        if x :| Live(RefIn(refs0, x), orig) { assert Live(old(RefAt(x)), orig); }
        if x :| Live(old(RefAt(x)), orig) { assert Live(RefIn(refs0, x), orig); }
      }
      engineSeq := engineSeq + 1;
      ack := Ack(clientOrderId, if found then Canceled else NotFound, NoReason, engineSeq);
    }
  }

  lemma CancelBegins(refs0: map<string, Book>, symbols: set<string>, orig: string)
    requires refs0.Keys <= symbols
    ensures Cancelling(refs0, refs0, symbols, orig) && !FoundIn(refs0, symbols - symbols, orig)
  {
    CancelInEmpty(orig);
    hide Cancel, Live;
  }

  lemma CancelEnds(refs0: map<string, Book>, refs: map<string, Book>, symbols: set<string>, orig: string)
    requires refs0.Keys <= symbols && Cancelling(refs0, refs, {}, orig)
    ensures forall x :: RefIn(refs, x) == Cancel(RefIn(refs0, x), orig).0
    ensures FoundIn(refs0, symbols, orig) <==> exists x :: Live(RefIn(refs0, x), orig)
  {
    CancelInEmpty(orig);
    hide Cancel, Live;
  }
}
