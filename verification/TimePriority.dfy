/**
 What a placed order becomes, said from the order as it was sent: who is turned
 away, what comes to rest, when matching stops, and that of two orders resting at
 one price the one with the earlier stamp trades first, over every run.
 */
module TimePriority {
  import opened Types
  import opened Sequences
  import opened BookSpec
  import opened BookSafety
  import opened EngineSpec
  import opened EngineRuns
  import Utf8

  // ----- one placement -----

  /** Each refusal has its one cause, and leaves the book alone. */
  lemma RejectedIff(b: Book, input: NewOrder, mode: Mode)
    ensures var (b', r) := Place(b, input, mode);
      && (r == Err(MissingOrderId) <==> input.clientOrderId == "")
      && (r == Err(NonPositiveQuantity) <==> input.clientOrderId != "" && input.qty <= 0)
      && (r == Err(NonPositiveLimitPrice) <==> input.clientOrderId != "" && input.qty > 0 && input.orderType == Limit && input.price <= 0)
      && (r.Err? ==> b' == b)
  {
    hide Complete;
  }

  lemma {:induction false} OneOfItsName(ladder: seq<Order>, o: Order)
    requires DistinctIds(ladder) && o in ladder
    ensures QtyOf(ladder, o.orderId) == o.qty
  {
    if ladder[0] == o {
      forall p | p in ladder[1..] ensures p.orderId != o.orderId {
        var k :| 0 <= k < |ladder[1..]| && ladder[1..][k] == p;
        assert ladder[k + 1] == p;
      }
      AbsentHasNothing(ladder[1..], o.orderId);
    } else {
      var k :| 0 <= k < |ladder| && ladder[k] == o;
      assert ladder[1..][k - 1] == o && ladder[0].orderId != o.orderId;
      OneOfItsName(ladder[1..], o);
    }
  }

  lemma RestingIsItsQty(b: Book, o: Order, mode: Mode)
    requires Valid(b, mode) && (o in b.buys || o in b.sells)
    ensures RestingQty(b, o.orderId) == o.qty > 0
  {
    if o in b.buys {
      OneOfItsName(b.buys, o);
      assert !InLadder(b.sells, o.orderId);
      AbsentHasNothing(b.sells, o.orderId);
    } else {
      OneOfItsName(b.sells, o);
      assert !InLadder(b.buys, o.orderId);
      AbsentHasNothing(b.buys, o.orderId);
    }
  }

  /** The same order but for what it has traded. */
  predicate SameOrder(o: Order, p: Order) {
    && o.orderId == p.orderId && o.side == p.side && o.price == p.price
    && o.tsNs == p.tsNs && o.insertSeq == p.insertSeq
  }

  /** `o` is what rests of `input`, which came in as the book's newest. */
  predicate Newcomer(o: Order, input: NewOrder, seqNo: nat) {
    && o.orderId == input.clientOrderId && o.side == input.side && o.price == input.price
    && o.tsNs == input.tsNs && o.insertSeq == seqNo
  }

  ghost predicate WasIn(ladder: seq<Order>, o: Order) {
    exists p :: p in ladder && SameOrder(o, p)
  }

  /** What stands on a side after a placement stood there before, or is the newcomer. */
  ghost predicate OldOrNew(before: seq<Order>, after: seq<Order>, input: NewOrder, seqNo: nat) {
    forall o :: o in after ==> WasIn(before, o) || Newcomer(o, input, seqNo)
  }

  lemma SuffixWasIn(s: seq<Order>, ladder: seq<Order>, d: nat)
    requires Suffix(s, ladder, d)
    ensures forall o :: o in s ==> WasIn(ladder, o)
  {
    forall o | o in s ensures WasIn(ladder, o) {
      var i :| 0 <= i < |s| && s[i] == o;
      assert ladder[d + i] in ladder && SameOrder(o, ladder[d + i]);
    }
  }

  lemma StaysWasIn(ladder: seq<Order>)
    ensures forall o :: o in ladder ==> WasIn(ladder, o)
  {
    forall o | o in ladder ensures WasIn(ladder, o) {
      assert SameOrder(o, o);
    }
  }

  /** The opposite side after a match, and what is left of the incoming order. */
  lemma MatchedOldOrNew(b: Book, o: NewOrder, mode: Mode)
    requires Valid(b, mode) && Rejection(o) == None
    ensures var opp := Opposite(o.side);
      && (forall p :: p in AfterMatch(b, o).Ladder(opp) ==> WasIn(b.Ladder(opp), p))
      && AfterMatch(b, o).Ladder(o.side) == b.Ladder(o.side) && AfterMatch(b, o).insertSeq == b.insertSeq + 1
      && Newcomer(Matching(b, o).residual, o, b.insertSeq + 1)
  {
    hide Match, WasIn;
    var opp := Opposite(o.side);
    var active, market := Admit(o, b.insertSeq + 1), o.orderType == Market;
    var d := MatchLeavesSuffix(active, b.Ladder(opp), market);
    SuffixWasIn(Match(active, b.Ladder(opp), market).ladder, b.Ladder(opp), d);
  }

  lemma RestedOldOrNew(b: Book, o: Order, mode: Mode)
    ensures Rest(b, o, mode).Ladder(Opposite(o.side)) == b.Ladder(Opposite(o.side)) && Rest(b, o, mode).insertSeq == b.insertSeq
    ensures forall p :: p in Rest(b, o, mode).Ladder(o.side) ==> p == o || p in b.Ladder(o.side)
  {
    InsertMembers(b.Ladder(o.side), o, Priority(o.side, mode));
    hide Insert;
  }

  lemma PlacedOldOrNew(b: Book, o: NewOrder, mode: Mode)
    requires Valid(b, mode) && Rejection(o) == None
    ensures var b' := Place(b, o, mode).0;
      && OldOrNew(b.Ladder(o.side), b'.Ladder(o.side), o, b.insertSeq + 1)
      && OldOrNew(b.Ladder(Opposite(o.side)), b'.Ladder(Opposite(o.side)), o, b.insertSeq + 1)
      && b'.insertSeq == b.insertSeq + 1
  {
    hide Rest, WasIn, Match, Newcomer;
    MatchedOldOrNew(b, o, mode);
    StaysWasIn(b.Ladder(o.side));
    assert Newcomer(Matching(b, o).residual, o, b.insertSeq + 1);
    NewcomerSide(Matching(b, o).residual, o, b.insertSeq + 1);
    RestedOldOrNew(AfterMatch(b, o), Matching(b, o).residual, mode);
    PlaceInSteps(b, o, mode);
    hide Place, AfterMatch, Matching;
  }

  lemma NewcomerSide(p: Order, o: NewOrder, n: nat)
    requires Newcomer(p, o, n)
    ensures p.side == o.side
  {
  }

  lemma PlaceInSteps(b: Book, o: NewOrder, mode: Mode)
    requires Rejection(o) == None
    ensures Place(b, o, mode).0 == AfterMatch(b, o) || Place(b, o, mode).0 == Rest(AfterMatch(b, o), Matching(b, o).residual, mode)
  {
    hide Match, Insert;
  }

  /** Whatever the limits do, a side holds what it held or the newcomer. */
  lemma SubmittedOldOrNew(b: Book, input: Incoming, mode: Mode, limits: bool, side: Side)
    requires Valid(b, mode)
    ensures var b' := Submitted(b, input, mode, limits).book;
      && OldOrNew(b.Ladder(side), b'.Ladder(side), input.order, b.insertSeq + 1)
      && b.insertSeq <= b'.insertSeq <= b.insertSeq + 1
  {
    var o := input.order;
    hide Rejection, WasIn, Match, Newcomer, Place, AfterMatch, Matching, FieldsFit, HitsCap;
    StaysWasIn(b.buys);
    StaysWasIn(b.sells);
    if !Malformed(input) {
      assert Rejection(o) == None;
      PlacedOldOrNew(b, o, mode);
      MatchedOldOrNew(b, o, mode);
    }
  }

  /**
   What rests after a placement under the order's id is that order: its side, its
   price and its stamp as sent, and its quantity less what it traded. It rests
   exactly when it is a limit order with something left.
   */
  lemma WhatRestsIsWhatWasSent(b: Book, input: NewOrder, mode: Mode)
    requires Valid(b, mode) && !Live(b, input.clientOrderId) && Place(b, input, mode).1.Ok?
    ensures var (b', r) := Place(b, input, mode);
      && (Live(b', input.clientOrderId) <==> input.orderType == Limit && Traded(r.value, input.clientOrderId) < input.qty)
      && forall o :: (o in b'.buys || o in b'.sells) && o.orderId == input.clientOrderId ==>
           && o.side == input.side && o.price == input.price && o.tsNs == input.tsNs
           && o.qty == input.qty - Traded(r.value, input.clientOrderId)
  {
    hide Place, Traded, RestingQty, WasIn, Dropped;
    var id := input.clientOrderId;
    var (b', r) := Place(b, input, mode);
    assert Rejection(input) == None by { AcceptedIsWellFormed(b, input, mode); }
    PlaceConserves(b, input, mode, id);
    PlaceKeepsValid(b, input, mode);
    PlacedOldOrNew(b, input, mode);
    NobodyHasNothing(b, id);
    forall o | (o in b'.buys || o in b'.sells) && o.orderId == id
      ensures Newcomer(o, input, b.insertSeq + 1) && RestingQty(b', id) == o.qty > 0
    {
      RestingIsItsQty(b', o, mode);
      OnlyNewcomers(b, o, id, if o in b'.Ladder(input.side) then input.side else Opposite(input.side));
    }
    if input.orderType == Market { MarketNeverRests(b, input, mode); } else { LimitDropsNothing(b, input); }
    hide Valid;
    if !Live(b', id) { NobodyHasNothing(b', id); }
  }

  lemma MarketNeverRests(b: Book, input: NewOrder, mode: Mode)
    requires Valid(b, mode) && !Live(b, input.clientOrderId) && Rejection(input) == None && input.orderType == Market
    ensures !Live(Place(b, input, mode).0, input.clientOrderId)
  {
    hide Match, Valid;
    AfterMatchIsValid(b, input, mode);
    hide Live;
  }

  lemma LimitDropsNothing(b: Book, input: NewOrder)
    requires input.orderType == Limit
    ensures Dropped(b, Admit(input, b.insertSeq + 1), input.orderType == Market) == 0
  {
    hide Match;
  }

  lemma AcceptedIsWellFormed(b: Book, input: NewOrder, mode: Mode)
    requires Place(b, input, mode).1.Ok?
    ensures Rejection(input) == None
  {
    hide Complete;
  }

  lemma NobodyHasNothing(b: Book, id: string)
    requires !Live(b, id)
    ensures RestingQty(b, id) == 0
  {
    AbsentHasNothing(b.buys, id);
    AbsentHasNothing(b.sells, id);
  }

  lemma OnlyNewcomers(b: Book, o: Order, id: string, side: Side)
    requires !Live(b, id) && o.orderId == id
    ensures !WasIn(b.Ladder(side), o)
  {
  }

  /**
   Matching goes on until the order is spent or the other side is empty; a limit
   order also stops where the best price left is beyond its limit. A market order
   takes any price.
   */
  lemma StopsOnlyWhen(b: Book, input: NewOrder, mode: Mode)
    requires Valid(b, mode) && !Live(b, input.clientOrderId) && Place(b, input, mode).1.Ok?
    ensures var (b', r) := Place(b, input, mode);
      var best := b'.Ladder(Opposite(input.side));
      || Traded(r.value, input.clientOrderId) == input.qty
      || best == []
      || (input.orderType == Limit && if input.side.Buy? then input.price < best[0].price else best[0].price < input.price)
  {
    hide Traded, RestingQty, Rest, Place, Valid, AfterMatch, Matching;
    AcceptedIsWellFormed(b, input, mode);
    SpentIsTraded(b, input, mode);
    PlaceInSteps(b, input, mode);
    StopsAfterMatch(b, input, mode);
    ResidualSide(b, input, mode);
    RestedOldOrNew(AfterMatch(b, input), Matching(b, input).residual, mode);
    NothingOverspent(b, input, mode);
  }

  lemma NothingOverspent(b: Book, input: NewOrder, mode: Mode)
    requires Valid(b, mode) && Rejection(input) == None
    ensures Matching(b, input).residual.qty >= 0
  {
    hide Match;
    MatchWalksTheLadder(Admit(input, b.insertSeq + 1), b.Ladder(Opposite(input.side)), input.orderType == Market);
  }

  lemma ResidualSide(b: Book, input: NewOrder, mode: Mode)
    requires Valid(b, mode) && Rejection(input) == None
    ensures Matching(b, input).residual.side == input.side
  {
    hide Match, Valid;
    MatchedOldOrNew(b, input, mode);
  }

  /** What an order has traded is what its match has taken off it. */
  lemma SpentIsTraded(b: Book, input: NewOrder, mode: Mode)
    requires Valid(b, mode) && !Live(b, input.clientOrderId) && Rejection(input) == None
    ensures Place(b, input, mode).1 == Result.Ok(Matching(b, input).fills)
    ensures Traded(Matching(b, input).fills, input.clientOrderId) == input.qty - Matching(b, input).residual.qty
  {
    hide Match, QtyOf, Traded, Insert;
    var active, opp, market := Admit(input, b.insertSeq + 1), b.Ladder(Opposite(input.side)), input.orderType == Market;
    MatchConserves(active, opp, market, input.clientOrderId);
    var d := MatchLeavesSuffix(active, opp, market);
    SuffixNames(Match(active, opp, market).ladder, opp, d, input.clientOrderId);
    AbsentHasNothing(opp, input.clientOrderId);
    AbsentHasNothing(Match(active, opp, market).ladder, input.clientOrderId);
  }

  lemma SuffixNames(s: seq<Order>, ladder: seq<Order>, d: nat, id: string)
    requires Suffix(s, ladder, d) && !InLadder(ladder, id)
    ensures !InLadder(s, id)
  {
    forall o | o in s ensures o.orderId != id {
      var i :| 0 <= i < |s| && s[i] == o;
      assert ladder[d + i] in ladder;
    }
  }

  lemma StopsAfterMatch(b: Book, input: NewOrder, mode: Mode)
    requires Valid(b, mode) && Rejection(input) == None
    ensures var best := AfterMatch(b, input).Ladder(Opposite(input.side));
      || Matching(b, input).residual.qty <= 0
      || best == []
      || (input.orderType == Limit && if input.side.Buy? then input.price < best[0].price else best[0].price < input.price)
  {
    hide Match;
    var active, opp, market := Admit(input, b.insertSeq + 1), b.Ladder(Opposite(input.side)), input.orderType == Market;
    var d := MatchLeavesSuffix(active, opp, market);
  }

  // ----- what the Go engine's answer means -----

  predicate Invalid(input: Incoming) {
    var o := input.order;
    !input.knownSide || o.clientOrderId == "" || o.qty <= 0 || (o.orderType == Limit && o.price <= 0)
  }

  predicate TooLong(o: NewOrder) {
    |Utf8.Encode(o.clientOrderId)| > 256 || |Utf8.Encode(o.symbol)| > 256
  }

  /** Something is left of a limit order and its own side is full. */
  predicate NoRoom(b: Book, o: NewOrder, fills: seq<Fill>) {
    && o.orderType == Limit && Traded(fills, o.clientOrderId) < o.qty
    && |if o.side.Buy? then b.buys else b.sells| >= 100_000
  }

  /**
   Every answer has its one cause: a malformed order, a field too long, a full side
   with nothing traded, a full side with something traded, or none of these. Where
   the side is full nothing comes to rest.
   */
  lemma AnswerSaysWhy(b: Book, input: Incoming, mode: Mode, limits: bool)
    requires Valid(b, mode) && !Live(b, input.order.clientOrderId)
    ensures var out, o := Submitted(b, input, mode, limits), input.order;
      var answered, full := !Invalid(input) && !(limits && TooLong(o)), limits && NoRoom(b, o, out.fills);
      && (out.reason == InvalidOrder <==> Invalid(input))
      && (out.reason == FieldTooLong <==> !Invalid(input) && limits && TooLong(o))
      && (out.reason == BookFull <==> answered && full && out.fills == [])
      && (out.reason == ResidualDropped <==> answered && full && out.fills != [])
      && (out.reason == NoReason <==> answered && !full)
      && (out.status == Accepted <==> out.reason == NoReason || out.reason == ResidualDropped)
      && (out.status == Rejected <==> out.status != Accepted)
      && (out.status == Rejected ==> out.fills == [] && out.book.buys == b.buys && out.book.sells == b.sells)
      && (full ==> !Live(out.book, o.clientOrderId))
  {
    var o := input.order;
    hide Match, Traded, Valid, Live, Place;
    if Invalid(input) {
      assert Malformed(input);
      NothingTraded(o.clientOrderId);
    } else if limits && TooLong(o) {
      assert !FieldsFit(o);
      NothingTraded(o.clientOrderId);
    } else {
      SpentIsTraded(b, o, mode);
      NothingOverspent(b, o, mode);
      if Matching(b, o).fills == [] { NoFillsSameLadders(b, o, mode); }
      AfterMatchIsValid(b, o, mode);
      hide Matching;
    }
  }

  lemma NoFillsSameLadders(b: Book, o: NewOrder, mode: Mode)
    requires Valid(b, mode) && Rejection(o) == None && Matching(b, o).fills == []
    ensures AfterMatch(b, o) == b.(insertSeq := b.insertSeq + 1)
  {
    hide Match;
    MatchWalksTheLadder(Admit(o, b.insertSeq + 1), b.Ladder(Opposite(o.side)), o.orderType == Market);
    assert b.Ladder(Opposite(o.side))[0..] == b.Ladder(Opposite(o.side));
  }

  // ----- over whole runs -----

  /** The last request that placed an order under this id, or -1. */
  function LastPlacing(reqs: seq<Request>, id: string): (i: int)
    ensures -1 <= i < |reqs|
    ensures i >= 0 ==> reqs[i].Placing? && reqs[i].input.order.clientOrderId == id
    ensures forall k :: i < k < |reqs| && reqs[k].Placing? ==> reqs[k].input.order.clientOrderId != id
  {
    if reqs == [] then -1
    else
      var n := |reqs| - 1;
      if reqs[n].Placing? && reqs[n].input.order.clientOrderId == id then n
      else
        var i := LastPlacing(reqs[..n], id);
        assert forall k :: 0 <= k < n ==> reqs[..n][k] == reqs[k];
        i
  }

  /** The order behind a resting id, as it was sent. */
  function SentAs(reqs: seq<Request>, id: string): NewOrder
    requires LastPlacing(reqs, id) >= 0
  {
    reqs[LastPlacing(reqs, id)].input.order
  }

  function BookOf(reqs: seq<Request>, mode: Mode, limits: bool): Book {
    HandleAll(reqs, mode, limits).book
  }

  /** A resting order is what its last placement sent, numbered when that was handled. */
  ghost predicate TracedAt(reqs: seq<Request>, mode: Mode, limits: bool, o: Order) {
    var i := LastPlacing(reqs, o.orderId);
    && i >= 0
    && Newcomer(o, reqs[i].input.order, BookOf(reqs[..i + 1], mode, limits).insertSeq)
    && BookOf(reqs[..i], mode, limits).insertSeq < o.insertSeq
  }

  ghost predicate Traced(reqs: seq<Request>, mode: Mode, limits: bool) {
    forall side: Side, o :: o in BookOf(reqs, mode, limits).Ladder(side) ==> TracedAt(reqs, mode, limits, o)
  }

  lemma TracedAlike(reqs: seq<Request>, mode: Mode, limits: bool, o: Order, p: Order)
    requires TracedAt(reqs, mode, limits, p) && SameOrder(o, p)
    ensures TracedAt(reqs, mode, limits, o)
  {
  }

  lemma LastPlacingStays(reqs: seq<Request>, r: Request, id: string)
    requires r.Placing? ==> r.input.order.clientOrderId != id
    ensures LastPlacing(reqs + [r], id) == LastPlacing(reqs, id)
  {
    assert (reqs + [r])[..|reqs|] == reqs;
  }

  /** A request that places nothing under the order's id leaves its trace. */
  lemma TraceStays(reqs: seq<Request>, r: Request, mode: Mode, limits: bool, o: Order)
    requires TracedAt(reqs, mode, limits, o)
    requires r.Placing? ==> r.input.order.clientOrderId != o.orderId
    ensures TracedAt(reqs + [r], mode, limits, o)
  {
    hide HandleAll, Newcomer, LastPlacing;
    var all, i := reqs + [r], LastPlacing(reqs, o.orderId);
    LastPlacingStays(reqs, r, o.orderId);
    assert all[..i + 1] == reqs[..i + 1] && all[..i] == reqs[..i] && all[i] == reqs[i];
  }

  lemma PlacedLast(reqs: seq<Request>, r: Request, id: string)
    requires r.Placing? && r.input.order.clientOrderId == id
    ensures LastPlacing(reqs + [r], id) == |reqs|
  {
  }

  lemma NewcomerIsNamed(o: Order, input: NewOrder, n: nat)
    requires Newcomer(o, input, n)
    ensures o.orderId == input.clientOrderId
  {
  }

  lemma NewcomerTraced(reqs: seq<Request>, r: Request, mode: Mode, limits: bool, o: Order)
    requires r.Placing? && Newcomer(o, r.input.order, BookOf(reqs + [r], mode, limits).insertSeq)
    requires BookOf(reqs, mode, limits).insertSeq < o.insertSeq
    ensures TracedAt(reqs + [r], mode, limits, o)
  {
    hide HandleAll, LastPlacing, Newcomer, BookOf;
    var all := reqs + [r];
    NewcomerIsNamed(o, r.input.order, BookOf(all, mode, limits).insertSeq);
    PlacedLast(reqs, r, o.orderId);
    assert all[..|reqs|] == reqs && all[..|reqs| + 1] == all && all[|reqs|] == r;
  }

  lemma HandledOldOrNew(l: Ledger, r: Request, mode: Mode, limits: bool, side: Side)
    requires Valid(l.book, mode)
    ensures var b' := Handle(l, r, mode, limits).book;
      && l.book.insertSeq <= b'.insertSeq <= l.book.insertSeq + 1
      && (r.Placing? ==> OldOrNew(l.book.Ladder(side), b'.Ladder(side), r.input.order, l.book.insertSeq + 1))
      && (r.Cancelling? ==> forall o :: o in b'.Ladder(side) ==> o in l.book.Ladder(side))
  {
    hide Valid, Submitted, Cancel, OldOrNew;
    match r
    case Placing(input) => SubmittedOldOrNew(l.book, input, mode, limits, side);
    case Cancelling(id) => CancelRemovesExactly(l.book, id, mode);
  }

  lemma BoundHolds(b: Book, mode: Mode, side: Side, o: Order)
    requires Valid(b, mode) && o in b.Ladder(side)
    ensures o.insertSeq <= b.insertSeq && Live(b, o.orderId)
  {
  }

  lemma NewIdsPrefix(reqs: seq<Request>, n: nat, mode: Mode, limits: bool)
    requires NewIds(reqs, mode, limits) && n <= |reqs|
    ensures NewIds(reqs[..n], mode, limits)
    ensures n < |reqs| && reqs[n].Placing? ==> !Live(BookOf(reqs[..n], mode, limits), reqs[n].input.order.clientOrderId)
  {
    hide HandleAll, Live;
    assert forall k :: 0 <= k < n ==> reqs[..n][..k] == reqs[..k] && reqs[..n][k] == reqs[k];
  }

  lemma HandleAllMore(reqs: seq<Request>, r: Request, mode: Mode, limits: bool)
    ensures HandleAll(reqs + [r], mode, limits) == Handle(HandleAll(reqs, mode, limits), r, mode, limits)
  {
    assert (reqs + [r])[..|reqs|] == reqs;
  }

  lemma OneTraced(reqs: seq<Request>, r: Request, mode: Mode, limits: bool, side: Side, o: Order)
    requires Traced(reqs, mode, limits) && Valid(BookOf(reqs, mode, limits), mode) && Valid(BookOf(reqs + [r], mode, limits), mode)
    requires r.Placing? ==> !Live(BookOf(reqs, mode, limits), r.input.order.clientOrderId)
    requires o in BookOf(reqs + [r], mode, limits).Ladder(side)
    ensures TracedAt(reqs + [r], mode, limits, o)
  {
    hide TracedAt, Valid, Live, Handle, HandleAll, Newcomer;
    var b, b' := BookOf(reqs, mode, limits), BookOf(reqs + [r], mode, limits);
    HandleAllMore(reqs, r, mode, limits);
    HandledOldOrNew(HandleAll(reqs, mode, limits), r, mode, limits, side);
    BoundHolds(b', mode, side, o);
    if r.Cancelling? || WasIn(b.Ladder(side), o) {
      StaysWasIn(b.Ladder(side));
      var p :| p in b.Ladder(side) && SameOrder(o, p);
      BoundHolds(b, mode, side, p);
      TracedAlike(reqs, mode, limits, o, p);
      TraceStays(reqs, r, mode, limits, o);
    } else {
      NewcomerNumber(o, r.input.order, b.insertSeq + 1);
      NewcomerTraced(reqs, r, mode, limits, o);
    }
  }

  lemma NewcomerNumber(o: Order, input: NewOrder, n: nat)
    requires Newcomer(o, input, n)
    ensures o.insertSeq == n
  {
  }

  lemma {:induction false} AlwaysTraced(reqs: seq<Request>, mode: Mode, limits: bool)
    requires NewIds(reqs, mode, limits)
    ensures Traced(reqs, mode, limits)
  {
    hide NewIds, Traced, Valid, Conserves, FillsPositive, Live, HandleAll;
    if reqs == [] {
      NothingTraced(mode, limits);
    } else {
      var n := |reqs| - 1;
      NewIdsPrefix(reqs, n, mode, limits);
      AlwaysTraced(reqs[..n], mode, limits);
      RequestsConserve(reqs[..n], mode, limits);
      RequestsConserve(reqs, mode, limits);
      assert reqs[..n] + [reqs[n]] == reqs;
      AllTraced(reqs[..n], reqs[n], mode, limits);
    }
  }

  lemma NothingTraced(mode: Mode, limits: bool)
    ensures Traced([], mode, limits)
  {
  }

  lemma AllTraced(reqs: seq<Request>, r: Request, mode: Mode, limits: bool)
    requires Traced(reqs, mode, limits) && Valid(BookOf(reqs, mode, limits), mode) && Valid(BookOf(reqs + [r], mode, limits), mode)
    requires r.Placing? ==> !Live(BookOf(reqs, mode, limits), r.input.order.clientOrderId)
    ensures Traced(reqs + [r], mode, limits)
  {
    forall side: Side, o | o in BookOf(reqs + [r], mode, limits).Ladder(side) ensures TracedAt(reqs + [r], mode, limits, o) {
      OneTraced(reqs, r, mode, limits, side, o);
    }
    hide TracedAt, BookOf;
  }

  lemma {:induction false} NumbersOnlyGrow(reqs: seq<Request>, mode: Mode, limits: bool, m: nat, n: nat)
    requires NewIds(reqs, mode, limits) && m <= n <= |reqs|
    ensures BookOf(reqs[..m], mode, limits).insertSeq <= BookOf(reqs[..n], mode, limits).insertSeq
    decreases n
  {
    hide NewIds, Valid, Conserves, FillsPositive, Live, HandleAll, Handle;
    if m < n {
      NumbersOnlyGrow(reqs, mode, limits, m, n - 1);
      NewIdsPrefix(reqs, n - 1, mode, limits);
      RequestsConserve(reqs[..n - 1], mode, limits);
      assert reqs[..n - 1] + [reqs[n - 1]] == reqs[..n];
      HandleAllMore(reqs[..n - 1], reqs[n - 1], mode, limits);
      HandledOldOrNew(HandleAll(reqs[..n - 1], mode, limits), reqs[n - 1], mode, limits, Buy);
    }
  }

  /** Time decides, then who was placed first; in broken mode the later stamp comes first. */
  predicate Sooner(x: NewOrder, i: int, y: NewOrder, j: int, mode: Mode) {
    (if mode.Broken? then x.tsNs > y.tsNs else x.tsNs < y.tsNs) || (x.tsNs == y.tsNs && i < j)
  }

  predicate BetterPrice(x: NewOrder, y: NewOrder) {
    if x.side.Buy? then x.price > y.price else x.price < y.price
  }

  /** `id` rests with this side and price, as it was sent. */
  lemma RestsAsSent(reqs: seq<Request>, mode: Mode, limits: bool, side: Side, o: Order)
    requires NewIds(reqs, mode, limits) && o in BookOf(reqs, mode, limits).Ladder(side)
    ensures LastPlacing(reqs, o.orderId) >= 0
    ensures var x := SentAs(reqs, o.orderId); x.side == o.side == side && x.price == o.price && x.tsNs == o.tsNs
  {
    AlwaysTraced(reqs, mode, limits);
    RequestsConserve(reqs, mode, limits);
    assert TracedAt(reqs, mode, limits, o);
    hide NewIds, HandleAll, Traced, LastPlacing, DistinctIds, Apart;
  }

  lemma NumberedByPlacing(reqs: seq<Request>, mode: Mode, limits: bool, o: Order, p: Order)
    requires NewIds(reqs, mode, limits) && TracedAt(reqs, mode, limits, o) && TracedAt(reqs, mode, limits, p)
    requires o.insertSeq < p.insertSeq
    ensures LastPlacing(reqs, o.orderId) < LastPlacing(reqs, p.orderId)
  {
    var i, j := LastPlacing(reqs, o.orderId), LastPlacing(reqs, p.orderId);
    hide NewIds, HandleAll, BookOf, LastPlacing;
    if j <= i {
      NumbersOnlyGrow(reqs, mode, limits, j + 1, i + 1);
      if j < i { NumbersOnlyGrow(reqs, mode, limits, j + 1, i); }
    }
  }

  /** A side goes by price, then by stamp, then by who was placed first: all read off the requests. */
  lemma LadderGoesByTime(reqs: seq<Request>, mode: Mode, limits: bool, side: Side, u: nat, v: nat)
    requires NewIds(reqs, mode, limits) && u < v < |BookOf(reqs, mode, limits).Ladder(side)|
    ensures var ladder := BookOf(reqs, mode, limits).Ladder(side);
      var i, j := LastPlacing(reqs, ladder[u].orderId), LastPlacing(reqs, ladder[v].orderId);
      && i >= 0 && j >= 0
      && var x, y := reqs[i].input.order, reqs[j].input.order;
         BetterPrice(x, y) || (x.price == y.price && Sooner(x, i, y, j, mode))
  {
    var ladder := BookOf(reqs, mode, limits).Ladder(side);
    AlwaysTraced(reqs, mode, limits);
    RequestsConserve(reqs, mode, limits);
    assert ladder[u] in ladder && ladder[v] in ladder;
    RestsAsSent(reqs, mode, limits, side, ladder[u]);
    RestsAsSent(reqs, mode, limits, side, ladder[v]);
    assert TracedAt(reqs, mode, limits, ladder[u]) && TracedAt(reqs, mode, limits, ladder[v]);
    assert Less(Priority(side, mode)(ladder[u]), Priority(side, mode)(ladder[v]));
    hide NewIds, HandleAll, TracedAt, Traced, LastPlacing, Valid;
    if ladder[u].insertSeq < ladder[v].insertSeq { NumberedByPlacing(reqs, mode, limits, ladder[u], ladder[v]); }
  }

  // ----- who trades first -----

  /** The resting side's name on a fill of an order that came in on `side`. */
  function Counterparty(f: Fill, side: Side): string {
    if side.Buy? then f.sellOrderId else f.buyOrderId
  }

  /** The name of the order that came in. */
  function Incomer(f: Fill, side: Side): string {
    if side.Buy? then f.buyOrderId else f.sellOrderId
  }

  /** Fill `k` is with the `k`-th order of the other side, at its price, and all but the last use theirs up. */
  lemma FillsWalkTheSide(b: Book, input: Incoming, mode: Mode, limits: bool, k: nat)
    requires Valid(b, mode) && k < |Submitted(b, input, mode, limits).fills|
    ensures var fills, ladder := Submitted(b, input, mode, limits).fills, b.Ladder(Opposite(input.order.side));
      && |fills| <= |ladder|
      && Incomer(fills[k], input.order.side) == input.order.clientOrderId
      && Counterparty(fills[k], input.order.side) == ladder[k].orderId
      && fills[k].price == ladder[k].price
      && 0 < fills[k].qty <= ladder[k].qty
      && (k < |fills| - 1 ==> fills[k].qty == ladder[k].qty)
  {
    var o := input.order;
    hide Match, Submitted, Valid, WalksTheLadder;
    FillsAreMatching(b, input, mode, limits);
    var active, opp, market := Admit(o, b.insertSeq + 1), b.Ladder(Opposite(o.side)), o.orderType == Market;
    PositiveLadder(b, mode, Opposite(o.side));
    MatchWalksTheLadder(active, opp, market);
    TouchedAt(active, opp, market, Match(active, opp, market), k);
  }

  lemma PositiveLadder(b: Book, mode: Mode, side: Side)
    requires Valid(b, mode)
    ensures forall p :: p in b.Ladder(side) ==> p.qty > 0
  {
  }

  lemma TouchedAt(active: Order, ladder: seq<Order>, market: bool, m: Matched, k: nat)
    requires WalksTheLadder(active, ladder, market, m) && k < |m.fills|
    ensures |m.fills| <= |ladder|
    ensures var f := m.fills[k];
      && Incomer(f, active.side) == active.orderId && Counterparty(f, active.side) == ladder[k].orderId
      && f.price == ladder[k].price && 0 < f.qty <= ladder[k].qty
      && (k < |m.fills| - 1 ==> f.qty == ladder[k].qty)
  {
    hide Stops;
  }

  lemma FillsAreMatching(b: Book, input: Incoming, mode: Mode, limits: bool)
    requires Submitted(b, input, mode, limits).fills != []
    ensures Rejection(input.order) == None && Submitted(b, input, mode, limits).fills == Matching(b, input.order).fills
  {
    hide Match, Insert;
  }

  lemma {:induction false} TradedAtLeast(fills: seq<Fill>, k: nat, id: string)
    requires FillsPositive(fills) && k < |fills| && (fills[k].buyOrderId == id || fills[k].sellOrderId == id)
    ensures Traded(fills, id) >= fills[k].qty
  {
    if k == 0 {
      NeverNegative(fills[1..], id);
    } else {
      TradedAtLeast(fills[1..], k - 1, id);
    }
  }

  lemma {:induction false} NeverNegative(fills: seq<Fill>, id: string)
    requires FillsPositive(fills)
    ensures Traded(fills, id) >= 0
  {
    if fills != [] { NeverNegative(fills[1..], id); }
  }

  lemma TailPositive(a: seq<Fill>, b: seq<Fill>)
    requires FillsPositive(a + b)
    ensures FillsPositive(b)
  {
    assert forall k :: 0 <= k < |b| ==> b[k] == (a + b)[|a| + k];
  }

  /** What leaves another order's resting quantity during a placement is in the fills. */
  lemma OthersConserve(l: Ledger, input: Incoming, mode: Mode, limits: bool, id: string)
    requires Valid(l.book, mode) && Conserves(l) && FillsPositive(l.fills)
    requires !Live(l.book, input.order.clientOrderId) && id != input.order.clientOrderId
    ensures var out := Submitted(l.book, input, mode, limits);
      RestingQty(l.book, id) == Traded(out.fills, id) + RestingQty(out.book, id) && FillsPositive(out.fills)
  {
    hide RestingQty, Traded, Valid, Live, LetGo;
    HandleKeeps(l, Placing(input), mode, limits);
    var out, l' := Submitted(l.book, input, mode, limits), Handle(l, Placing(input), mode, limits);
    assert ConservesAt(l, id) && ConservesAt(l', id);
    RejectedHasNoFills(l.book, input, mode, limits);
    hide Submitted;
    if out.status == Rejected {
      NothingTraded(id);
    } else {
      TradedConcat(l.fills, out.fills, id);
      TailPositive(l.fills, out.fills);
    }
  }

  lemma RejectedHasNoFills(b: Book, input: Incoming, mode: Mode, limits: bool)
    ensures Submitted(b, input, mode, limits).status == Rejected ==> Submitted(b, input, mode, limits).fills == []
  {
    hide Match, Insert;
  }

  /** What stands before a traded order is used up. */
  lemma BeforeIsUsedUp(l: Ledger, input: Incoming, mode: Mode, limits: bool, u: nat, k: nat)
    requires Valid(l.book, mode) && Conserves(l) && FillsPositive(l.fills) && !Live(l.book, input.order.clientOrderId)
    requires u < k < |Submitted(l.book, input, mode, limits).fills|
    ensures u < |l.book.Ladder(Opposite(input.order.side))|
    ensures !Live(Submitted(l.book, input, mode, limits).book, l.book.Ladder(Opposite(input.order.side))[u].orderId)
  {
    hide RestingQty, Traded, Submitted, Conserves;
    FillsWalkTheSide(l.book, input, mode, limits, u);
    var out, o := Submitted(l.book, input, mode, limits), l.book.Ladder(Opposite(input.order.side))[u];
    assert o in l.book.Ladder(Opposite(input.order.side));
    BoundHolds(l.book, mode, Opposite(input.order.side), o);
    RestingIsItsQty(l.book, o, mode);
    OthersConserve(l, input, mode, limits, o.orderId);
    TradedAtLeast(out.fills, u, o.orderId);
    SubmittedKeepsValid(l.book, input, mode, limits);
    hide Valid;
    if Live(out.book, o.orderId) {
      var p :| (p in out.book.buys || p in out.book.sells) && p.orderId == o.orderId;
      RestingIsItsQty(out.book, p, mode);
    }
  }

  /**
   Of two orders resting on one side, the one with the better price, or at one price
   the sooner one, trades first: whoever trades with the later has already traded
   with the sooner, and used it up. For every run, with the limits or without.
   */
  lemma SoonerTradesFirst(reqs: seq<Request>, mode: Mode, limits: bool, input: Incoming, xId: string, yId: string, k: nat)
    requires NewIds(reqs + [Placing(input)], mode, limits)
    requires Live(BookOf(reqs, mode, limits), xId) && LastPlacing(reqs, xId) >= 0 && LastPlacing(reqs, yId) >= 0
    requires var out := Submitted(BookOf(reqs, mode, limits), input, mode, limits);
      k < |out.fills| && Counterparty(out.fills[k], input.order.side) == yId
    requires var i, j := LastPlacing(reqs, xId), LastPlacing(reqs, yId);
      var x, y := reqs[i].input.order, reqs[j].input.order;
      x.side == y.side && (BetterPrice(x, y) || (x.price == y.price && Sooner(x, i, y, j, mode)))
    ensures var out := Submitted(BookOf(reqs, mode, limits), input, mode, limits);
      (exists m :: 0 <= m < k && Counterparty(out.fills[m], input.order.side) == xId) && !Live(out.book, xId)
  {
    hide NewIds, Valid, Conserves, FillsPositive, Submitted, HandleAll, LastPlacing, Live;
    var all := reqs + [Placing(input)];
    assert all[..|reqs|] == reqs && all[|reqs|] == Placing(input);
    NewIdsPrefix(all, |reqs|, mode, limits);
    RequestsConserve(reqs, mode, limits);
    var l, side := HandleAll(reqs, mode, limits), Opposite(input.order.side);
    FillsWalkTheSide(l.book, input, mode, limits, k);
    var u := PlaceOfSooner(reqs, mode, limits, side, xId, yId, k);
    FillsWalkTheSide(l.book, input, mode, limits, u);
    BeforeIsUsedUp(l, input, mode, limits, u, k);
  }

  lemma PositionOf(reqs: seq<Request>, mode: Mode, limits: bool, side: Side, id: string) returns (u: nat)
    requires NewIds(reqs, mode, limits) && Live(BookOf(reqs, mode, limits), id) && LastPlacing(reqs, id) >= 0
    requires SentAs(reqs, id).side == side
    ensures u < |BookOf(reqs, mode, limits).Ladder(side)| && BookOf(reqs, mode, limits).Ladder(side)[u].orderId == id
  {
    hide NewIds, HandleAll, LastPlacing;
    var b := BookOf(reqs, mode, limits);
    var o :| (o in b.buys || o in b.sells) && o.orderId == id;
    RestsAsSent(reqs, mode, limits, if o in b.buys then Buy else Sell, o);
    u :| 0 <= u < |b.Ladder(side)| && b.Ladder(side)[u] == o;
  }

  /** The sooner order stands nearer the front. */
  lemma PlaceOfSooner(reqs: seq<Request>, mode: Mode, limits: bool, side: Side, xId: string, yId: string, k: nat) returns (u: nat)
    requires NewIds(reqs, mode, limits) && Live(BookOf(reqs, mode, limits), xId)
    requires k < |BookOf(reqs, mode, limits).Ladder(side)| && BookOf(reqs, mode, limits).Ladder(side)[k].orderId == yId
    requires LastPlacing(reqs, xId) >= 0 && LastPlacing(reqs, yId) >= 0
    requires var i, j := LastPlacing(reqs, xId), LastPlacing(reqs, yId);
      var x, y := reqs[i].input.order, reqs[j].input.order;
      x.side == y.side && (BetterPrice(x, y) || (x.price == y.price && Sooner(x, i, y, j, mode)))
    ensures u < k && BookOf(reqs, mode, limits).Ladder(side)[u].orderId == xId
  {
    hide NewIds, HandleAll, LastPlacing, Live;
    var ladder := BookOf(reqs, mode, limits).Ladder(side);
    assert ladder[k] in ladder;
    RestsAsSent(reqs, mode, limits, side, ladder[k]);
    u := PositionOf(reqs, mode, limits, side, xId);
    if u > k { LadderGoesByTime(reqs, mode, limits, side, k, u); }
  }

  // ----- the reference book is the engine without limits -----

  function AsRequests(actions: seq<Action>): (r: seq<Request>)
    ensures |r| == |actions|
    ensures forall k :: 0 <= k < |r| ==>
      r[k] == match actions[k] case PlaceOrder(o) => Placing(Incoming(o, true)) case CancelOrder(id) => Cancelling(id)
  {
    if actions == [] then []
    else
      AsRequests(actions[..|actions| - 1])
      + [match actions[|actions| - 1] case PlaceOrder(o) => Placing(Incoming(o, true)) case CancelOrder(id) => Cancelling(id)]
  }

  /** So all that is said here of runs without limits is said of the reference book's runs. */
  lemma {:induction false} RunIsHandleAll(actions: seq<Action>, mode: Mode)
    ensures HandleAll(AsRequests(actions), mode, false) == Run(actions, mode)
  {
    hide Handle, Apply;
    if actions != [] {
      var n := |actions| - 1;
      RunIsHandleAll(actions[..n], mode);
      assert AsRequests(actions)[..n] == AsRequests(actions[..n]);
      var l := Run(actions[..n], mode);
      match actions[n]
      case PlaceOrder(o) => UnlimitedIsReference(l, Incoming(o, true), mode);
      case CancelOrder(id) => CancelIsReference(l, id, mode, false);
    }
  }
}
