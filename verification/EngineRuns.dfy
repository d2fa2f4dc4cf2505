/**
 Whole runs of one book of the Go engine, with the limits of the locked engine or
 without: what was accepted is conserved, residuals dropped for want of room
 included, and with the limits no side ever outgrows its cap.
 */
module EngineRuns {
  import opened Types
  import opened Sequences
  import opened BookSpec
  import opened BookSafety
  import opened EngineSpec

  datatype Request = Placing(input: Incoming) | Cancelling(id: string)

  /** What an accepted order neither traded nor brought to rest: market residuals, and those the cap turns away. */
  function LetGo(b: Book, o: NewOrder, limits: bool): int {
    if o.orderType == Market || (limits && HitsCap(b, o)) then Matching(b, o).residual.qty else 0
  }

  /** One request, booked under its id: only what is answered as accepted counts as accepted. */
  function Handle(l: Ledger, r: Request, mode: Mode, limits: bool): Ledger {
    match r
    case Placing(input) =>
      var out, id := Submitted(l.book, input, mode, limits), input.order.clientOrderId;
      if out.status == Rejected then l.(book := out.book)
      else
        Ledger(out.book, l.accepted[id := Get(l.accepted, id) + input.order.qty],
               l.released[id := Get(l.released, id) + LetGo(l.book, input.order, limits)], l.fills + out.fills)
    case Cancelling(id) =>
      var (b, ok) := Cancel(l.book, id);
      l.(book := b, released := l.released[id := Get(l.released, id) + if ok then RestingQty(l.book, id) else 0])
  }

  function HandleAll(reqs: seq<Request>, mode: Mode, limits: bool): Ledger {
    if reqs == [] then EMPTY_LEDGER
    else Handle(HandleAll(reqs[..|reqs| - 1], mode, limits), reqs[|reqs| - 1], mode, limits)
  }

  /** No order is placed under an id that is still resting. */
  ghost predicate NewIds(reqs: seq<Request>, mode: Mode, limits: bool) {
    forall k :: 0 <= k < |reqs| && reqs[k].Placing? ==>
      !Live(HandleAll(reqs[..k], mode, limits).book, reqs[k].input.order.clientOrderId)
  }

  // ----- without the limits this is the reference book -----

  lemma UnlimitedIsReference(l: Ledger, input: Incoming, mode: Mode)
    requires input.knownSide
    ensures Handle(l, Placing(input), mode, false) == Apply(l, PlaceOrder(input.order), mode)
  {
    hide Match, Insert, Complete;
  }

  // ----- conservation -----

  /** A placement the cap interferes with: what was there and what came in has traded, rests or is let go. */
  lemma CappedConserves(b: Book, o: NewOrder, mode: Mode, id: string)
    requires Valid(b, mode) && Rejection(o) == None
    ensures RestingQty(b, id) + (if o.clientOrderId == id then o.qty else 0)
         == Traded(Matching(b, o).fills, id) + RestingQty(AfterMatch(b, o), id)
          + (if o.clientOrderId == id then Matching(b, o).residual.qty else 0)
    ensures FillsPositive(Matching(b, o).fills)
  {
    hide Match, QtyOf, Traded, LadderOk;
    var active, market, opp := Admit(o, b.insertSeq + 1), o.orderType == Market, b.Ladder(Opposite(o.side));
    OppositePositive(b, o.side, mode);
    MatchConserves(active, opp, market, id);
    MatchWalksTheLadder(active, opp, market);
  }

  lemma OppositePositive(b: Book, side: Side, mode: Mode)
    requires Valid(b, mode)
    ensures forall o :: o in b.Ladder(Opposite(side)) ==> o.qty > 0
  {
  }

  /** Nothing traded, so all of the order is left. */
  lemma NoFillsNothingSpent(b: Book, o: NewOrder, mode: Mode)
    requires Valid(b, mode) && Rejection(o) == None && Matching(b, o).fills == []
    ensures Matching(b, o).residual.qty == o.qty
  {
    hide Match;
    OppositePositive(b, o.side, mode);
    MatchWalksTheLadder(Admit(o, b.insertSeq + 1), b.Ladder(Opposite(o.side)), o.orderType == Market);
  }

  lemma CappedKeepsAt(l: Ledger, input: Incoming, mode: Mode, id: string)
    requires Valid(l.book, mode) && !Malformed(input) && FieldsFit(input.order) && HitsCap(l.book, input.order)
    requires ConservesAt(l, id) && ConservesAt(l, input.order.clientOrderId)
    ensures ConservesAt(Handle(l, Placing(input), mode, true), id)
  {
    var o := input.order;
    hide Match, QtyOf, Traded, Matching, AfterMatch, LeavesResidual;
    CappedConserves(l.book, o, mode, id);
    if Matching(l.book, o).fills == [] {
      NoFillsNothingSpent(l.book, o, mode);
      NothingTraded(id);
    } else {
      TradedConcat(l.fills, Matching(l.book, o).fills, id);
    }
  }

  lemma CappedKeeps(l: Ledger, input: Incoming, mode: Mode)
    requires Valid(l.book, mode) && !Malformed(input) && FieldsFit(input.order) && HitsCap(l.book, input.order)
    requires Conserves(l) && FillsPositive(l.fills)
    ensures var l' := Handle(l, Placing(input), mode, true); Conserves(l') && FillsPositive(l'.fills)
  {
    hide Match, QtyOf, Traded, Matching, AfterMatch, LeavesResidual, HitsCap, ConservesAt;
    assert ConservesAt(l, input.order.clientOrderId);
    CappedConserves(l.book, input.order, mode, "");
    forall id ensures ConservesAt(Handle(l, Placing(input), mode, true), id) {
      assert ConservesAt(l, id);
      CappedKeepsAt(l, input, mode, id);
    }
  }

  /** Where no limit fires, the ledger is booked as without limits. */
  lemma UncappedIsUnlimited(l: Ledger, input: Incoming, mode: Mode)
    requires Malformed(input) || (FieldsFit(input.order) && !HitsCap(l.book, input.order))
    ensures Handle(l, Placing(input), mode, true) == Handle(l, Placing(input), mode, false)
  {
    hide Match, Complete, Matching, LeavesResidual;
  }

  /** One request, under either set of limits, keeps the book valid and every quantity accounted for. */
  lemma HandleKeeps(l: Ledger, r: Request, mode: Mode, limits: bool)
    requires Valid(l.book, mode) && Conserves(l) && FillsPositive(l.fills)
    requires r.Placing? ==> !Live(l.book, r.input.order.clientOrderId)
    ensures var l' := Handle(l, r, mode, limits); Valid(l'.book, mode) && Conserves(l') && FillsPositive(l'.fills)
  {
    hide Valid, Conserves, FillsPositive, Live, Submitted, Malformed, HitsCap, Apply, FieldsFit;
    match r
    case Placing(input) =>
      SubmittedKeepsValid(l.book, input, mode, limits);
      PlacingKeeps(l, input, mode, limits);
    case Cancelling(id) =>
      assert Handle(l, r, mode, limits) == Apply(l, CancelOrder(id), mode) by { CancelIsReference(l, id, mode, limits); }
      ApplyKeeps(l, CancelOrder(id), mode);
  }

  lemma CancelIsReference(l: Ledger, id: string, mode: Mode, limits: bool)
    ensures Handle(l, Cancelling(id), mode, limits) == Apply(l, CancelOrder(id), mode)
  {
    hide Cancel;
  }

  lemma RefusedKeeps(l: Ledger, input: Incoming, mode: Mode)
    requires !Malformed(input) && !FieldsFit(input.order)
    ensures Handle(l, Placing(input), mode, true) == l
  {
  }

  lemma UnknownSideKeeps(l: Ledger, input: Incoming, mode: Mode)
    requires !input.knownSide
    ensures Handle(l, Placing(input), mode, false) == l
  {
  }

  lemma PlacingKeeps(l: Ledger, input: Incoming, mode: Mode, limits: bool)
    requires Valid(l.book, mode) && Conserves(l) && FillsPositive(l.fills) && !Live(l.book, input.order.clientOrderId)
    ensures var l' := Handle(l, Placing(input), mode, limits); Conserves(l') && FillsPositive(l'.fills)
  {
    hide Valid, Conserves, FillsPositive, Live, Handle, HitsCap, Apply, FieldsFit, Rejection;
    if limits && !Malformed(input) && !FieldsFit(input.order) {
      RefusedKeeps(l, input, mode);
    } else if limits && !Malformed(input) && HitsCap(l.book, input.order) {
      CappedKeeps(l, input, mode);
    } else {
      if limits { UncappedIsUnlimited(l, input, mode); }
      if input.knownSide {
        UnlimitedIsReference(l, input, mode);
        ApplyKeeps(l, PlaceOrder(input.order), mode);
      } else {
        UnknownSideKeeps(l, input, mode);
      }
    }
  }

  /**
   For every run of requests, with the limits or without: the book stays sorted and
   uncrossed, every fill is positive, and what was accepted under an id has traded,
   rests, was cancelled or was let go.
   */
  lemma {:induction false} RequestsConserve(reqs: seq<Request>, mode: Mode, limits: bool)
    requires NewIds(reqs, mode, limits)
    ensures var l := HandleAll(reqs, mode, limits); Valid(l.book, mode) && Conserves(l) && FillsPositive(l.fills)
  {
    hide Handle;
    if reqs == [] {
      NothingYet(mode, limits);
    } else {
      var n := |reqs| - 1;
      assert NewIds(reqs[..n], mode, limits) by {
        assert forall k :: 0 <= k < n ==> reqs[..n][..k] == reqs[..k];
      }
      hide Valid, Conserves, FillsPositive, Live;
      RequestsConserve(reqs[..n], mode, limits);
      HandleKeeps(HandleAll(reqs[..n], mode, limits), reqs[n], mode, limits);
    }
  }

  lemma NothingYet(mode: Mode, limits: bool)
    ensures var l := HandleAll([], mode, limits); Valid(l.book, mode) && Conserves(l) && FillsPositive(l.fills)
  {
  }

  // ----- the cap holds -----

  predicate WithinCap(b: Book) {
    |b.buys| <= MAX_RESTING_PER_SYMBOL && |b.sells| <= MAX_RESTING_PER_SYMBOL
  }

  lemma PlacementWithinCap(b: Book, input: Incoming, mode: Mode)
    requires WithinCap(b)
    ensures WithinCap(Submitted(b, input, mode, true).book)
  {
    var o := input.order;
    hide Match, FieldsFit;
    MatchOnlyShortens(Admit(o, b.insertSeq + 1), b.Ladder(Opposite(o.side)), o.orderType == Market);
  }

  lemma CancelWithinCap(b: Book, id: string)
    requires WithinCap(b)
    ensures WithinCap(Cancel(b, id).0)
  {
    var i, j := Find(b.buys, id), Find(b.sells, id);
    if i < |b.buys| {
      WithoutIndex(b.buys, i);
    } else if j < |b.sells| {
      WithoutIndex(b.sells, j);
    }
  }

  /** With the limits, no side of the book ever holds more than the cap. */
  lemma {:induction false} RestingIsBounded(reqs: seq<Request>, mode: Mode)
    ensures WithinCap(HandleAll(reqs, mode, true).book)
  {
    if reqs != [] {
      var n := |reqs| - 1;
      RestingIsBounded(reqs[..n], mode);
      var b := HandleAll(reqs[..n], mode, true).book;
      hide WithinCap, Submitted, Cancel;
      match reqs[n]
      case Placing(input) => PlacementWithinCap(b, input, mode);
      case Cancelling(id) => CancelWithinCap(b, id);
    }
  }
}
