/** Checks on the reported fills that need no replay. */
module EdgeCases {
  import opened Types
  import opened Compare
  import opened Replay

  datatype Violation =
    | InconsistentFill(engineSeq: nat, first: Fill, second: Fill)
    | OutOfOrderSeq(prev: nat, current: nat)
    | InvalidFillQty(qtyId: string, qty: int)
    | UnknownOrderFill(unknownId: string)
    | PartialFillOverQty(overId: string, orderQty: int, filledQty: int)

  const I64_MAX := 0x7FFF_FFFF_FFFF_FFFF

  // ----- what a clean report looks like -----

  /** Two reports with one engine sequence describe one trade. */
  ghost predicate Consistent(fills: seq<ActualFill>) {
    forall i, j :: 0 <= i < j < |fills| && fills[i].engineSeq.Some? && fills[i].engineSeq == fills[j].engineSeq ==>
      fills[i].fill == fills[j].fill
  }

  ghost predicate InOrder(fills: seq<ActualFill>) {
    forall i, j :: 0 <= i < j < |fills| && fills[i].engineSeq.Some? && fills[j].engineSeq.Some? ==>
      fills[i].engineSeq.value <= fills[j].engineSeq.value
  }

  ghost predicate QtysPositive(fills: seq<ActualFill>) {
    forall i :: 0 <= i < |fills| ==> fills[i].fill.qty > 0
  }

  ghost predicate IdsKnown(fills: seq<ActualFill>, placed: map<string, int>) {
    forall i :: 0 <= i < |fills| ==> fills[i].fill.buyOrderId in placed && fills[i].fill.sellOrderId in placed
  }

  function Party(f: Fill, side: Side): string {
    if side.Buy? then f.buyOrderId else f.sellOrderId
  }

  /** How much `id` traded on one side; malformed quantities count as nothing. */
  function Total(fills: seq<ActualFill>, id: string, side: Side): nat {
    if fills == [] then 0
    else
      var last := fills[|fills| - 1].fill;
      Total(fills[..|fills| - 1], id, side) + (if Party(last, side) == id && last.qty > 0 then last.qty else 0)
  }

  /**
   Nothing traded more than was placed. An order of the largest 64-bit quantity
   is never flagged: the running totals saturate at that very number.
   */
  ghost predicate NotOverfilled(fills: seq<ActualFill>, placed: map<string, int>) {
    forall id, side :: id in placed && Traded(fills, id, side) && placed[id] < I64_MAX ==>
      Total(fills, id, side) <= placed[id]
  }

  ghost predicate Traded(fills: seq<ActualFill>, id: string, side: Side) {
    exists i :: 0 <= i < |fills| && Party(fills[i].fill, side) == id
  }

  ghost predicate Clean(events: seq<Event>, fills: seq<ActualFill>, deduped: seq<ActualFill>) {
    && Consistent(fills) && InOrder(deduped) && QtysPositive(deduped)
    && IdsKnown(deduped, PlacedQty(events)) && NotOverfilled(deduped, PlacedQty(events))
  }

  // ----- the detectors -----

  /** The quantity placed under each id; the last placement counts. */
  function PlacedQty(events: seq<Event>): map<string, int> {
    if events == [] then map[]
    else
      var placed := PlacedQty(events[..|events| - 1]);
      match events[|events| - 1].kind
      case Submit(o) => placed[o.clientOrderId := o.qty]
      case Withdraw(_, _) => placed
  }

  /** `o` is the last order placed under its id. */
  predicate LastPlacement(events: seq<Event>, i: nat, o: NewOrder) {
    && i < |events| && events[i].kind == Submit(o)
    && forall j :: i < j < |events| && events[j].kind.Submit? ==> events[j].kind.order.clientOrderId != o.clientOrderId
  }

  lemma {:induction false} LastPlacementCounts(events: seq<Event>, i: nat, o: NewOrder)
    requires LastPlacement(events, i, o)
    ensures o.clientOrderId in PlacedQty(events) && PlacedQty(events)[o.clientOrderId] == o.qty
  {
    var n := |events| - 1;
    if i < n {
      assert forall j :: 0 <= j < n ==> events[..n][j] == events[j];
      LastPlacementCounts(events[..n], i, o);
    }
  }

  lemma {:induction false} PlacedIsPlaced(events: seq<Event>, id: string) returns (i: nat, o: NewOrder)
    requires id in PlacedQty(events)
    ensures i < |events| && events[i].kind == Submit(o) && o.clientOrderId == id
  {
    var n := |events| - 1;
    if events[n].kind.Submit? && events[n].kind.order.clientOrderId == id {
      i, o := n, events[n].kind.order;
    } else {
      i, o := PlacedIsPlaced(events[..n], id);
    }
  }

  method CollectPlaced(events: seq<Event>) returns (placed: map<string, int>)
    ensures placed == PlacedQty(events)
  {
    placed := map[];
    for i := 0 to |events|
      invariant placed == PlacedQty(events[..i])
    {
      assert events[..i + 1][..i] == events[..i];
      if events[i].kind.Submit? {
        placed := placed[events[i].kind.order.clientOrderId := events[i].kind.order.qty];
      }
    }
    assert events[..|events|] == events;
  }

  method FindInconsistent(fills: seq<ActualFill>) returns (r: Option<Violation>)
    ensures r.None? <==> Consistent(fills)
    ensures r.Some? ==> (
      && r.value.InconsistentFill? && r.value.first != r.value.second
      && ActualFill(Some(r.value.engineSeq), r.value.first) in fills
      && ActualFill(Some(r.value.engineSeq), r.value.second) in fills)
  {
    var bySeq: map<nat, Fill> := map[];
    for i := 0 to |fills|
      invariant forall j :: 0 <= j < i && fills[j].engineSeq.Some? ==>
        fills[j].engineSeq.value in bySeq && bySeq[fills[j].engineSeq.value] == fills[j].fill
      invariant forall s :: s in bySeq ==> ActualFill(Some(s), bySeq[s]) in fills[..i]
    {
      var entry := fills[i];
      if entry.engineSeq.Some? {
        var s := entry.engineSeq.value;
        if s in bySeq {
          if bySeq[s] != entry.fill {
            var j :| 0 <= j < i && fills[..i][j] == ActualFill(Some(s), bySeq[s]);
            assert fills[j].engineSeq == fills[i].engineSeq;
            return Some(InconsistentFill(s, bySeq[s], entry.fill));
          }
        } else {
          bySeq := bySeq[s := entry.fill];
        }
      }
    }
    return None;
  }

  method FindOutOfOrder(deduped: seq<ActualFill>) returns (r: Option<Violation>)
    ensures r.None? <==> InOrder(deduped)
    ensures r.Some? ==> r.value.OutOfOrderSeq? && r.value.current < r.value.prev
  {
    var last: Option<nat> := None;
    for i := 0 to |deduped|
      invariant forall j :: 0 <= j < i && deduped[j].engineSeq.Some? ==> last.Some? && deduped[j].engineSeq.value <= last.value
      invariant last.Some? ==> exists j :: 0 <= j < i && deduped[j].engineSeq == last
      invariant InOrder(deduped[..i])
    {
      var entry := deduped[i];
      if entry.engineSeq.Some? {
        if last.Some? && entry.engineSeq.value < last.value {
          return Some(OutOfOrderSeq(last.value, entry.engineSeq.value));
        }
        last := entry.engineSeq;
      }
    }
    assert deduped[..|deduped|] == deduped;
    return None;
  }

  function SaturatingAdd(a: nat, b: nat): nat {
    if a + b > I64_MAX then I64_MAX else a + b
  }

  function Saturated(n: nat): nat {
    if n > I64_MAX then I64_MAX else n
  }

  /** Saturation never hides an over-fill: totals are exact up to the largest order there is. */
  lemma SaturationIsExact(a: nat, b: nat, placed: int)
    requires placed <= I64_MAX
    ensures SaturatingAdd(Saturated(a), b) == Saturated(a + b) <= I64_MAX
    ensures Saturated(a) <= I64_MAX
    ensures Saturated(a) > placed ==> a > placed
    ensures placed < I64_MAX ==> (Saturated(a) > placed <==> a > placed)
  {
  }

  /** One side's running totals. */
  ghost predicate Tallied(filled: map<string, nat>, fills: seq<ActualFill>, side: Side) {
    && (forall id :: id in filled <==> Traded(fills, id, side))
    && (forall id :: id in filled ==> filled[id] == Saturated(Total(fills, id, side)))
  }

  method TallySide(deduped: seq<ActualFill>, side: Side) returns (filled: map<string, nat>)
    ensures Tallied(filled, deduped, side)
  {
    filled := map[];
    for i := 0 to |deduped|
      invariant Tallied(filled, deduped[..i], side)
    {
      var f := deduped[i].fill;
      var id := Party(f, side);
      ghost var before := filled;
      filled := filled[id := SaturatingAdd(if id in filled then filled[id] else 0, if f.qty > 0 then f.qty else 0)];
      TallyStep(before, filled, deduped, i, side);
    }
    assert deduped[..|deduped|] == deduped;
  }

  lemma {:induction false} UntradedTotal(fills: seq<ActualFill>, id: string, side: Side)
    requires !Traded(fills, id, side)
    ensures Total(fills, id, side) == 0
  {
    if fills != [] {
      var n := |fills| - 1;
      forall j | 0 <= j < n ensures Party(fills[..n][j].fill, side) != id {
        assert fills[j] == fills[..n][j];
      }
      UntradedTotal(fills[..n], id, side);
    }
  }

  lemma TallyStep(before: map<string, nat>, after: map<string, nat>, fills: seq<ActualFill>, i: nat, side: Side)
    requires i < |fills| && Tallied(before, fills[..i], side)
    requires var f, id := fills[i].fill, Party(fills[i].fill, side);
      after == before[id := SaturatingAdd(if id in before then before[id] else 0, if f.qty > 0 then f.qty else 0)]
    ensures Tallied(after, fills[..i + 1], side)
  {
    hide Traded, Total;
    var f, id := fills[i].fill, Party(fills[i].fill, side);
    TotalStep(fills, i, side);
    if id !in before { UntradedTotal(fills[..i], id, side); }
    SaturationIsExact(Total(fills[..i], id, side), if f.qty > 0 then f.qty else 0, 0);
  }

  lemma TotalStep(fills: seq<ActualFill>, i: nat, side: Side)
    requires i < |fills|
    ensures forall id :: (
      Total(fills[..i + 1], id, side) == Total(fills[..i], id, side)
        + (if Party(fills[i].fill, side) == id && fills[i].fill.qty > 0 then fills[i].fill.qty else 0))
    ensures forall id :: Traded(fills[..i + 1], id, side) <==> Traded(fills[..i], id, side) || Party(fills[i].fill, side) == id
  {
    assert fills[..i + 1][..i] == fills[..i];
    forall id ensures Traded(fills[..i + 1], id, side) <==> Traded(fills[..i], id, side) || Party(fills[i].fill, side) == id {
      if Traded(fills[..i], id, side) {
        var j :| 0 <= j < i && Party(fills[..i][j].fill, side) == id;
        assert Party(fills[..i + 1][j].fill, side) == id;
      }
      if Party(fills[i].fill, side) == id { assert fills[..i + 1][i] == fills[i]; }
    }
  }

  /** No total of one side exceeds what was placed. */
  ghost predicate WithinPlaced(filled: map<string, nat>, placed: map<string, int>) {
    forall id :: id in filled && id in placed ==> filled[id] <= placed[id]
  }

  ghost predicate SideNotOverfilled(fills: seq<ActualFill>, placed: map<string, int>, side: Side) {
    forall id :: id in placed && Traded(fills, id, side) && placed[id] < I64_MAX ==> Total(fills, id, side) <= placed[id]
  }

  /** Saturated totals tell over-fills exactly, up to the largest order there is. */
  lemma TotalsTell(filled: map<string, nat>, fills: seq<ActualFill>, placed: map<string, int>, side: Side)
    requires Tallied(filled, fills, side) && forall id :: id in placed ==> placed[id] <= I64_MAX
    ensures WithinPlaced(filled, placed) <==> SideNotOverfilled(fills, placed, side)
  {
    hide Traded, Total, Saturated, SaturatingAdd;
    forall id | id in placed ensures placed[id] < I64_MAX ==> (Saturated(Total(fills, id, side)) > placed[id] <==> Total(fills, id, side) > placed[id])
                             ensures Saturated(Total(fills, id, side)) > placed[id] ==> Total(fills, id, side) > placed[id]
                             ensures Saturated(Total(fills, id, side)) <= I64_MAX {
      SaturationIsExact(Total(fills, id, side), 0, placed[id]);
    }
  }

  lemma BothSides(fills: seq<ActualFill>, placed: map<string, int>)
    ensures NotOverfilled(fills, placed) <==> SideNotOverfilled(fills, placed, Buy) && SideNotOverfilled(fills, placed, Sell)
  {
    hide Traded, Total;
    if SideNotOverfilled(fills, placed, Buy) && SideNotOverfilled(fills, placed, Sell) {
      forall id, side | id in placed && Traded(fills, id, side) && placed[id] < I64_MAX
        ensures Total(fills, id, side) <= placed[id]
      {
        if side.Buy? {
          assert SideNotOverfilled(fills, placed, Buy);
        } else {
          assert SideNotOverfilled(fills, placed, Sell);
        }
      }
    }
  }

  /** One more report adds its quantity to its buyer's bought total and to its seller's sold total, unless it is malformed. */
  lemma OneMoreReport(fills: seq<ActualFill>, a: ActualFill, id: string)
    ensures Total([], id, Buy) == 0 && Total([], id, Sell) == 0
    ensures Total(fills + [a], id, Buy) == Total(fills, id, Buy) + if a.fill.buyOrderId == id && a.fill.qty > 0 then a.fill.qty else 0
    ensures Total(fills + [a], id, Sell) == Total(fills, id, Sell) + if a.fill.sellOrderId == id && a.fill.qty > 0 then a.fill.qty else 0
  {
    assert (fills + [a])[..|fills|] == fills;
  }

  method FindOverfill(deduped: seq<ActualFill>, placed: map<string, int>) returns (r: Option<Violation>)
    requires forall id :: id in placed ==> placed[id] <= I64_MAX
    ensures r.None? <==> NotOverfilled(deduped, placed)
    ensures r.Some? ==> (
      && r.value.PartialFillOverQty? && r.value.overId in placed
      && r.value.orderQty == placed[r.value.overId] < r.value.filledQty)
  {
    hide NotOverfilled, SideNotOverfilled, Tallied;
    var buys := TallySide(deduped, Buy);
    var sells := TallySide(deduped, Sell);
    TotalsTell(buys, deduped, placed, Buy);
    TotalsTell(sells, deduped, placed, Sell);
    BothSides(deduped, placed);
    if id :| id in buys && id in placed && buys[id] > placed[id] {
      return Some(PartialFillOverQty(id, placed[id], buys[id]));
    }
    if id :| id in sells && id in placed && sells[id] > placed[id] {
      return Some(PartialFillOverQty(id, placed[id], sells[id]));
    }
    return None;
  }

  // ----- what saturation hides -----

  const WHALE := NewOrder("w", "X", Buy, 10, I64_MAX, 0, Limit)
  const SELLERS := [
    NewOrder("s", "X", Sell, 10, I64_MAX, 0, Limit),
    NewOrder("t", "X", Sell, 10, 1, 0, Limit)]

  const WHALE_EVENTS := [
    Event(1, "X", Submit(WHALE)),
    Event(2, "X", Submit(SELLERS[0])),
    Event(3, "X", Submit(SELLERS[1]))]

  const WHALE_FILLS := [
    ActualFill(Some(4), Fill("w", "s", 10, I64_MAX)),
    ActualFill(Some(5), Fill("w", "t", 10, 1))]

  lemma WhalePlaced()
    ensures PlacedQty(WHALE_EVENTS) == map["w" := I64_MAX, "s" := I64_MAX, "t" := 1]
  {
    var e := WHALE_EVENTS;
    assert e[..2][..1] == e[..1] && e[..1][..0] == [] && e[..3] == e;
    assert PlacedQty(e[..1]) == map["w" := I64_MAX];
    assert PlacedQty(e[..2]) == map["w" := I64_MAX, "s" := I64_MAX];
  }

  lemma WhaleTotals(id: string, side: Side)
    ensures Total(WHALE_FILLS, id, side) == (
      (if Party(WHALE_FILLS[0].fill, side) == id then I64_MAX else 0) + (if Party(WHALE_FILLS[1].fill, side) == id then 1 else 0))
  {
    var f := WHALE_FILLS;
    assert f[..1][..0] == [] && f[..2] == f;
    assert Total(f[..1], id, side) == if Party(f[0].fill, side) == id then I64_MAX else 0;
  }

  /** An order of the largest quantity trades one more than it was placed for, and no check objects. */
  lemma LargestOrderIsNeverFlagged()
    ensures "w" in PlacedQty(WHALE_EVENTS) && PlacedQty(WHALE_EVENTS)["w"] == I64_MAX < Total(WHALE_FILLS, "w", Buy)
    ensures Clean(WHALE_EVENTS, WHALE_FILLS, WHALE_FILLS)
  {
    WhalePlaced();
    WhaleTotals("w", Buy);
    hide Total, PlacedQty, Traded;
    var placed := PlacedQty(WHALE_EVENTS);
    forall id, side | id in placed && Traded(WHALE_FILLS, id, side) && placed[id] < I64_MAX ensures Total(WHALE_FILLS, id, side) <= placed[id] {
      WhaleTotals(id, side);
    }
  }

  method FindBadQty(deduped: seq<ActualFill>) returns (r: Option<Violation>)
    ensures r.None? <==> QtysPositive(deduped)
    ensures r.Some? ==> r.value.InvalidFillQty? && r.value.qty <= 0
  {
    for i := 0 to |deduped|
      invariant QtysPositive(deduped[..i])
    {
      var f := deduped[i].fill;
      if f.qty <= 0 {
        return Some(InvalidFillQty(if f.buyOrderId == "" then f.sellOrderId else f.buyOrderId, f.qty));
      }
    }
    assert deduped[..|deduped|] == deduped;
    return None;
  }

  method FindUnknown(deduped: seq<ActualFill>, placed: map<string, int>) returns (r: Option<Violation>)
    ensures r.None? <==> IdsKnown(deduped, placed)
    ensures r.Some? ==> r.value.UnknownOrderFill? && r.value.unknownId !in placed
  {
    for i := 0 to |deduped|
      invariant IdsKnown(deduped[..i], placed)
    {
      var f := deduped[i].fill;
      if f.buyOrderId !in placed { return Some(UnknownOrderFill(f.buyOrderId)); }
      if f.sellOrderId !in placed { return Some(UnknownOrderFill(f.sellOrderId)); }
    }
    assert deduped[..|deduped|] == deduped;
    return None;
  }

  function Listed(v: Option<Violation>): (r: seq<Violation>)
    ensures r == [] <==> v.None?
  {
    if v.Some? then [v.value] else []
  }

  ghost predicate WithinI64(events: seq<Event>) {
    forall i :: 0 <= i < |events| && events[i].kind.Submit? ==> events[i].kind.order.qty <= I64_MAX
  }

  lemma {:induction false} PlacedWithinI64(events: seq<Event>)
    requires WithinI64(events)
    ensures forall id :: id in PlacedQty(events) ==> PlacedQty(events)[id] <= I64_MAX
  {
    if events != [] { PlacedWithinI64(events[..|events| - 1]); }
  }

  /** Each kind of violation is listed exactly when its condition fails, in a fixed order. */
  method Detect(events: seq<Event>, fills: seq<ActualFill>, deduped: seq<ActualFill>) returns (out: seq<Violation>)
    requires WithinI64(events)
    ensures out == [] <==> Clean(events, fills, deduped)
    ensures Flags(out, INCONSISTENT) <==> !Consistent(fills)
    ensures Flags(out, OUT_OF_ORDER) <==> !InOrder(deduped)
    ensures Flags(out, BAD_QTY) <==> !QtysPositive(deduped)
    ensures Flags(out, UNKNOWN) <==> !IdsKnown(deduped, PlacedQty(events))
    ensures Flags(out, OVERFILL) <==> !NotOverfilled(deduped, PlacedQty(events))
  {
    var placed := CollectPlaced(events);
    PlacedWithinI64(events);
    var inconsistent := FindInconsistent(fills);
    var outOfOrder := FindOutOfOrder(deduped);
    var badQty := FindBadQty(deduped);
    var unknown := FindUnknown(deduped, placed);
    var overfill := FindOverfill(deduped, placed);
    hide *;
    out := Listed(inconsistent) + Listed(outOfOrder) + Listed(badQty) + Listed(unknown) + Listed(overfill);
    forall k | 0 <= k < 5 ensures Flags(out, k) <==> [inconsistent, outOfOrder, badQty, unknown, overfill][k].Some? {
      KindListed(inconsistent, outOfOrder, badQty, unknown, overfill, k);
    }
  }

  const INCONSISTENT := 0
  const OUT_OF_ORDER := 1
  const BAD_QTY := 2
  const UNKNOWN := 3
  const OVERFILL := 4

  function Kind(v: Violation): nat {
    match v
    case InconsistentFill(_, _, _) => INCONSISTENT
    case OutOfOrderSeq(_, _) => OUT_OF_ORDER
    case InvalidFillQty(_, _) => BAD_QTY
    case UnknownOrderFill(_) => UNKNOWN
    case PartialFillOverQty(_, _, _) => OVERFILL
  }

  ghost predicate Flags(out: seq<Violation>, kind: nat) {
    exists v :: v in out && Kind(v) == kind
  }

  lemma FlagsConcat(a: seq<Violation>, b: seq<Violation>, kind: nat)
    ensures Flags(a + b, kind) <==> Flags(a, kind) || Flags(b, kind)
  {
    hide Kind;
    forall v | v in a || v in b ensures v in a + b {
    }
  }

  lemma FlagsOne(v: Option<Violation>, own: nat, kind: nat)
    requires v.Some? ==> Kind(v.value) == own
    ensures Flags(Listed(v), kind) <==> v.Some? && own == kind
  {
    hide Kind;
    if v.Some? { assert v.value in Listed(v); }
  }

  lemma KindListed(a: Option<Violation>, b: Option<Violation>, c: Option<Violation>, d: Option<Violation>, e: Option<Violation>, k: nat)
    requires a.Some? ==> a.value.InconsistentFill?
    requires b.Some? ==> b.value.OutOfOrderSeq?
    requires c.Some? ==> c.value.InvalidFillQty?
    requires d.Some? ==> d.value.UnknownOrderFill?
    requires e.Some? ==> e.value.PartialFillOverQty?
    requires k < 5
    ensures Flags(Listed(a) + Listed(b) + Listed(c) + Listed(d) + Listed(e), k) <==> [a, b, c, d, e][k].Some?
  {
    FlagsOne(a, INCONSISTENT, k);
    FlagsOne(b, OUT_OF_ORDER, k);
    FlagsOne(c, BAD_QTY, k);
    FlagsOne(d, UNKNOWN, k);
    FlagsOne(e, OVERFILL, k);
    hide Flags, Kind, Listed;
    FlagsConcat(Listed(a), Listed(b), k);
    FlagsConcat(Listed(a) + Listed(b), Listed(c), k);
    FlagsConcat(Listed(a) + Listed(b) + Listed(c), Listed(d), k);
    FlagsConcat(Listed(a) + Listed(b) + Listed(c) + Listed(d), Listed(e), k);
  }
}
