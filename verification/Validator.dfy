/**
 The validator from parsed lines to verdict: first acknowledgement wins, reports
 are deduplicated by engine sequence, and the verdict does not depend on how the
 lines were shuffled or repeated on their way to the file.
 */
module Validator {
  import opened Types
  import opened Sequences
  import opened Compare
  import opened Replay
  import opened EdgeCases

  datatype OutputLine =
    | FillLine(engineSeq: Option<nat>, fill: Fill)
    | AckLine(clientOrderId: string, seqNo: nat)
    | OtherLine

  // ----- reading acknowledgements -----

  function ArrivalMap(lines: seq<OutputLine>): map<string, nat> {
    if lines == [] then map[]
    else
      var m := ArrivalMap(lines[..|lines| - 1]);
      match lines[|lines| - 1]
      case AckLine(id, s) => if id in m then m else m[id := s]
      case _ => m
  }

  /** The line acknowledges `id`, and no earlier line does. */
  predicate FirstAck(lines: seq<OutputLine>, i: nat, id: string, seqNo: nat) {
    && i < |lines| && lines[i] == AckLine(id, seqNo)
    && forall j :: 0 <= j < i && lines[j].AckLine? ==> lines[j].clientOrderId != id
  }

  /** An id has an arrival number exactly when it is acknowledged, and it is that of its first acknowledgement. */
  lemma {:induction false} FirstAckDecides(lines: seq<OutputLine>, id: string, seqNo: nat)
    ensures id in ArrivalMap(lines) && ArrivalMap(lines)[id] == seqNo <==> exists i: nat :: FirstAck(lines, i, id, seqNo)
    ensures id in ArrivalMap(lines) <==> exists i :: 0 <= i < |lines| && lines[i].AckLine? && lines[i].clientOrderId == id
  {
    if lines != [] {
      var n := |lines| - 1;
      var pre := lines[..n];
      FirstAckDecides(pre, id, seqNo);
      assert forall j :: 0 <= j < n ==> pre[j] == lines[j];
      forall i: nat | i < n ensures FirstAck(lines, i, id, seqNo) <==> FirstAck(pre, i, id, seqNo) {}
      if id in ArrivalMap(pre) {
        var j :| 0 <= j < n && pre[j].AckLine? && pre[j].clientOrderId == id;
        assert lines[j].AckLine? && lines[j].clientOrderId == id;
      } else {
        assert FirstAck(lines, n, id, seqNo) <==> lines[n] == AckLine(id, seqNo);
      }
    }
  }

  method ReadArrivalOrder(lines: seq<OutputLine>) returns (m: map<string, nat>)
    ensures m == ArrivalMap(lines)
  {
    m := map[];
    for i := 0 to |lines|
      invariant m == ArrivalMap(lines[..i])
    {
      assert lines[..i + 1][..i] == lines[..i];
      match lines[i]
      case AckLine(id, s) => if id !in m { m := m[id := s]; }
      case _ =>
    }
    assert lines[..|lines|] == lines;
  }

  ghost predicate AcksAgree(lines: seq<OutputLine>) {
    forall a, b :: a in lines && b in lines && a.AckLine? && b.AckLine? && a.clientOrderId == b.clientOrderId ==> a.seqNo == b.seqNo
  }

  /** With agreeing acknowledgements the first one says what they all say. */
  lemma {:induction false} ArrivalIsWhatAcksSay(lines: seq<OutputLine>)
    requires AcksAgree(lines)
    ensures forall id :: id in ArrivalMap(lines) ==> AckLine(id, ArrivalMap(lines)[id]) in lines
    ensures forall id, s :: AckLine(id, s) in lines ==> id in ArrivalMap(lines) && ArrivalMap(lines)[id] == s
  {
    if lines != [] {
      var n := |lines| - 1;
      assert lines == lines[..n] + [lines[n]];
      ArrivalIsWhatAcksSay(lines[..n]);
    }
  }

  // ----- reading fills -----

  function AllFills(lines: seq<OutputLine>): seq<ActualFill> {
    if lines == [] then []
    else
      var fills := AllFills(lines[..|lines| - 1]);
      match lines[|lines| - 1]
      case FillLine(s, f) => fills + [ActualFill(s, f)]
      case _ => fills
  }

  /** What makes two reports the same report. */
  datatype Identity = BySeq(engineSeq: nat) | ByContent(fill: Fill)

  function IdentityOf(a: ActualFill): Identity {
    if a.engineSeq.Some? then BySeq(a.engineSeq.value) else ByContent(a.fill)
  }

  predicate Seen(fills: seq<ActualFill>, id: Identity) {
    exists i :: 0 <= i < |fills| && IdentityOf(fills[i]) == id
  }

  /** Indices of the reports whose identity has not been seen before. */
  function FirstSeen(fills: seq<ActualFill>): (idx: seq<nat>)
    ensures forall k :: 0 <= k < |idx| ==> idx[k] < |fills|
  {
    if fills == [] then []
    else
      var n := |fills| - 1;
      FirstSeen(fills[..n]) + (if Seen(fills[..n], IdentityOf(fills[n])) then [] else [n])
  }

  predicate AllSequenced(fills: seq<ActualFill>, idx: seq<nat>) {
    forall k :: 0 <= k < |idx| && idx[k] < |fills| ==> fills[idx[k]].engineSeq.Some?
  }

  function BySequence(fills: seq<ActualFill>): nat -> Rank {
    (i: nat) => Rank(if i < |fills| && fills[i].engineSeq.Some? then fills[i].engineSeq.value else 0, 0, 0)
  }

  function DedupedIdx(fills: seq<ActualFill>): seq<nat> {
    var idx := FirstSeen(fills);
    if AllSequenced(fills, idx) then StableSort(idx, BySequence(fills)) else idx
  }

  lemma AllFillsStep(lines: seq<OutputLine>, i: nat)
    requires i < |lines|
    ensures AllFills(lines[..i + 1]) == AllFills(lines[..i]) + if lines[i].FillLine? then [ActualFill(lines[i].engineSeq, lines[i].fill)] else []
  {
    assert lines[..i + 1][..i] == lines[..i];
  }

  method ReadActualFills(lines: seq<OutputLine>) returns (fills: seq<ActualFill>, idx: seq<nat>)
    ensures fills == AllFills(lines) && idx == DedupedIdx(fills)
  {
    fills, idx := [], [];
    var seenSeq: set<nat> := {};
    var seenKey: set<Fill> := {};
    for i := 0 to |lines|
      invariant fills == AllFills(lines[..i]) && idx == FirstSeen(fills)
      invariant forall s :: s in seenSeq <==> Seen(fills, BySeq(s))
      invariant forall f :: f in seenKey <==> Seen(fills, ByContent(f))
    {
      hide Seen, FirstSeen;
      AllFillsStep(lines, i);
      match lines[i]
      case FillLine(s, f) =>
        var isNew;
        if s.Some? {
          isNew := s.value !in seenSeq;
          seenSeq := seenSeq + {s.value};
        } else {
          isNew := f !in seenKey;
          seenKey := seenKey + {f};
        }
        SeenStep(fills, ActualFill(s, f));
        var at := |fills|;
        fills := fills + [ActualFill(s, f)];
        if isNew { idx := idx + [at]; }
      case _ =>
    }
    assert lines[..|lines|] == lines;
    if forall k :: 0 <= k < |idx| ==> fills[idx[k]].engineSeq.Some? {
      idx := StableSort(idx, BySequence(fills));
    }
  }

  lemma SeenStep(fills: seq<ActualFill>, a: ActualFill)
    ensures forall id :: Seen(fills + [a], id) <==> Seen(fills, id) || IdentityOf(a) == id
    ensures FirstSeen(fills + [a]) == FirstSeen(fills) + (if Seen(fills, IdentityOf(a)) then [] else [|fills|])
  {
    var all := fills + [a];
    assert all[..|fills|] == fills;
    forall id ensures Seen(all, id) <==> Seen(fills, id) || IdentityOf(a) == id {
      if Seen(fills, id) {
        var i :| 0 <= i < |fills| && IdentityOf(fills[i]) == id;
        assert all[i] == fills[i];
      }
      assert all[|fills|] == a;
    }
  }

  /** Two reports with one number, or two without a number of one trade. */
  predicate SameReport(a: ActualFill, b: ActualFill) {
    a.engineSeq == b.engineSeq && (a.engineSeq == None ==> a.fill == b.fill)
  }

  lemma {:induction false} FirstSeenIff(fills: seq<ActualFill>, i: nat)
    requires i < |fills|
    ensures i in FirstSeen(fills) <==> forall j :: 0 <= j < i ==> !SameReport(fills[j], fills[i])
  {
    var n := |fills| - 1;
    var pre := fills[..n];
    assert forall j :: 0 <= j < n ==> pre[j] == fills[j];
    if i < n {
      hide Seen;
      FirstSeenIff(pre, i);
    } else {
      assert Seen(pre, IdentityOf(fills[n])) <==> exists j :: 0 <= j < n && IdentityOf(pre[j]) == IdentityOf(fills[n]);
    }
  }

  lemma {:induction false} FirstSeenIncreases(fills: seq<ActualFill>)
    ensures forall k, m :: 0 <= k < m < |FirstSeen(fills)| ==> FirstSeen(fills)[k] < FirstSeen(fills)[m]
  {
    hide Seen;
    if fills != [] { FirstSeenIncreases(fills[..|fills| - 1]); }
  }

  /**
   A report is kept exactly when no earlier one is the same. What is kept stays in
   file order if any of it has no number, and otherwise comes in the order of the
   numbers.
   */
  lemma KeptIff(fills: seq<ActualFill>, i: nat)
    requires i < |fills|
    ensures Indices(fills, DedupedIdx(fills))
    ensures i in DedupedIdx(fills) <==> forall j :: 0 <= j < i ==> !SameReport(fills[j], fills[i])
    ensures var idx := DedupedIdx(fills);
      if forall k :: 0 <= k < |idx| ==> fills[idx[k]].engineSeq.Some?
      then forall k, m :: 0 <= k < m < |idx| ==> fills[idx[k]].engineSeq.value < fills[idx[m]].engineSeq.value
      else forall k, m :: 0 <= k < m < |idx| ==> idx[k] < idx[m]
  {
    FirstSeenIff(fills, i);
    DedupedIndices(fills);
    KeptInOrder(fills);
    hide DedupedIdx, FirstSeen, SameReport;
  }

  lemma SortedBySequence(fills: seq<ActualFill>)
    requires AllSequenced(fills, FirstSeen(fills))
    ensures var idx := DedupedIdx(fills);
      && Indices(fills, idx) && NoRepetition(idx)
      && (forall k :: 0 <= k < |idx| ==> fills[idx[k]].engineSeq.Some? && idx[k] in FirstSeen(fills))
      && (forall k, m :: 0 <= k < m < |idx| ==> fills[idx[k]].engineSeq.value <= fills[idx[m]].engineSeq.value)
  {
    hide FirstSeen, StableSort;
    DedupedIndices(fills);
    var first: seq<nat> := FirstSeen(fills);
    var idx: seq<nat> := DedupedIdx(fills);
    StableSortSorted<nat>(first, BySequence(fills));
    StableSortMultiset<nat>(first, BySequence(fills));
    FirstSeenIncreases(fills);
    NoRepetitionReordered<nat>(first, idx);
    forall k | 0 <= k < |idx| ensures idx[k] in first && fills[idx[k]].engineSeq.Some? {
      assert idx[k] in idx;
      var m :| 0 <= m < |first| && first[m] == idx[k];
    }
    forall k, m | 0 <= k < m < |idx| ensures fills[idx[k]].engineSeq.value <= fills[idx[m]].engineSeq.value {
      assert !Less(BySequence(fills)(idx[m]), BySequence(fills)(idx[k]));
    }
  }

  lemma KeptInOrder(fills: seq<ActualFill>)
    ensures Indices(fills, DedupedIdx(fills))
    ensures var idx := DedupedIdx(fills);
      if forall k :: 0 <= k < |idx| ==> fills[idx[k]].engineSeq.Some?
      then forall k, m :: 0 <= k < m < |idx| ==> fills[idx[k]].engineSeq.value < fills[idx[m]].engineSeq.value
      else forall k, m :: 0 <= k < m < |idx| ==> idx[k] < idx[m]
  {
    DedupedIndices(fills);
    var idx: seq<nat> := DedupedIdx(fills);
    if AllSequenced(fills, FirstSeen(fills)) {
      SortedBySequence(fills);
      hide FirstSeen, DedupedIdx, AllSequenced;
      forall k, m | 0 <= k < m < |idx| ensures fills[idx[k]].engineSeq.value < fills[idx[m]].engineSeq.value {
        NumbersDiffer(fills, idx[k], idx[m]);
      }
    } else {
      assert idx == FirstSeen(fills);
      FirstSeenIncreases(fills);
      hide FirstSeen, DedupedIdx;
    }
  }

  lemma NumbersDiffer(fills: seq<ActualFill>, a: nat, b: nat)
    requires a in FirstSeen(fills) && b in FirstSeen(fills) && a != b && a < |fills| && b < |fills|
    requires fills[a].engineSeq.Some?
    ensures fills[a].engineSeq != fills[b].engineSeq
  {
    FirstSeenIff(fills, a);
    FirstSeenIff(fills, b);
    hide FirstSeen;
    assert if a < b then !SameReport(fills[a], fills[b]) else !SameReport(fills[b], fills[a]);
  }

  /** `fills` are the fill lines of the file, found at the positions `at`. */
  ghost predicate FoundAt(lines: seq<OutputLine>, fills: seq<ActualFill>, at: seq<nat>) {
    && |at| == |fills|
    && (forall k :: 0 <= k < |at| ==> at[k] < |lines| && lines[at[k]] == FillLine(fills[k].engineSeq, fills[k].fill))
    && (forall k, m :: 0 <= k < m < |at| ==> at[k] < at[m])
    && (forall i: nat :: i < |lines| && lines[i].FillLine? ==> i in at)
  }

  lemma FoundOneMore(lines: seq<OutputLine>, fills: seq<ActualFill>, at: seq<nat>, s: Option<nat>, f: Fill)
    requires FoundAt(lines, fills, at)
    ensures FoundAt(lines + [FillLine(s, f)], fills + [ActualFill(s, f)], at + [|lines|])
  {
    var more := at + [|lines|];
    assert more[|at|] == |lines|;
    forall i: nat | i < |lines| && lines[i].FillLine? ensures i in more {
      var k :| 0 <= k < |at| && at[k] == i;
      assert more[k] == i;
    }
  }

  lemma FoundNoMore(lines: seq<OutputLine>, fills: seq<ActualFill>, at: seq<nat>, line: OutputLine)
    requires FoundAt(lines, fills, at) && !line.FillLine?
    ensures FoundAt(lines + [line], fills, at)
  {
  }

  /** The reports are the fill lines, all of them and in order. */
  lemma {:induction false} ReportsAreFillLines(lines: seq<OutputLine>) returns (at: seq<nat>)
    ensures FoundAt(lines, AllFills(lines), at)
  {
    at := [];
    if lines != [] {
      hide FoundAt;
      var n := |lines| - 1;
      at := ReportsAreFillLines(lines[..n]);
      assert lines == lines[..n] + [lines[n]];
      match lines[n]
      case FillLine(s, f) =>
        FoundOneMore(lines[..n], AllFills(lines[..n]), at, s, f);
        at := at + [n];
      case _ => FoundNoMore(lines[..n], AllFills(lines[..n]), at, lines[n]);
    }
  }

  function Pick(fills: seq<ActualFill>, idx: seq<nat>): (r: seq<ActualFill>)
    requires Indices(fills, idx)
    ensures |r| == |idx| && forall i :: 0 <= i < |r| ==> r[i] == fills[idx[i]]
  {
    seq(|idx|, i requires 0 <= i < |idx| => fills[idx[i]])
  }

  lemma DedupedIndices(fills: seq<ActualFill>)
    ensures Indices(fills, DedupedIdx(fills))
    ensures forall i :: i in DedupedIdx(fills) <==> i in FirstSeen(fills)
  {
    var idx := FirstSeen(fills);
    StableSortMultiset(idx, BySequence(fills));
    if AllSequenced(fills, idx) {
      SameMultisetSameLength(StableSort(idx, BySequence(fills)), idx);
      forall k | 0 <= k < |DedupedIdx(fills)| ensures DedupedIdx(fills)[k] < |fills| {
        assert DedupedIdx(fills)[k] in idx;
      }
    }
  }

  function Deduped(fills: seq<ActualFill>): seq<ActualFill> {
    DedupedIndices(fills);
    Pick(fills, DedupedIdx(fills))
  }

  // ----- the verdict -----

  predicate HasOrders(events: seq<Event>) {
    exists i :: 0 <= i < |events| && events[i].kind.Submit?
  }

  function FillOnly(fills: seq<ActualFill>): (r: seq<Fill>)
    ensures |r| == |fills| && forall i :: 0 <= i < |r| ==> r[i] == fills[i].fill
  {
    seq(|fills|, i requires 0 <= i < |fills| => fills[i].fill)
  }

  /** The whole verdict, without its reasons. */
  ghost predicate Accepts(events: seq<Event>, lines: seq<OutputLine>) {
    var ordered := InEngineOrder(events, ArrivalMap(lines));
    var fills := AllFills(lines);
    && HasOrders(events)
    && multiset(ExpectedFills(ordered)) == multiset(FillOnly(Deduped(fills)))
    && Clean(ordered, fills, Deduped(fills))
  }

  datatype Report =
    | NoBenchmarkEvents
    | Passed(fillsChecked: nat)
    | Flagged(primary: Violation, extra: seq<Violation>)
    | DiffFailed(firstBadSeq: nat, difference: Difference, violations: seq<Violation>)

  /** A passing diff with violations is demoted; a failing diff keeps its own reason. */
  method CompareFills(expected: seq<Fill>, fills: seq<ActualFill>, idx: seq<nat>, violations: seq<Violation>) returns (r: Report)
    requires Indices(fills, idx)
    ensures r.Passed? <==> multiset(expected) == multiset(Selected(fills, idx)) && violations == []
    ensures r.Flagged? <==> multiset(expected) == multiset(Selected(fills, idx)) && violations != []
    ensures r.Flagged? ==> r.extra == violations && r.primary == violations[0]
    ensures r.DiffFailed? ==> Explains(expected, Selected(fills, idx), r.firstBadSeq, r.difference) && r.violations == violations
    ensures !r.NoBenchmarkEvents?
  {
    var diff := Diff(expected, fills, idx);
    match diff
    case Same(n) => return if violations == [] then Passed(n) else Flagged(violations[0], violations);
    case Differs(n, d) => return DiffFailed(n, d, violations);
  }

  /** A reordered file is numbered from 1; an untouched one keeps the numbers it was read with. */
  lemma EngineOrderIncreases(events: seq<Event>, accept: map<string, nat>)
    requires LinesIncrease(events) && WithinI64(events)
    ensures LinesIncrease(InEngineOrder(events, accept)) && WithinI64(InEngineOrder(events, accept))
  {
    if accept != map[] && forall ev :: ev in events ==> Sequenced(ev, accept) {
      var sorted := EngineOrderIsSortedPermutation(events, accept);
      SameMultisetSameLength(sorted, events);
      var ordered := InEngineOrder(events, accept);
      forall i | 0 <= i < |ordered| && ordered[i].kind.Submit? ensures ordered[i].kind.order.qty <= I64_MAX {
        assert sorted[i] in events;
      }
    }
  }

  method Validate(events: seq<Event>, lines: seq<OutputLine>, shards: nat) returns (report: Report)
    requires LinesIncrease(events) && WithinI64(events)
    ensures report.Passed? <==> Accepts(events, lines)
    ensures report.NoBenchmarkEvents? <==> forall i :: 0 <= i < |events| ==> !events[i].kind.Submit?
  {
    if !exists i :: 0 <= i < |events| && events[i].kind.Submit? { return NoBenchmarkEvents; }
    var accept := ReadArrivalOrder(lines);
    var ordered := OrderByEngineSeq(events, accept);
    EngineOrderIncreases(events, accept);
    var expected := ReplayExpectedFills(ordered, shards);
    var fills, idx := ReadActualFills(lines);
    DedupedIndices(fills);
    var violations := Detect(ordered, fills, Pick(fills, idx));
    assert Selected(fills, idx) == FillOnly(Deduped(fills));
    report := CompareFills(expected, fills, idx, violations);
  }
}
