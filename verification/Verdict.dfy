/** The verdict depends on which lines were written, not on their order or number. */
module Verdict {
  import opened Types
  import opened Sequences
  import opened Compare
  import opened Replay
  import opened EdgeCases
  import opened Validator

  // ----- the deduplicated list is a function of the set of reports -----

  ghost predicate DistinctIdentities(fills: seq<ActualFill>, idx: seq<nat>)
    requires Indices(fills, idx)
  {
    forall k, m :: 0 <= k < m < |idx| ==> IdentityOf(fills[idx[k]]) != IdentityOf(fills[idx[m]])
  }

  lemma {:induction false} FirstSeenDistinct(fills: seq<ActualFill>)
    ensures DistinctIdentities(fills, FirstSeen(fills))
  {
    if fills != [] {
      var n := |fills| - 1;
      FirstSeenDistinct(fills[..n]);
      var before, idx := FirstSeen(fills[..n]), FirstSeen(fills);
      forall k, m | 0 <= k < m < |idx| ensures IdentityOf(fills[idx[k]]) != IdentityOf(fills[idx[m]]) {
        assert idx[k] == before[k] && fills[..n][before[k]] == fills[before[k]];
        assert Seen(fills[..n], IdentityOf(fills[before[k]]));
        if m < |before| {
          assert idx[m] == before[m] && fills[..n][before[m]] == fills[before[m]];
          assert IdentityOf(fills[..n][before[k]]) != IdentityOf(fills[..n][before[m]]);
        } else {
          assert idx[m] == n && !Seen(fills[..n], IdentityOf(fills[n]));
        }
      }
    }
  }

  lemma {:induction false} FirstSeenComplete(fills: seq<ActualFill>, i: nat) returns (k: nat)
    requires i < |fills|
    ensures k < |FirstSeen(fills)| && IdentityOf(fills[FirstSeen(fills)[k]]) == IdentityOf(fills[i])
  {
    var n := |fills| - 1;
    if i < n {
      k := FirstSeenComplete(fills[..n], i);
    } else if Seen(fills[..n], IdentityOf(fills[n])) {
      var j :| 0 <= j < n && IdentityOf(fills[..n][j]) == IdentityOf(fills[n]);
      k := FirstSeenComplete(fills[..n], j);
    } else {
      k := |FirstSeen(fills)| - 1;
    }
  }

  ghost predicate EveryFillSequenced(fills: seq<ActualFill>) {
    forall a :: a in fills ==> a.engineSeq.Some?
  }

  function SeqRank(): ActualFill -> Rank {
    (a: ActualFill) => Rank(if a.engineSeq.Some? then a.engineSeq.value else 0, 0, 0)
  }

  lemma DedupedSorted(fills: seq<ActualFill>)
    requires EveryFillSequenced(fills)
    ensures StrictlySorted(Deduped(fills), SeqRank())
  {
    var idx, rank := FirstSeen(fills), BySequence(fills);
    FirstSeenDistinct(fills);
    assert forall k :: 0 <= k < |idx| ==> fills[idx[k]] in fills;
    forall k, m | 0 <= k < m < |idx| ensures rank(idx[k]) != rank(idx[m]) {
      assert fills[idx[k]] in fills && fills[idx[m]] in fills;
      assert IdentityOf(fills[idx[k]]) != IdentityOf(fills[idx[m]]);
    }
    DistinctRanksSortStrictly(idx, rank);
    DedupedIndices(fills);
    var sorted, d := DedupedIdx(fills), Deduped(fills);
    forall i, j | 0 <= i < j < |d| ensures Less(SeqRank()(d[i]), SeqRank()(d[j])) {
      assert Less(rank(sorted[i]), rank(sorted[j]));
    }
  }

  lemma DedupedMembers(fills: seq<ActualFill>)
    requires EveryFillSequenced(fills) && Consistent(fills)
    ensures forall a :: a in Deduped(fills) <==> a in fills
  {
    DedupedIndices(fills);
    var d, idx := Deduped(fills), DedupedIdx(fills);
    forall a | a in d ensures a in fills {
      var k :| 0 <= k < |d| && d[k] == a;
      assert fills[idx[k]] in fills;
    }
    forall a | a in fills ensures a in d {
      var i :| 0 <= i < |fills| && fills[i] == a;
      var k := FirstSeenComplete(fills, i);
      var j := FirstSeen(fills)[k];
      SameSeqSameFill(fills, i, j);
      assert j in idx;
      var m :| 0 <= m < |idx| && idx[m] == j;
      assert d[m] == a;
    }
  }

  lemma SameSeqSameFill(fills: seq<ActualFill>, i: nat, j: nat)
    requires i < |fills| && j < |fills| && EveryFillSequenced(fills) && Consistent(fills)
    requires IdentityOf(fills[i]) == IdentityOf(fills[j])
    ensures fills[i] == fills[j]
  {
    assert fills[i] in fills && fills[j] in fills;
  }

  lemma ConsistentByMembers(f1: seq<ActualFill>, f2: seq<ActualFill>)
    requires forall a :: a in f2 ==> a in f1
    requires Consistent(f1)
    ensures Consistent(f2)
  {
    forall i, j | 0 <= i < j < |f2| && f2[i].engineSeq.Some? && f2[i].engineSeq == f2[j].engineSeq
      ensures f2[i].fill == f2[j].fill
    {
      assert f2[i] in f1 && f2[j] in f1;
      var x :| 0 <= x < |f1| && f1[x] == f2[i];
      var y :| 0 <= y < |f1| && f1[y] == f2[j];
    }
  }

  lemma DedupedByMembers(f1: seq<ActualFill>, f2: seq<ActualFill>)
    requires forall a :: a in f1 <==> a in f2
    requires EveryFillSequenced(f1) && Consistent(f1)
    ensures Consistent(f2) && Deduped(f1) == Deduped(f2)
  {
    ConsistentByMembers(f1, f2);
    DedupedSorted(f1);
    DedupedSorted(f2);
    DedupedMembers(f1);
    DedupedMembers(f2);
    SameMembersSameList(Deduped(f1), Deduped(f2), SeqRank());
  }

  // ----- lines -----

  ghost predicate SameLines(l1: seq<OutputLine>, l2: seq<OutputLine>) {
    forall l :: l in l1 <==> l in l2
  }

  lemma {:induction false} FillsAreFillLines(lines: seq<OutputLine>)
    ensures forall a :: a in AllFills(lines) <==> FillLine(a.engineSeq, a.fill) in lines
  {
    if lines != [] {
      var n := |lines| - 1;
      FillsAreFillLines(lines[..n]);
      assert lines == lines[..n] + [lines[n]];
      assert forall l :: l in lines <==> l in lines[..n] || l == lines[n];
    }
  }

  lemma ArrivalByMembers(l1: seq<OutputLine>, l2: seq<OutputLine>)
    requires SameLines(l1, l2) && AcksAgree(l1)
    ensures ArrivalMap(l1) == ArrivalMap(l2)
  {
    assert AcksAgree(l2);
    ArrivalIsWhatAcksSay(l1);
    ArrivalIsWhatAcksSay(l2);
    forall id ensures id in ArrivalMap(l1) <==> id in ArrivalMap(l2) {
      if id in ArrivalMap(l1) { assert AckLine(id, ArrivalMap(l1)[id]) in l2; }
      if id in ArrivalMap(l2) { assert AckLine(id, ArrivalMap(l2)[id]) in l1; }
    }
    forall id | id in ArrivalMap(l1) ensures ArrivalMap(l1)[id] == ArrivalMap(l2)[id] {
      assert AckLine(id, ArrivalMap(l1)[id]) in l2;
    }
  }

  /**
   Permuting the output lines, repeating them or dropping repetitions leaves the
   answer as it is: either the reports agree and give one list, or they disagree
   and are flagged both times.
   */
  lemma VerdictIsInvariant(events: seq<Event>, l1: seq<OutputLine>, l2: seq<OutputLine>)
    requires SameLines(l1, l2) && AcksAgree(l1)
    requires EveryFillSequenced(AllFills(l1))
    ensures Accepts(events, l1) <==> Accepts(events, l2)
  {
    ArrivalByMembers(l1, l2);
    FillsAreFillLines(l1);
    FillsAreFillLines(l2);
    var f1, f2 := AllFills(l1), AllFills(l2);
    assert forall a :: a in f1 <==> a in f2;
    hide ExpectedFills, InEngineOrder, Deduped;
    if Consistent(f1) {
      DedupedByMembers(f1, f2);
    } else if Consistent(f2) {
      ConsistentByMembers(f2, f1);
    }
  }
}
