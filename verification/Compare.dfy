/** The order-insensitive comparison of expected and reported fills. */
module Compare {
  import opened Types

  /** A reported fill; its place in the engine's sequence may be missing. */
  datatype ActualFill = ActualFill(engineSeq: Option<nat>, fill: Fill)

  datatype Difference =
    | PriceTimePriorityViolation(expected: Fill, actual: Fill)
    | MissingFill(missing: Fill)
    | UnexpectedFill(surplus: Fill)

  datatype DiffResult =
    | Same(fillsChecked: nat)
    | Differs(firstBadSeq: nat, difference: Difference)

  predicate Indices(fills: seq<ActualFill>, idx: seq<nat>) {
    forall i :: 0 <= i < |idx| ==> idx[i] < |fills|
  }

  /** The fills an index list selects, in its order. */
  function Selected(fills: seq<ActualFill>, idx: seq<nat>): (r: seq<Fill>)
    requires Indices(fills, idx)
    ensures |r| == |idx|
    ensures forall i :: 0 <= i < |r| ==> r[i] == fills[idx[i]].fill
  {
    seq(|idx|, i requires 0 <= i < |idx| => fills[idx[i]].fill)
  }

  function Count(counts: map<Fill, nat>, f: Fill): nat {
    if f in counts then counts[f] else 0
  }

  /** `counts` is what is left of `all` once `taken` is taken out. */
  ghost predicate Remaining(counts: map<Fill, nat>, taken: multiset<Fill>, all: multiset<Fill>) {
    forall f :: Count(counts, f) + taken[f] == all[f]
  }

  method FillCounts(fills: seq<ActualFill>, idx: seq<nat>) returns (counts: map<Fill, nat>)
    requires Indices(fills, idx)
    ensures Remaining(counts, multiset{}, multiset(Selected(fills, idx)))
  {
    counts := map[];
    ghost var actual := Selected(fills, idx);
    for i := 0 to |idx|
      invariant Remaining(counts, multiset{}, multiset(actual[..i]))
    {
      var key := fills[idx[i]].fill;
      counts := counts[key := Count(counts, key) + 1];
      assert actual[..i + 1] == actual[..i] + [actual[i]];
    }
    assert actual[..|idx|] == actual;
  }

  method DecrementCount(counts: map<Fill, nat>, key: Fill) returns (found: bool, counts': map<Fill, nat>)
    ensures found <==> Count(counts, key) > 0
    ensures forall f :: Count(counts', f) == if found && f == key then Count(counts, f) - 1 else Count(counts, f)
  {
    if key !in counts { return false, counts; }
    if counts[key] == 0 { return false, counts; }
    return true, counts[key := counts[key] - 1];
  }

  /** The expected fills up to and including `k` are among the actual ones. */
  ghost predicate Covered(expected: seq<Fill>, actual: seq<Fill>, k: int)
    requires -1 <= k < |expected|
  {
    multiset(expected[..k + 1]) <= multiset(actual)
  }

  ghost predicate Lookalike(a: Fill, b: Fill) {
    a.price == b.price && a.qty == b.qty
  }

  /** `a` is the first fill with the price and quantity of `e`. */
  ghost predicate FirstLookalike(actual: seq<Fill>, e: Fill, a: Fill) {
    exists i :: 0 <= i < |actual| && actual[i] == a && Lookalike(a, e) && forall j :: 0 <= j < i ==> !Lookalike(actual[j], e)
  }

  /** `f` is the first actual fill reported more often than expected. */
  ghost predicate FirstSurplus(expected: seq<Fill>, actual: seq<Fill>, f: Fill) {
    exists i :: 0 <= i < |actual| && actual[i] == f && multiset(actual)[f] > multiset(expected)[f]
      && forall j :: 0 <= j < i ==> multiset(actual)[actual[j]] == multiset(expected)[actual[j]]
  }

  /** What the first difference is, said without the counting that finds it. */
  ghost predicate Explains(expected: seq<Fill>, actual: seq<Fill>, firstBadSeq: nat, d: Difference) {
    if firstBadSeq == |expected| + 1 then
      && multiset(expected) < multiset(actual)
      && d.UnexpectedFill?
      && FirstSurplus(expected, actual, d.surplus)
    else
      && 1 <= firstBadSeq <= |expected|
      && Covered(expected, actual, firstBadSeq - 2) && !Covered(expected, actual, firstBadSeq - 1)
      && match d
         case PriceTimePriorityViolation(e, a) =>
           e == expected[firstBadSeq - 1] && FirstLookalike(actual, e, a)
         case MissingFill(e) => e == expected[firstBadSeq - 1] && forall a :: a in actual ==> !Lookalike(a, e)
         case UnexpectedFill(_) => false
  }

  /**
   A missing fill has the first price and quantity nobody reported as expected; a
   reported fill with that price and quantity but other orders broke priority.
   */
  lemma DifferenceMeans(expected: seq<Fill>, actual: seq<Fill>, firstBadSeq: nat, d: Difference)
    requires Explains(expected, actual, firstBadSeq, d)
    ensures match d
      case PriceTimePriorityViolation(e, a) => e in expected && a in actual && a.price == e.price && a.qty == e.qty
      case MissingFill(e) => e in expected && forall a :: a in actual ==> a.price != e.price || a.qty != e.qty
      case UnexpectedFill(f) => multiset(actual)[f] > multiset(expected)[f]
  {
    hide Covered;
  }

  method FindLookalike(e: Fill, fills: seq<ActualFill>, idx: seq<nat>) returns (r: Option<Fill>)
    requires Indices(fills, idx)
    ensures match r
      case Some(a) => FirstLookalike(Selected(fills, idx), e, a)
      case None => forall a :: a in Selected(fills, idx) ==> !Lookalike(a, e)
  {
    ghost var actual := Selected(fills, idx);
    for i := 0 to |idx|
      invariant forall j :: 0 <= j < i ==> !Lookalike(actual[j], e)
    {
      var candidate := fills[idx[i]].fill;
      assert actual[i] == candidate;
      if candidate.price == e.price && candidate.qty == e.qty { return Some(candidate); }
    }
    return None;
  }

  method FindSurplus(remaining: map<Fill, nat>, ghost expected: seq<Fill>, fills: seq<ActualFill>, idx: seq<nat>) returns (r: Option<Fill>)
    requires Indices(fills, idx)
    requires Remaining(remaining, multiset(expected), multiset(Selected(fills, idx)))
    ensures match r
      case Some(f) => FirstSurplus(expected, Selected(fills, idx), f)
      case None => forall f :: f in Selected(fills, idx) ==> multiset(Selected(fills, idx))[f] == multiset(expected)[f]
  {
    ghost var actual := Selected(fills, idx);
    for i := 0 to |idx|
      invariant forall j :: 0 <= j < i ==> multiset(actual)[actual[j]] == multiset(expected)[actual[j]]
    {
      var candidate := fills[idx[i]].fill;
      assert actual[i] == candidate;
      var found, rest := DecrementCount(remaining, candidate);
      if found { return Some(candidate); }
    }
    return None;
  }

  /** Nothing is reported exactly when the two are equal as multisets. */
  method Diff(expected: seq<Fill>, fills: seq<ActualFill>, idx: seq<nat>) returns (r: DiffResult)
    requires Indices(fills, idx)
    ensures r.Same? <==> multiset(expected) == multiset(Selected(fills, idx))
    ensures r.Same? ==> r.fillsChecked == |expected|
    ensures r.Differs? ==> Explains(expected, Selected(fills, idx), r.firstBadSeq, r.difference)
  {
    hide Remaining, Covered, FirstLookalike, FirstSurplus;
    ghost var actual := Selected(fills, idx);
    if |expected| == |idx| && forall i :: 0 <= i < |expected| ==> expected[i] == fills[idx[i]].fill {
      assert expected == actual;
      return Same(|expected|);
    }

    var remaining := FillCounts(fills, idx);
    assert multiset(expected[..0]) == multiset{};
    for k := 0 to |expected|
      invariant Remaining(remaining, multiset(expected[..k]), multiset(actual))
    {
      ghost var before := remaining;
      var found;
      found, remaining := DecrementCount(remaining, expected[k]);
      TakeOne(expected, actual, k, before, remaining, found);
      if found { continue; }
      var candidate := FindLookalike(expected[k], fills, idx);
      if candidate.Some? {
        return Differs(k + 1, PriceTimePriorityViolation(expected[k], candidate.value));
      }
      return Differs(k + 1, MissingFill(expected[k]));
    }

    assert expected[..|expected|] == expected;
    var surplus := FindSurplus(remaining, expected, fills, idx);
    if surplus.Some? {
      CoveredSoFar(expected, actual, remaining, |expected|);
      SurplusIsStrict(expected, actual, surplus.value);
      return Differs(|expected| + 1, UnexpectedFill(surplus.value));
    }
    CoveredSoFar(expected, actual, remaining, |expected|);
    NothingLeft(expected, actual);
    return Same(|expected|);
  }

  /** One expected fill is matched by an actual one, or the prefix up to it is not covered. */
  lemma TakeOne(expected: seq<Fill>, actual: seq<Fill>, k: nat, before: map<Fill, nat>, after: map<Fill, nat>, found: bool)
    requires k < |expected| && Remaining(before, multiset(expected[..k]), multiset(actual))
    requires found <==> Count(before, expected[k]) > 0
    requires forall f :: Count(after, f) == if found && f == expected[k] then Count(before, f) - 1 else Count(before, f)
    ensures if found then Remaining(after, multiset(expected[..k + 1]), multiset(actual))
            else Covered(expected, actual, k - 1) && !Covered(expected, actual, k) && multiset(expected) != multiset(actual)
  {
    assert expected[..k + 1] == expected[..k] + [expected[k]];
    if !found {
      CoveredSoFar(expected, actual, before, k);
      NotCovered(expected, actual, k);
    }
  }

  lemma CoveredSoFar(expected: seq<Fill>, actual: seq<Fill>, counts: map<Fill, nat>, k: nat)
    requires k <= |expected| && Remaining(counts, multiset(expected[..k]), multiset(actual))
    ensures Covered(expected, actual, k - 1)
    ensures k == |expected| ==> multiset(expected) <= multiset(actual)
  {
    assert expected[..|expected|] == expected;
  }

  lemma NotCovered(expected: seq<Fill>, actual: seq<Fill>, k: nat)
    requires k < |expected| && multiset(expected[..k + 1])[expected[k]] > multiset(actual)[expected[k]]
    ensures !Covered(expected, actual, k)
    ensures multiset(expected) != multiset(actual)
  {
    assert expected == expected[..k + 1] + expected[k + 1..];
  }

  lemma SurplusIsStrict(expected: seq<Fill>, actual: seq<Fill>, f: Fill)
    requires multiset(expected) <= multiset(actual) && FirstSurplus(expected, actual, f)
    ensures multiset(expected) < multiset(actual)
  {
  }

  lemma NothingLeft(expected: seq<Fill>, actual: seq<Fill>)
    requires multiset(expected) <= multiset(actual)
    requires forall j :: 0 <= j < |actual| ==> multiset(actual)[actual[j]] == multiset(expected)[actual[j]]
    ensures multiset(expected) == multiset(actual)
  {
    forall f ensures multiset(expected)[f] == multiset(actual)[f] {
      if f in multiset(actual) {
        assert f in actual;
      }
    }
  }

  /** The least uncovered prefix is unique, so the number reported is the only possible one. */
  lemma FirstBadSeqIsUnique(expected: seq<Fill>, actual: seq<Fill>, n1: nat, d1: Difference, n2: nat, d2: Difference)
    requires Explains(expected, actual, n1, d1) && Explains(expected, actual, n2, d2)
    ensures n1 == n2
  {
    if n1 < n2 {
      CoverShrinks(expected, actual, n1 - 1, if n2 == |expected| + 1 then |expected| - 1 else n2 - 2);
    } else if n2 < n1 {
      CoverShrinks(expected, actual, n2 - 1, if n1 == |expected| + 1 then |expected| - 1 else n1 - 2);
    }
  }

  lemma CoverShrinks(expected: seq<Fill>, actual: seq<Fill>, k: int, m: int)
    requires -1 <= k <= m < |expected|
    requires Covered(expected, actual, m) || (m == |expected| - 1 && multiset(expected) <= multiset(actual))
    ensures Covered(expected, actual, k)
  {
    assert expected[..m + 1] == expected[..k + 1] + expected[k + 1..m + 1];
    assert expected[..|expected|] == expected;
  }
}
