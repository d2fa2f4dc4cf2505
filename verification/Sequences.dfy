/**
 Stable sorting, and sequences of key/value pairs seen key by key.

 The books, the replay and the validator all sort with a stable sort; two of
 the main theorems say that two computations list the same things in the same
 order, and both follow from comparing the lists one key at a time.
 */
module Sequences {

  /** Every sort of the repository compares up to three numbers in turn. */
  datatype Rank = Rank(first: int, second: int, third: int)

  predicate Less(a: Rank, b: Rank) {
    || a.first < b.first
    || (a.first == b.first && a.second < b.second)
    || (a.first == b.first && a.second == b.second && a.third < b.third)
  }

  /** Puts `x` in front of the first element it sorts before: an upper-bound insert. */
  function Insert<T>(s: seq<T>, x: T, rank: T -> Rank): (r: seq<T>)
    ensures |r| == |s| + 1
  {
    if s == [] then [x]
    else if Less(rank(x), rank(s[0])) then [x] + s
    else [s[0]] + Insert(s[1..], x, rank)
  }

  /** A stable sort: elements that tie keep the order they came in. */
  function StableSort<T>(s: seq<T>, rank: T -> Rank): (r: seq<T>)
    ensures |r| == |s|
  {
    if s == [] then []
    else Insert(StableSort(s[..|s| - 1], rank), s[|s| - 1], rank)
  }

  /** No element sorts before one that stands in front of it. */
  ghost predicate Sorted<T>(s: seq<T>, rank: T -> Rank) {
    forall i, j :: 0 <= i < j < |s| ==> !Less(rank(s[j]), rank(s[i]))
  }

  /** Each element sorts before all that follow. */
  ghost predicate StrictlySorted<T>(s: seq<T>, rank: T -> Rank) {
    forall i, j :: 0 <= i < j < |s| ==> Less(rank(s[i]), rank(s[j]))
  }

  // ----- insertion and sorting -----

  lemma StrictIsSorted<T>(s: seq<T>, rank: T -> Rank)
    requires StrictlySorted(s, rank)
    ensures Sorted(s, rank)
  {
  }

  lemma FrontMultiset<T>(x: T, s: seq<T>)
    ensures multiset([x] + s) == multiset(s) + multiset{x}
  {
  }

  lemma BackMultiset<T>(s: seq<T>, x: T)
    ensures multiset(s + [x]) == multiset(s) + multiset{x}
  {
  }

  lemma {:induction false} InsertMultiset<T>(s: seq<T>, x: T, rank: T -> Rank)
    ensures multiset(Insert(s, x, rank)) == multiset(s) + multiset{x}
  {
    hide Less;
    if s == [] || Less(rank(x), rank(s[0])) {
      FrontMultiset(x, s);
      assert [x] + [] == [x];
    } else {
      InsertMultiset(s[1..], x, rank);
      FrontMultiset(s[0], s[1..]);
      FrontMultiset(s[0], Insert(s[1..], x, rank));
      assert s == [s[0]] + s[1..];
    }
  }

  lemma {:induction false} StableSortMultiset<T>(s: seq<T>, rank: T -> Rank)
    ensures multiset(StableSort(s, rank)) == multiset(s)
  {
    if s != [] {
      var n := |s| - 1;
      StableSortMultiset(s[..n], rank);
      hide Insert;
      InsertMultiset(StableSort(s[..n], rank), s[n], rank);
      BackMultiset(s[..n], s[n]);
      assert s == s[..n] + [s[n]];
    }
  }

  /** `i` splits `s` into what `x` must not and what it must stand in front of. */
  ghost predicate Splits<T>(s: seq<T>, x: T, rank: T -> Rank, i: nat) {
    && i <= |s|
    && (forall j :: 0 <= j < i ==> !Less(rank(x), rank(s[j])))
    && (i < |s| ==> Less(rank(x), rank(s[i])))
  }

  /** Where an insert goes, found by any search that splits the sequence correctly. */
  lemma {:induction false} InsertAt<T>(s: seq<T>, x: T, rank: T -> Rank, i: nat)
    requires Splits(s, x, rank, i)
    ensures Insert(s, x, rank) == s[..i] + [x] + s[i..]
  {
    if i > 0 {
      assert Splits(s[1..], x, rank, i - 1);
      InsertAt(s[1..], x, rank, i - 1);
      assert [s[0]] + s[1..][..i - 1] == s[..i] && s[1..][i - 1..] == s[i..];
    }
  }

  lemma {:induction false} InsertionPoint<T>(s: seq<T>, x: T, rank: T -> Rank) returns (i: nat)
    ensures Splits(s, x, rank, i)
    ensures Insert(s, x, rank) == s[..i] + [x] + s[i..]
  {
    if s == [] || Less(rank(x), rank(s[0])) {
      i := 0;
    } else {
      i := InsertionPoint(s[1..], x, rank);
      assert forall j :: 1 <= j <= i ==> s[j] == s[1..][j - 1];
      i := i + 1;
    }
    InsertAt(s, x, rank, i);
  }

  lemma InsertSorted<T>(s: seq<T>, x: T, rank: T -> Rank)
    requires Sorted(s, rank)
    ensures Sorted(Insert(s, x, rank), rank)
  {
    var k := InsertionPoint(s, x, rank);
  }

  lemma InsertStrictlySorted<T>(s: seq<T>, x: T, rank: T -> Rank)
    requires StrictlySorted(s, rank)
    requires forall y :: y in s ==> rank(y) != rank(x)
    ensures StrictlySorted(Insert(s, x, rank), rank)
  {
    var k := InsertionPoint(s, x, rank);
    assert forall j :: 0 <= j < |s| ==> s[j] in s;
  }

  lemma {:induction false} StableSortSorted<T>(s: seq<T>, rank: T -> Rank)
    ensures Sorted(StableSort(s, rank), rank)
  {
    if s != [] {
      StableSortSorted(s[..|s| - 1], rank);
      InsertSorted(StableSort(s[..|s| - 1], rank), s[|s| - 1], rank);
    }
  }

  /** Sorting what is sorted already changes nothing. */
  lemma {:induction false} StableSortOfSorted<T>(s: seq<T>, rank: T -> Rank)
    requires Sorted(s, rank)
    ensures StableSort(s, rank) == s
  {
    if s != [] {
      var n := |s| - 1;
      StableSortOfSorted(s[..n], rank);
      InsertAt(s[..n], s[n], rank, n);
      assert s == s[..n] + [s[n]];
    }
  }

  /** Appending to a sorted sequence and sorting again is one upper-bound insert. */
  lemma AppendThenSort<T>(s: seq<T>, x: T, rank: T -> Rank)
    requires Sorted(s, rank)
    ensures StableSort(s + [x], rank) == Insert(s, x, rank)
  {
    StableSortOfSorted(s, rank);
    assert (s + [x])[..|s|] == s;
  }

  /** What is sorted at all is the strictly sorted list, when there is one. */
  lemma {:induction false} SortedIsStrictlySorted<T>(a: seq<T>, b: seq<T>, rank: T -> Rank)
    requires Sorted(a, rank) && StrictlySorted(b, rank)
    requires multiset(a) == multiset(b)
    ensures a == b
  {
    SameMultisetSameLength(a, b);
    if a != [] {
      SmallestFirst(b, a[0], rank);
      assert b[0] in a;
      RemoveHead(a);
      RemoveHead(b);
      TailStrictlySorted(b, rank);
      SortedIsStrictlySorted(a[1..], b[1..], rank);
      HeadAndTail(a, b);
    }
  }

  function Mapped<T, U>(s: seq<T>, f: T -> U): (r: seq<U>)
    ensures |r| == |s|
    ensures forall i :: 0 <= i < |s| ==> r[i] == f(s[i])
  {
    if s == [] then [] else [f(s[0])] + Mapped(s[1..], f)
  }

  lemma {:induction false} MappedConcat<T, U>(a: seq<T>, b: seq<T>, f: T -> U)
    ensures Mapped(a + b, f) == Mapped(a, f) + Mapped(b, f)
  {
    assert forall i :: 0 <= i < |a + b| ==> Mapped(a + b, f)[i] == (Mapped(a, f) + Mapped(b, f))[i];
  }

  /** Mapping respects reordering. */
  lemma {:induction false} MappedMultiset<T, U>(a: seq<T>, b: seq<T>, f: T -> U)
    requires multiset(a) == multiset(b)
    ensures multiset(Mapped(a, f)) == multiset(Mapped(b, f))
  {
    SameMultisetSameLength(a, b);
    if a != [] {
      var j := DropOne(a, b);
      MappedMultiset(a[1..], b[..j] + b[j + 1..], f);
      MappedMiddle(b[..j], b[j], b[j + 1..], f);
      SplitAt(b, j);
    }
  }

  lemma MappedMiddle<T, U>(p: seq<T>, x: T, q: seq<T>, f: T -> U)
    ensures multiset(Mapped(p + ([x] + q), f)) == multiset(Mapped(p + q, f)) + multiset{f(x)}
  {
    MappedConcat(p, q, f);
    MappedConcat(p, [x] + q, f);
    MappedConcat([x], q, f);
    MultisetMiddle(Mapped(p, f), f(x), Mapped(q, f));
  }

  lemma HeadAndTail<T>(a: seq<T>, b: seq<T>)
    requires a != [] && b != [] && a[0] == b[0] && a[1..] == b[1..]
    ensures a == b
  {
    assert a == [a[0]] + a[1..] && b == [b[0]] + b[1..];
  }

  lemma TailStrictlySorted<T>(a: seq<T>, rank: T -> Rank)
    requires a != [] && StrictlySorted(a, rank)
    ensures StrictlySorted(a[1..], rank)
  {
  }

  lemma SameMultisetSameLength<T>(a: seq<T>, b: seq<T>)
    requires multiset(a) == multiset(b)
    ensures |a| == |b|
    ensures forall x :: x in a <==> x in b
  {
    assert |multiset(a)| == |a| && |multiset(b)| == |b|;
    assert forall x :: x in a <==> x in multiset(a);
    assert forall x :: x in b <==> x in multiset(b);
  }

  lemma SmallestFirst<T>(a: seq<T>, x: T, rank: T -> Rank)
    requires StrictlySorted(a, rank) && x in a
    ensures x == a[0] || Less(rank(a[0]), rank(x))
  {
  }

  lemma StableSortMember<T>(s: seq<T>, rank: T -> Rank, x: T) returns (i: nat)
    requires x in StableSort(s, rank)
    ensures i < |s| && s[i] == x
  {
    StableSortMultiset(s, rank);
    assert x in multiset(StableSort(s, rank));
    assert x in multiset(s);
    i :| 0 <= i < |s| && s[i] == x;
  }

  lemma {:induction false} DistinctRanksSortStrictly<T>(s: seq<T>, rank: T -> Rank)
    requires forall i, j :: 0 <= i < j < |s| ==> rank(s[i]) != rank(s[j])
    ensures StrictlySorted(StableSort(s, rank), rank)
  {
    if s != [] {
      var n := |s| - 1;
      DistinctRanksSortStrictly(s[..n], rank);
      forall y | y in StableSort(s[..n], rank) ensures rank(y) != rank(s[n]) {
        var i := StableSortMember(s[..n], rank, y);
        assert s[i] == y;
      }
      InsertStrictlySorted(StableSort(s[..n], rank), s[n], rank);
    }
  }

  /** A strictly sorted list is determined by its members. */
  lemma {:induction false} SameMembersSameList<T>(a: seq<T>, b: seq<T>, rank: T -> Rank)
    requires StrictlySorted(a, rank) && StrictlySorted(b, rank)
    requires forall x :: x in a <==> x in b
    ensures a == b
  {
    if a != [] || b != [] {
      assert a != [] ==> a[0] in b;
      assert b != [] ==> b[0] in a;
      SmallestFirst(a, b[0], rank);
      SmallestFirst(b, a[0], rank);
      TailStrictlySorted(a, rank);
      TailStrictlySorted(b, rank);
      TailWithoutHead(a, rank);
      TailWithoutHead(b, rank);
      SameMembersSameList(a[1..], b[1..], rank);
      HeadAndTail(a, b);
    }
  }

  lemma TailWithoutHead<T>(a: seq<T>, rank: T -> Rank)
    requires a != [] && StrictlySorted(a, rank)
    ensures forall x :: x in a[1..] <==> x in a && x != a[0]
  {
    forall x ensures x in a[1..] <==> x in a && x != a[0] {
      if x in a[1..] {
        var i :| 0 <= i < |a[1..]| && a[1..][i] == x;
        assert Less(rank(a[0]), rank(a[i + 1]));
      }
    }
  }

  lemma RemoveHead<T>(s: seq<T>)
    requires s != []
    ensures multiset(s[1..]) == multiset(s) - multiset{s[0]}
  {
    assert s == [s[0]] + s[1..];
  }

  lemma RemoveAt<T>(s: seq<T>, j: nat)
    requires j < |s|
    ensures multiset(s[..j] + s[j + 1..]) == multiset(s) - multiset{s[j]}
  {
    assert s == s[..j] + ([s[j]] + s[j + 1..]);
  }

  // ----- pairs, key by key -----

  /** The values stored under `k`, in order. */
  function Under<K(==), V>(s: seq<(K, V)>, k: K): (r: seq<V>)
  {
    if s == [] then []
    else if s[0].0 == k then [s[0].1] + Under(s[1..], k)
    else Under(s[1..], k)
  }

  lemma {:induction false} UnderConcat<K, V>(a: seq<(K, V)>, b: seq<(K, V)>, k: K)
    ensures Under(a + b, k) == Under(a, k) + Under(b, k)
  {
    if a == [] {
      assert a + b == b;
    } else {
      UnderConcat(a[1..], b, k);
      var c := a + b;
      assert c[0] == a[0] && c[1..] == a[1..] + b;
    }
  }

  lemma {:induction false} UnderCount<K, V>(s: seq<(K, V)>, k: K, v: V)
    ensures multiset(s)[(k, v)] == multiset(Under(s, k))[v]
  {
    if s != [] {
      UnderCount(s[1..], k, v);
      assert s == [s[0]] + s[1..];
    }
  }

  lemma {:induction false} UnderEmpty<K, V>(s: seq<(K, V)>, k: K)
    requires forall i :: 0 <= i < |s| ==> s[i].0 != k
    ensures Under(s, k) == []
  {
    if s != [] { UnderEmpty(s[1..], k); }
  }

  lemma {:induction false} UnderAll<K, V>(s: seq<(K, V)>, k: K)
    requires forall i :: 0 <= i < |s| ==> s[i].0 == k
    ensures Under(s, k) == Values(s)
  {
    if s != [] { UnderAll(s[1..], k); }
  }

  function Values<K, V>(s: seq<(K, V)>): (r: seq<V>)
    ensures |r| == |s|
    ensures forall i :: 0 <= i < |s| ==> r[i] == s[i].1
  {
    if s == [] then [] else [s[0].1] + Values(s[1..])
  }

  lemma {:induction false} ValuesConcat<K, V>(a: seq<(K, V)>, b: seq<(K, V)>)
    ensures Values(a + b) == Values(a) + Values(b)
  {
    assert forall i :: 0 <= i < |a + b| ==> Values(a + b)[i] == (Values(a) + Values(b))[i];
  }

  /** Equal key by key, so equal up to order. */
  lemma SameUnderSameMultiset<K(!new), V(!new)>(a: seq<(K, V)>, b: seq<(K, V)>)
    requires forall k :: Under(a, k) == Under(b, k)
    ensures multiset(a) == multiset(b)
    ensures multiset(Values(a)) == multiset(Values(b))
  {
    forall p: (K, V) ensures multiset(a)[p] == multiset(b)[p] {
      UnderCount(a, p.0, p.1);
      UnderCount(b, p.0, p.1);
      assert Under(a, p.0) == Under(b, p.0);
    }
    assert multiset(a) == multiset(b);
    SameMultisetSameValues(a, b);
  }

  lemma SameValuesWithOne<K, V>(a: seq<(K, V)>, b: seq<(K, V)>, j: nat)
    requires a != [] && j < |b| && b[j] == a[0]
    requires multiset(Values(a[1..])) == multiset(Values(b[..j] + b[j + 1..]))
    ensures multiset(Values(a)) == multiset(Values(b))
  {
    hide Values;
    ValuesRemoveAt(a, 0);
    ValuesRemoveAt(b, j);
    assert a[..0] + a[1..] == a[1..];
  }

  lemma {:induction false} SameMultisetSameValues<K, V>(a: seq<(K, V)>, b: seq<(K, V)>)
    requires multiset(a) == multiset(b)
    ensures multiset(Values(a)) == multiset(Values(b))
  {
    hide Values;
    SameMultisetSameLength(a, b);
    if a == [] {
      assert a == b;
    } else {
      var j := DropOne(a, b);
      var rest := b[..j] + b[j + 1..];
      SameMultisetSameValues(a[1..], rest);
      SameValuesWithOne(a, b, j);
    }
  }

  lemma DropOne<T>(a: seq<T>, b: seq<T>) returns (j: nat)
    requires a != [] && multiset(a) == multiset(b)
    ensures j < |b| && b[j] == a[0]
    ensures multiset(a[1..]) == multiset(b[..j] + b[j + 1..])
  {
    SameMultisetSameLength(a, b);
    assert a[0] in b;
    j :| 0 <= j < |b| && b[j] == a[0];
    RemoveHead(a);
    RemoveAt(b, j);
  }

  lemma MultisetMiddle<T>(p: seq<T>, x: T, q: seq<T>)
    ensures multiset(p + ([x] + q)) == multiset(p + q) + multiset{x}
  {
  }

  lemma ValuesRemoveAt<K, V>(s: seq<(K, V)>, j: nat)
    requires j < |s|
    ensures multiset(Values(s)) == multiset(Values(s[..j] + s[j + 1..])) + multiset{s[j].1}
  {
    ValuesMiddle(s[..j], s[j], s[j + 1..]);
    SplitAt(s, j);
  }

  lemma SplitAt<T>(s: seq<T>, j: nat)
    requires j < |s|
    ensures s == s[..j] + ([s[j]] + s[j + 1..])
  {
  }

  lemma ValuesMiddle<K, V>(p: seq<(K, V)>, x: (K, V), q: seq<(K, V)>)
    ensures multiset(Values(p + ([x] + q))) == multiset(Values(p + q)) + multiset{x.1}
  {
    ValuesConcat(p, q);
    ValuesConcat(p, [x] + q);
    ValuesConcat([x], q);
    MultisetMiddle(Values(p), x.1, Values(q));
  }

  /** Sorts pairs by their key alone. */
  function ByKey<V>(): ((nat, V)) -> Rank {
    (p: (nat, V)) => Rank(p.0, 0, 0)
  }

  /** A key below the first is not in a list sorted by key. */
  lemma SmallerThanAll<V>(s: seq<(nat, V)>, k: nat)
    requires s != [] && Sorted(s, ByKey<V>()) && k < s[0].0
    ensures Under(s, k) == []
  {
    var rank := ByKey<V>();
    forall i | 0 <= i < |s| ensures s[i].0 != k {
      if i > 0 { assert !Less(rank(s[i]), rank(s[0])); }
    }
    hide Sorted;
    UnderEmpty(s, k);
  }

  lemma SortedTail<T>(s: seq<T>, rank: T -> Rank)
    requires s != [] && Sorted(s, rank)
    ensures Sorted(s[1..], rank)
  {
    assert forall i :: 0 <= i < |s[1..]| ==> s[1..][i] == s[i + 1];
  }

  lemma {:induction false} InsertUnder<V>(s: seq<(nat, V)>, x: (nat, V), k: nat)
    requires Sorted(s, ByKey<V>())
    ensures Under(Insert(s, x, ByKey<V>()), k) == Under(s, k) + (if x.0 == k then [x.1] else [])
  {
    var rank := ByKey<V>();
    if s == [] {
    } else if Less(rank(x), rank(s[0])) {
      assert ([x] + s)[1..] == s;
      if x.0 == k { SmallerThanAll(s, x.0); }
    } else {
      SortedTail(s, rank);
      InsertUnder(s[1..], x, k);
      hide Less, Sorted, ByKey;
      assert ([s[0]] + Insert(s[1..], x, rank))[1..] == Insert(s[1..], x, rank);
    }
  }

  /** What makes the sort stable: within one key nothing moves. */
  lemma {:induction false} StableSortUnder<V(!new)>(s: seq<(nat, V)>, k: nat)
    ensures Under(StableSort(s, ByKey<V>()), k) == Under(s, k)
  {
    var rank := ByKey<V>();
    if s != [] {
      var n := |s| - 1;
      StableSortUnder(s[..n], k);
      StableSortSorted(s[..n], rank);
      InsertUnder(StableSort(s[..n], rank), s[n], k);
      UnderConcat(s[..n], [s[n]], k);
      assert s == s[..n] + [s[n]];
    }
  }

  /** A list sorted by key is determined by what it holds under each key. */
  lemma {:induction false} SortedSameUnderEqual<V(!new)>(a: seq<(nat, V)>, b: seq<(nat, V)>)
    requires Sorted(a, ByKey<V>()) && Sorted(b, ByKey<V>())
    requires forall k :: Under(a, k) == Under(b, k)
    ensures a == b
  {
    if a != [] { SameUnderNonempty(a, b); }
    if b != [] { SameUnderNonempty(b, a); }
    if a != [] {
      HeadKeyMinimal(a, b);
      HeadKeyMinimal(b, a);
      assert Under(a, a[0].0)[0] == Under(b, a[0].0)[0];
      assert a[0] == b[0];
      forall k: nat ensures Under(a[1..], k) == Under(b[1..], k) {
        assert Under(a, k) == Under(b, k);
        assert Under(a[1..], k) == (if a[0].0 == k then Under(a, k)[1..] else Under(a, k));
        assert Under(b[1..], k) == (if b[0].0 == k then Under(b, k)[1..] else Under(b, k));
      }
      TailSorted(a);
      TailSorted(b);
      SortedSameUnderEqual(a[1..], b[1..]);
    }
  }

  lemma SameUnderNonempty<V(!new)>(a: seq<(nat, V)>, b: seq<(nat, V)>)
    requires a != [] && forall k :: Under(a, k) == Under(b, k)
    ensures b != []
  {
    assert Under(a, a[0].0) == Under(b, a[0].0);
  }

  lemma TailSorted<V>(a: seq<(nat, V)>)
    requires a != [] && Sorted(a, ByKey<V>())
    ensures Sorted(a[1..], ByKey<V>())
  {
    forall i, j | 0 <= i < j < |a[1..]| ensures !Less(ByKey<V>()(a[1..][j]), ByKey<V>()(a[1..][i])) {
      assert a[1..][i] == a[i + 1] && a[1..][j] == a[j + 1];
    }
  }

  lemma HeadKeyMinimal<V(!new)>(a: seq<(nat, V)>, b: seq<(nat, V)>)
    requires a != [] && b != [] && Sorted(b, ByKey<V>())
    requires Under(a, a[0].0) == Under(b, a[0].0)
    ensures b[0].0 <= a[0].0
  {
    if a[0].0 < b[0].0 {
      forall i | 0 <= i < |b| ensures b[i].0 != a[0].0 {
        if i > 0 { assert !Less(ByKey<V>()(b[i]), ByKey<V>()(b[0])); }
      }
      UnderEmpty(b, a[0].0);
    }
  }

  // ----- lists without repetition -----

  ghost predicate NoRepetition<T>(s: seq<T>) {
    forall i, j :: 0 <= i < j < |s| ==> s[i] != s[j]
  }

  lemma {:induction false} OnceEach<T>(s: seq<T>, x: T)
    requires NoRepetition(s)
    ensures multiset(s)[x] <= 1
  {
    if s != [] {
      var n := |s| - 1;
      OnceEach(s[..n], x);
      assert s == s[..n] + [s[n]];
      if x == s[n] { assert x !in s[..n]; }
    }
  }

  lemma TwiceCounts<T>(s: seq<T>, i: nat, j: nat)
    requires i < j < |s| && s[i] == s[j]
    ensures multiset(s)[s[i]] >= 2
  {
    var a, b := s[..j], s[j..];
    assert s == a + b && a[i] == s[i] && b[0] == s[j];
    assert s[i] in multiset(a) && s[i] in multiset(b);
  }

  /** Reordering a list without repetition introduces none. */
  lemma NoRepetitionReordered<T>(a: seq<T>, b: seq<T>)
    requires NoRepetition(a) && multiset(a) == multiset(b)
    ensures NoRepetition(b)
  {
    forall i, j | 0 <= i < j < |b| ensures b[i] != b[j] {
      OnceEach(a, b[i]);
      if b[i] == b[j] { TwiceCounts(b, i, j); }
    }
  }

  lemma {:induction false} SubsetCount<T>(a: set<T>, b: set<T>)
    requires a <= b
    ensures |a| <= |b|
  {
    if a != {} {
      var x :| x in a;
      SubsetCount(a - {x}, b - {x});
    }
  }
}
