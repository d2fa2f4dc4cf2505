/** The run store: each operation loads the list of runs, changes an entry and writes the list back. */
module RunStore {
  import opened Types
  import opened Sequences

  datatype Status =
    | Queued | Building | SandboxStarting | HealthChecking | Benchmarking | Validating | Scoring
    | Finished | Failed | Cancelled | TimedOut

  predicate Terminal(s: Status) {
    s.Finished? || s.Failed? || s.Cancelled? || s.TimedOut?
  }

  datatype Run = Run(id: string, status: Status, createdAt: int)

  datatype StoreError = NotFound | InProgress

  // ----- the store as a table from ids to runs -----

  type Table = map<string, Run>

  /** A finished run is never flipped to a different ending. */
  function Written(t: Table, run: Run): Table {
    if run.id !in t || (Terminal(t[run.id].status) && Terminal(run.status) && t[run.id].status != run.status) then t
    else t[run.id := run]
  }

  function Claimed(t: Table, id: string): Table {
    if id in t && t[id].status.Queued? then t[id := t[id].(status := Building)] else t
  }

  /** A queued run no queued run is older than. */
  predicate OldestQueued(t: Table, id: string) {
    && id in t && t[id].status.Queued?
    && forall x :: x in t && t[x].status.Queued? ==> t[id].createdAt <= t[x].createdAt
  }

  // ----- the list of runs as it is written -----

  ghost predicate UniqueIds(runs: seq<Run>) {
    forall i, j :: 0 <= i < j < |runs| ==> runs[i].id != runs[j].id
  }

  function TableOf(runs: seq<Run>): (t: Table)
    ensures forall id :: id in t ==> t[id].id == id && t[id] in runs
    ensures forall i :: 0 <= i < |runs| ==> runs[i].id in t
  {
    if runs == [] then map[]
    else
      var t := TableOf(runs[..|runs| - 1]);
      assert runs == runs[..|runs| - 1] + [runs[|runs| - 1]];
      assert forall i :: 0 <= i < |runs| - 1 ==> runs[..|runs| - 1][i] == runs[i];
      t[runs[|runs| - 1].id := runs[|runs| - 1]]
  }

  /** With one run for each id the table says what the list says. */
  lemma TableIs(runs: seq<Run>)
    requires UniqueIds(runs)
    ensures forall i :: 0 <= i < |runs| ==> runs[i].id in TableOf(runs) && TableOf(runs)[runs[i].id] == runs[i]
  {
    var t := TableOf(runs);
    forall i | 0 <= i < |runs| ensures t[runs[i].id] == runs[i] {
      var j :| 0 <= j < |runs| && runs[j] == t[runs[i].id];
      assert i == j;
    }
  }

  lemma Listed(a: seq<Run>, run: Run) returns (i: nat)
    requires run in a
    ensures i < |a| && a[i] == run
  {
    i :| 0 <= i < |a| && a[i] == run;
  }

  lemma SameTable(a: seq<Run>, t: Table)
    requires UniqueIds(a)
    requires forall id :: id in t ==> t[id].id == id && t[id] in a
    requires forall i :: 0 <= i < |a| ==> a[i].id in t && t[a[i].id] == a[i]
    ensures TableOf(a) == t
  {
    hide TableOf, UniqueIds;
    TableIs(a);
    forall id | id in TableOf(a) ensures id in t && t[id] == TableOf(a)[id] {
      var i := Listed(a, TableOf(a)[id]);
    }
    forall id | id in t ensures id in TableOf(a) {
      var i := Listed(a, t[id]);
    }
  }

  /** Replacing the entry of an id replaces it in the table and nothing else. */
  lemma ReplacedEntry(runs: seq<Run>, i: nat, run: Run)
    requires UniqueIds(runs) && i < |runs| && runs[i].id == run.id
    ensures UniqueIds(runs[i := run]) && TableOf(runs[i := run]) == TableOf(runs)[run.id := run]
  {
    TableIs(runs);
    var a, t := runs[i := run], TableOf(runs)[run.id := run];
    assert a[i] == run;
    forall id | id in t ensures t[id] in a {
      if id != run.id {
        var j :| 0 <= j < |runs| && runs[j] == t[id];
        assert a[j] == t[id];
      }
    }
    SameTable(a, t);
  }

  lemma Unlisted(runs: seq<Run>, id: string)
    requires forall j :: 0 <= j < |runs| ==> runs[j].id != id
    ensures id !in TableOf(runs)
  {
  }

  function IdOf(): Run -> string {
    (r: Run) => r.id
  }

  lemma RearrangedTable(a: seq<Run>, b: seq<Run>)
    requires UniqueIds(a) && multiset(a) == multiset(b)
    ensures UniqueIds(b) && TableOf(a) == TableOf(b)
  {
    SameMultisetSameLength(a, b);
    MappedMultiset(a, b, IdOf());
    assert forall i :: 0 <= i < |a| ==> Mapped(a, IdOf())[i] == a[i].id;
    NoRepetitionReordered(Mapped(a, IdOf()), Mapped(b, IdOf()));
    assert forall i :: 0 <= i < |b| ==> Mapped(b, IdOf())[i] == b[i].id;
    TableIs(a);
    forall i | 0 <= i < |b| ensures b[i].id in TableOf(a) && TableOf(a)[b[i].id] == b[i] {
      assert b[i] in a;
      var k :| 0 <= k < |a| && a[k] == b[i];
    }
    SameTable(b, TableOf(a));
  }

  /** Oldest first. */
  function ByAge(): Run -> Rank {
    (r: Run) => Rank(r.createdAt, 0, 0)
  }

  class JsonStore {
    var runs: seq<Run>

    constructor ()
      ensures runs == []
    {
      runs := [];
    }

    method GetRun(id: string) returns (r: Result<Run, StoreError>)
      requires UniqueIds(runs)
      ensures r == if id in TableOf(runs) then Ok(TableOf(runs)[id]) else Err(NotFound)
    {
      hide TableOf;
      TableIs(runs);
      for i := 0 to |runs|
        invariant forall j :: 0 <= j < i ==> runs[j].id != id
      {
        if runs[i].id == id { return Ok(runs[i]); }
      }
      Unlisted(runs, id);
      return Err(NotFound);
    }

    method SaveRun(run: Run) returns (saved: bool)
      requires UniqueIds(runs)
      modifies this
      ensures UniqueIds(runs) && TableOf(runs) == Written(old(TableOf(runs)), run)
      ensures saved <==> run.id in old(TableOf(runs))
      ensures forall id :: id in old(TableOf(runs)) && id != run.id ==> id in TableOf(runs) && TableOf(runs)[id] == old(TableOf(runs))[id]
      ensures saved ==>
        var was, now := old(TableOf(runs))[run.id].status, TableOf(runs)[run.id];
        if Terminal(was) && Terminal(run.status) && was != run.status then now.status == was else now == run
    {
      hide TableOf;
      TableIs(runs);
      for i := 0 to |runs|
        invariant runs == old(runs) && forall j :: 0 <= j < i ==> runs[j].id != run.id
      {
        if runs[i].id == run.id {
          if Terminal(runs[i].status) && Terminal(run.status) && runs[i].status != run.status { return true; }
          ReplacedEntry(runs, i, run);
          runs := runs[i := run];
          return true;
        }
      }
      Unlisted(runs, run.id);
      return false;
    }

    /** A terminal run is handed back unclaimed; anything but a queued run is an error. */
    method ClaimRun(id: string) returns (r: Result<Run, StoreError>)
      requires UniqueIds(runs)
      modifies this
      ensures UniqueIds(runs) && TableOf(runs) == Claimed(old(TableOf(runs)), id)
      ensures var t := old(TableOf(runs));
        if id !in t then r == Err(NotFound)
        else if Terminal(t[id].status) then r == Ok(t[id])
        else if t[id].status.Queued? then r == Ok(t[id].(status := Building))
        else r == Err(InProgress)
    {
      hide TableOf;
      TableIs(runs);
      for i := 0 to |runs|
        invariant runs == old(runs) && forall j :: 0 <= j < i ==> runs[j].id != id
      {
        if runs[i].id == id {
          if Terminal(runs[i].status) { return Ok(runs[i]); }
          if !runs[i].status.Queued? { return Err(InProgress); }
          var run := runs[i].(status := Building);
          ReplacedEntry(runs, i, run);
          runs := runs[i := run];
          return Ok(run);
        }
      }
      Unlisted(runs, id);
      return Err(NotFound);
    }

    /** Claims a queued run no other queued run is older than; there is none only when nothing is queued. */
    method ClaimNextQueuedRun() returns (r: Result<Run, StoreError>)
      requires UniqueIds(runs)
      modifies this
      ensures UniqueIds(runs)
      ensures r.Ok? ==> (
        && Run(r.value.id, Queued, r.value.createdAt) in old(runs)
        && (forall other :: other in old(runs) && other.status == Queued ==> r.value.createdAt <= other.createdAt)
        && OldestQueued(old(TableOf(runs)), r.value.id) && r.value == old(TableOf(runs))[r.value.id].(status := Building)
        && TableOf(runs) == Claimed(old(TableOf(runs)), r.value.id))
      ensures r.Err? ==> (
        && r.error == NotFound && TableOf(runs) == old(TableOf(runs))
        && forall id :: id in TableOf(runs) ==> !TableOf(runs)[id].status.Queued?)
    {
      hide TableOf, StableSort, Sorted;
      var sorted := StableSort(runs, ByAge());
      StableSortMultiset(runs, ByAge());
      StableSortSorted(runs, ByAge());
      RearrangedTable(runs, sorted);
      TableIs(sorted);
      for i := 0 to |sorted|
        invariant runs == old(runs) && forall j :: 0 <= j < i ==> !sorted[j].status.Queued?
      {
        if sorted[i].status.Queued? {
          var run := sorted[i].(status := Building);
          FirstQueuedIsOldest(sorted, i);
          ReplacedEntry(sorted, i, run);
          runs := sorted[i := run];
          return Ok(run);
        }
      }
      NothingQueued(sorted);
      return Err(NotFound);
    }
  }

  lemma NothingQueued(runs: seq<Run>)
    requires forall i :: 0 <= i < |runs| ==> !runs[i].status.Queued?
    ensures forall id :: id in TableOf(runs) ==> !TableOf(runs)[id].status.Queued?
  {
    assert forall id :: id in TableOf(runs) ==> TableOf(runs)[id] in runs;
  }

  lemma FirstQueuedIsOldest(sorted: seq<Run>, i: nat)
    requires Sorted(sorted, ByAge()) && UniqueIds(sorted) && i < |sorted|
    requires sorted[i].status.Queued? && forall j :: 0 <= j < i ==> !sorted[j].status.Queued?
    ensures OldestQueued(TableOf(sorted), sorted[i].id)
  {
    TableIs(sorted);
    var t := TableOf(sorted);
    forall x | x in t && t[x].status.Queued? ensures sorted[i].createdAt <= t[x].createdAt {
      var k :| 0 <= k < |sorted| && sorted[k] == t[x];
      assert i < k ==> !Less(ByAge()(sorted[k]), ByAge()(sorted[i]));
    }
  }
}
