/**
 The validator's replay: each symbol has a reference book, cancels go to the
 book of the symbol that first placed their id, and the sharded replay merges
 its shards back by line number.
 */
module Replay {
  import opened Types
  import opened Sequences
  import opened LevelBook

  datatype EventKind =
    | Submit(order: NewOrder)
    | Withdraw(clientOrderId: string, origClientOrderId: string)

  datatype Event = Event(lineNo: nat, symbol: string, kind: EventKind)

  /** A book every operation of which is defined. */
  type RefBook = b: Levels | LevelsOk(b) witness EMPTY_LEVELS

  // ----- who owns an id -----

  /** The symbol of the first order placed under each id. */
  function CancelOwner(events: seq<Event>): (owner: map<string, string>)
    ensures forall id :: id in owner <==> exists i :: 0 <= i < |events| && Places(events[i], id)
  {
    if events == [] then map[]
    else
      var n := |events| - 1;
      var owner := CancelOwner(events[..n]);
      assert forall i :: 0 <= i < n ==> events[..n][i] == events[i];
      match events[n].kind
      case Submit(o) => if o.clientOrderId in owner then owner else owner[o.clientOrderId := events[n].symbol]
      case Withdraw(_, _) => owner
  }

  predicate Places(ev: Event, id: string) {
    ev.kind.Submit? && ev.kind.order.clientOrderId == id
  }

  lemma OwnerIsKept(events: seq<Event>, id: string)
    requires events != [] && id in CancelOwner(events[..|events| - 1])
    ensures id in CancelOwner(events) && CancelOwner(events)[id] == CancelOwner(events[..|events| - 1])[id]
  {
  }

  lemma OwnerIsNew(events: seq<Event>)
    requires events != [] && events[|events| - 1].kind.Submit?
    requires events[|events| - 1].kind.order.clientOrderId !in CancelOwner(events[..|events| - 1])
    ensures var last := events[|events| - 1]; var id := last.kind.order.clientOrderId;
      id in CancelOwner(events) && CancelOwner(events)[id] == last.symbol
  {
  }

  /** First placement wins, whatever follows. */
  lemma {:induction false} FirstPlacementOwns(events: seq<Event>, i: nat)
    requires i < |events| && events[i].kind.Submit?
    requires forall j :: 0 <= j < i ==> !Places(events[j], events[i].kind.order.clientOrderId)
    ensures var id := events[i].kind.order.clientOrderId;
      id in CancelOwner(events) && CancelOwner(events)[id] == events[i].symbol
  {
    hide CancelOwner, Places;
    var n := |events| - 1;
    assert forall j :: 0 <= j < n ==> events[..n][j] == events[j];
    if i < n {
      FirstPlacementOwns(events[..n], i);
      OwnerIsKept(events, events[i].kind.order.clientOrderId);
    } else {
      OwnerIsNew(events);
    }
  }

  method BuildCancelOwner(events: seq<Event>) returns (owner: map<string, string>)
    ensures owner == CancelOwner(events)
  {
    owner := map[];
    for i := 0 to |events|
      invariant owner == CancelOwner(events[..i])
    {
      assert events[..i + 1][..i] == events[..i];
      if events[i].kind.Submit? {
        var id := events[i].kind.order.clientOrderId;
        if id !in owner { owner := owner[id := events[i].symbol]; }
      }
    }
    assert events[..|events|] == events;
  }

  // ----- one event, one book -----

  function BookOf(books: map<string, RefBook>, symbol: string): RefBook {
    if symbol in books then books[symbol] else EMPTY_LEVELS
  }

  /** What an event does to the one book it reaches. */
  function Feed(b: RefBook, ev: Event): (r: (RefBook, seq<Fill>)) {
    match ev.kind
    case Submit(o) =>
      var (b', placed) := PlaceLevels(b, o);
      (b', if placed.Ok? then placed.value else [])
    case Withdraw(_, orig) => (CancelLevels(b, orig).0, [])
  }

  function Target(ev: Event, owner: map<string, string>): Option<string> {
    match ev.kind
    case Submit(_) => Some(ev.symbol)
    case Withdraw(_, orig) => if orig in owner then Some(owner[orig]) else None
  }

  function Tag<K, V>(k: K, s: seq<V>): (r: seq<(K, V)>)
    ensures |r| == |s|
    ensures forall i :: 0 <= i < |r| ==> r[i] == (k, s[i])
  {
    seq(|s|, i requires 0 <= i < |s| => (k, s[i]))
  }

  // ----- sequential replay -----

  /** Every fill with the symbol and the line that produced it. */
  function Sequential(books: map<string, RefBook>, events: seq<Event>, owner: map<string, string>): seq<(string, (nat, Fill))>
    decreases |events|
  {
    if events == [] then []
    else
      match Target(events[0], owner)
      case None => Sequential(books, events[1..], owner)
      case Some(sym) =>
        var (b, fills) := Feed(BookOf(books, sym), events[0]);
        Tag(sym, Tag(events[0].lineNo, fills)) + Sequential(books[sym := b], events[1..], owner)
  }

  function FillsOf(books: map<string, RefBook>, events: seq<Event>, owner: map<string, string>): seq<Fill> {
    Values(Values(Sequential(books, events, owner)))
  }

  function ExpectedFills(events: seq<Event>): seq<Fill> {
    FillsOf(map[], events, CancelOwner(events))
  }

  /** Cancelling in a book that holds nothing changes nothing. */
  lemma CancelInEmptyBook(id: string)
    ensures CancelLevels(EMPTY_LEVELS, id) == (EMPTY_LEVELS, false)
  {
  }

  predicate SameBook(b1: map<string, RefBook>, b2: map<string, RefBook>, sym: string) {
    BookOf(b1, sym) == BookOf(b2, sym)
  }

  /** Only the contents of the books matter, not whether an empty one has been opened. */
  lemma {:induction false} SequentialAgrees(b1: map<string, RefBook>, b2: map<string, RefBook>, events: seq<Event>, owner: map<string, string>)
    requires forall sym :: SameBook(b1, b2, sym)
    ensures Sequential(b1, events, owner) == Sequential(b2, events, owner)
    decreases |events|
  {
    hide Feed;
    if events != [] {
      match Target(events[0], owner)
      case None => SequentialAgrees(b1, b2, events[1..], owner);
      case Some(sym) =>
        assert SameBook(b1, b2, sym);
        var b := Feed(BookOf(b1, sym), events[0]).0;
        var c1, c2 := b1[sym := b], b2[sym := b];
        forall x ensures SameBook(c1, c2, x) {
          assert SameBook(b1, b2, x);
        }
        SequentialAgrees(c1, c2, events[1..], owner);
    }
  }

  lemma FillsOfSubmit(books: map<string, RefBook>, events: seq<Event>, owner: map<string, string>)
    requires events != [] && events[0].kind.Submit?
    ensures var (b, fills) := Feed(BookOf(books, events[0].symbol), events[0]);
      FillsOf(books, events, owner) == fills + FillsOf(books[events[0].symbol := b], events[1..], owner)
  {
    var sym := events[0].symbol;
    var (b, fills) := Feed(BookOf(books, sym), events[0]);
    var head, rest := Tag(sym, Tag(events[0].lineNo, fills)), Sequential(books[sym := b], events[1..], owner);
    ValuesConcat(head, rest);
    ValuesConcat(Values(head), Values(rest));
    assert Values(Values(head)) == fills;
  }

  lemma FillsOfWithdraw(books: map<string, RefBook>, events: seq<Event>, owner: map<string, string>)
    requires events != [] && events[0].kind.Withdraw?
    ensures var orig := events[0].kind.origClientOrderId;
      FillsOf(books, events, owner) ==
        if orig in owner && owner[orig] in books
        then FillsOf(books[owner[orig] := CancelLevels(books[owner[orig]], orig).0], events[1..], owner)
        else FillsOf(books, events[1..], owner)
  {
    hide CancelLevels;
    var orig := events[0].kind.origClientOrderId;
    if orig in owner {
      var sym := owner[orig];
      var b := CancelLevels(BookOf(books, sym), orig).0;
      assert Tag(sym, Tag(events[0].lineNo, [])) + Sequential(books[sym := b], events[1..], owner)
          == Sequential(books[sym := b], events[1..], owner);
      if sym !in books {
        CancelInEmptyBook(orig);
        SequentialAgrees(books, books[sym := b], events[1..], owner);
      }
    }
  }

  method ReplaySequential(events: seq<Event>) returns (fills: seq<Fill>)
    ensures fills == ExpectedFills(events)
  {
    hide FillsOf, CancelOwner, PlaceLevels, CancelLevels, LevelsOk;
    var owner := BuildCancelOwner(events);
    var books: map<string, RefBook> := map[];
    fills := [];
    assert events[0..] == events;
    for i := 0 to |events|
      invariant fills + FillsOf(books, events[i..], owner) == ExpectedFills(events)
    {
      var ev := events[i];
      assert events[i..][0] == ev && events[i..][1..] == events[i + 1..];
      match ev.kind
      case Submit(o) =>
        FillsOfSubmit(books, events[i..], owner);
        var book := if ev.symbol in books then books[ev.symbol] else EMPTY_LEVELS;
        var (b, placed) := PlaceLevels(book, o);
        books := books[ev.symbol := b];
        if placed.Ok? { fills := fills + placed.value; }
      case Withdraw(_, orig) =>
        FillsOfWithdraw(books, events[i..], owner);
        if orig in owner {
          var sym := owner[orig];
          if sym in books { books := books[sym := CancelLevels(books[sym], orig).0]; }
        }
    }
    assert events[|events|..] == [];
    NoEventsNoFills(books, owner);
  }

  lemma NoEventsNoFills(books: map<string, RefBook>, owner: map<string, string>)
    ensures FillsOf(books, [], owner) == []
  {
  }

  // ----- sharded replay -----

  /** The events that reach the book of `sym`, in order. */
  function Bucket(events: seq<Event>, owner: map<string, string>, sym: string): seq<Event> {
    if events == [] then []
    else if Target(events[0], owner) == Some(sym) then [events[0]] + Bucket(events[1..], owner, sym)
    else Bucket(events[1..], owner, sym)
  }

  /** One shard: a fresh book fed its bucket, each fill with its line. */
  function Shard(b: RefBook, bucket: seq<Event>): seq<(nat, Fill)>
    decreases |bucket|
  {
    if bucket == [] then []
    else
      var (b', fills) := Feed(b, bucket[0]);
      Tag(bucket[0].lineNo, fills) + Shard(b', bucket[1..])
  }

  /** A symbol's part of the sequential replay is exactly its shard. */
  lemma {:induction false} ShardIsProjection(books: map<string, RefBook>, events: seq<Event>, owner: map<string, string>, sym: string)
    ensures Under(Sequential(books, events, owner), sym) == Shard(BookOf(books, sym), Bucket(events, owner, sym))
    decreases |events|
  {
    hide Feed;
    if events != [] {
      match Target(events[0], owner)
      case None => ShardIsProjection(books, events[1..], owner, sym);
      case Some(t) =>
        var (b, fills) := Feed(BookOf(books, t), events[0]);
        var head, rest := Tag(t, Tag(events[0].lineNo, fills)), Sequential(books[t := b], events[1..], owner);
        ShardIsProjection(books[t := b], events[1..], owner, sym);
        UnderConcat(head, rest, sym);
        if t == sym {
          UnderAll(head, sym);
          assert Values(head) == Tag(events[0].lineNo, fills);
        } else {
          UnderEmpty(head, sym);
        }
    }
  }

  ghost predicate LinesIncrease(events: seq<Event>) {
    forall i, j :: 0 <= i < j < |events| ==> events[i].lineNo < events[j].lineNo
  }

  /** All fills of one line come from one symbol, lines only go up, and each is one of the events' lines. */
  ghost predicate LineByLine(s: seq<(string, (nat, Fill))>) {
    forall i, j :: 0 <= i < j < |s| ==> s[i].1.0 <= s[j].1.0 && (s[i].1.0 == s[j].1.0 ==> s[i].0 == s[j].0)
  }

  lemma {:induction false} SequentialLineByLine(books: map<string, RefBook>, events: seq<Event>, owner: map<string, string>)
    requires LinesIncrease(events)
    ensures LineByLine(Sequential(books, events, owner))
    ensures forall p :: p in Sequential(books, events, owner) ==> events != [] && events[0].lineNo <= p.1.0
    decreases |events|
  {
    hide Feed;
    if events != [] {
      assert forall i :: 0 <= i < |events[1..]| ==> events[1..][i] == events[i + 1];
      match Target(events[0], owner)
      case None => SequentialLineByLine(books, events[1..], owner);
      case Some(t) =>
        var (b, fills) := Feed(BookOf(books, t), events[0]);
        var head, rest := Tag(t, Tag(events[0].lineNo, fills)), Sequential(books[t := b], events[1..], owner);
        SequentialLineByLine(books[t := b], events[1..], owner);
        LineByLineConcat(head, rest, events[0].lineNo, t);
    }
  }

  lemma LineByLineConcat(head: seq<(string, (nat, Fill))>, rest: seq<(string, (nat, Fill))>, line: nat, t: string)
    requires forall i :: 0 <= i < |head| ==> head[i].0 == t && head[i].1.0 == line
    requires LineByLine(rest) && forall p :: p in rest ==> line < p.1.0
    ensures LineByLine(head + rest)
    ensures forall p :: p in head + rest ==> line <= p.1.0
  {
    assert forall i :: 0 <= i < |rest| ==> rest[i] in rest;
  }

  // ----- merging the shards -----

  /** Symbols in order of first appearance. */
  function Merged(s: seq<(string, (nat, Fill))>, symbols: seq<string>): seq<(nat, Fill)> {
    if symbols == [] then []
    else Under(s, symbols[0]) + Merged(s, symbols[1..])
  }

  /** What one symbol has under one line: everything under that line, or nothing. */
  lemma {:induction false} UnderLine(s: seq<(string, (nat, Fill))>, sym: string, line: nat, home: string)
    requires forall p :: p in s && p.1.0 == line ==> p.0 == home
    ensures Under(Under(s, sym), line) == if sym == home then Under(Values(s), line) else []
  {
    if s != [] {
      assert s[0] in s;
      UnderLine(s[1..], sym, line, home);
      assert Values(s) == [s[0].1] + Values(s[1..]);
      assert ([s[0].1] + Values(s[1..]))[1..] == Values(s[1..]);
      if s[0].0 == sym {
        assert ([s[0].1] + Under(s[1..], sym))[1..] == Under(s[1..], sym);
      }
    }
  }

  lemma {:induction false} MergedLine(s: seq<(string, (nat, Fill))>, symbols: seq<string>, line: nat, home: string)
    requires forall p :: p in s && p.1.0 == line ==> p.0 == home
    requires forall i, j :: 0 <= i < j < |symbols| ==> symbols[i] != symbols[j]
    ensures Under(Merged(s, symbols), line) == if home in symbols then Under(Values(s), line) else []
  {
    if symbols != [] {
      UnderLine(s, symbols[0], line, home);
      MergedLine(s, symbols[1..], line, home);
      UnderConcat(Under(s, symbols[0]), Merged(s, symbols[1..]), line);
    }
  }

  /** Sorting the merged shards by line gives the sequential order back. */
  lemma MergeSorts(s: seq<(string, (nat, Fill))>, symbols: seq<string>)
    requires LineByLine(s)
    requires forall i, j :: 0 <= i < j < |symbols| ==> symbols[i] != symbols[j]
    requires forall p :: p in s ==> p.0 in symbols
    ensures StableSort(Merged(s, symbols), ByKey<Fill>()) == Values(s)
  {
    var m := Merged(s, symbols);
    StableSortSorted(m, ByKey<Fill>());
    forall line: nat ensures Under(StableSort(m, ByKey<Fill>()), line) == Under(Values(s), line) {
      StableSortUnder(m, line);
      if i :| 0 <= i < |s| && s[i].1.0 == line {
        assert s[i] in s;
        HomeOfLine(s, i);
        MergedLine(s, symbols, line, s[i].0);
      } else {
        UnderEmpty(Values(s), line);
        MergedLine(s, symbols, line, "");
      }
    }
    SortedSameUnderEqual(StableSort(m, ByKey<Fill>()), Values(s));
  }

  lemma HomeOfLine(s: seq<(string, (nat, Fill))>, i: nat)
    requires LineByLine(s) && i < |s|
    ensures forall p :: p in s && p.1.0 == s[i].1.0 ==> p.0 == s[i].0
  {
  }

  // ----- the sharded replay itself -----

  lemma {:induction false} BucketAppend(events: seq<Event>, ev: Event, owner: map<string, string>, sym: string)
    ensures Bucket(events + [ev], owner, sym)
         == Bucket(events, owner, sym) + (if Target(ev, owner) == Some(sym) then [ev] else [])
  {
    if events == [] {
      assert [] + [ev] == [ev];
    } else {
      BucketAppend(events[1..], ev, owner, sym);
      assert (events + [ev])[1..] == events[1..] + [ev];
    }
  }

  ghost predicate Distinct(symbols: seq<string>) {
    forall i, j :: 0 <= i < j < |symbols| ==> symbols[i] != symbols[j]
  }

  ghost predicate Sorting(events: seq<Event>, owner: map<string, string>, bySymbol: map<string, seq<Event>>, symbols: seq<string>) {
    && Distinct(symbols)
    && (forall sym :: sym in symbols <==> sym in bySymbol)
    && (forall sym :: sym in bySymbol <==> Bucket(events, owner, sym) != [])
    && (forall sym :: sym in bySymbol ==> bySymbol[sym] == Bucket(events, owner, sym))
  }

  /** An event without a book changes no bucket. */
  lemma NoTargetNoBucket(events: seq<Event>, ev: Event, owner: map<string, string>, bySymbol: map<string, seq<Event>>, symbols: seq<string>)
    requires Sorting(events, owner, bySymbol, symbols) && Target(ev, owner) == None
    ensures Sorting(events + [ev], owner, bySymbol, symbols)
  {
    hide Bucket, Target, Distinct;
    forall sym ensures Bucket(events + [ev], owner, sym) == Bucket(events, owner, sym) {
      BucketAppend(events, ev, owner, sym);
    }
  }

  /** Any other joins the bucket of its book, which is opened if need be. */
  lemma JoinsBucket(events: seq<Event>, ev: Event, owner: map<string, string>, bySymbol: map<string, seq<Event>>, symbols: seq<string>, home: string)
    requires Sorting(events, owner, bySymbol, symbols) && Target(ev, owner) == Some(home)
    ensures Sorting(events + [ev], owner,
      bySymbol[home := (if home in bySymbol then bySymbol[home] else []) + [ev]],
      if home in bySymbol then symbols else symbols + [home])
  {
    hide Bucket, Target, Distinct;
    forall sym ensures Bucket(events + [ev], owner, sym) == if sym == home then Bucket(events, owner, sym) + [ev] else Bucket(events, owner, sym) {
      BucketAppend(events, ev, owner, sym);
    }
    if home !in bySymbol { DistinctGrows(symbols, home); }
  }

  lemma DistinctGrows(symbols: seq<string>, home: string)
    requires Distinct(symbols) && home !in symbols
    ensures Distinct(symbols + [home])
  {
  }

  method SortIntoBuckets(events: seq<Event>, owner: map<string, string>) returns (bySymbol: map<string, seq<Event>>, symbols: seq<string>)
    ensures Sorting(events, owner, bySymbol, symbols)
  {
    bySymbol, symbols := map[], [];
    for i := 0 to |events|
      invariant Sorting(events[..i], owner, bySymbol, symbols)
    {
      hide Sorting;
      var ev := events[i];
      assert events[..i + 1] == events[..i] + [ev];
      var target := Target(ev, owner);
      if target.Some? {
        var sym := target.value;
        JoinsBucket(events[..i], ev, owner, bySymbol, symbols, sym);
        if sym !in bySymbol { symbols := symbols + [sym]; }
        bySymbol := bySymbol[sym := (if sym in bySymbol then bySymbol[sym] else []) + [ev]];
      } else {
        NoTargetNoBucket(events[..i], ev, owner, bySymbol, symbols);
      }
    }
    assert events[..|events|] == events;
  }

  lemma OneMoreOut(out: seq<(nat, Fill)>, book: RefBook, bucket: seq<Event>, i: nat)
    requires i < |bucket|
    ensures out + Shard(book, bucket[i..])
         == (out + Tag(bucket[i].lineNo, Feed(book, bucket[i]).1)) + Shard(Feed(book, bucket[i]).0, bucket[i + 1..])
  {
    hide Feed;
    assert bucket[i..][0] == bucket[i] && bucket[i..][1..] == bucket[i + 1..];
  }

  lemma TagsNothing(out: seq<(nat, Fill)>, line: nat)
    ensures out + Tag(line, []) == out
  {
  }

  method RunShard(bucket: seq<Event>) returns (out: seq<(nat, Fill)>)
    ensures out == Shard(EMPTY_LEVELS, bucket)
  {
    hide PlaceLevels, CancelLevels, Shard, Tag;
    var book: RefBook := EMPTY_LEVELS;
    out := [];
    assert bucket[0..] == bucket;
    for i := 0 to |bucket|
      invariant out + Shard(book, bucket[i..]) == Shard(EMPTY_LEVELS, bucket)
    {
      var ev := bucket[i];
      OneMoreOut(out, book, bucket, i);
      TagsNothing(out, ev.lineNo);
      match ev.kind
      case Submit(o) =>
        var (b, placed) := PlaceLevels(book, o);
        book := b;
        if placed.Ok? { out := out + Tag(ev.lineNo, placed.value); }
      case Withdraw(_, orig) =>
        book := CancelLevels(book, orig).0;
    }
    EmptyBucket(book, bucket);
  }

  lemma EmptyBucket(book: RefBook, bucket: seq<Event>)
    ensures Shard(book, bucket[|bucket|..]) == []
  {
  }

  lemma SymbolsCoverReplay(events: seq<Event>, owner: map<string, string>, bySymbol: map<string, seq<Event>>, symbols: seq<string>)
    requires Sorting(events, owner, bySymbol, symbols)
    ensures forall p :: p in Sequential(map[], events, owner) ==> p.0 in symbols
  {
    var s := Sequential(map[], events, owner);
    forall p | p in s ensures p.0 in symbols {
      ShardIsProjection(map[], events, owner, p.0);
      UnderNonempty(s, p);
    }
  }

  lemma {:induction false} UnderNonempty<K, V>(s: seq<(K, V)>, p: (K, V))
    requires p in s
    ensures Under(s, p.0) != []
  {
    if s[0] != p { UnderNonempty(s[1..], p); }
  }

  method RunShards(bySymbol: map<string, seq<Event>>, symbols: seq<string>) returns (all: seq<(nat, Fill)>)
    requires forall sym :: sym in symbols ==> sym in bySymbol
    ensures all == Flattened(bySymbol, symbols)
  {
    all := [];
    assert symbols[0..] == symbols;
    for i := 0 to |symbols|
      invariant all + Flattened(bySymbol, symbols[i..]) == Flattened(bySymbol, symbols)
    {
      var out := RunShard(bySymbol[symbols[i]]);
      assert symbols[i..][0] == symbols[i] && symbols[i..][1..] == symbols[i + 1..];
      all := all + out;
    }
  }

  function Flattened(bySymbol: map<string, seq<Event>>, symbols: seq<string>): seq<(nat, Fill)>
    requires forall sym :: sym in symbols ==> sym in bySymbol
  {
    if symbols == [] then []
    else Shard(EMPTY_LEVELS, bySymbol[symbols[0]]) + Flattened(bySymbol, symbols[1..])
  }

  lemma {:induction false} FlattenedIsMerged(events: seq<Event>, owner: map<string, string>, bySymbol: map<string, seq<Event>>, symbols: seq<string>)
    requires forall sym :: sym in symbols ==> sym in bySymbol && bySymbol[sym] == Bucket(events, owner, sym)
    ensures Flattened(bySymbol, symbols) == Merged(Sequential(map[], events, owner), symbols)
  {
    if symbols != [] {
      ShardIsProjection(map[], events, owner, symbols[0]);
      FlattenedIsMerged(events, owner, bySymbol, symbols[1..]);
    }
  }

  /** Sharding changes nothing: the merged fills are the sequential ones, in the same order. */
  lemma ShardingIsInvisible(events: seq<Event>, bySymbol: map<string, seq<Event>>, symbols: seq<string>)
    requires LinesIncrease(events) && Sorting(events, CancelOwner(events), bySymbol, symbols)
    ensures Values(StableSort(Flattened(bySymbol, symbols), ByKey<Fill>())) == ExpectedFills(events)
  {
    hide Sequential, StableSort, Flattened, Merged;
    var owner := CancelOwner(events);
    SequentialLineByLine(map[], events, owner);
    SymbolsCoverReplay(events, owner, bySymbol, symbols);
    FlattenedIsMerged(events, owner, bySymbol, symbols);
    MergeSorts(Sequential(map[], events, owner), symbols);
  }

  method ReplaySharded(events: seq<Event>) returns (fills: seq<Fill>)
    requires LinesIncrease(events)
    ensures fills == ExpectedFills(events)
  {
    var owner := BuildCancelOwner(events);
    var bySymbol, symbols := SortIntoBuckets(events, owner);
    var all := RunShards(bySymbol, symbols);
    ShardingIsInvisible(events, bySymbol, symbols);
    all := StableSort(all, ByKey<Fill>());
    fills := Values(all);
  }

  method ReplayExpectedFills(events: seq<Event>, shards: nat) returns (fills: seq<Fill>)
    requires LinesIncrease(events)
    ensures fills == ExpectedFills(events)
  {
    if shards <= 1 {
      fills := ReplaySequential(events);
    } else {
      fills := ReplaySharded(events);
    }
  }

  // ----- the engine's own order -----

  /** The id whose acknowledgement places an event in the engine's order. */
  function ArrivalId(ev: Event): string {
    match ev.kind
    case Submit(o) => o.clientOrderId
    case Withdraw(id, _) => id
  }

  predicate Sequenced(ev: Event, accept: map<string, nat>) {
    ArrivalId(ev) != "" && ArrivalId(ev) in accept
  }

  function ArrivalOf(ev: Event, accept: map<string, nat>): nat {
    if ArrivalId(ev) in accept then accept[ArrivalId(ev)] else 0
  }

  function ByArrival(): ((nat, Event)) -> Rank {
    (p: (nat, Event)) => Rank(p.0, p.1.lineNo, 0)
  }

  function Renumber(keyed: seq<(nat, Event)>): (r: seq<Event>)
    ensures |r| == |keyed|
    ensures forall i :: 0 <= i < |r| ==> r[i] == keyed[i].1.(lineNo := i + 1)
  {
    seq(|keyed|, i requires 0 <= i < |keyed| => keyed[i].1.(lineNo := i + 1))
  }

  function Keyed(events: seq<Event>, accept: map<string, nat>): (r: seq<(nat, Event)>)
    ensures |r| == |events|
    ensures forall i :: 0 <= i < |r| ==> r[i] == (ArrivalOf(events[i], accept), events[i])
  {
    seq(|events|, i requires 0 <= i < |events| => (ArrivalOf(events[i], accept), events[i]))
  }

  function InEngineOrder(events: seq<Event>, accept: map<string, nat>): seq<Event> {
    if accept == map[] || exists ev :: ev in events && !Sequenced(ev, accept) then events
    else Renumber(StableSort(Keyed(events, accept), ByArrival()))
  }

  method OrderByEngineSeq(events: seq<Event>, accept: map<string, nat>) returns (r: seq<Event>)
    ensures r == InEngineOrder(events, accept)
    ensures accept == map[] ==> r == events
    ensures (exists ev, o :: ev in events && ev.kind == Submit(o) && (o.clientOrderId == "" || o.clientOrderId !in accept)) ==> r == events
    ensures (exists ev, id, orig :: ev in events && ev.kind == Withdraw(id, orig) && (id == "" || id !in accept)) ==> r == events
  {
    if accept == map[] { return events; }
    var keys: seq<nat> := [];
    for i := 0 to |events|
      invariant |keys| == i
      invariant forall j :: 0 <= j < i ==> Sequenced(events[j], accept) && keys[j] == ArrivalOf(events[j], accept)
    {
      if !Sequenced(events[i], accept) { return events; }
      keys := keys + [accept[ArrivalId(events[i])]];
    }
    var keyed := seq(|events|, i requires 0 <= i < |events| && |keys| == |events| => (keys[i], events[i]));
    assert keyed == Keyed(events, accept);
    keyed := StableSort(keyed, ByArrival());
    r := Renumber(keyed);
  }

  /**
   When every event's own id has an arrival number the result is a permutation of
   the events, sorted by that number with ties in line order, and numbered from 1.
   */
  lemma EngineOrderIsSortedPermutation(events: seq<Event>, accept: map<string, nat>) returns (sorted: seq<Event>)
    requires accept != map[] && forall ev :: ev in events ==> Sequenced(ev, accept)
    ensures multiset(sorted) == multiset(events)
    ensures |InEngineOrder(events, accept)| == |sorted|
    ensures forall i :: 0 <= i < |sorted| ==>
      Sequenced(sorted[i], accept) && InEngineOrder(events, accept)[i] == sorted[i].(lineNo := i + 1)
    ensures forall i, j :: 0 <= i < j < |sorted| ==>
      var a, b := ArrivalOf(sorted[i], accept), ArrivalOf(sorted[j], accept);
      a < b || (a == b && sorted[i].lineNo <= sorted[j].lineNo)
    ensures forall ev, o :: ev in sorted && ev.kind == Submit(o) ==> o.clientOrderId in accept && ArrivalOf(ev, accept) == accept[o.clientOrderId]
    ensures forall ev, id, orig :: ev in sorted && ev.kind == Withdraw(id, orig) ==> id in accept && ArrivalOf(ev, accept) == accept[id]
    ensures LinesIncrease(InEngineOrder(events, accept))
  {
    var keyed := Keyed(events, accept);
    var s := StableSort(keyed, ByArrival());
    SortKeepsKeys(events, accept);
    ReordersAll(events, accept);
    StableSortSorted(keyed, ByArrival());
    hide StableSort, InEngineOrder;
    ArrivalSorted(s);
    sorted := Values(s);
  }

  const FIRST := NewOrder("a", "X", Sell, 10, 1, 0, Limit)
  const SECOND := NewOrder("b", "X", Buy, 10, 1, 0, Limit)

  /** An order, a cancel of it and a second order, as sent; the engine got the cancel last. */
  const AS_SENT := [
    Event(1, "X", Submit(FIRST)),
    Event(2, "X", Withdraw("c", "a")),
    Event(3, "X", Submit(SECOND))]

  const ARRIVED := map["a" := 1, "b" := 2, "c" := 3]

  /** A list with a cancel in it does not stay in file order: the cancel moves behind the second order. */
  lemma CancelsAreReordered()
    ensures InEngineOrder(AS_SENT, ARRIVED) == [
      Event(1, "X", Submit(FIRST)),
      Event(2, "X", Submit(SECOND)),
      Event(3, "X", Withdraw("c", "a"))]
  {
    assert "a" in ARRIVED && "b" in ARRIVED && "c" in ARRIVED;
    assert forall i :: 0 <= i < 3 ==> Sequenced(AS_SENT[i], ARRIVED);
    ReordersAll(AS_SENT, ARRIVED);
    var k0, k1, k2 := (1, AS_SENT[0]), (3, AS_SENT[1]), (2, AS_SENT[2]);
    assert Keyed(AS_SENT, ARRIVED) == [k0, k1] + [k2];
    var rank := ByArrival();
    assert rank(k0) == Rank(1, 1, 0) && rank(k1) == Rank(3, 2, 0) && rank(k2) == Rank(2, 3, 0);
    AppendThenSort([k0, k1], k2, rank);
    assert Splits([k0, k1], k2, rank, 1);
    InsertAt([k0, k1], k2, rank, 1);
    assert [k0, k1][..1] + [k2] + [k0, k1][1..] == [k0, k2, k1];
    hide StableSort, Insert;
    assert InEngineOrder(AS_SENT, ARRIVED) == Renumber([k0, k2, k1]);
  }

  lemma ReordersAll(events: seq<Event>, accept: map<string, nat>)
    requires accept != map[] && forall ev :: ev in events ==> Sequenced(ev, accept)
    ensures InEngineOrder(events, accept) == Renumber(StableSort(Keyed(events, accept), ByArrival()))
  {
  }

  lemma ArrivalSorted(s: seq<(nat, Event)>)
    requires Sorted(s, ByArrival())
    ensures forall i, j :: 0 <= i < j < |s| ==> s[i].0 < s[j].0 || (s[i].0 == s[j].0 && s[i].1.lineNo <= s[j].1.lineNo)
  {
    var rank := ByArrival();
    forall i, j | 0 <= i < j < |s| ensures s[i].0 < s[j].0 || (s[i].0 == s[j].0 && s[i].1.lineNo <= s[j].1.lineNo) {
      assert !Less(rank(s[j]), rank(s[i]));
    }
  }

  lemma SortKeepsKeys(events: seq<Event>, accept: map<string, nat>)
    ensures var s := StableSort(Keyed(events, accept), ByArrival());
      && multiset(Values(s)) == multiset(events)
      && (forall i :: 0 <= i < |s| ==> s[i].1 in events && s[i].0 == ArrivalOf(s[i].1, accept))
  {
    var keyed := Keyed(events, accept);
    var s := StableSort(keyed, ByArrival());
    StableSortMultiset(keyed, ByArrival());
    hide StableSort;
    SameMultisetSameValues(s, keyed);
    assert Values(keyed) == events;
    SameMultisetSameLength(s, keyed);
    assert forall i :: 0 <= i < |s| ==> s[i] in keyed;
  }
}
