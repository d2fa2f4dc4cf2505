/**
 Every interleaving of the locked engine validates clean: replaying the events in
 acknowledgement order yields the engine's own fills, and no check objects.
 */
module EndToEnd {
  import opened Types
  import opened Sequences
  import opened BookSpec
  import opened BookSafety
  import opened LevelBook
  import opened LevelRefinement
  import opened Compare
  import EdgeCases
  import opened Replay
  import opened Validator
  import opened Verdict
  import opened ConcurrentEngine
  import opened ConcurrentSafety

  // ----- what the validator is given -----

  function KindOf(): Event -> EventKind {
    (ev: Event) => ev.kind
  }

  function LoggedKind(): Logged -> EventKind {
    (l: Logged) => l.kind
  }

  /** The benchmark's events are the engine's requests, in whatever order they were written down. */
  ghost predicate Recorded(events: seq<Event>, hist: seq<Logged>) {
    && multiset(Mapped(events, KindOf())) == multiset(Mapped(hist, LoggedKind()))
    && forall i :: 0 <= i < |events| && events[i].kind.Submit? ==> events[i].symbol == events[i].kind.order.symbol
  }

  /** The output says what was acknowledged and traded, in any order and any number of times. */
  ghost predicate Printed(lines: seq<OutputLine>, s: Engine) {
    && (forall i :: 0 <= i < |s.hist| ==> AckLine(IdOf(s.hist[i]), s.hist[i].seqNo) in lines)
    && (forall i :: 0 <= i < |s.trades| ==> FillLine(Some(s.trades[i].seqNo), s.trades[i].fill) in lines)
    && (forall id, n :: AckLine(id, n) in lines ==> exists i :: 0 <= i < |s.hist| && IdOf(s.hist[i]) == id && s.hist[i].seqNo == n)
    && (forall n, f :: FillLine(n, f) in lines ==> exists i :: 0 <= i < |s.trades| && n == Some(s.trades[i].seqNo) && s.trades[i].fill == f)
  }

  // ----- the engine's order is the order of acknowledgements -----

  lemma {:induction false} PrintedAcksAgree(lines: seq<OutputLine>, s: Engine)
    requires NamedOnce(s) && Printed(lines, s)
    ensures AcksAgree(lines)
  {
    hide IdOf;
    forall a, b | a in lines && b in lines && a.AckLine? && b.AckLine? && a.clientOrderId == b.clientOrderId
      ensures a.seqNo == b.seqNo
    {
      assert a == AckLine(a.clientOrderId, a.seqNo) && b == AckLine(b.clientOrderId, b.seqNo);
      var i :| 0 <= i < |s.hist| && IdOf(s.hist[i]) == a.clientOrderId && s.hist[i].seqNo == a.seqNo;
      var j :| 0 <= j < |s.hist| && IdOf(s.hist[j]) == b.clientOrderId && s.hist[j].seqNo == b.seqNo;
    }
  }

  lemma {:induction false} AcksSaySeqNo(lines: seq<OutputLine>, s: Engine)
    requires HistOk(s) && Printed(lines, s)
    ensures forall i :: 0 <= i < |s.hist| ==>
      IdOf(s.hist[i]) in ArrivalMap(lines) && ArrivalMap(lines)[IdOf(s.hist[i])] == s.hist[i].seqNo
  {
    hide NamedOnce, Numbered, Homes, AcksAgree, IdOf, ArrivalMap;
    PrintedAcksAgree(lines, s);
    ArrivalIsWhatAcksSay(lines);
  }

  function KindId(kind: EventKind): string {
    match kind
    case Submit(o) => o.clientOrderId
    case Withdraw(id, _) => id
  }

  function ByAck(accept: map<string, nat>): EventKind -> Rank {
    (k: EventKind) => Rank(if KindId(k) in accept then accept[KindId(k)] else 0, 0, 0)
  }

  lemma {:induction false} SameId(l: Logged)
    ensures KindId(l.kind) == IdOf(l)
  {
  }

  lemma {:induction false} HistSortedByAck(s: Engine, accept: map<string, nat>)
    requires HistOk(s)
    requires forall i :: 0 <= i < |s.hist| ==> IdOf(s.hist[i]) in accept && accept[IdOf(s.hist[i])] == s.hist[i].seqNo
    ensures StrictlySorted(Mapped(s.hist, LoggedKind()), ByAck(accept))
  {
    hide Homes, NamedOnce, IdOf, KindId, Mapped;
    var kinds, rank := Mapped(s.hist, LoggedKind()), ByAck(accept);
    forall i, j | 0 <= i < j < |kinds| ensures Less(rank(kinds[i]), rank(kinds[j])) {
      assert kinds[i] == s.hist[i].kind && kinds[j] == s.hist[j].kind;
      SameId(s.hist[i]);
      SameId(s.hist[j]);
      assert s.hist[i].seqNo < s.hist[j].seqNo;
    }
  }

  lemma {:induction false} SortedByAck(sorted: seq<Event>, accept: map<string, nat>)
    requires forall i, j :: 0 <= i < j < |sorted| ==> ArrivalOf(sorted[i], accept) <= ArrivalOf(sorted[j], accept)
    ensures Sorted(Mapped(sorted, KindOf()), ByAck(accept))
  {
    var kinds, rank := Mapped(sorted, KindOf()), ByAck(accept);
    forall i, j | 0 <= i < j < |kinds| ensures !Less(rank(kinds[j]), rank(kinds[i])) {
      assert rank(kinds[i]).first == ArrivalOf(sorted[i], accept) && rank(kinds[j]).first == ArrivalOf(sorted[j], accept);
    }
  }

  lemma {:induction false} EventIsLogged(events: seq<Event>, hist: seq<Logged>, ev: Event) returns (i: nat)
    requires Recorded(events, hist) && ev in events
    ensures i < |hist| && hist[i].kind == ev.kind
  {
    var ks, ls := Mapped(events, KindOf()), Mapped(hist, LoggedKind());
    var j :| 0 <= j < |events| && events[j] == ev;
    assert ks[j] == ev.kind;
    SameMultisetSameLength(ks, ls);
    assert ev.kind in ls;
    i :| 0 <= i < |ls| && ls[i] == ev.kind;
  }

  /** `ev` is the event of one logged request. */
  ghost predicate IsEventOf(ev: Event, l: Logged) {
    ev.kind == l.kind && (l.kind.Submit? ==> ev.symbol == l.kind.order.symbol)
  }

  /** `ordered` lists the requests, one event for each, as the engine acknowledged them. */
  ghost predicate FollowsHist(ordered: seq<Event>, hist: seq<Logged>) {
    |ordered| == |hist| && forall i :: 0 <= i < |hist| ==> IsEventOf(ordered[i], hist[i])
  }

  lemma {:induction false} EventsSequenced(events: seq<Event>, s: Engine, accept: map<string, nat>)
    requires HistOk(s) && Recorded(events, s.hist)
    requires forall i :: 0 <= i < |s.hist| ==> IdOf(s.hist[i]) in accept
    ensures forall ev :: ev in events ==> Sequenced(ev, accept)
  {
    forall ev | ev in events ensures Sequenced(ev, accept) {
      var i := EventIsLogged(events, s.hist, ev);
      assert ArrivalId(ev) == IdOf(s.hist[i]);
    }
  }

  lemma {:induction false} SameKindsInOrder(events: seq<Event>, sorted: seq<Event>, s: Engine, accept: map<string, nat>)
    requires HistOk(s) && Recorded(events, s.hist) && multiset(sorted) == multiset(events)
    requires forall i :: 0 <= i < |s.hist| ==> IdOf(s.hist[i]) in accept && accept[IdOf(s.hist[i])] == s.hist[i].seqNo
    requires forall i, j :: 0 <= i < j < |sorted| ==> ArrivalOf(sorted[i], accept) <= ArrivalOf(sorted[j], accept)
    ensures FollowsHist(sorted, s.hist)
  {
    HistSortedByAck(s, accept);
    SortedByAck(sorted, accept);
    hide HistOk, Homes, IdOf, ArrivalOf;
    MappedMultiset(sorted, events, KindOf());
    SortedIsStrictlySorted(Mapped(sorted, KindOf()), Mapped(s.hist, LoggedKind()), ByAck(accept));
    SameMultisetSameLength(sorted, events);
    forall i | 0 <= i < |s.hist| ensures IsEventOf(sorted[i], s.hist[i]) {
      assert Mapped(sorted, KindOf())[i] == Mapped(s.hist, LoggedKind())[i];
      assert sorted[i] in events;
    }
  }

  lemma {:induction false} OrderedAsAcknowledged(events: seq<Event>, lines: seq<OutputLine>, s: Engine)
    requires HistOk(s) && Recorded(events, s.hist) && Printed(lines, s) && events != []
    ensures FollowsHist(InEngineOrder(events, ArrivalMap(lines)), s.hist)
  {
    var accept := ArrivalMap(lines);
    AcksSaySeqNo(lines, s);
    EventsSequenced(events, s, accept);
    assert events[0] in events;
    hide HistOk, Printed, Recorded, ArrivalMap, InEngineOrder;
    var sorted := EngineOrderIsSortedPermutation(events, accept);
    hide ArrivalOf, Sequenced, IdOf;
    SameKindsInOrder(events, sorted, s, accept);
  }

  // ----- who was placed where -----

  ghost predicate UniqueIds(hist: seq<Logged>) {
    forall i, j :: 0 <= i < j < |hist| ==> IdOf(hist[i]) != IdOf(hist[j])
  }

  lemma {:induction false} UnnamedIsHomeless(hist: seq<Logged>, id: string)
    requires forall i :: 0 <= i < |hist| ==> IdOf(hist[i]) != id
    ensures id !in Homes(hist)
  {
    if hist != [] { UnnamedIsHomeless(hist[..|hist| - 1], id); }
  }

  lemma {:induction false} FreshIsHomeless(hist: seq<Logged>, n: nat)
    requires UniqueIds(hist) && n < |hist|
    ensures IdOf(hist[n]) !in Homes(hist[..n])
  {
    UnnamedIsHomeless(hist[..n], IdOf(hist[n]));
  }

  lemma {:induction false} HomesStable(hist: seq<Logged>, n: nat)
    requires UniqueIds(hist) && n <= |hist|
    ensures Extends(Homes(hist[..n]), Homes(hist))
    decreases |hist| - n
  {
    if n == |hist| {
      assert hist[..n] == hist;
    } else {
      HomesStable(hist, n + 1);
      FreshIsHomeless(hist, n);
      assert hist[..n + 1][..n] == hist[..n];
    }
  }

  lemma {:induction false} OwnersAreHomes(ordered: seq<Event>, hist: seq<Logged>)
    requires FollowsHist(ordered, hist) && UniqueIds(hist)
    ensures CancelOwner(ordered) == Homes(hist)
  {
    if hist != [] {
      var n := |hist| - 1;
      assert UniqueIds(hist[..n]);
      OwnersAreHomes(ordered[..n], hist[..n]);
      FreshIsHomeless(hist, n);
      assert IsEventOf(ordered[n], hist[n]);
    }
  }

  // ----- one shard of the replay is one book of the engine -----

  /** The shard's book once its bucket is used up. */
  function Fed(b: RefBook, bucket: seq<Event>): RefBook
    decreases |bucket|
  {
    if bucket == [] then b else Fed(Feed(b, bucket[0]).0, bucket[1..])
  }

  lemma {:induction false} TagValues(head: seq<(nat, Fill)>, rest: seq<(nat, Fill)>, line: nat, fills: seq<Fill>)
    requires head == Tag(line, fills)
    ensures Values(head + rest) == fills + Values(rest)
  {
    ValuesConcat(head, rest);
    assert Values(head) == fills;
  }

  lemma {:induction false} ShardCons(b: RefBook, bucket: seq<Event>)
    requires bucket != []
    ensures ShardFills(b, bucket) == Feed(b, bucket[0]).1 + ShardFills(Feed(b, bucket[0]).0, bucket[1..])
  {
    hide Feed;
    var (b', fills) := Feed(b, bucket[0]);
    TagValues(Tag(bucket[0].lineNo, fills), Shard(b', bucket[1..]), bucket[0].lineNo, fills);
  }

  /** The fills of a shard, in order. */
  function ShardFills(b: RefBook, bucket: seq<Event>): seq<Fill> {
    Values(Shard(b, bucket))
  }

  lemma {:induction false} FedAppend(b: RefBook, bucket: seq<Event>, ev: Event)
    ensures Fed(b, bucket + [ev]) == Feed(Fed(b, bucket), ev).0
    decreases |bucket|
  {
    hide Feed;
    if bucket == [] {
      assert [] + [ev] == [ev];
    } else {
      assert (bucket + [ev])[1..] == bucket[1..] + [ev];
      FedAppend(Feed(b, bucket[0]).0, bucket[1..], ev);
    }
  }

  lemma {:induction false} Assoc<T>(a: seq<T>, b: seq<T>, c: seq<T>)
    ensures (a + b) + c == a + (b + c)
  {
  }

  lemma {:induction false} ShardOne(b: RefBook, ev: Event)
    ensures ShardFills(b, [ev]) == Feed(b, ev).1
  {
    ShardCons(b, [ev]);
    EmptyShard(Feed(b, ev).0);
    hide Feed;
  }

  lemma {:induction false} ShardAppend(b: RefBook, bucket: seq<Event>, ev: Event)
    ensures ShardFills(b, bucket + [ev]) == ShardFills(b, bucket) + Feed(Fed(b, bucket), ev).1
    decreases |bucket|
  {
    hide Feed, ShardFills;
    if bucket == [] {
      assert [] + [ev] == [ev];
      EmptyShard(b);
      ShardOne(b, ev);
    } else {
      var b' := Feed(b, bucket[0]).0;
      ShardCons(b, bucket + [ev]);
      ShardCons(b, bucket);
      assert (bucket + [ev])[1..] == bucket[1..] + [ev];
      ShardAppend(b', bucket[1..], ev);
      Assoc(Feed(b, bucket[0]).1, ShardFills(b', bucket[1..]), Feed(Fed(b, bucket), ev).1);
    }
  }

  lemma {:induction false} EmptyShard(b: RefBook)
    ensures ShardFills(b, []) == []
  {
  }

  /** The same request, to the validator and to a book. */
  predicate Asks(ev: Event, a: Action) {
    match ev.kind
    case Submit(o) => a == PlaceOrder(o)
    case Withdraw(_, orig) => a == CancelOrder(orig)
  }

  lemma {:induction false} FeedRefines(b: RefBook, l: Ledger, ev: Event, a: Action)
    requires Represents(b, l.book) && Asks(ev, a)
    requires a.PlaceOrder? ==> !Live(l.book, a.order.clientOrderId)
    ensures Represents(Feed(b, ev).0, Apply(l, a, Normal).book)
    ensures Apply(l, a, Normal).fills == l.fills + Feed(b, ev).1
    ensures forall id :: Live(Apply(l, a, Normal).book, id) ==> Live(l.book, id) || (a.PlaceOrder? && a.order.clientOrderId == id)
  {
    assert Valid(l.book, Normal);
    hide Represents, Complete, Valid;
    match a
    case PlaceOrder(o) =>
      PlaceRefines(b, l.book, o);
      PlaceKeepsValid(l.book, o, Normal);
      hide PlaceLevels;
      assert l.fills + [] == l.fills;
    case CancelOrder(id) =>
      CancelRefines(b, l.book, id);
      CancelTakesOut(l.book, id);
      hide CancelLevels, Cancel;
      assert l.fills + [] == l.fills;
  }

  /** After `n` requests, the shard of `sym` and the sequential book agree. */
  ghost predicate InStepAt(ordered: seq<Event>, owner: map<string, string>, hist: seq<Logged>, sym: string) {
    var bucket := Bucket(ordered, owner, sym);
    var l := Replayed(hist, sym);
    && Represents(Fed(EMPTY_LEVELS, bucket), l.book)
    && ShardFills(EMPTY_LEVELS, bucket) == l.fills
    && forall id :: Live(l.book, id) ==> id in Homes(hist)
  }

  lemma {:induction false} LoggedOnce(s: Engine)
    requires HistOk(s)
    ensures UniqueIds(s.hist)
  {
    hide Homes, Numbered;
  }

  /** A cancel that the whole log sends to a book, though its order was not yet placed when it was acknowledged. */
  predicate TooSoon(ev: Event, homes: map<string, string>) {
    ev.kind.Withdraw? && ev.kind.origClientOrderId !in homes
  }

  /**
   The event reaches the book of `sym` just when the request is routed there, and
   asks the same; but a cancel acknowledged before its order also reaches it.
   */
  ghost predicate SameDemand(ev: Event, owner: map<string, string>, l: Logged, homes: map<string, string>, sym: string) {
    var routed := Routed(l.kind, homes, sym);
    if Target(ev, owner) == Some(sym) then (|routed| == 1 && Asks(ev, routed[0])) || (routed == [] && TooSoon(ev, homes))
    else routed == []
  }

  lemma {:induction false} TargetIsRoute(hist: seq<Logged>, n: nat, ev: Event, sym: string)
    requires UniqueIds(hist) && n < |hist| && IsEventOf(ev, hist[n])
    ensures SameDemand(ev, Homes(hist), hist[n], Homes(hist[..n]), sym)
  {
    hide Homes;
    HomesStable(hist, n);
  }

  /** A request for this symbol moves shard and book together. */
  lemma {:induction false} FedInStep(ordered: seq<Event>, owner: map<string, string>, hist: seq<Logged>, sym: string, ev: Event, l: Logged, a: Action)
    requires InStepAt(ordered, owner, hist, sym)
    requires Target(ev, owner) == Some(sym) && Routed(l.kind, Homes(hist), sym) == [a] && Asks(ev, a)
    requires IsEventOf(ev, l) && IdOf(l) !in Homes(hist)
    ensures InStepAt(ordered + [ev], owner, hist + [l], sym)
  {
    var bucket, ledger := Bucket(ordered, owner, sym), Replayed(hist, sym);
    BucketAppend(ordered, ev, owner, sym);
    HistAppend(hist, l, sym);
    hide Homes, ActionsOf, Bucket, Represents, Replayed, Apply, Feed, Target, Live;
    ReplayedAppend(hist, l, sym);
    FeedRefines(Fed(EMPTY_LEVELS, bucket), ledger, ev, a);
    FedAppend(EMPTY_LEVELS, bucket, ev);
    ShardAppend(EMPTY_LEVELS, bucket, ev);
    hide Fed, ShardFills;
  }

  /** A cancel of an order that does not rest feeds a shard nothing. */
  lemma {:induction false} IdleFeed(b: RefBook, book: Book, ev: Event)
    requires Represents(b, book) && ev.kind.Withdraw? && !Live(book, ev.kind.origClientOrderId)
    ensures Represents(Feed(b, ev).0, book) && Feed(b, ev).1 == []
  {
    hide Represents, CancelLevels;
    CancelRefines(b, book, ev.kind.origClientOrderId);
    CancelMissing(book, ev.kind.origClientOrderId);
  }

  /** A cancel that comes before its order finds nothing to cancel in the shard. */
  lemma {:induction false} SoonInStep(ordered: seq<Event>, owner: map<string, string>, hist: seq<Logged>, sym: string, ev: Event, l: Logged)
    requires InStepAt(ordered, owner, hist, sym)
    requires Target(ev, owner) == Some(sym) && Routed(l.kind, Homes(hist), sym) == [] && TooSoon(ev, Homes(hist))
    requires IsEventOf(ev, l)
    ensures InStepAt(ordered + [ev], owner, hist + [l], sym)
  {
    hide Homes, ActionsOf, Bucket, Represents, Replayed, Feed, Target, Live, Fed, ShardFills, Apply, Routed;
    var bucket, ledger := Bucket(ordered, owner, sym), Replayed(hist, sym);
    BucketAppend(ordered, ev, owner, sym);
    HistAppend(hist, l, sym);
    ReplayedAppend(hist, l, sym);
    IdleFeed(Fed(EMPTY_LEVELS, bucket), ledger.book, ev);
    FedAppend(EMPTY_LEVELS, bucket, ev);
    ShardAppend(EMPTY_LEVELS, bucket, ev);
    assert ShardFills(EMPTY_LEVELS, bucket) + [] == ShardFills(EMPTY_LEVELS, bucket);
  }

  lemma {:induction false} PassedInStep(ordered: seq<Event>, owner: map<string, string>, hist: seq<Logged>, sym: string, ev: Event, l: Logged)
    requires InStepAt(ordered, owner, hist, sym)
    requires Target(ev, owner) != Some(sym) && Routed(l.kind, Homes(hist), sym) == []
    requires IdOf(l) !in Homes(hist)
    ensures InStepAt(ordered + [ev], owner, hist + [l], sym)
  {
    var bucket := Bucket(ordered, owner, sym);
    BucketAppend(ordered, ev, owner, sym);
    HistAppend(hist, l, sym);
    hide Homes, ActionsOf, Bucket, Represents, Replayed, Apply, Feed, Target, Live, Fed, ShardFills;
    ReplayedAppend(hist, l, sym);
    assert bucket + [] == bucket;
  }

  lemma {:induction false} TakeOneMore<T>(s: seq<T>, n: nat)
    requires n < |s|
    ensures s[..n + 1] == s[..n] + [s[n]]
  {
  }

  lemma {:induction false} StepInStep(ordered: seq<Event>, hist: seq<Logged>, n: nat, sym: string)
    requires FollowsHist(ordered, hist) && UniqueIds(hist) && n < |hist|
    requires InStepAt(ordered[..n], Homes(hist), hist[..n], sym)
    ensures InStepAt(ordered[..n + 1], Homes(hist), hist[..n + 1], sym)
  {
    var owner, ev, l := Homes(hist), ordered[n], hist[n];
    assert IsEventOf(ev, l);
    hide FollowsHist, Homes, InStepAt, IsEventOf;
    TargetIsRoute(hist, n, ev, sym);
    FreshIsHomeless(hist, n);
    hide UniqueIds, IdOf, SameDemand;
    OneMoreInStep(ordered[..n], owner, hist[..n], sym, ev, l);
    TakeOneMore(ordered, n);
    TakeOneMore(hist, n);
  }

  lemma {:induction false} OneMoreInStep(ordered: seq<Event>, owner: map<string, string>, hist: seq<Logged>, sym: string, ev: Event, l: Logged)
    requires InStepAt(ordered, owner, hist, sym)
    requires IsEventOf(ev, l) && IdOf(l) !in Homes(hist)
    requires SameDemand(ev, owner, l, Homes(hist), sym)
    ensures InStepAt(ordered + [ev], owner, hist + [l], sym)
  {
    hide Homes, InStepAt, IsEventOf, Routed, Asks, Target, IdOf, TooSoon;
    var routed := Routed(l.kind, Homes(hist), sym);
    if Target(ev, owner) == Some(sym) && routed == [] {
      SoonInStep(ordered, owner, hist, sym, ev, l);
    } else if Target(ev, owner) == Some(sym) {
      assert routed == [routed[0]];
      FedInStep(ordered, owner, hist, sym, ev, l, routed[0]);
    } else {
      PassedInStep(ordered, owner, hist, sym, ev, l);
    }
  }

  lemma {:induction false} NothingInStep(owner: map<string, string>, sym: string)
    ensures InStepAt([], owner, [], sym)
  {
    EmptyRepresents();
    hide Represents, Apply, Feed;
    EmptyShard(EMPTY_LEVELS);
    assert Replayed([], sym) == EMPTY_LEDGER;
  }

  lemma {:induction false} ShardIsBook(ordered: seq<Event>, hist: seq<Logged>, n: nat, sym: string)
    requires FollowsHist(ordered, hist) && UniqueIds(hist) && n <= |hist|
    ensures InStepAt(ordered[..n], Homes(hist), hist[..n], sym)
  {
    hide InStepAt, FollowsHist, UniqueIds, Homes;
    if n == 0 {
      NothingInStep(Homes(hist), sym);
    } else {
      ShardIsBook(ordered, hist, n - 1, sym);
      StepInStep(ordered, hist, n - 1, sym);
    }
  }

  // ----- the replay yields the engine's fills -----

  function TradedFill(): Trade -> Fill {
    (t: Trade) => t.fill
  }

  function Marked(): Trade -> (string, Fill) {
    (t: Trade) => (t.symbol, t.fill)
  }

  lemma {:induction false} MarkedUnder(trades: seq<Trade>, sym: string)
    ensures Under(Mapped(trades, Marked()), sym) == TradesOf(trades, sym)
  {
    if trades != [] {
      var n := |trades| - 1;
      MarkedUnder(trades[..n], sym);
      MappedConcat(trades[..n], [trades[n]], Marked());
      TakeOneMore(trades, n);
      assert trades[..n + 1] == trades;
      UnderConcat(Mapped(trades[..n], Marked()), Mapped([trades[n]], Marked()), sym);
    }
  }

  lemma {:induction false} MarkedValues(trades: seq<Trade>)
    ensures Values(Mapped(trades, Marked())) == Mapped(trades, TradedFill())
  {
  }

  /** The same fills without their lines. */
  function Unlined(s: seq<(string, (nat, Fill))>): (r: seq<(string, Fill)>)
    ensures |r| == |s|
    ensures forall i :: 0 <= i < |s| ==> r[i] == (s[i].0, s[i].1.1)
  {
    if s == [] then [] else [(s[0].0, s[0].1.1)] + Unlined(s[1..])
  }

  lemma {:induction false} UnlinedUnder(s: seq<(string, (nat, Fill))>, sym: string)
    ensures Under(Unlined(s), sym) == Values(Under(s, sym))
  {
    if s != [] {
      UnlinedUnder(s[1..], sym);
      assert Unlined(s)[1..] == Unlined(s[1..]);
      if s[0].0 == sym {
        assert ([s[0].1] + Under(s[1..], sym))[1..] == Under(s[1..], sym);
      }
    }
  }

  lemma {:induction false} UnlinedValues(s: seq<(string, (nat, Fill))>)
    ensures Values(Unlined(s)) == Values(Values(s))
  {
  }

  /** With nobody at work, what has traded is what the sequential book trades. */
  lemma {:induction false} QuiescentFills(s: Engine, sym: string)
    requires Simulates(s, sym) && Quiescent(s)
    ensures Replayed(s.hist, sym).fills == TradesOf(s.trades, sym)
  {
    hide Replayed, TradesOf;
  }

  /** A symbol's shard yields what the sequential book trades, whatever the engine did. */
  lemma {:induction false} ShardYieldsReplayed(hist: seq<Logged>, ordered: seq<Event>, sym: string)
    requires UniqueIds(hist) && FollowsHist(ordered, hist)
    ensures ShardFills(EMPTY_LEVELS, Bucket(ordered, CancelOwner(ordered), sym)) == Replayed(hist, sym).fills
  {
    OwnersAreHomes(ordered, hist);
    hide Homes, UniqueIds;
    ShardIsBook(ordered, hist, |hist|, sym);
    assert ordered[..|hist|] == ordered && hist[..|hist|] == hist;
    hide Replayed, Represents, ShardFills;
  }

  /** The replay's fills of one symbol. */
  lemma {:induction false} ExpectedUnder(hist: seq<Logged>, ordered: seq<Event>, sym: string)
    requires UniqueIds(hist) && FollowsHist(ordered, hist)
    ensures Under(Unlined(Sequential(map[], ordered, CancelOwner(ordered))), sym) == Replayed(hist, sym).fills
  {
    var owner := CancelOwner(ordered);
    hide FollowsHist, UniqueIds, Bucket, Sequential, Shard, Under, Values, Unlined, CancelOwner, Replayed;
    ShardYieldsReplayed(hist, ordered, sym);
    ShardIsProjection(map[], ordered, owner, sym);
    UnlinedUnder(Sequential(map[], ordered, owner), sym);
  }

  lemma {:induction false} ReplayYieldsTrades(s: Engine, ordered: seq<Event>)
    requires UniqueIds(s.hist) && Quiescent(s) && FollowsHist(ordered, s.hist)
    requires forall sym :: SymbolOk(s, sym)
    ensures multiset(ExpectedFills(ordered)) == multiset(Mapped(s.trades, TradedFill()))
  {
    hide UniqueIds, FollowsHist, Simulates, BookOk, LiveOk, TradesOf, Sequential, Under, Values, Unlined, Mapped, Replayed, Quiescent;
    var owner := CancelOwner(ordered);
    var all := Sequential(map[], ordered, owner);
    var expected, traded := Unlined(all), Mapped(s.trades, Marked());
    forall sym ensures Under(expected, sym) == Under(traded, sym) {
      assert SymbolOk(s, sym);
      ExpectedUnder(s.hist, ordered, sym);
      QuiescentFills(s, sym);
      MarkedUnder(s.trades, sym);
    }
    hide CancelOwner;
    SameUnderSameMultiset(expected, traded);
    UnlinedValues(all);
    MarkedValues(s.trades);
  }

  // ----- the reports are the engine's fills -----

  function AsReport(): Trade -> ActualFill {
    (t: Trade) => ActualFill(Some(t.seqNo), t.fill)
  }

  lemma {:induction false} ReportsSorted(s: Engine)
    requires TradesOk(s)
    ensures StrictlySorted(Mapped(s.trades, AsReport()), SeqRank())
  {
  }

  lemma {:induction false} ReportsAreTrades(lines: seq<OutputLine>, s: Engine)
    requires Printed(lines, s)
    ensures forall a :: a in AllFills(lines) <==> a in Mapped(s.trades, AsReport())
  {
    var reports := Mapped(s.trades, AsReport());
    FillsAreFillLines(lines);
    hide AllFills;
    forall a | a in AllFills(lines) ensures a in reports {
      assert FillLine(a.engineSeq, a.fill) in lines;
      var i :| 0 <= i < |s.trades| && a.engineSeq == Some(s.trades[i].seqNo) && s.trades[i].fill == a.fill;
      assert reports[i] == a;
    }
    forall a | a in reports ensures a in AllFills(lines) {
      var i :| 0 <= i < |reports| && reports[i] == a;
      assert FillLine(Some(s.trades[i].seqNo), s.trades[i].fill) in lines;
    }
  }

  lemma {:induction false} SortedReportsDiffer(reports: seq<ActualFill>)
    requires StrictlySorted(reports, SeqRank()) && EveryFillSequenced(reports)
    ensures forall i, j :: 0 <= i < j < |reports| ==> reports[i].engineSeq.value < reports[j].engineSeq.value
    ensures EdgeCases.Consistent(reports) && EdgeCases.InOrder(reports)
  {
    forall i, j | 0 <= i < j < |reports| ensures reports[i].engineSeq.value < reports[j].engineSeq.value {
      assert Less(SeqRank()(reports[i]), SeqRank()(reports[j]));
    }
  }

  /** However often and in whatever order they were printed, deduplication recovers the trades as they happened. */
  lemma {:induction false} DedupedAreTrades(lines: seq<OutputLine>, s: Engine)
    requires TradesOk(s) && Printed(lines, s)
    ensures EdgeCases.Consistent(AllFills(lines))
    ensures Deduped(AllFills(lines)) == Mapped(s.trades, AsReport())
  {
    var fills, reports := AllFills(lines), Mapped(s.trades, AsReport());
    ReportsSorted(s);
    ReportsAreTrades(lines, s);
    hide AllFills, Deduped, Printed;
    assert EveryFillSequenced(reports);
    assert EveryFillSequenced(fills);
    SortedReportsDiffer(reports);
    ConsistentByMembers(reports, fills);
    DedupedSorted(fills);
    DedupedMembers(fills);
    hide EdgeCases.Consistent;
    SameMembersSameList(Deduped(fills), reports, SeqRank());
  }

  // ----- nothing for the checks to object to -----

  lemma {:induction false} LadderQtyNonNegative(ladder: seq<Order>, id: string)
    requires forall o :: o in ladder ==> o.qty > 0
    ensures QtyOf(ladder, id) >= 0
  {
    if ladder != [] {
      assert ladder[0] in ladder;
      LadderQtyNonNegative(ladder[1..], id);
    }
  }

  lemma {:induction false} RestingNonNegative(b: Book, id: string)
    requires Valid(b, Normal)
    ensures RestingQty(b, id) >= 0
  {
    LadderQtyNonNegative(b.buys, id);
    LadderQtyNonNegative(b.sells, id);
  }

  lemma {:induction false} DroppedNonNegative(b: Book, o: NewOrder)
    requires Valid(b, Normal) && Rejection(o) == None
    ensures Dropped(b, Admit(o, b.insertSeq + 1), o.orderType == Market) >= 0
  {
    hide Match;
    MatchWalksTheLadder(Admit(o, b.insertSeq + 1), b.Ladder(Opposite(o.side)), o.orderType == Market);
  }

  ghost predicate NothingOwed(l: Ledger) {
    forall id :: Get(l.released, id) >= 0 && Get(l.accepted, id) >= 0
  }

  lemma {:induction false} PlacingOwesNothing(l: Ledger, o: NewOrder)
    requires Valid(l.book, Normal) && NothingOwed(l)
    ensures NothingOwed(Apply(l, PlaceOrder(o), Normal))
  {
    hide Complete, Dropped, Valid;
    if Rejection(o) == None { DroppedNonNegative(l.book, o); }
    var l' := Apply(l, PlaceOrder(o), Normal);
    forall id ensures Get(l'.released, id) >= 0 && Get(l'.accepted, id) >= 0 {
      assert Get(l.released, id) >= 0 && Get(l.accepted, id) >= 0;
    }
  }

  lemma {:induction false} CancellingOwesNothing(l: Ledger, id: string)
    requires Valid(l.book, Normal) && NothingOwed(l)
    ensures NothingOwed(Apply(l, CancelOrder(id), Normal))
  {
    RestingNonNegative(l.book, id);
    hide Cancel, RestingQty, Valid;
    var l' := Apply(l, CancelOrder(id), Normal);
    forall x ensures Get(l'.released, x) >= 0 && Get(l'.accepted, x) >= 0 {
      assert Get(l.released, x) >= 0 && Get(l.accepted, x) >= 0 && Get(l.released, id) >= 0;
    }
  }

  /** Request `i` of the log placed `qty` under `id` with `sym`. */
  predicate PlacedAs(hist: seq<Logged>, i: nat, id: string, sym: string, qty: int) {
    && i < |hist| && hist[i].kind.Submit?
    && hist[i].kind.order.clientOrderId == id && hist[i].kind.order.symbol == sym && hist[i].kind.order.qty == qty
  }

  /** Whatever the ledger has accepted, one request placed. */
  ghost predicate AcceptedPlaced(hist: seq<Logged>, sym: string, l: Ledger) {
    forall id :: Get(l.accepted, id) > 0 ==> exists i: nat :: PlacedAs(hist, i, id, sym, Get(l.accepted, id))
  }

  ghost predicate Sound(hist: seq<Logged>, sym: string) {
    var l := Replayed(hist, sym);
    && Valid(l.book, Normal) && Conserves(l) && FillsPositive(l.fills) && NothingOwed(l)
    && AcceptedPlaced(hist, sym, l)
    && forall id :: Live(l.book, id) ==> id in Homes(hist)
  }

  lemma {:induction false} ApplyAccepts(hist: seq<Logged>, sym: string, l: Ledger, e: Logged, o: NewOrder)
    requires AcceptedPlaced(hist, sym, l) && NothingOwed(l)
    requires e.kind == Submit(o) && o.symbol == sym
    requires forall i :: 0 <= i < |hist| ==> IdOf(hist[i]) != o.clientOrderId
    ensures AcceptedPlaced(hist + [e], sym, Apply(l, PlaceOrder(o), Normal))
  {
    var l' := Apply(l, PlaceOrder(o), Normal);
    hide Complete, Dropped;
    forall id | Get(l'.accepted, id) > 0 ensures exists i: nat :: PlacedAs(hist + [e], i, id, sym, Get(l'.accepted, id)) {
      if id == o.clientOrderId && Rejection(o) == None {
        assert Get(l.accepted, id) == 0;
        assert PlacedAs(hist + [e], |hist|, id, sym, Get(l'.accepted, id));
      } else {
        var i: nat :| PlacedAs(hist, i, id, sym, Get(l.accepted, id));
        assert PlacedAs(hist + [e], i, id, sym, Get(l'.accepted, id));
      }
    }
  }

  lemma {:induction false} AcceptedStays(hist: seq<Logged>, sym: string, l: Ledger, e: Logged, l': Ledger)
    requires AcceptedPlaced(hist, sym, l) && l'.accepted == l.accepted
    ensures AcceptedPlaced(hist + [e], sym, l')
  {
    forall id | Get(l'.accepted, id) > 0 ensures exists i: nat :: PlacedAs(hist + [e], i, id, sym, Get(l'.accepted, id)) {
      var i: nat :| PlacedAs(hist, i, id, sym, Get(l.accepted, id));
      assert PlacedAs(hist + [e], i, id, sym, Get(l'.accepted, id));
    }
  }

  /** An unnamed order cannot be resting. */
  lemma {:induction false} SoundStep(hist: seq<Logged>, sym: string, e: Logged)
    requires Sound(hist, sym) && IdOf(e) !in Homes(hist)
    requires forall i :: 0 <= i < |hist| ==> IdOf(hist[i]) != IdOf(e)
    ensures Sound(hist + [e], sym)
  {
    var l := Replayed(hist, sym);
    HistAppend(hist, e, sym);
    hide Homes, ActionsOf, Replayed, Conserves, NothingOwed, Valid, Live;
    ReplayedAppend(hist, e, sym);
    match e.kind
    case Submit(o) =>
      if o.symbol == sym {
        ApplyKeeps(l, PlaceOrder(o), Normal);
        PlacingOwesNothing(l, o);
        ApplyAccepts(hist, sym, l, e, o);
        PlaceKeepsValid(l.book, o, Normal);
        assert Apply(l, PlaceOrder(o), Normal).book == Place(l.book, o, Normal).0;
        hide Apply, Place, AcceptedPlaced, FillsPositive;
      } else {
        AcceptedStays(hist, sym, l, e, l);
      }
    case Withdraw(_, orig) =>
      if orig in Homes(hist) && Homes(hist)[orig] == sym {
        ApplyKeeps(l, CancelOrder(orig), Normal);
        CancellingOwesNothing(l, orig);
        CancelTakesOut(l.book, orig);
        AcceptedStays(hist, sym, l, e, Apply(l, CancelOrder(orig), Normal));
        hide AcceptedPlaced, FillsPositive, Cancel;
      } else {
        AcceptedStays(hist, sym, l, e, l);
      }
  }

  lemma {:induction false} SoundAtStart(sym: string)
    ensures Sound([], sym)
  {
    assert Replayed([], sym) == EMPTY_LEDGER;
  }

  /** The sequential book of every symbol conserves quantity over the whole log. */
  lemma {:induction false} AlwaysSound(hist: seq<Logged>, sym: string)
    requires UniqueIds(hist)
    ensures Sound(hist, sym)
  {
    if hist == [] {
      SoundAtStart(sym);
    } else {
      var n := |hist| - 1;
      assert UniqueIds(hist[..n]);
      AlwaysSound(hist[..n], sym);
      FreshIsHomeless(hist, n);
      assert forall i :: 0 <= i < n ==> hist[..n][i] == hist[i];
      hide Sound, Homes;
      SoundStep(hist[..n], sym, hist[n]);
      TakeOneMore(hist, n);
      assert hist[..n + 1] == hist;
    }
  }

  lemma {:induction false} TradedNonNegative(fills: seq<Fill>, id: string)
    requires FillsPositive(fills)
    ensures Traded(fills, id) >= 0
  {
    if fills != [] { TradedNonNegative(fills[1..], id); }
  }

  lemma {:induction false} PartiesTrade(fills: seq<Fill>, i: nat)
    requires FillsPositive(fills) && i < |fills|
    ensures Traded(fills, fills[i].buyOrderId) > 0 && Traded(fills, fills[i].sellOrderId) > 0
  {
    if i == 0 {
      TradedNonNegative(fills[1..], fills[0].buyOrderId);
      TradedNonNegative(fills[1..], fills[0].sellOrderId);
    } else {
      PartiesTrade(fills[1..], i - 1);
    }
  }

  /** Whoever trades in a symbol was placed there, for at least as much. */
  lemma {:induction false} TradersArePlaced(hist: seq<Logged>, sym: string, id: string) returns (i: nat)
    requires Sound(hist, sym) && Traded(Replayed(hist, sym).fills, id) > 0
    ensures i < |hist| && hist[i].kind.Submit? && PlacedAs(hist, i, id, sym, hist[i].kind.order.qty)
    ensures Traded(Replayed(hist, sym).fills, id) <= hist[i].kind.order.qty
  {
    var l := Replayed(hist, sym);
    RestingNonNegative(l.book, id);
    assert ConservesAt(l, id) && Get(l.released, id) >= 0;
    hide Replayed, Valid, Homes, Live, Conserves, Traded, RestingQty;
    i :| PlacedAs(hist, i, id, sym, Get(l.accepted, id));
  }

  lemma {:induction false} PlacedQtyOf(ordered: seq<Event>, hist: seq<Logged>, i: nat)
    requires FollowsHist(ordered, hist) && UniqueIds(hist) && i < |hist| && hist[i].kind.Submit?
    ensures var o := hist[i].kind.order;
      o.clientOrderId in EdgeCases.PlacedQty(ordered) && EdgeCases.PlacedQty(ordered)[o.clientOrderId] == o.qty
  {
    var n := |hist| - 1;
    assert IsEventOf(ordered[n], hist[n]) && IsEventOf(ordered[i], hist[i]);
    if i < n {
      assert IdOf(hist[i]) != IdOf(hist[n]);
      PlacedQtyOf(ordered[..n], hist[..n], i);
    }
  }

  lemma {:induction false} TradeIsListed(trades: seq<Trade>, k: nat) returns (j: nat)
    requires k < |trades|
    ensures j < |TradesOf(trades, trades[k].symbol)| && TradesOf(trades, trades[k].symbol)[j] == trades[k].fill
  {
    var n := |trades| - 1;
    if k == n {
      j := |TradesOf(trades, trades[k].symbol)| - 1;
    } else {
      j := TradeIsListed(trades[..n], k);
    }
  }

  /** What one trade says about its two parties. */
  ghost predicate PartyOk(s: Engine, k: nat, id: string)
    requires k < |s.trades|
  {
    exists i: nat :: i < |s.hist| && s.hist[i].kind.Submit?
      && PlacedAs(s.hist, i, id, s.trades[k].symbol, s.hist[i].kind.order.qty)
      && Traded(TradesOf(s.trades, s.trades[k].symbol), id) <= s.hist[i].kind.order.qty
  }

  lemma {:induction false} TradePartiesOk(s: Engine, k: nat)
    requires UniqueIds(s.hist) && Quiescent(s) && k < |s.trades| && Simulates(s, s.trades[k].symbol)
    ensures s.trades[k].fill.qty > 0
    ensures PartyOk(s, k, s.trades[k].fill.buyOrderId) && PartyOk(s, k, s.trades[k].fill.sellOrderId)
  {
    var sym := s.trades[k].symbol;
    AlwaysSound(s.hist, sym);
    QuiescentFills(s, sym);
    var j := TradeIsListed(s.trades, k);
    var fills := Replayed(s.hist, sym).fills;
    assert FillsPositive(fills);
    hide Simulates, Sound, Replayed, TradesOf, UniqueIds;
    PartiesTrade(fills, j);
    hide Traded, FillsPositive;
    var b := TradersArePlaced(s.hist, sym, fills[j].buyOrderId);
    var a := TradersArePlaced(s.hist, sym, fills[j].sellOrderId);
  }

  lemma {:induction false} TotalAppend(trades: seq<Trade>, t: Trade, id: string, side: Side)
    ensures EdgeCases.Total(Mapped(trades + [t], AsReport()), id, side)
         == EdgeCases.Total(Mapped(trades, AsReport()), id, side)
          + (if EdgeCases.Party(t.fill, side) == id && t.fill.qty > 0 then t.fill.qty else 0)
  {
    MappedConcat(trades, [t], AsReport());
    var all := Mapped(trades + [t], AsReport());
    assert all[..|trades|] == Mapped(trades, AsReport());
    assert all[|trades|] == AsReport()(t);
    hide Mapped;
  }

  lemma {:induction false} TradedOne(f: Fill, id: string, side: Side)
    requires f.qty > 0
    ensures Traded([f], id) >= (if EdgeCases.Party(f, side) == id then f.qty else 0)
  {
    assert [f][1..] == [];
  }

  /** All trades of one party on one side are in one symbol, so they sum up there. */
  lemma {:induction false} TotalAtMostTraded(trades: seq<Trade>, id: string, side: Side, sym: string)
    requires forall k :: 0 <= k < |trades| ==> trades[k].fill.qty > 0
    requires forall k :: 0 <= k < |trades| && EdgeCases.Party(trades[k].fill, side) == id ==> trades[k].symbol == sym
    ensures EdgeCases.Total(Mapped(trades, AsReport()), id, side) <= Traded(TradesOf(trades, sym), id)
  {
    if trades != [] {
      var n := |trades| - 1;
      var before, t := trades[..n], trades[n];
      TotalAtMostTraded(before, id, side, sym);
      TakeOneMore(trades, n);
      assert trades[..n + 1] == trades;
      TotalAppend(before, t, id, side);
      TradesAppend(before, t, sym);
      TradedConcat(TradesOf(before, sym), [t.fill], id);
      TradedOne(t.fill, id, side);
      hide Mapped, TradesOf, EdgeCases.Total, Traded;
      assert TradesOf(before, sym) + [] == TradesOf(before, sym);
    }
  }

  ghost predicate TradersOk(s: Engine) {
    forall k :: 0 <= k < |s.trades| ==>
      && s.trades[k].fill.qty > 0
      && PartyOk(s, k, s.trades[k].fill.buyOrderId) && PartyOk(s, k, s.trades[k].fill.sellOrderId)
  }

  lemma {:induction false} AllTradersOk(s: Engine)
    requires UniqueIds(s.hist) && Quiescent(s) && forall sym :: SymbolOk(s, sym)
    ensures TradersOk(s)
  {
    forall k | 0 <= k < |s.trades|
      ensures s.trades[k].fill.qty > 0
      ensures PartyOk(s, k, s.trades[k].fill.buyOrderId) && PartyOk(s, k, s.trades[k].fill.sellOrderId)
    {
      assert SymbolOk(s, s.trades[k].symbol);
      hide Simulates, BookOk, LiveOk, UniqueIds, PartyOk;
      TradePartiesOk(s, k);
    }
  }

  /** An id that trades was placed once, in the symbol of each of its trades, for no less than it trades there. */
  lemma {:induction false} PartyIsPlaced(s: Engine, ordered: seq<Event>, k: nat, id: string)
    requires UniqueIds(s.hist) && FollowsHist(ordered, s.hist) && k < |s.trades| && PartyOk(s, k, id)
    ensures var placed := EdgeCases.PlacedQty(ordered); id in placed && Traded(TradesOf(s.trades, s.trades[k].symbol), id) <= placed[id]
  {
    var i: nat :| i < |s.hist| && s.hist[i].kind.Submit?
      && PlacedAs(s.hist, i, id, s.trades[k].symbol, s.hist[i].kind.order.qty)
      && Traded(TradesOf(s.trades, s.trades[k].symbol), id) <= s.hist[i].kind.order.qty;
    PlacedQtyOf(ordered, s.hist, i);
  }

  lemma {:induction false} OneHome(s: Engine, j: nat, k: nat, id: string)
    requires UniqueIds(s.hist) && j < |s.trades| && k < |s.trades| && PartyOk(s, j, id) && PartyOk(s, k, id)
    ensures s.trades[j].symbol == s.trades[k].symbol
  {
    hide Traded, TradesOf;
    var a: nat :| a < |s.hist| && s.hist[a].kind.Submit? && PlacedAs(s.hist, a, id, s.trades[j].symbol, s.hist[a].kind.order.qty);
    var b: nat :| b < |s.hist| && s.hist[b].kind.Submit? && PlacedAs(s.hist, b, id, s.trades[k].symbol, s.hist[b].kind.order.qty);
    assert IdOf(s.hist[a]) == IdOf(s.hist[b]) == id;
  }

  lemma {:induction false} NotOverfilledBy(s: Engine, ordered: seq<Event>, id: string, side: Side, k: nat)
    requires UniqueIds(s.hist) && FollowsHist(ordered, s.hist) && TradersOk(s)
    requires k < |s.trades| && EdgeCases.Party(s.trades[k].fill, side) == id
    ensures var placed := EdgeCases.PlacedQty(ordered); id in placed && EdgeCases.Total(Mapped(s.trades, AsReport()), id, side) <= placed[id]
  {
    hide PartyOk, UniqueIds, FollowsHist;
    assert PartyOk(s, k, id);
    forall j | 0 <= j < |s.trades| && EdgeCases.Party(s.trades[j].fill, side) == id ensures s.trades[j].symbol == s.trades[k].symbol {
      assert PartyOk(s, j, id);
      OneHome(s, j, k, id);
    }
    TotalAtMostTraded(s.trades, id, side, s.trades[k].symbol);
    PartyIsPlaced(s, ordered, k, id);
  }

  lemma {:induction false} TradersAreKnown(s: Engine, ordered: seq<Event>)
    requires UniqueIds(s.hist) && FollowsHist(ordered, s.hist) && TradersOk(s)
    ensures var reports := Mapped(s.trades, AsReport());
      EdgeCases.QtysPositive(reports) && EdgeCases.IdsKnown(reports, EdgeCases.PlacedQty(ordered))
  {
    var reports, placed := Mapped(s.trades, AsReport()), EdgeCases.PlacedQty(ordered);
    hide UniqueIds, FollowsHist, PartyOk, EdgeCases.Total, EdgeCases.PlacedQty;
    forall k | 0 <= k < |reports| ensures reports[k].fill.buyOrderId in placed && reports[k].fill.sellOrderId in placed {
      NotOverfilledBy(s, ordered, reports[k].fill.buyOrderId, Buy, k);
      NotOverfilledBy(s, ordered, reports[k].fill.sellOrderId, Sell, k);
    }
  }

  lemma {:induction false} NobodyOverfills(s: Engine, ordered: seq<Event>)
    requires UniqueIds(s.hist) && FollowsHist(ordered, s.hist) && TradersOk(s)
    ensures EdgeCases.NotOverfilled(Mapped(s.trades, AsReport()), EdgeCases.PlacedQty(ordered))
  {
    var reports, placed := Mapped(s.trades, AsReport()), EdgeCases.PlacedQty(ordered);
    hide UniqueIds, FollowsHist, TradersOk, EdgeCases.Total, EdgeCases.PlacedQty;
    forall id, side | id in placed && EdgeCases.Traded(reports, id, side) ensures EdgeCases.Total(reports, id, side) <= placed[id] {
      var k :| 0 <= k < |reports| && EdgeCases.Party(reports[k].fill, side) == id;
      NotOverfilledBy(s, ordered, id, side, k);
    }
  }

  lemma {:induction false} TradesAreClean(s: Engine, ordered: seq<Event>, fills: seq<ActualFill>)
    requires UniqueIds(s.hist) && FollowsHist(ordered, s.hist) && TradersOk(s) && TradesOk(s)
    requires EdgeCases.Consistent(fills)
    ensures EdgeCases.Clean(ordered, fills, Mapped(s.trades, AsReport()))
  {
    ReportsSorted(s);
    hide UniqueIds, FollowsHist, TradersOk, TradesOk, Mapped;
    SortedReportsDiffer(Mapped(s.trades, AsReport()));
    TradersAreKnown(s, ordered);
    NobodyOverfills(s, ordered);
    hide EdgeCases.Consistent, EdgeCases.InOrder, EdgeCases.QtysPositive, EdgeCases.IdsKnown, EdgeCases.NotOverfilled;
  }

  // ----- the theorem -----

  /**
   For every run of the engine that comes to rest, with any interleaving of any
   number of requests, each step of it harmless: however its events and its output
   were written down, the validator accepts them.
   */
  lemma {:induction false} EveryInterleavingValidates(limits: bool, steps: seq<Step>, s: Engine, events: seq<Event>, lines: seq<OutputLine>)
    requires Reaches(limits, steps, s) && Quiescent(s)
    requires Recorded(events, s.hist) && HasOrders(events)
    requires Printed(lines, s)
    ensures Accepts(events, lines)
  {
    ReachableInv(limits, steps, s);
    var ordered, reports := InEngineOrder(events, ArrivalMap(lines)), Mapped(s.trades, AsReport());
    assert TradesOk(s) && HistOk(s) && forall sym :: SymbolOk(s, sym);
    LoggedOnce(s);
    hide Inv, TradesOk, HistOk, SymbolOk, Recorded, Printed, UniqueIds, Quiescent, InEngineOrder, ArrivalMap, FollowsHist, TradersOk;
    hide EdgeCases.Clean, EdgeCases.Consistent, Deduped, AllFills, ExpectedFills, Reaches;
    OrderedAsAcknowledged(events, lines, s);
    ReplayYieldsTrades(s, ordered);
    DedupedAreTrades(lines, s);
    assert FillOnly(reports) == Mapped(s.trades, TradedFill());
    AllTradersOk(s);
    TradesAreClean(s, ordered, AllFills(lines));
  }
}
