/** Every event of an admitted run is accounted for once, and re-delivered acks change nothing but a drop counter. */
module AggregatorSafety {
  import opened Types
  import opened TelemetryEvents
  import opened DedupWindow
  import opened Aggregator

  // ----- the ledger of a run, read off the stream -----

  /** The events of a run that the filter lets through. */
  function EventsOf(filter: Option<string>, xs: seq<Event>, run: string): (r: seq<Event>) {
    if xs == [] then []
    else
      var r := EventsOf(filter, xs[..|xs| - 1], run);
      var e := xs[|xs| - 1];
      if e.runId == run && (filter.None? || filter.value == run) then r + [e] else r
  }

  function AcksOf(xs: seq<Event>): (r: seq<Event>) {
    if xs == [] then []
    else
      var r := AcksOf(xs[..|xs| - 1]);
      if xs[|xs| - 1].kind.AckReceived? then r + [xs[|xs| - 1]] else r
  }

  /** The events of a run that met one fate, in order. */
  function Met(filter: Option<string>, xs: seq<Event>, run: string, fate: Fate): (r: seq<Event>) {
    if xs == [] then []
    else
      var p, e := xs[..|xs| - 1], xs[|xs| - 1];
      var r := Met(filter, p, run, fate);
      if e.runId == run && FateOf(filter, Ran(filter, p), e) == fate then r + [e] else r
  }

  /** Each counter is the number of events of its kind; `samples` counts the acks with a latency. */
  ghost predicate Tells(b: Bot, xs: seq<Event>) {
    && b.ordersSent == CountOf(xs, OrderSent)
    && b.acks == CountOf(xs, AckReceived)
    && b.fills == CountOf(xs, FillReceived)
    && b.timeouts == CountOf(xs, Timeout)
    && b.errors == CountOf(xs, Error)
    && b.samples == TimedAcks(xs)
  }

  /** There is an entry for each bot with an event, and it tells what that bot's events were. */
  ghost predicate TalliesAre(bots: map<string, Bot>, xs: seq<Event>) {
    && (forall b :: b in bots ==> Tells(bots[b], OfBot(xs, b)))
    && (forall b :: b !in bots ==> OfBot(xs, b) == [])
    && (forall i :: 0 <= i < |xs| ==> xs[i].botId in bots)
  }

  /** The stamps of the acks that have one, the only ones the per-second counter is fed. */
  function TicksOf(xs: seq<Event>): seq<nat> {
    if xs == [] then []
    else
      var ticks, e := TicksOf(xs[..|xs| - 1]), xs[|xs| - 1];
      if e.kind == AckReceived && e.recvTsNs != 0 then ticks + [e.recvTsNs] else ticks
  }

  /** An ack or a fill with the time it came. */
  predicate Dated(e: Event) {
    e.recvTsNs != 0 && e.kind in {AckReceived, FillReceived}
  }

  /** `first` and `last` are the least and greatest stamp, or zero when there is none. */
  ghost predicate SpanIs(first: nat, last: nat, xs: seq<Event>) {
    && (forall i :: 0 <= i < |xs| && Dated(xs[i]) ==> first <= xs[i].recvTsNs <= last)
    && (first == 0 <==> forall i :: 0 <= i < |xs| ==> !Dated(xs[i]))
    && (first == 0 <==> last == 0)
    && (first > 0 ==> exists i, j :: 0 <= i < |xs| && 0 <= j < |xs| && Dated(xs[i]) && Dated(xs[j])
                                     && xs[i].recvTsNs == first && xs[j].recvTsNs == last)
  }

  /** Only events of bots without an entry are refused, and only when there is no room for one more. */
  ghost predicate RefusedForRoom(bots: map<string, Bot>, refused: seq<Event>) {
    forall i :: 0 <= i < |refused| ==> refused[i].botId !in bots && |bots| == MAX_BOTS_PER_RUN
  }

  /** The state of an admitted run is what its counted events and its drops say. */
  ghost predicate Accounts(run: RunState, all: seq<Event>, counted: seq<Event>, repeated: seq<Event>, refused: seq<Event>) {
    && |all| == |counted| + |repeated| + |refused|
    && run.duplicatesDropped == |repeated|
    && run.botsDropped == |refused|
    && run.seen == After(DEDUP_WINDOW, AcksOf(all))
    && CountOf(counted, AckReceived) + CountOf(refused, AckReceived) == |Accepted(DEDUP_WINDOW, AcksOf(all))|
    && RefusedForRoom(run.bots, refused)
    && TalliesAre(run.bots, counted)
    && SpanIs(run.firstTsNs, run.lastTsNs, counted)
    && run.ticks == TicksOf(counted)
    && |run.bots| <= MAX_BOTS_PER_RUN
  }

  lemma StampSeen(first: nat, last: nat, xs: seq<Event>, e: Event)
    requires SpanIs(first, last, xs)
    ensures SpanIs(Earliest(first, e), Latest(last, e), xs + [e])
  {
    var ys := xs + [e];
    assert ys[|xs|] == e;
    assert forall i :: 0 <= i < |xs| ==> ys[i] == xs[i];
    var f, l := Earliest(first, e), Latest(last, e);
    if f == 0 {
      assert !Dated(e);
    }
    if f > 0 {
      if first > 0 {
        var i, j :| 0 <= i < |xs| && 0 <= j < |xs| && Dated(xs[i]) && Dated(xs[j])
                    && xs[i].recvTsNs == first && xs[j].recvTsNs == last;
        var i' := if f == first then i else |xs|;
        var j' := if l == last then j else |xs|;
        assert Dated(ys[i']) && Dated(ys[j']) && ys[i'].recvTsNs == f && ys[j'].recvTsNs == l;
      } else {
        assert Dated(ys[|xs|]) && ys[|xs|].recvTsNs == f && ys[|xs|].recvTsNs == l;
      }
    }
  }

  lemma BotTallied(b: Bot, xs: seq<Event>, e: Event)
    requires Tells(b, xs)
    ensures Tells(Tallied(b, e), xs + [e])
  {
    CountsGrow(xs, e);
  }

  lemma NothingTold()
    ensures Tells(NoBot(), [])
  {
    hide CountOf, TimedAcks;
    NothingCounted();
  }

  lemma EntryGrows(bots: map<string, Bot>, xs: seq<Event>, e: Event, b: string)
    requires TalliesAre(bots, xs)
    ensures var bots' := bots[e.botId := Tallied(if e.botId in bots then bots[e.botId] else NoBot(), e)];
      if b in bots' then Tells(bots'[b], OfBot(xs + [e], b)) else OfBot(xs + [e], b) == []
  {
    hide Tells, Tallied, OfBot;
    PartsGrow(xs, e, b);
    if b == e.botId {
      if b !in bots { NothingTold(); }
      BotTallied(if b in bots then bots[b] else NoBot(), OfBot(xs, b), e);
    }
  }

  lemma TallyGrows(bots: map<string, Bot>, xs: seq<Event>, e: Event)
    requires TalliesAre(bots, xs)
    ensures var bot := if e.botId in bots then bots[e.botId] else NoBot();
            TalliesAre(bots[e.botId := Tallied(bot, e)], xs + [e])
  {
    hide Tells, Tallied, OfBot;
    forall b ensures
      var bots' := bots[e.botId := Tallied(if e.botId in bots then bots[e.botId] else NoBot(), e)];
      if b in bots' then Tells(bots'[b], OfBot(xs + [e], b)) else OfBot(xs + [e], b) == [] {
      EntryGrows(bots, xs, e, b);
    }
  }

  lemma AcksGrow(xs: seq<Event>, e: Event)
    ensures AcksOf(xs + [e]) == if e.kind.AckReceived? then AcksOf(xs) + [e] else AcksOf(xs)
  {
    assert (xs + [e])[..|xs|] == xs;
  }

  lemma AfterGrows(run: RunState, all: seq<Event>, e: Event)
    requires run.seen == After(DEDUP_WINDOW, AcksOf(all))
    ensures Noticed(run, e).seen == After(DEDUP_WINDOW, AcksOf(all + [e]))
    ensures e.kind.AckReceived? && Retains(run.seen, e) ==> run.seen == After(DEDUP_WINDOW, AcksOf(all + [e]))
    ensures |Accepted(DEDUP_WINDOW, AcksOf(all + [e]))|
         == |Accepted(DEDUP_WINDOW, AcksOf(all))| + if e.kind.AckReceived? && !Retains(run.seen, e) then 1 else 0
  {
    AcksGrow(all, e);
    var acks := AcksOf(all);
    assert (acks + [e])[..|acks|] == acks;
  }

  lemma TicksGrow(xs: seq<Event>, e: Event)
    ensures TicksOf(xs + [e]) == Ticked(TicksOf(xs), e)
  {
    assert (xs + [e])[..|xs|] == xs;
  }

  lemma RoomStays(bots: map<string, Bot>, refused: seq<Event>, id: string, b: Bot)
    requires RefusedForRoom(bots, refused) && (id in bots || |bots| < MAX_BOTS_PER_RUN)
    ensures RefusedForRoom(bots[id := b], refused)
  {
    if refused != [] {
      assert refused[0].botId !in bots && |bots| == MAX_BOTS_PER_RUN;
      assert bots[id := b].Keys == bots.Keys;
    }
  }

  lemma RoomRefused(bots: map<string, Bot>, refused: seq<Event>, e: Event)
    requires RefusedForRoom(bots, refused) && e.botId !in bots && |bots| == MAX_BOTS_PER_RUN
    ensures RefusedForRoom(bots, refused + [e])
  {
  }

  lemma CountedStep(run: RunState, all: seq<Event>, counted: seq<Event>, repeated: seq<Event>, refused: seq<Event>, e: Event)
    requires Accounts(run, all, counted, repeated, refused)
    requires e.botId in run.bots || |run.bots| < MAX_BOTS_PER_RUN
    requires e.kind.AckReceived? ==> !Retains(run.seen, e)
    ensures Accounts(Taken(Noticed(run, e), e), all + [e], counted + [e], repeated, refused)
  {
    hide After, Inserted, Accepted, TalliesAre, SpanIs, Tallied, Earliest, Latest, Ticked, Retains, CountOf, AcksOf, TicksOf, RefusedForRoom;
    AfterGrows(run, all, e);
    CountsGrow(counted, e);
    RoomStays(run.bots, refused, e.botId, Tallied(if e.botId in run.bots then run.bots[e.botId] else NoBot(), e));
    TallyGrows(run.bots, counted, e);
    StampSeen(run.firstTsNs, run.lastTsNs, counted, e);
    TicksGrow(counted, e);
    BotsBounded(run.bots, e.botId, Tallied(if e.botId in run.bots then run.bots[e.botId] else NoBot(), e));
  }

  lemma BotsBounded(bots: map<string, Bot>, id: string, b: Bot)
    requires |bots| <= MAX_BOTS_PER_RUN
    requires id in bots || |bots| < MAX_BOTS_PER_RUN
    ensures |bots[id := b]| <= MAX_BOTS_PER_RUN
  {
    if id in bots {
      assert bots[id := b].Keys == bots.Keys;
    } else {
      assert bots[id := b].Keys == bots.Keys + {id};
    }
  }

  lemma RepeatedStep(run: RunState, all: seq<Event>, counted: seq<Event>, repeated: seq<Event>, refused: seq<Event>, e: Event)
    requires Accounts(run, all, counted, repeated, refused)
    requires e.kind.AckReceived? && Retains(run.seen, e)
    ensures Accounts(run.(duplicatesDropped := run.duplicatesDropped + 1), all + [e], counted, repeated + [e], refused)
  {
    hide After, Inserted, Accepted, TalliesAre, SpanIs;
    AfterGrows(run, all, e);
  }

  lemma RefusedStep(run: RunState, all: seq<Event>, counted: seq<Event>, repeated: seq<Event>, refused: seq<Event>, e: Event)
    requires Accounts(run, all, counted, repeated, refused)
    requires e.botId !in run.bots && |run.bots| >= MAX_BOTS_PER_RUN
    requires e.kind.AckReceived? ==> !Retains(run.seen, e)
    ensures Accounts(Noticed(run, e).(botsDropped := run.botsDropped + 1), all + [e], counted, repeated, refused + [e])
  {
    hide After, Inserted, Accepted, TalliesAre, SpanIs, Retains, CountOf, AcksOf, TicksOf, RefusedForRoom;
    RoomRefused(run.bots, refused, e);
    AfterGrows(run, all, e);
    CountsGrow(refused, e);
  }

  ghost predicate RunIsAccounted(filter: Option<string>, xs: seq<Event>, id: string) {
    var s := Ran(filter, xs);
    && (id in s.runs ==> Accounts(s.runs[id], EventsOf(filter, xs, id), Met(filter, xs, id, Counted),
                                  Met(filter, xs, id, Duplicate), Met(filter, xs, id, BotDropped)))
    && (id !in s.runs ==> |s.runs| >= MAX_RUNS || EventsOf(filter, xs, id) == [])
    && (id !in s.runs ==> forall f: Fate :: (f.Counted? || f.Duplicate? || f.BotDropped?) ==> Met(filter, xs, id, f) == [])
    && Met(filter, xs, id, RunDropped) == (if id in s.runs then [] else EventsOf(filter, xs, id))
  }

  lemma FreshRunAccounts()
    ensures Accounts(NEW_RUN, [], [], [], [])
  {
  }

  lemma OtherRunKept(filter: Option<string>, s: State, e: Event, id: string)
    requires id != e.runId
    ensures var t := Recorded(filter, s, e);
            (id in t.runs <==> id in s.runs) && (id in s.runs ==> t.runs[id] == s.runs[id])
    ensures |Recorded(filter, s, e).runs| >= |s.runs|
  {
    RunsGrow(filter, s, e);
  }

  lemma RunsGrow(filter: Option<string>, s: State, e: Event)
    ensures s.runs.Keys <= Recorded(filter, s, e).runs.Keys
    ensures |Recorded(filter, s, e).runs| >= |s.runs|
    ensures |s.runs| <= MAX_RUNS ==> |Recorded(filter, s, e).runs| <= MAX_RUNS
  {
    hide Inserted, Taken, Noticed;
    var t := Recorded(filter, s, e);
    assert t.runs.Keys == s.runs.Keys || t.runs.Keys == s.runs.Keys + {e.runId};
    if e.runId in s.runs {
      assert t.runs.Keys == s.runs.Keys;
    }
  }

  /** Every event of an admitted run is counted for one bot, or as a duplicate, or as a bot drop, and never twice. */
  lemma {:induction false} EveryEventIsAccountedOnce(filter: Option<string>, xs: seq<Event>, id: string)
    ensures RunIsAccounted(filter, xs, id)
  {
    if xs == [] {
      assert Ran(filter, xs).runs == map[];
    } else {
      var p, e := xs[..|xs| - 1], xs[|xs| - 1];
      EveryEventIsAccountedOnce(filter, p, id);
      var s := Ran(filter, p);
      if e.runId != id {
        OtherRunKept(filter, s, e, id);
        OtherRunStep(filter, xs, id);
      } else {
        OwnRunStep(filter, xs, id);
      }
    }
  }

  lemma OtherRunStep(filter: Option<string>, xs: seq<Event>, id: string)
    requires xs != [] && xs[|xs| - 1].runId != id
    requires RunIsAccounted(filter, xs[..|xs| - 1], id)
    requires (var s := Ran(filter, xs[..|xs| - 1]); var t := Recorded(filter, s, xs[|xs| - 1]);
              && (id in t.runs <==> id in s.runs) && (id in s.runs ==> t.runs[id] == s.runs[id])
              && |t.runs| >= |s.runs|)
    ensures RunIsAccounted(filter, xs, id)
  {
    hide Recorded, FateOf, Accounts;
  }

  lemma ListsGrow(filter: Option<string>, xs: seq<Event>, id: string, f: Fate)
    requires xs != [] && xs[|xs| - 1].runId == id
    ensures (var p, e := xs[..|xs| - 1], xs[|xs| - 1];
             && Ran(filter, xs) == Recorded(filter, Ran(filter, p), e)
             && EventsOf(filter, xs, id)
                == (if FateOf(filter, Ran(filter, p), e).Filtered? then EventsOf(filter, p, id) else EventsOf(filter, p, id) + [e])
             && Met(filter, xs, id, f)
                == (if FateOf(filter, Ran(filter, p), e) == f then Met(filter, p, id, f) + [e] else Met(filter, p, id, f)))
  {
    hide Recorded, Retains;
  }

  lemma OwnRunStep(filter: Option<string>, xs: seq<Event>, id: string)
    requires xs != [] && xs[|xs| - 1].runId == id
    requires RunIsAccounted(filter, xs[..|xs| - 1], id)
    ensures RunIsAccounted(filter, xs, id)
  {
    hide Accounts, Taken, Noticed, Inserted, Retains, After, Ran, EventsOf, Met;
    var p, e := xs[..|xs| - 1], xs[|xs| - 1];
    var s := Ran(filter, p);
    var run := RunOf(s, id);
    var all, counted, repeated, refused :=
      EventsOf(filter, p, id), Met(filter, p, id, Counted), Met(filter, p, id, Duplicate), Met(filter, p, id, BotDropped);
    ListsGrow(filter, xs, id, Counted);
    ListsGrow(filter, xs, id, Duplicate);
    ListsGrow(filter, xs, id, BotDropped);
    ListsGrow(filter, xs, id, RunDropped);
    FreshRunAccounts();
    match FateOf(filter, s, e) {
      case Filtered =>
      case RunDropped =>
      case Duplicate => RepeatedStep(run, all, counted, repeated, refused, e);
      case BotDropped => RefusedStep(run, all, counted, repeated, refused, e);
      case Counted => CountedStep(run, all, counted, repeated, refused, e);
    }
  }

  // ----- the events of runs that were never admitted -----

  function PassedBy(filter: Option<string>, xs: seq<Event>): nat {
    if xs == [] then 0
    else PassedBy(filter, xs[..|xs| - 1]) + if Passes(filter, xs[|xs| - 1]) then 1 else 0
  }

  /** How many events met each fate, over all runs. */
  function MetBy(filter: Option<string>, xs: seq<Event>, fate: Fate): nat {
    if xs == [] then 0
    else
      MetBy(filter, xs[..|xs| - 1], fate)
      + if FateOf(filter, Ran(filter, xs[..|xs| - 1]), xs[|xs| - 1]) == fate then 1 else 0
  }

  /** `runs_dropped` is the number of events refused for want of a run entry, and the other fates make up the rest. */
  lemma {:induction false} NothingPassedIsLost(filter: Option<string>, xs: seq<Event>)
    ensures Ran(filter, xs).runsDropped == MetBy(filter, xs, RunDropped)
    ensures PassedBy(filter, xs)
         == MetBy(filter, xs, RunDropped) + MetBy(filter, xs, Duplicate) + MetBy(filter, xs, BotDropped) + MetBy(filter, xs, Counted)
    ensures |Ran(filter, xs).runs| <= MAX_RUNS
  {
    if xs == [] {
      assert Ran(filter, xs).runs == map[];
    } else {
      var p, e := xs[..|xs| - 1], xs[|xs| - 1];
      NothingPassedIsLost(filter, p);
      RunsGrow(filter, Ran(filter, p), e);
    }
  }

  // ----- totals over the bots of a run -----

  function Plus(a: Bot, b: Bot): Bot {
    Bot(a.ordersSent + b.ordersSent, a.acks + b.acks, a.fills + b.fills,
        a.timeouts + b.timeouts, a.errors + b.errors, a.samples + b.samples)
  }

  /** The events of the bots of a set, in order. */
  function OfBots(xs: seq<Event>, bots: set<string>): seq<Event> {
    if xs == [] then []
    else if xs[|xs| - 1].botId in bots then OfBots(xs[..|xs| - 1], bots) + [xs[|xs| - 1]]
    else OfBots(xs[..|xs| - 1], bots)
  }

  lemma BotsGrow(xs: seq<Event>, e: Event, bots: set<string>)
    ensures OfBots(xs + [e], bots) == if e.botId in bots then OfBots(xs, bots) + [e] else OfBots(xs, bots)
  {
    assert (xs + [e])[..|xs|] == xs;
  }

  lemma {:induction false} CountsAdd(xs: seq<Event>, bots: set<string>, b: string, kind: Kind)
    requires b !in bots
    ensures CountOf(OfBots(xs, bots + {b}), kind) == CountOf(OfBots(xs, bots), kind) + CountOf(OfBot(xs, b), kind)
    ensures TimedAcks(OfBots(xs, bots + {b})) == TimedAcks(OfBots(xs, bots)) + TimedAcks(OfBot(xs, b))
  {
    if xs != [] {
      hide CountOf, TimedAcks;
      var p, e := xs[..|xs| - 1], xs[|xs| - 1];
      assert xs == p + [e];
      CountsAdd(p, bots, b, kind);
      BotsGrow(p, e, bots + {b});
      BotsGrow(p, e, bots);
      PartsGrow(p, e, b);
      hide OfBots, OfBot;
      CountsGrow(OfBots(p, bots + {b}), e);
      CountsGrow(OfBots(p, bots), e);
      CountsGrow(OfBot(p, b), e);
    } else {
      assert OfBots(xs, bots + {b}) == OfBots(xs, bots) == OfBot(xs, b) == [];
      hide OfBots, OfBot;
      NothingCounted();
    }
  }

  lemma TellsTogether(totals: Bot, bot: Bot, xs: seq<Event>, bots: set<string>, b: string)
    requires b !in bots && Tells(totals, OfBots(xs, bots)) && Tells(bot, OfBot(xs, b))
    ensures Tells(Plus(totals, bot), OfBots(xs, bots + {b}))
  {
    hide OfBots, OfBot, CountOf, TimedAcks;
    forall k: Kind ensures CountOf(OfBots(xs, bots + {b}), k) == CountOf(OfBots(xs, bots), k) + CountOf(OfBot(xs, b), k) {
      CountsAdd(xs, bots, b, k);
    }
    CountsAdd(xs, bots, b, Error);
  }

  lemma {:induction false} OfNone(xs: seq<Event>)
    ensures OfBots(xs, {}) == []
  {
    if xs != [] {
      OfNone(xs[..|xs| - 1]);
    }
  }

  lemma {:induction false} OfAll(xs: seq<Event>, bots: set<string>)
    requires forall i :: 0 <= i < |xs| ==> xs[i].botId in bots
    ensures OfBots(xs, bots) == xs
  {
    if xs != [] {
      OfAll(xs[..|xs| - 1], bots);
    }
  }

  lemma ListedBot(bots: map<string, Bot>, xs: seq<Event>, b: string)
    requires TalliesAre(bots, xs) && b in bots
    ensures Tells(bots[b], OfBot(xs, b))
  {
    hide Tells;
  }

  lemma BotsListed(bots: map<string, Bot>, xs: seq<Event>)
    requires TalliesAre(bots, xs)
    ensures forall i :: 0 <= i < |xs| ==> xs[i].botId in bots.Keys
  {
    hide Tells;
  }

  /** The counting part of `finalize`: the totals of a run tell every event that reached a bot, kind by kind. */
  method Totals(bots: map<string, Bot>, ghost counted: seq<Event>) returns (totals: Bot)
    requires TalliesAre(bots, counted)
    ensures Tells(totals, counted)
    ensures totals.ordersSent + totals.acks + totals.fills + totals.timeouts + totals.errors == |counted|
  {
    hide OfBots, CountOf, TimedAcks, OfBot, Plus, TalliesAre;
    totals := NoBot();
    var left := bots.Keys;
    OfNone(counted);
    NothingTold();
    assert bots.Keys - left == {};
    while left != {}
      invariant left <= bots.Keys
      invariant Tells(totals, OfBots(counted, bots.Keys - left))
      decreases |left|
    {
      var b :| b in left;
      ListedBot(bots, counted, b);
      TellsTogether(totals, bots[b], counted, bots.Keys - left, b);
      assert bots.Keys - left + {b} == bots.Keys - (left - {b});
      left := left - {b};
      totals := Plus(totals, bots[b]);
    }
    assert bots.Keys - left == bots.Keys;
    BotsListed(bots, counted);
    OfAll(counted, bots.Keys);
    KindsAddUp(counted);
  }

  // ----- re-delivered acks -----

  /** An ack the window still knows, of a run that was admitted. */
  predicate Redelivered(filter: Option<string>, s: State, e: Event) {
    Passes(filter, e) && e.kind.AckReceived? && e.runId in s.runs && Retains(s.runs[e.runId].seen, e)
  }

  /** Every event marked true is a re-delivery when it comes. */
  ghost predicate MarksRedeliveries(filter: Option<string>, xs: seq<(Event, bool)>) {
    forall i :: 0 <= i < |xs| && xs[i].1 ==> Redelivered(filter, Ran(filter, Unmarked(xs[..i])), xs[i].0)
  }

  function Unmarked(xs: seq<(Event, bool)>): (r: seq<Event>)
    ensures |r| == |xs|
    ensures forall i :: 0 <= i < |xs| ==> r[i] == xs[i].0
  {
    if xs == [] then [] else Unmarked(xs[..|xs| - 1]) + [xs[|xs| - 1].0]
  }

  function Once(xs: seq<(Event, bool)>): (r: seq<Event>) {
    if xs == [] then []
    else if xs[|xs| - 1].1 then Once(xs[..|xs| - 1])
    else Once(xs[..|xs| - 1]) + [xs[|xs| - 1].0]
  }

  function Again(xs: seq<(Event, bool)>, run: string): nat {
    if xs == [] then 0
    else Again(xs[..|xs| - 1], run) + if xs[|xs| - 1].1 && xs[|xs| - 1].0.runId == run then 1 else 0
  }

  /** The two states differ in the duplicate counters only, by the number of marked events of each run. */
  ghost predicate SameButRepeats(a: State, b: State, again: string -> nat) {
    && a.runsDropped == b.runsDropped
    && a.runs.Keys == b.runs.Keys
    && forall r :: r in a.runs ==>
         a.runs[r] == b.runs[r].(duplicatesDropped := b.runs[r].duplicatesDropped + again(r))
  }

  lemma SameSize(a: State, b: State)
    requires a.runs.Keys == b.runs.Keys
    ensures |a.runs| == |b.runs|
  {
    assert |a.runs.Keys| == |a.runs| && |b.runs.Keys| == |b.runs|;
  }

  lemma MarkedStep(filter: Option<string>, a: State, b: State, e: Event, again: string -> nat, then_: string -> nat)
    requires SameButRepeats(a, b, again) && Redelivered(filter, a, e)
    requires forall r :: then_(r) == again(r) + if r == e.runId then 1 else 0
    ensures SameButRepeats(Recorded(filter, a, e), b, then_)
  {
    hide Inserted, Retains, Taken, Noticed;
  }

  function Repeated(run: RunState, k: nat): RunState {
    run.(duplicatesDropped := run.duplicatesDropped + k)
  }

  lemma RepeatsCommute(run: RunState, e: Event, k: nat)
    ensures Noticed(Repeated(run, k), e) == Repeated(Noticed(run, e), k)
    ensures Taken(Noticed(Repeated(run, k), e), e) == Repeated(Taken(Noticed(run, e), e), k)
  {
    hide Inserted, Tallied, Earliest, Latest, Ticked;
  }

  lemma FateIgnoresRepeats(filter: Option<string>, a: State, b: State, e: Event, again: string -> nat)
    requires SameButRepeats(a, b, again)
    ensures FateOf(filter, a, e) == FateOf(filter, b, e)
  {
    SameSize(a, b);
    hide Retains;
  }

  lemma PlainStep(filter: Option<string>, a: State, b: State, e: Event, again: string -> nat)
    requires SameButRepeats(a, b, again)
    requires forall r :: r !in b.runs ==> again(r) == 0
    ensures SameButRepeats(Recorded(filter, a, e), Recorded(filter, b, e), again)
  {
    hide FateOf, Taken, Noticed;
    FateIgnoresRepeats(filter, a, b, e, again);
    RepeatsCommute(RunOf(b, e.runId), e, again(e.runId));
    assert RunOf(a, e.runId) == Repeated(RunOf(b, e.runId), again(e.runId));
    assert Recorded(filter, a, e).runs.Keys == Recorded(filter, b, e).runs.Keys;
  }

  function AgainOf(xs: seq<(Event, bool)>): string -> nat {
    (r: string) => Again(xs, r)
  }

  lemma {:induction false} AgainOnlyAdmitted(xs: seq<(Event, bool)>, r: string, keys: set<string>)
    requires forall i :: 0 <= i < |xs| && xs[i].1 ==> xs[i].0.runId in keys
    requires r !in keys
    ensures Again(xs, r) == 0
  {
    if xs != [] {
      AgainOnlyAdmitted(xs[..|xs| - 1], r, keys);
    }
  }

  lemma RedeliveredIsAdmitted(filter: Option<string>, s: State, e: Event)
    requires Redelivered(filter, s, e)
    ensures e.runId in s.runs
  {
  }

  lemma MarkedPrefix(filter: Option<string>, xs: seq<(Event, bool)>)
    requires xs != [] && MarksRedeliveries(filter, xs)
    ensures MarksRedeliveries(filter, xs[..|xs| - 1])
    ensures xs[|xs| - 1].1 ==> Redelivered(filter, Ran(filter, Unmarked(xs[..|xs| - 1])), xs[|xs| - 1].0)
    ensures Ran(filter, Unmarked(xs)) == Recorded(filter, Ran(filter, Unmarked(xs[..|xs| - 1])), xs[|xs| - 1].0)
  {
    hide Recorded, Redelivered;
    var p := xs[..|xs| - 1];
    assert forall i :: 0 <= i < |p| ==> p[..i] == xs[..i];
    assert Unmarked(xs)[..|xs| - 1] == Unmarked(p);
    assert xs[..|p|] == p;
  }

  lemma OncePrefix(filter: Option<string>, xs: seq<(Event, bool)>)
    requires xs != [] && !xs[|xs| - 1].1
    ensures Ran(filter, Once(xs)) == Recorded(filter, Ran(filter, Once(xs[..|xs| - 1])), xs[|xs| - 1].0)
  {
    hide Recorded;
    assert Once(xs)[..|Once(xs)| - 1] == Once(xs[..|xs| - 1]);
  }

  lemma {:induction false} MarkedRunsAdmitted(filter: Option<string>, xs: seq<(Event, bool)>)
    requires MarksRedeliveries(filter, xs)
    ensures forall i :: 0 <= i < |xs| && xs[i].1 ==> xs[i].0.runId in Ran(filter, Unmarked(xs)).runs
  {
    hide Recorded, Redelivered, MarksRedeliveries;
    if xs != [] {
      var p, x := xs[..|xs| - 1], xs[|xs| - 1];
      MarkedPrefix(filter, xs);
      MarkedRunsAdmitted(filter, p);
      hide Ran;
      RunsGrow(filter, Ran(filter, Unmarked(p)), x.0);
      if x.1 {
        RedeliveredIsAdmitted(filter, Ran(filter, Unmarked(p)), x.0);
      }
    }
  }

  lemma AgainGrows(xs: seq<(Event, bool)>)
    requires xs != []
    ensures var p, x := xs[..|xs| - 1], xs[|xs| - 1];
      forall r :: AgainOf(xs)(r) == AgainOf(p)(r) + if x.1 && r == x.0.runId then 1 else 0
  {
  }

  lemma NoneAgain(filter: Option<string>, xs: seq<(Event, bool)>, keys: set<string>)
    requires MarksRedeliveries(filter, xs) && Ran(filter, Unmarked(xs)).runs.Keys == keys
    ensures forall r :: r !in keys ==> AgainOf(xs)(r) == 0
  {
    MarkedRunsAdmitted(filter, xs);
    hide Ran, MarksRedeliveries;
    forall r | r !in keys ensures AgainOf(xs)(r) == 0 {
      AgainOnlyAdmitted(xs, r, keys);
    }
  }

  lemma SameAgain(a: State, b: State, f: string -> nat, g: string -> nat)
    requires SameButRepeats(a, b, f) && forall r :: f(r) == g(r)
    ensures SameButRepeats(a, b, g)
  {
  }

  lemma KeysAgree(a: State, b: State, f: string -> nat)
    requires SameButRepeats(a, b, f)
    ensures a.runs.Keys == b.runs.Keys
  {
  }

  /** Re-deliveries inside the window, anywhere in any stream, change the duplicate counters and nothing else. */
  lemma {:induction false} RedeliveriesOnlyCount(filter: Option<string>, xs: seq<(Event, bool)>)
    requires MarksRedeliveries(filter, xs)
    ensures SameButRepeats(Ran(filter, Unmarked(xs)), Ran(filter, Once(xs)), AgainOf(xs))
  {
    hide Recorded, Redelivered, MarksRedeliveries, Ran, Unmarked;
    if xs == [] {
      NothingAgain(filter);
    } else {
      hide SameButRepeats, AgainOf;
      var p, x := xs[..|xs| - 1], xs[|xs| - 1];
      MarkedPrefix(filter, xs);
      RedeliveriesOnlyCount(filter, p);
      var a, b := Ran(filter, Unmarked(p)), Ran(filter, Once(p));
      AgainGrows(xs);
      if x.1 {
        MarkedStep(filter, a, b, x.0, AgainOf(p), AgainOf(xs));
      } else {
        OncePrefix(filter, xs);
        KeysAgree(a, b, AgainOf(p));
        NoneAgain(filter, p, b.runs.Keys);
        PlainStep(filter, a, b, x.0, AgainOf(p));
        SameAgain(Recorded(filter, a, x.0), Recorded(filter, b, x.0), AgainOf(p), AgainOf(xs));
      }
    }
  }

  lemma NothingAgain(filter: Option<string>)
    ensures SameButRepeats(Ran(filter, Unmarked([])), Ran(filter, Once([])), AgainOf([]))
  {
  }

  /** An ack repeated after at most the window's number of newly accepted acks of its run is a re-delivery. */
  lemma RecentAckIsRedelivered(filter: Option<string>, xs: seq<Event>, i: nat, id: string)
    requires id in Ran(filter, xs).runs
    requires var a := Accepted(DEDUP_WINDOW, AcksOf(EventsOf(filter, xs, id)));
             i < |a| <= i + 1 + DEDUP_WINDOW
    ensures Redelivered(filter, Ran(filter, xs), Accepted(DEDUP_WINDOW, AcksOf(EventsOf(filter, xs, id)))[i])
  {
    var acks := AcksOf(EventsOf(filter, xs, id));
    EveryEventIsAccountedOnce(filter, xs, id);
    hide TalliesAre, SpanIs, After, Retains, FateOf;
    RecognisedForOneGeneration(DEDUP_WINDOW, acks, i);
    AcceptedAreGiven(DEDUP_WINDOW, acks, Accepted(DEDUP_WINDOW, acks)[i]);
    AcksAreAcks(EventsOf(filter, xs, id), Accepted(DEDUP_WINDOW, acks)[i]);
    EventsAreOfRun(filter, xs, id, Accepted(DEDUP_WINDOW, acks)[i]);
  }

  lemma {:induction false} AcceptedAreGiven(cap: nat, ids: seq<Event>, e: Event)
    requires e in Accepted(cap, ids)
    ensures e in ids
  {
    if ids != [] && e != ids[|ids| - 1] {
      AcceptedAreGiven(cap, ids[..|ids| - 1], e);
    }
  }

  lemma {:induction false} AcksAreAcks(xs: seq<Event>, e: Event)
    requires e in AcksOf(xs)
    ensures e in xs && e.kind.AckReceived?
  {
    if xs != [] && e in AcksOf(xs[..|xs| - 1]) {
      AcksAreAcks(xs[..|xs| - 1], e);
    }
  }

  lemma {:induction false} EventsAreOfRun(filter: Option<string>, xs: seq<Event>, id: string, e: Event)
    requires e in EventsOf(filter, xs, id)
    ensures e in xs && e.runId == id && Passes(filter, e)
  {
    if xs != [] && e in EventsOf(filter, xs[..|xs| - 1], id) {
      EventsAreOfRun(filter, xs[..|xs| - 1], id, e);
    }
  }
}
