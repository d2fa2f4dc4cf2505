/** The per-run telemetry aggregator: what `record` counts, drops and forgets. */
module Aggregator {
  import opened Types
  import opened TelemetryEvents
  import opened DedupWindow

  const MAX_RUNS: nat := 3000
  const MAX_BOTS_PER_RUN: nat := 8192
  const DEDUP_WINDOW: nat := 262144

  datatype Bot = Bot(ordersSent: nat, acks: nat, fills: nat, timeouts: nat, errors: nat, samples: nat)

  datatype RunState = RunState(
    bots: map<string, Bot>,
    firstTsNs: nat,
    lastTsNs: nat,
    ticks: seq<nat>,
    seen: Window<Event>,
    duplicatesDropped: nat,
    botsDropped: nat)

  datatype State = State(runs: map<string, RunState>, runsDropped: nat)

  function NoBot(): Bot {
    Bot(0, 0, 0, 0, 0, 0)
  }

  const NEW_RUN: RunState := RunState(map[], 0, 0, [], Empty(), 0, 0)

  // ----- what becomes of one event -----

  datatype Fate = Filtered | RunDropped | Duplicate | BotDropped | Counted

  predicate Passes(filter: Option<string>, e: Event) {
    filter.Some? ==> e.runId == filter.value
  }

  function RunOf(s: State, id: string): RunState {
    if id in s.runs then s.runs[id] else NEW_RUN
  }

  function FateOf(filter: Option<string>, s: State, e: Event): Fate {
    var run := RunOf(s, e.runId);
    if !Passes(filter, e) then Filtered
    else if e.runId !in s.runs && |s.runs| >= MAX_RUNS then RunDropped
    else if e.kind.AckReceived? && Retains(run.seen, e) then Duplicate
    else if e.botId !in run.bots && |run.bots| >= MAX_BOTS_PER_RUN then BotDropped
    else Counted
  }

  /** A stamp is real only on acks and fills, and zero means none was taken. */
  predicate Stamped(e: Event) {
    e.recvTsNs > 0 && (e.kind.AckReceived? || e.kind.FillReceived?)
  }

  function Tallied(b: Bot, e: Event): Bot {
    match e.kind
    case OrderSent => b.(ordersSent := b.ordersSent + 1)
    case AckReceived => b.(acks := b.acks + 1, samples := b.samples + if e.latencyNs > 0 then 1 else 0)
    case FillReceived => b.(fills := b.fills + 1)
    case Timeout => b.(timeouts := b.timeouts + 1)
    case Error => b.(errors := b.errors + 1)
  }

  function Earliest(first: nat, e: Event): nat {
    if Stamped(e) && (first == 0 || e.recvTsNs < first) then e.recvTsNs else first
  }

  function Latest(last: nat, e: Event): nat {
    if Stamped(e) && e.recvTsNs > last then e.recvTsNs else last
  }

  function Ticked(ticks: seq<nat>, e: Event): seq<nat> {
    if e.recvTsNs > 0 && e.kind.AckReceived? then ticks + [e.recvTsNs] else ticks
  }

  function Taken(run: RunState, e: Event): RunState {
    var bot := if e.botId in run.bots then run.bots[e.botId] else NoBot();
    run.(
      bots := run.bots[e.botId := Tallied(bot, e)],
      firstTsNs := Earliest(run.firstTsNs, e),
      lastTsNs := Latest(run.lastTsNs, e),
      ticks := Ticked(run.ticks, e))
  }

  function Noticed(run: RunState, e: Event): RunState {
    if e.kind.AckReceived? then run.(seen := Inserted(run.seen, DEDUP_WINDOW, e)) else run
  }

  function Recorded(filter: Option<string>, s: State, e: Event): State {
    var run := RunOf(s, e.runId);
    match FateOf(filter, s, e)
    case Filtered => s
    case RunDropped => s.(runsDropped := s.runsDropped + 1)
    case Duplicate => s.(runs := s.runs[e.runId := run.(duplicatesDropped := run.duplicatesDropped + 1)])
    case BotDropped =>
      var noticed := Noticed(run, e);
      s.(runs := s.runs[e.runId := noticed.(botsDropped := run.botsDropped + 1)])
    case Counted => s.(runs := s.runs[e.runId := Taken(Noticed(run, e), e)])
  }

  function Ran(filter: Option<string>, xs: seq<Event>): State {
    if xs == [] then State(map[], 0) else Recorded(filter, Ran(filter, xs[..|xs| - 1]), xs[|xs| - 1])
  }

  /** The aggregator of the source, one run entry updated for each event. */
  class Aggregator {
    var runs: map<string, RunState>
    var runsDropped: nat
    const filter: Option<string>

    ghost function Value(): State
      reads this
    {
      State(runs, runsDropped)
    }

    constructor (filter: Option<string>)
      ensures Value() == Ran(filter, []) && this.filter == filter
    {
      runs, runsDropped := map[], 0;
      this.filter := filter;
    }

    static method Stamp(run: RunState, e: Event) returns (first: nat, last: nat, ticks: seq<nat>)
      ensures first == Earliest(run.firstTsNs, e) && last == Latest(run.lastTsNs, e) && ticks == Ticked(run.ticks, e)
    {
      first, last, ticks := run.firstTsNs, run.lastTsNs, run.ticks;
      if e.recvTsNs > 0 && (e.kind.AckReceived? || e.kind.FillReceived?) {
        if first == 0 || e.recvTsNs < first {
          first := e.recvTsNs;
        }
        if e.recvTsNs > last {
          last := e.recvTsNs;
        }
      }
      if e.recvTsNs > 0 && e.kind.AckReceived? {
        ticks := ticks + [e.recvTsNs];
      }
    }

    static method Count(b: Bot, e: Event) returns (bot: Bot)
      ensures bot == Tallied(b, e)
    {
      bot := b;
      match e.kind {
        case OrderSent => bot := bot.(ordersSent := bot.ordersSent + 1);
        case AckReceived =>
          bot := bot.(acks := bot.acks + 1);
          if e.latencyNs > 0 {
            bot := bot.(samples := bot.samples + 1);
          }
        case FillReceived => bot := bot.(fills := bot.fills + 1);
        case Timeout => bot := bot.(timeouts := bot.timeouts + 1);
        case Error => bot := bot.(errors := bot.errors + 1);
      }
    }

    method Record(e: Event)
      modifies this
      ensures Value() == Recorded(filter, old(Value()), e)
    {
      hide Retains, Inserted, Stamped, Earliest, Latest, Ticked, Tallied;
      if filter.Some? && e.runId != filter.value {
        return;
      }
      if |runs| >= MAX_RUNS && e.runId !in runs {
        runsDropped := runsDropped + 1;
        return;
      }
      var run := if e.runId in runs then runs[e.runId] else NEW_RUN;
      if e.kind.AckReceived? {
        if Retains(run.seen, e) {
          runs := runs[e.runId := run.(duplicatesDropped := run.duplicatesDropped + 1)];
          return;
        }
        run := run.(seen := Inserted(run.seen, DEDUP_WINDOW, e));
      }
      if |run.bots| >= MAX_BOTS_PER_RUN && e.botId !in run.bots {
        runs := runs[e.runId := run.(botsDropped := run.botsDropped + 1)];
        return;
      }
      var first, last, ticks := Stamp(run, e);
      var bot := Count(if e.botId in run.bots then run.bots[e.botId] else NoBot(), e);
      run := run.(firstTsNs := first, lastTsNs := last, ticks := ticks);
      runs := runs[e.runId := run.(bots := run.bots[e.botId := bot])];
    }
  }
}
