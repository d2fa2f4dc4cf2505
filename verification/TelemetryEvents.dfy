/** The telemetry event that bots emit and every sink of the ingester reads. */
module TelemetryEvents {
  datatype Kind = OrderSent | AckReceived | FillReceived | Timeout | Error

  datatype Event = Event(
    runId: string,
    botId: string,
    seqNo: nat,
    clientOrderId: string,
    kind: Kind,
    sendTsNs: nat,
    recvTsNs: nat,
    latencyNs: nat)

  // ----- what a list of events says, counted by kind -----

  function OfBot(xs: seq<Event>, bot: string): (r: seq<Event>) {
    if xs == [] then []
    else if xs[|xs| - 1].botId == bot then OfBot(xs[..|xs| - 1], bot) + [xs[|xs| - 1]]
    else OfBot(xs[..|xs| - 1], bot)
  }

  function OfRun(xs: seq<Event>, run: string): (r: seq<Event>) {
    if xs == [] then []
    else if xs[|xs| - 1].runId == run then OfRun(xs[..|xs| - 1], run) + [xs[|xs| - 1]]
    else OfRun(xs[..|xs| - 1], run)
  }

  function CountOf(xs: seq<Event>, kind: Kind): nat {
    if xs == [] then 0 else CountOf(xs[..|xs| - 1], kind) + if xs[|xs| - 1].kind == kind then 1 else 0
  }

  /** Acks with a measured latency. */
  function TimedAcks(xs: seq<Event>): nat {
    if xs == [] then 0
    else TimedAcks(xs[..|xs| - 1]) + if xs[|xs| - 1].kind == AckReceived && xs[|xs| - 1].latencyNs > 0 then 1 else 0
  }

  /** The latencies of all acks together. */
  function AckLatency(xs: seq<Event>): nat {
    if xs == [] then 0
    else AckLatency(xs[..|xs| - 1]) + if xs[|xs| - 1].kind == AckReceived then xs[|xs| - 1].latencyNs else 0
  }

  lemma CountsGrow(xs: seq<Event>, e: Event)
    ensures forall k: Kind :: CountOf(xs + [e], k) == CountOf(xs, k) + if e.kind == k then 1 else 0
    ensures TimedAcks(xs + [e]) == TimedAcks(xs) + if e.kind == AckReceived && e.latencyNs > 0 then 1 else 0
    ensures AckLatency(xs + [e]) == AckLatency(xs) + if e.kind == AckReceived then e.latencyNs else 0
  {
    assert (xs + [e])[..|xs|] == xs;
  }

  lemma NothingCounted()
    ensures forall k: Kind :: CountOf([], k) == 0
    ensures TimedAcks([]) == 0 && AckLatency([]) == 0
  {
  }

  /** Every event is of one kind. */
  lemma {:induction false} KindsAddUp(xs: seq<Event>)
    ensures |xs| == CountOf(xs, OrderSent) + CountOf(xs, AckReceived) + CountOf(xs, FillReceived) + CountOf(xs, Timeout) + CountOf(xs, Error)
  {
    if xs == [] {
      NothingCounted();
    } else {
      KindsAddUp(xs[..|xs| - 1]);
    }
  }

  lemma PartsGrow(xs: seq<Event>, e: Event, id: string)
    ensures OfBot(xs + [e], id) == if e.botId == id then OfBot(xs, id) + [e] else OfBot(xs, id)
    ensures OfRun(xs + [e], id) == if e.runId == id then OfRun(xs, id) + [e] else OfRun(xs, id)
  {
    assert (xs + [e])[..|xs|] == xs;
  }
}
