/**
 The engine fed by rings: a symbol's requests all go through one ring to one
 matcher. Producers and matchers interleave step by step: a matcher draws one
 number, touches the index once or finishes its book work between any two steps
 of the others. The numbers come from one counter all of them share.
 */
module Disruptor {
  import opened Types
  import opened BookSpec
  import opened EngineSpec
  import opened Replay
  import opened Ring
  import Utf8
  import C = ConcurrentEngine

  const SHARDS := 8
  const RING_SIZE := 16_384

  /** What travels through a ring. A cancel carries the symbol its order was found under. */
  datatype Request =
    | NewRequest(input: Incoming)
    | CancelRequest(ticket: C.Ticket)
  {
    function Symbol(): string {
      if NewRequest? then SymbolOf(input.order.symbol)
      else if ticket.found.Some? then ticket.found.value
      else ""
    }

    function Id(): string {
      if NewRequest? then input.order.clientOrderId else ticket.id
    }
  }

  // ----- which ring a symbol uses -----

  const FNV_OFFSET := 2_166_136_261
  const FNV_PRIME := 16_777_619
  const TWO_32 := 0x1_0000_0000

  /** Exclusive or with one byte touches the low byte alone. */
  function XorByte(h: nat, b: Utf8.Byte): nat {
    h - h % 256 + ((h % 256) as bv8 ^ b as bv8) as nat
  }

  /** The 32-bit FNV-1a hash. */
  function Fnv1a(bytes: seq<Utf8.Byte>): nat {
    if bytes == [] then FNV_OFFSET
    else XorByte(Fnv1a(bytes[..|bytes| - 1]), bytes[|bytes| - 1]) * FNV_PRIME % TWO_32
  }

  lemma XorOfA()
    ensures XorByte(FNV_OFFSET, 0x61) == FNV_OFFSET - 0xC5 + 0xA4
  {
    XorInEightBits();
    assert FNV_OFFSET % 256 == 0xC5;
  }

  lemma XorInEightBits()
    ensures ((0xC5 as bv8) ^ (0x61 as bv8)) as nat == 0xA4
  {
    assert 0xC5 as bv8 ^ 0x61 as bv8 == 0xA4;
  }

  /** A published value of the hash: that of the letter a. */
  lemma HashOfA()
    ensures Fnv1a([0x61]) == 0xE40C_292C
  {
    hide XorByte;
    XorOfA();
    assert [0x61][..0] == [];
  }

  function ShardFor(symbol: string): (i: nat)
    ensures i < SHARDS
  {
    Fnv1a(Utf8.Encode(symbol)) % SHARDS
  }

  // ----- the state -----

  datatype Answer = Answer(request: Request, ack: Ack, deliveries: seq<Delivery>)

  /** A matcher has a request in hand from the moment it frees its slot; `partial` is the answer it has begun. */
  datatype Shard = Shard(ring: Ring<Request>, hand: Option<Request>, partial: Option<Answer>, answers: seq<Answer>)

  /**
   `core` holds what the matchers work on: the counter, the index, the books,
   each touched by the matcher of its symbol alone, and under `locks` what that
   matcher still has to do. `lookups` are the cancels between their index lookup
   and their ring, by goroutine. The rest remembers ids: under which symbol a
   well-formed order was sent, and what was sent at all.
   */
  datatype Engine = Engine(
    mode: Mode,
    core: C.Engine,
    shards: seq<Shard>,
    lookups: map<nat, C.Ticket>,
    homes: map<string, string>,
    sent: set<string>)

  function Start(mode: Mode): Engine {
    Engine(mode, C.Initial(false), seq(SHARDS, i => Shard(Initial(RING_SIZE), None, None, [])), map[], map[], {})
  }

  datatype Move =
    | InRing(shard: nat, step: Step<Request>)   // one atomic step of a producer or of `consume`
    | Begin(shard: nat)                         // the acknowledgement draws its number
    | FillOne(shard: nat)                       // one fill draws its number
    | DeleteFilled(shard: nat)                  // the index forgets an order used up
    | Settle(shard: nat)                        // what is left rests or is let go
    | StoreIndex(shard: nat)                    // the index learns of a resting order
    | DeleteCancelled(shard: nat)               // the index forgets a cancelled order
    | Lookup(goroutine: nat, id: string, orig: string)
    | Miss(goroutine: nat)                      // a cancel the index did not know is answered at once

  // ----- when a move can happen -----

  /** A well-formed order has an id of its own; a cancel goes where its order was found. */
  predicate Routed(s: Engine, shard: nat, p: nat, req: Request) {
    && ShardFor(req.Symbol()) == shard
    && match req
       case NewRequest(input) => p !in s.lookups && (Malformed(input) || input.order.clientOrderId !in s.homes)
       case CancelRequest(t) => p in s.lookups && s.lookups[p] == t && t.found.Some?
  }

  /** A matcher polls its ring when its hands are empty. */
  predicate Consuming(step: Step<Request>) {
    step.SeePublished? || step.Read? || step.Clear? || step.Advance? || step.Free?
  }

  predicate AtWork(s: Engine, i: nat) {
    i < |s.shards| && s.shards[i].hand.Some? && s.shards[i].partial.Some?
  }

  function SymbolInHand(s: Engine, i: nat): string
    requires i < |s.shards| && s.shards[i].hand.Some?
  {
    s.shards[i].hand.value.Symbol()
  }

  predicate Allowed(s: Engine, move: Move) {
    match move
    case InRing(i, step) =>
      && i < |s.shards| && Shaped(s.shards[i].ring) && Enabled(s.shards[i].ring, step)
      && (step.Claim? ==> Routed(s, i, step.producer, step.item))
      && (Consuming(step) ==> s.shards[i].hand.None?)
    case Begin(i) => i < |s.shards| && s.shards[i].hand.Some? && s.shards[i].partial.None? && Begins(s.shards[i].hand.value)
    case FillOne(i) => AtWork(s, i) && C.IsMatching(s.core, SymbolInHand(s, i)) && C.CanFill(s.core, SymbolInHand(s, i))
    case DeleteFilled(i) => AtWork(s, i) && C.HasFilled(s.core, SymbolInHand(s, i))
    case Settle(i) => AtWork(s, i) && C.IsMatching(s.core, SymbolInHand(s, i)) && !C.CanFill(s.core, SymbolInHand(s, i))
    case StoreIndex(i) => AtWork(s, i) && SymbolInHand(s, i) in s.core.locks && s.core.locks[SymbolInHand(s, i)].Indexing?
    case DeleteCancelled(i) => AtWork(s, i) && SymbolInHand(s, i) in s.core.locks && s.core.locks[SymbolInHand(s, i)].Unindexing?
    case Lookup(p, _, _) => p !in s.lookups
    case Miss(p) => p in s.lookups && s.lookups[p].found.None?
  }

  /** Cancels reach a matcher only with a symbol. */
  predicate Begins(req: Request) {
    req.CancelRequest? ==> req.ticket.found.Some?
  }

  // ----- what a move does -----

  function Filed(homes: map<string, string>, req: Request): map<string, string> {
    if req.NewRequest? && !Malformed(req.input) then homes[req.input.order.clientOrderId := req.Symbol()] else homes
  }

  function DoInRing(s: Engine, i: nat, step: Step<Request>): Engine
    requires i < |s.shards| && Shaped(s.shards[i].ring) && Enabled(s.shards[i].ring, step)
  {
    var sh := s.shards[i];
    var sh' := sh.(ring := Do(sh.ring, step), hand := if step.Free? then Some(sh.ring.consumer.item) else sh.hand);
    var t := s.(shards := s.shards[i := sh']);
    if !step.Claim? then t
    else if step.item.CancelRequest? then t.(lookups := s.lookups - {step.producer})
    else t.(homes := Filed(s.homes, step.item), sent := s.sent + {step.item.Id()})
  }

  /** The order under the symbol it is matched under. */
  function Named(o: NewOrder): NewOrder {
    o.(symbol := SymbolOf(o.symbol))
  }

  /** The index is asked again: the order may have gone since the cancel was routed. */
  function CancelInHand(core: C.Engine, t: C.Ticket): C.Engine
    requires t.found.Some?
  {
    if t.orig in core.index then C.DoLockCancel(core, t) else C.DoDrawMiss(core, t)
  }

  predicate StillThere(core: C.Engine, t: C.Ticket)
    requires t.found.Some?
  {
    t.orig in core.index && Cancel(core.BookAt(t.found.value), t.orig).1
  }

  function Working(sh: Shard, a: Answer): Shard {
    sh.(partial := Some(a))
  }

  function Done(sh: Shard, a: Answer): Shard {
    sh.(hand := None, partial := None, answers := sh.answers + [a])
  }

  function DoBegin(s: Engine, i: nat): Engine
    requires i < |s.shards| && s.shards[i].hand.Some? && Begins(s.shards[i].hand.value)
  {
    var sh := s.shards[i];
    var req := sh.hand.value;
    var n := s.core.counter + 1;
    match req
    case NewRequest(input) =>
      if Malformed(input) then
        s.(core := C.DoReject(s.core, Named(input.order)),
           shards := s.shards[i := Done(sh, Answer(req, Ack(req.Id(), Rejected, InvalidOrder, n), []))])
      else
        s.(core := C.DoLockAndDraw(s.core, Named(input.order)),
           shards := s.shards[i := Working(sh, Answer(req, Ack(req.Id(), Accepted, NoReason, n), []))])
    case CancelRequest(t) =>
      var a := Answer(req, Ack(req.Id(), if StillThere(s.core, t) then Canceled else NotFound, NoReason, n), []);
      s.(core := CancelInHand(s.core, t),
         shards := s.shards[i := if StillThere(s.core, t) then Working(sh, a) else Done(sh, a)])
  }

  function DoFillOne(s: Engine, i: nat): Engine
    requires AtWork(s, i) && C.IsMatching(s.core, SymbolInHand(s, i)) && C.CanFill(s.core, SymbolInHand(s, i))
  {
    var sh, x := s.shards[i], SymbolInHand(s, i);
    var a := sh.partial.value;
    var fill := TradeOnce(s.core.BookAt(x), s.core.locks[x].active).fill;
    s.(core := C.DoFillOne(s.core, x),
       shards := s.shards[i := Working(sh, a.(deliveries := a.deliveries + [Delivery(s.core.counter + 1, fill)]))])
  }

  function DoSettle(s: Engine, i: nat): Engine
    requires AtWork(s, i) && C.IsMatching(s.core, SymbolInHand(s, i))
  {
    var sh, x := s.shards[i], SymbolInHand(s, i);
    var job := s.core.locks[x];
    s.(core := C.DoSettle(s.core, x, s.mode),
       shards := if job.active.qty > 0 && !job.market then s.shards else s.shards[i := Done(sh, sh.partial.value)])
  }

  function Finished(s: Engine, i: nat): seq<Shard>
    requires AtWork(s, i)
  {
    s.shards[i := Done(s.shards[i], s.shards[i].partial.value)]
  }

  function DoLookup(s: Engine, p: nat, id: string, orig: string): Engine {
    s.(core := C.DoLookup(s.core, id, orig), sent := s.sent + {id},
       lookups := s.lookups[p := C.Ticket(id, orig, if orig in s.core.index then Some(s.core.index[orig]) else None)])
  }

  function Taken(s: Engine, move: Move): Engine
    requires Allowed(s, move)
  {
    match move
    case InRing(i, step) => DoInRing(s, i, step)
    case Begin(i) => DoBegin(s, i)
    case FillOne(i) => DoFillOne(s, i)
    case DeleteFilled(i) => s.(core := C.DoDeleteFilled(s.core, SymbolInHand(s, i)))
    case Settle(i) => DoSettle(s, i)
    case StoreIndex(i) => s.(core := C.DoStoreIndex(s.core, SymbolInHand(s, i)), shards := Finished(s, i))
    case DeleteCancelled(i) => s.(core := C.DoDeleteCancelled(s.core, SymbolInHand(s, i)), shards := Finished(s, i))
    case Lookup(p, id, orig) => DoLookup(s, p, id, orig)
    case Miss(p) => s.(core := C.DoDrawMiss(s.core, s.lookups[p]), lookups := s.lookups - {p})
  }

  ghost predicate Reachable(mode: Mode, moves: seq<Move>, s: Engine) {
    if moves == [] then s == Start(mode)
    else
      var n := |moves| - 1;
      exists t :: Reachable(mode, moves[..n], t) && Allowed(t, moves[n]) && s == Taken(t, moves[n])
  }

  // ----- the same requests, one by one -----

  /** What one request does when nothing else is going on; `limits` are those of the locked engine. */
  function OneByOne(b: Book, req: Request, mode: Mode, limits: bool): Outcome {
    match req
    case NewRequest(input) => Submitted(b, input, mode, limits)
    case CancelRequest(t) =>
      var (b', ok) := Cancel(b, t.orig);
      Outcome(b', if ok then Canceled else NotFound, NoReason, [])
  }

  /** A symbol's book after its requests, in order. */
  function BookAfter(reqs: seq<Request>, symbol: string, mode: Mode, limits: bool): Book {
    if reqs == [] then EMPTY_BOOK
    else
      var n := |reqs| - 1;
      var b := BookAfter(reqs[..n], symbol, mode, limits);
      if reqs[n].Symbol() == symbol then OneByOne(b, reqs[n], mode, limits).book else b
  }

  /** How the last of these requests is answered. */
  function LastOutcome(reqs: seq<Request>, mode: Mode, limits: bool): Outcome
    requires reqs != []
  {
    var n := |reqs| - 1;
    OneByOne(BookAfter(reqs[..n], reqs[n].Symbol(), mode, limits), reqs[n], mode, limits)
  }
}
