/**
 However producers and matchers interleave, each symbol's book and answers are
 those of its requests handled one by one in the order their slots were claimed.
 */
module DisruptorSafety {
  import opened Types
  import opened Sequences
  import opened BookSpec
  import opened BookSafety
  import opened EngineSpec
  import Ring
  import RingSafety
  import Decimals
  import C = ConcurrentEngine
  import S = ConcurrentSafety
  import opened Disruptor

  // ----- which ids rest -----

  lemma HeadAndRest(ladder: seq<Order>, id: string)
    requires ladder != []
    ensures InLadder(ladder, id) <==> ladder[0].orderId == id || InLadder(ladder[1..], id)
    ensures DistinctIds(ladder) && ladder[0].orderId == id ==> !InLadder(ladder[1..], id)
    ensures forall o :: o in ladder[1..] ==> o in ladder
  {
    assert ladder == [ladder[0]] + ladder[1..];
    if o :| o in ladder && o.orderId == id {
      assert o == ladder[0] || o in ladder[1..];
    }
    if o :| o in ladder[1..] && o.orderId == id {
      var i :| 0 <= i < |ladder[1..]| && ladder[1..][i] == o;
      assert ladder[i + 1] == o && o in ladder;
    }
    if ladder[0].orderId == id { assert ladder[0] in ladder; }
  }

  lemma InsertedLive(ladder: seq<Order>, o: Order, rank: Order -> Rank, id: string)
    ensures InLadder(Insert(ladder, o, rank), id) <==> InLadder(ladder, id) || o.orderId == id
  {
    InsertMultiset(ladder, o, rank);
    var r := Insert(ladder, o, rank);
    assert forall x :: x in r <==> x in multiset(r);
    assert forall x :: x in ladder <==> x in multiset(ladder);
  }

  // ----- a matcher's unfinished work on a book -----

  function JobAt(core: C.Engine, x: string): Option<C.Job> {
    if x in core.locks then Some(core.locks[x]) else None
  }

  /** The book once the work in hand is finished, and the fills still to come. */
  function Finish(b: Book, job: Option<C.Job>, mode: Mode): (Book, seq<Fill>) {
    if job.Some? && job.value.Matching? then Complete(b, job.value.active, job.value.market, mode) else (b, [])
  }

  ghost predicate WorkOk(b: Book, job: Option<C.Job>, mode: Mode) {
    if job.Some? && job.value.Matching? then C.MidMatch(b, job.value.active, job.value.market, mode) else Valid(b, mode)
  }

  /** The index does not know the order yet, or still knows one that is gone. */
  predicate Lags(job: Option<C.Job>, id: string) {
    job.Some? && match job.value
                 case Matching(_, _, filled) => filled == Some(id)
                 case Indexing(resting) => false
                 case Unindexing(cancelled) => cancelled == id
  }

  predicate Leads(job: Option<C.Job>, id: string) {
    job.Some? && job.value.Indexing? && job.value.resting == id
  }

  /** But for the one entry in hand, the index says what rests under a symbol. */
  ghost predicate IndexedAt(b: Book, job: Option<C.Job>, index: map<string, string>, x: string) {
    && (forall id :: id in index && index[id] == x <==> (Live(b, id) && !Leads(job, id)) || Lags(job, id))
    && (forall id :: Lags(job, id) ==> !Live(b, id))
    && (forall id :: Leads(job, id) ==> Live(b, id))
  }

  /** The id an unfinished placement brings, which the index has not heard of. */
  predicate Brings(job: Option<C.Job>, id: string) {
    job.Some? && ((job.value.Matching? && job.value.active.orderId == id) || (job.value.Indexing? && job.value.resting == id))
  }

  // ----- the invariant -----

  predicate WellNamed(req: Request) {
    req.NewRequest? && !Malformed(req.input)
  }

  function NameOf(req: Request): string
    requires req.NewRequest?
  {
    req.input.order.clientOrderId
  }

  /** Requests travel in the ring of their symbol, and no id is placed twice. */
  ghost predicate ClaimsOk(claims: seq<Request>, i: nat, homes: map<string, string>) {
    && (forall k :: 0 <= k < |claims| ==> Begins(claims[k]))
    && (forall k :: 0 <= k < |claims| ==> ShardFor(claims[k].Symbol()) == i)
    && (forall k :: 0 <= k < |claims| && WellNamed(claims[k]) ==> NameOf(claims[k]) in homes && homes[NameOf(claims[k])] == claims[k].Symbol())
    && (forall k, m :: 0 <= k < m < |claims| && WellNamed(claims[k]) && WellNamed(claims[m]) ==> NameOf(claims[k]) != NameOf(claims[m]))
  }

  ghost predicate PlacedBy(reqs: seq<Request>, id: string) {
    exists k :: 0 <= k < |reqs| && WellNamed(reqs[k]) && NameOf(reqs[k]) == id
  }

  ghost predicate AnswerOk(a: Answer, reqs: seq<Request>, mode: Mode)
    requires reqs != []
  {
    var r := LastOutcome(reqs, mode, false);
    a.request == reqs[|reqs| - 1] && a.ack.status == r.status && a.ack.reason == r.reason && FillsIn(a.deliveries) == r.fills
  }

  ghost predicate AnswersOk(answers: seq<Answer>, reqs: seq<Request>, mode: Mode) {
    |answers| == |reqs| && forall k :: 0 <= k < |reqs| ==> AnswerOk(answers[k], reqs[..k + 1], mode)
  }

  /** The numbers an answer carries: its own, then those of its fills. */
  function Stamps(a: Answer): (r: seq<nat>)
    ensures |r| == |a.deliveries| + 1
  {
    [a.ack.engineSeq] + seq(|a.deliveries|, i requires 0 <= i < |a.deliveries| => a.deliveries[i].engineSeq)
  }

  function AllStamps(answers: seq<Answer>): seq<nat> {
    if answers == [] then [] else AllStamps(answers[..|answers| - 1]) + Stamps(answers[|answers| - 1])
  }

  ghost predicate Increasing(nums: seq<nat>, last: nat) {
    && (forall i :: 0 <= i < |nums| ==> nums[i] <= last)
    && (forall i, j :: 0 <= i < j < |nums| ==> nums[i] < nums[j])
  }

  /** The requests whose acknowledgement has drawn its number. */
  function Begun(sh: Shard): seq<Request> {
    if sh.partial.Some? || sh.hand.None? || sh.ring.consumed == [] then sh.ring.consumed
    else sh.ring.consumed[..|sh.ring.consumed| - 1]
  }

  function StampsOf(sh: Shard): seq<nat> {
    AllStamps(sh.answers) + if sh.partial.Some? then Stamps(sh.partial.value) else []
  }

  ghost predicate HandOk(sh: Shard, locks: map<string, C.Job>) {
    && |sh.ring.consumed| == |sh.answers| + (if sh.hand.Some? then 1 else 0)
    && (sh.hand.Some? ==> sh.ring.consumed[|sh.answers|] == sh.hand.value)
    && (sh.partial.Some? ==> sh.hand.Some? && sh.hand.value.Symbol() in locks)
  }

  ghost predicate RingOk(r: Ring.Ring<Request>, i: nat, homes: map<string, string>) {
    Ring.Inv(r) && r.size == RING_SIZE && ClaimsOk(r.claims, i, homes)
  }

  ghost predicate GivenOk(sh: Shard, mode: Mode) {
    && |sh.answers| <= |sh.ring.consumed|
    && AnswersOk(sh.answers, sh.ring.consumed[..|sh.answers|], mode)
  }

  ghost predicate ShardOk(sh: Shard, i: nat, s: Engine) {
    && RingOk(sh.ring, i, s.homes)
    && HandOk(sh, s.core.locks)
    && GivenOk(sh, s.mode)
    && Increasing(StampsOf(sh), s.core.counter)
  }

  /** The answer begun, with the fills to come, is the one the request alone would get. */
  ghost predicate AnswerComing(a: Answer, reqs: seq<Request>, coming: seq<Fill>, mode: Mode) {
    && reqs != [] && a.request == reqs[|reqs| - 1]
    && a.ack.status == LastOutcome(reqs, mode, false).status && a.ack.reason == LastOutcome(reqs, mode, false).reason
    && FillsIn(a.deliveries) + coming == LastOutcome(reqs, mode, false).fills
  }

  ghost predicate JobFits(job: C.Job, sh: Shard, x: string, index: map<string, string>) {
    && sh.partial.Some? && sh.hand == Some(sh.partial.value.request) && sh.hand.value.Symbol() == x
    && forall id :: Brings(Some(job), id) ==> WellNamed(sh.hand.value) && NameOf(sh.hand.value) == id && id !in index
  }

  /** What holds of one symbol, given the shard it belongs to. */
  ghost predicate SymbolOk(core: C.Engine, sh: Shard, x: string, mode: Mode) {
    var b, job, reqs := core.BookAt(x), JobAt(core, x), Begun(sh);
    && WorkOk(b, job, mode)
    && Finish(b, job, mode).0 == BookAfter(reqs, x, mode, false)
    && IndexedAt(b, job, core.index, x)
    && (job.Some? ==> JobFits(job.value, sh, x, core.index) && AnswerComing(sh.partial.value, reqs, Finish(b, job, mode).1, mode))
    && (forall id :: Live(b, id) || Lags(job, id) ==> PlacedBy(reqs, id))
  }

  ghost predicate EngineOk(s: Engine) {
    && |s.shards| == SHARDS
    && (forall i :: 0 <= i < SHARDS ==> ShardOk(s.shards[i], i, s))
    && (forall x :: SymbolOk(s.core, s.shards[ShardFor(x)], x, s.mode))
  }

  // ----- steps inside a ring -----

  /** Short of freeing, a step hands nothing over, and only a claim adds a request. */
  lemma RingStepKeepsConsumed(r: Ring.Ring<Request>, step: Ring.Step<Request>)
    requires Ring.Shaped(r) && Ring.Enabled(r, step) && !step.Free?
    ensures var r' := Ring.Do(r, step);
      && r'.consumed == r.consumed && r'.size == r.size
      && r'.claims == if step.Claim? then r.claims + [step.item] else r.claims
  {
  }

  lemma ClaimsGrow(claims: seq<Request>, i: nat, homes: map<string, string>, req: Request)
    requires ClaimsOk(claims, i, homes) && ShardFor(req.Symbol()) == i && Begins(req)
    requires WellNamed(req) ==> NameOf(req) !in homes
    ensures ClaimsOk(claims + [req], i, Filed(homes, req))
  {
    hide ShardFor;
  }

  lemma ClaimsStay(claims: seq<Request>, i: nat, homes: map<string, string>, req: Request)
    requires ClaimsOk(claims, i, homes) && (WellNamed(req) ==> NameOf(req) !in homes)
    ensures ClaimsOk(claims, i, Filed(homes, req))
  {
    hide ShardFor;
  }

  /** What the matcher is handed is the next request in claim order. */
  lemma FreeHandsOver(r: Ring.Ring<Request>)
    requires Ring.Inv(r) && r.size >= 2 && Ring.Enabled(r, Ring.Step.Free)
    ensures var r' := Ring.Do(r, Ring.Step.Free);
      && Ring.Inv(r') && r'.size == r.size && r'.claims == r.claims
      && |r.consumed| < |r.claims| && r.claims[|r.consumed|] == r.consumer.item
      && r'.consumed == r.consumed + [r.consumer.item] && r.consumed == r.claims[..|r.consumed|]
  {
    RingSafety.StepKeeps(r, Ring.Step.Free);
  }

  lemma LastOfMore(reqs: seq<Request>, req: Request, symbol: string, mode: Mode, limits: bool)
    ensures BookAfter(reqs + [req], symbol, mode, limits)
      == if req.Symbol() == symbol then OneByOne(BookAfter(reqs, symbol, mode, limits), req, mode, limits).book
         else BookAfter(reqs, symbol, mode, limits)
    ensures LastOutcome(reqs + [req], mode, limits) == OneByOne(BookAfter(reqs, req.Symbol(), mode, limits), req, mode, limits)
  {
    assert (reqs + [req])[..|reqs|] == reqs;
  }

  lemma CancelFindsLive(b: Book, id: string, mode: Mode)
    requires Valid(b, mode)
    ensures Cancel(b, id).1 == Live(b, id) && Valid(Cancel(b, id).0, mode)
    ensures forall x :: Live(Cancel(b, id).0, x) <==> Live(b, x) && x != id
  {
    CancelRemovesExactly(b, id, mode);
    var b' := Cancel(b, id).0;
    forall x ensures Live(b', x) <==> Live(b, x) && x != id {
      if Live(b, x) && x != id {
        var o :| (o in b.buys || o in b.sells) && o.orderId == x;
        assert o in b'.buys || o in b'.sells;
      }
    }
  }

  /** A cancel is confirmed exactly when its order rests, and takes that order and nothing else away. */
  lemma CancelAnswerIff(b: Book, t: C.Ticket, mode: Mode, limits: bool)
    requires Valid(b, mode)
    ensures var out, rests := OneByOne(b, CancelRequest(t), mode, limits), exists o :: (o in b.buys || o in b.sells) && o.orderId == t.orig;
      && (out.status == Canceled <==> rests) && (out.status == NotFound <==> !rests)
      && out.reason == NoReason && out.fills == []
      && (forall o :: o in out.book.buys <==> o in b.buys && o.orderId != t.orig)
      && (forall o :: o in out.book.sells <==> o in b.sells && o.orderId != t.orig)
  {
    CancelRemovesExactly(b, t.orig, mode);
    hide Valid, Cancel;
  }

  lemma PlacedByMore(reqs: seq<Request>, req: Request, id: string)
    ensures PlacedBy(reqs + [req], id) <==> PlacedBy(reqs, id) || (WellNamed(req) && NameOf(req) == id)
  {
    var all := reqs + [req];
    if PlacedBy(reqs, id) {
      var k :| 0 <= k < |reqs| && WellNamed(reqs[k]) && NameOf(reqs[k]) == id;
      assert all[k] == reqs[k];
    }
    assert all[|reqs|] == req;
  }

  lemma AnswersGrow(answers: seq<Answer>, reqs: seq<Request>, a: Answer, req: Request, mode: Mode)
    requires AnswersOk(answers, reqs, mode) && AnswerOk(a, reqs + [req], mode)
    ensures AnswersOk(answers + [a], reqs + [req], mode)
  {
    hide AnswerOk;
    var all := reqs + [req];
    forall k | 0 <= k < |all| ensures AnswerOk((answers + [a])[k], all[..k + 1], mode) {
      if k < |reqs| { assert all[..k + 1] == reqs[..k + 1]; } else { assert all[..k + 1] == all; }
    }
  }

  // ----- one symbol, one piece of work -----

  lemma MalformedKeepsBook(b: Book, input: Incoming, mode: Mode)
    requires Malformed(input)
    ensures Submitted(b, input, mode, false) == Outcome(b, Rejected, InvalidOrder, [])
  {
  }

  /** An admitted order, before its match: finishing it is what the request alone would do. */
  lemma PlacementBegins(b: Book, input: Incoming, mode: Mode)
    requires !Malformed(input) && Valid(b, mode) && !Live(b, input.order.clientOrderId)
    ensures var o := input.order;
      var b', job := b.(insertSeq := b.insertSeq + 1), Some(C.Matching(Admit(o, b.insertSeq + 1), o.orderType == Market, None));
      && WorkOk(b', job, mode)
      && Submitted(b, input, mode, false) == Outcome(Finish(b', job, mode).0, Accepted, NoReason, Finish(b', job, mode).1)
      && forall id :: Live(b', id) <==> Live(b, id)
  {
    hide Complete;
    var b' := b.(insertSeq := b.insertSeq + 1);
    assert b'.(insertSeq := b'.insertSeq - 1) == b;
    assert forall id :: Live(b', id) <==> Live(b, id);
    hide Valid, Live;
  }

  /** One trade takes from the resting ids exactly the one it uses up. */
  lemma TradeLive(b: Book, active: Order, id: string)
    requires b.Ladder(Opposite(active.side)) != []
    ensures var r := TradeOnce(b, active);
      Live(b, id) <==> Live(r.book, id) || r.filled == Some(id)
  {
    var side := Opposite(active.side);
    var opp := b.Ladder(side);
    var qty := Min(active.qty, opp[0].qty);
    HeadAndRest(opp, id);
    var r := Reduce(opp, qty);
    if opp[0].qty != qty {
      HeadAndRest(r, id);
      assert r[1..] == opp[1..];
    }
    hide InLadder;
    assert InLadder(opp, id) <==> InLadder(r, id) || (opp[0].qty == qty && opp[0].orderId == id);
  }

  lemma RestedLive(b: Book, o: Order, mode: Mode, id: string)
    ensures Live(Rest(b, o, mode), id) <==> Live(b, id) || id == o.orderId
  {
    hide Insert, InLadder;
    InsertedLive(b.Ladder(o.side), o, Priority(o.side, mode), id);
  }

  /** A symbol a move does not touch. */
  lemma SymbolElsewhere(core: C.Engine, core': C.Engine, sh: Shard, sh': Shard, y: string, mode: Mode)
    requires SymbolOk(core, sh, y, mode)
    requires core'.BookAt(y) == core.BookAt(y) && JobAt(core', y) == JobAt(core, y)
    requires forall id :: (id in core'.index && core'.index[id] == y) <==> (id in core.index && core.index[id] == y)
    requires y in core.locks ==> sh'.partial == sh.partial && sh'.hand == sh.hand && Begun(sh') == Begun(sh)
    requires y in core.locks ==> forall id :: Brings(JobAt(core, y), id) ==> id !in core'.index
    requires BookAfter(Begun(sh'), y, mode, false) == BookAfter(Begun(sh), y, mode, false)
    requires forall id :: PlacedBy(Begun(sh), id) ==> PlacedBy(Begun(sh'), id)
    ensures SymbolOk(core', sh', y, mode)
  {
    hide Live, Finish, WorkOk, BookAfter, PlacedBy, Begun, AnswerComing, WellNamed, Brings, Lags, Leads;
    assert IndexedAt(core'.BookAt(y), JobAt(core', y), core'.index, y);
    hide IndexedAt;
    if y in core.locks { assert JobFits(core.locks[y], sh', y, core'.index); }
  }

  // A fill.

  lemma FillFinishes(core: C.Engine, x: string, mode: Mode, done: seq<Fill>)
    requires C.IsMatching(core, x) && C.CanFill(core, x)
    ensures var core', f := C.DoFillOne(core, x), TradeOnce(core.BookAt(x), core.locks[x].active).fill;
      var was, now := Finish(core.BookAt(x), JobAt(core, x), mode), Finish(core'.BookAt(x), JobAt(core', x), mode);
      now.0 == was.0 && (done + [f]) + now.1 == done + was.1
  {
    var job := core.locks[x];
    S.CompleteStep(core.BookAt(x), job.active, job.market, mode);
    hide Complete, TradeOnce, Tradable;
    var core' := C.DoFillOne(core, x);
    S.Carry(done, TradeOnce(core.BookAt(x), job.active).fill, Finish(core'.BookAt(x), JobAt(core', x), mode).1);
  }

  lemma FillWorks(core: C.Engine, x: string, mode: Mode)
    requires C.IsMatching(core, x) && C.CanFill(core, x)
    requires WorkOk(core.BookAt(x), JobAt(core, x), mode) && IndexedAt(core.BookAt(x), JobAt(core, x), core.index, x)
    ensures var core' := C.DoFillOne(core, x);
      && WorkOk(core'.BookAt(x), JobAt(core', x), mode) && IndexedAt(core'.BookAt(x), JobAt(core', x), core'.index, x)
      && (forall id :: Live(core'.BookAt(x), id) || Lags(JobAt(core', x), id) ==> Live(core.BookAt(x), id))
      && (forall id :: Brings(JobAt(core', x), id) <==> Brings(JobAt(core, x), id))
  {
    hide Valid, Live, TradeOnce, Tradable, C.MidMatch;
    var job, b := core.locks[x], core.BookAt(x);
    S.TradeKeepsValid(b, job.active, job.market, mode);
    OppositeThere(b, job.active, job.market);
    var r := TradeOnce(b, job.active);
    forall id ensures Live(b, id) <==> Live(r.book, id) || r.filled == Some(id) {
      TradeLive(b, job.active, id);
    }
    FillIndexed(b, r.book, core.locks[x], C.Matching(r.active, job.market, r.filled), core.index, x);
  }

  lemma FillIndexed(b: Book, b': Book, job: C.Job, job': C.Job, index: map<string, string>, x: string)
    requires IndexedAt(b, Some(job), index, x) && job.Matching? && job.filled.None? && job'.Matching?
    requires forall id :: Live(b, id) <==> Live(b', id) || job'.filled == Some(id)
    requires job'.filled.Some? ==> !Live(b', job'.filled.value)
    ensures IndexedAt(b', Some(job'), index, x)
  {
    hide Live;
  }

  /** The deliveries of an answer with one more fill. */
  lemma OneMoreDelivery(a: Answer, n: nat, f: Fill)
    ensures var a' := a.(deliveries := a.deliveries + [Delivery(n, f)]);
      FillsIn(a'.deliveries) == FillsIn(a.deliveries) + [f] && Stamps(a') == Stamps(a) + [n]
  {
  }

  lemma OppositeThere(b: Book, active: Order, market: bool)
    requires Tradable(b, active, market)
    ensures b.Ladder(Opposite(active.side)) != []
  {
  }

  lemma FillHere(core: C.Engine, sh: Shard, x: string, mode: Mode, a: Answer)
    requires SymbolOk(core, sh, x, mode) && C.IsMatching(core, x) && C.CanFill(core, x)
    requires sh.partial.Some? && sh.hand.Some?
    requires var p := sh.partial.value;
      a == p.(deliveries := p.deliveries + [Delivery(core.counter + 1, TradeOnce(core.BookAt(x), core.locks[x].active).fill)])
    ensures SymbolOk(C.DoFillOne(core, x), Working(sh, a), x, mode)
  {
    hide Finish, WorkOk, IndexedAt, Live, Lags, Brings, BookAfter, LastOutcome, PlacedBy, TradeOnce, Tradable, WellNamed;
    OppositeThere(core.BookAt(x), core.locks[x].active, core.locks[x].market);
    var p, f := sh.partial.value, TradeOnce(core.BookAt(x), core.locks[x].active).fill;
    FillFinishes(core, x, mode, FillsIn(p.deliveries));
    FillWorks(core, x, mode);
    OneMoreDelivery(p, core.counter + 1, f);
    assert Begun(Working(sh, a)) == Begun(sh);
    hide Begun;
  }

  // The index forgets an order that is gone.

  lemma ForgetHere(core: C.Engine, core': C.Engine, sh: Shard, x: string, mode: Mode, id: string)
    requires SymbolOk(core, sh, x, mode) && x in core.locks && Lags(JobAt(core, x), id)
    requires core'.BookAt(x) == core.BookAt(x) && core'.index == core.index - {id}
    requires core.locks[x].Matching? ==> core.locks[x].filled == Some(id)
    requires JobAt(core', x) == if core.locks[x].Matching? then Some(core.locks[x].(filled := None)) else None
    ensures WorkOk(core'.BookAt(x), JobAt(core', x), mode)
    ensures Finish(core'.BookAt(x), JobAt(core', x), mode) == Finish(core.BookAt(x), JobAt(core, x), mode)
    ensures IndexedAt(core'.BookAt(x), JobAt(core', x), core'.index, x)
    ensures id in core.index && core.index[id] == x
  {
    hide Live, Complete, C.MidMatch, Valid, BookAfter, PlacedBy, AnswerComing, JobFits, Begun;
    assert IndexedAt(core.BookAt(x), JobAt(core, x), core.index, x);
  }

  lemma DeleteFilledHere(core: C.Engine, sh: Shard, x: string, mode: Mode)
    requires SymbolOk(core, sh, x, mode) && C.HasFilled(core, x)
    ensures SymbolOk(C.DoDeleteFilled(core, x), sh, x, mode)
    ensures var f := core.locks[x].filled.value; f in core.index && core.index[f] == x
  {
    hide Finish, WorkOk, IndexedAt, Live, BookAfter, PlacedBy, AnswerComing, WellNamed, Begun;
    var core' := C.DoDeleteFilled(core, x);
    ForgetHere(core, core', sh, x, mode, core.locks[x].filled.value);
    assert forall id :: Brings(JobAt(core', x), id) ==> Brings(JobAt(core, x), id);
    hide Brings;
  }

  lemma DeleteCancelledHere(core: C.Engine, sh: Shard, x: string, mode: Mode)
    requires SymbolOk(core, sh, x, mode) && x in core.locks && core.locks[x].Unindexing?
    ensures sh.partial.Some? && SymbolOk(C.DoDeleteCancelled(core, x), Done(sh, sh.partial.value), x, mode)
    ensures var c := core.locks[x].cancelled; c in core.index && core.index[c] == x
  {
    hide Finish, WorkOk, IndexedAt, Live, BookAfter, PlacedBy, AnswerComing, WellNamed, Begun, Brings;
    var core', sh' := C.DoDeleteCancelled(core, x), Done(sh, sh.partial.value);
    ForgetHere(core, core', sh, x, mode, core.locks[x].cancelled);
    StillBegun(sh, sh.partial.value);
  }

  // What is left rests, or is let go.

  predicate WillRest(job: C.Job)
    requires job.Matching?
  {
    job.active.qty > 0 && !job.market
  }

  lemma SettleWorks(core: C.Engine, x: string, mode: Mode)
    requires C.IsMatching(core, x) && !C.CanFill(core, x)
    requires WorkOk(core.BookAt(x), JobAt(core, x), mode) && IndexedAt(core.BookAt(x), JobAt(core, x), core.index, x)
    ensures var core' := C.DoSettle(core, x, mode);
      && WorkOk(core'.BookAt(x), JobAt(core', x), mode) && IndexedAt(core'.BookAt(x), JobAt(core', x), core'.index, x)
      && Finish(core'.BookAt(x), JobAt(core', x), mode) == Finish(core.BookAt(x), JobAt(core, x), mode)
      && (forall id :: Live(core'.BookAt(x), id) ==> Live(core.BookAt(x), id) || Brings(JobAt(core, x), id))
      && (forall id :: Brings(JobAt(core', x), id) ==> Brings(JobAt(core, x), id))
  {
    hide Valid, Live, Rest, Complete, Tradable, IndexedAt;
    var job, b := core.locks[x], core.BookAt(x);
    S.CompleteStops(b, job.active, job.market, mode);
    assert !Live(b, job.active.orderId);
    if WillRest(job) {
      S.RestFromMatch(b, job.active, mode);
      forall id ensures Live(Rest(b, job.active, mode), id) <==> Live(b, id) || id == job.active.orderId {
        RestedLive(b, job.active, mode, id);
      }
      RestIndexed(b, Rest(b, job.active, mode), job, core.index, x);
    } else {
      S.MidMatchIsValid(b, job.active, job.market, mode);
      DropIndexed(b, job, core.index, x);
    }
  }

  lemma RestIndexed(b: Book, b': Book, job: C.Job, index: map<string, string>, x: string)
    requires IndexedAt(b, Some(job), index, x) && job.Matching? && job.filled.None? && !Live(b, job.active.orderId)
    requires forall id :: Live(b', id) <==> Live(b, id) || id == job.active.orderId
    ensures IndexedAt(b', Some(C.Indexing(job.active.orderId)), index, x)
  {
    hide Live;
  }

  lemma DropIndexed(b: Book, job: C.Job, index: map<string, string>, x: string)
    requires IndexedAt(b, Some(job), index, x) && job.Matching? && job.filled.None?
    ensures IndexedAt(b, None, index, x)
  {
    hide Live;
  }

  lemma SettleHere(core: C.Engine, sh: Shard, x: string, mode: Mode)
    requires SymbolOk(core, sh, x, mode) && C.IsMatching(core, x) && !C.CanFill(core, x)
    ensures sh.partial.Some?
    ensures SymbolOk(C.DoSettle(core, x, mode), if WillRest(core.locks[x]) then sh else Done(sh, sh.partial.value), x, mode)
  {
    hide Finish, WorkOk, IndexedAt, Live, BookAfter, PlacedBy, AnswerComing, WellNamed, Tradable, Rest;
    SettleWorks(core, x, mode);
    assert Begun(Done(sh, sh.partial.value)) == Begun(sh);
    BringsPlaced(core, sh, x, mode);
    hide Begun, Brings;
  }

  /** The id in hand counts as placed. */
  lemma BringsPlaced(core: C.Engine, sh: Shard, x: string, mode: Mode)
    requires SymbolOk(core, sh, x, mode) && x in core.locks
    ensures forall id :: Brings(JobAt(core, x), id) ==> PlacedBy(Begun(sh), id)
  {
    hide Finish, WorkOk, IndexedAt, Live, BookAfter, LastOutcome;
    forall id | Brings(JobAt(core, x), id) ensures PlacedBy(Begun(sh), id) {
      var reqs := Begun(sh);
      assert JobFits(core.locks[x], sh, x, core.index);
      assert WellNamed(reqs[|reqs| - 1]) && NameOf(reqs[|reqs| - 1]) == id;
    }
  }

  // The index learns of a resting order.

  lemma StoreIndexHere(core: C.Engine, sh: Shard, x: string, mode: Mode)
    requires SymbolOk(core, sh, x, mode) && x in core.locks && core.locks[x].Indexing?
    ensures sh.partial.Some? && SymbolOk(C.DoStoreIndex(core, x), Done(sh, sh.partial.value), x, mode)
    ensures core.locks[x].resting !in core.index
  {
    hide Live, BookAfter, PlacedBy, AnswerComing, WellNamed, Begun, Valid, Complete, Lags, Brings, IndexedAt;
    var core', sh' := C.DoStoreIndex(core, x), Done(sh, sh.partial.value);
    RestingBrought(core, x);
    StoreIndexed(core, x);
    StillBegun(sh, sh.partial.value);
  }

  lemma StoreIndexed(core: C.Engine, x: string)
    requires x in core.locks && core.locks[x].Indexing? && core.locks[x].resting !in core.index
    requires IndexedAt(core.BookAt(x), JobAt(core, x), core.index, x)
    ensures var core' := C.DoStoreIndex(core, x);
      core'.BookAt(x) == core.BookAt(x) && JobAt(core', x) == None && IndexedAt(core.BookAt(x), None, core'.index, x)
    ensures forall id :: !Lags(JobAt(C.DoStoreIndex(core, x), x), id)
  {
    hide Live;
  }

  // A request begins.

  /** A request is taken in hand: its book is idle, and the request is the last the matcher was given. */
  ghost predicate Ready(sh: Shard, req: Request) {
    && sh.hand == Some(req) && sh.partial.None? && sh.ring.consumed != []
    && sh.ring.consumed[|sh.ring.consumed| - 1] == req
  }

  lemma BegunGrows(sh: Shard, req: Request, a: Answer)
    requires Ready(sh, req)
    ensures Begun(Working(sh, a)) == Begun(sh) + [req] == Begun(Done(sh, a))
  {
  }

  lemma IdleUntilBegun(core: C.Engine, sh: Shard, x: string, mode: Mode)
    requires SymbolOk(core, sh, x, mode) && sh.partial.None?
    ensures x !in core.locks && Valid(core.BookAt(x), mode) && core.BookAt(x) == BookAfter(Begun(sh), x, mode, false)
    ensures forall id :: id in core.index && core.index[id] == x <==> Live(core.BookAt(x), id)
    ensures forall id :: Live(core.BookAt(x), id) ==> PlacedBy(Begun(sh), id)
  {
    hide Live, BookAfter, PlacedBy, Valid, Begun, Complete;
  }

  /** The book, the work and the answer of an order just admitted. */
  lemma PlacementStarts(b: Book, reqs: seq<Request>, input: Incoming, mode: Mode, a: Answer)
    requires !Malformed(input) && Valid(b, mode) && !Live(b, input.order.clientOrderId)
    requires b == BookAfter(reqs, NewRequest(input).Symbol(), mode, false)
    requires a.request == NewRequest(input) && a.ack.status == Accepted && a.ack.reason == NoReason && a.deliveries == []
    ensures var o, all := input.order, reqs + [NewRequest(input)];
      var b', job := b.(insertSeq := b.insertSeq + 1), Some(C.Matching(Admit(o, b.insertSeq + 1), o.orderType == Market, None));
      && WorkOk(b', job, mode)
      && Finish(b', job, mode).0 == BookAfter(all, NewRequest(input).Symbol(), mode, false)
      && AnswerComing(a, all, Finish(b', job, mode).1, mode)
      && forall id :: Live(b', id) <==> Live(b, id)
  {
    PlacementBegins(b, input, mode);
    LastOfMore(reqs, NewRequest(input), NewRequest(input).Symbol(), mode, false);
    hide Live, BookAfter, LastOutcome, Submitted, Valid, Finish, WorkOk, Malformed;
    var o := input.order;
    var job := Some(C.Matching(Admit(o, b.insertSeq + 1), o.orderType == Market, None));
    var coming := Finish(b.(insertSeq := b.insertSeq + 1), job, mode).1;
    assert FillsIn(a.deliveries) + coming == coming;
  }

  lemma PlacementCore(core: C.Engine, input: Incoming)
    ensures var o, x := input.order, SymbolOf(input.order.symbol);
      var b, core' := core.BookAt(x), C.DoLockAndDraw(core, Named(o));
      && core'.BookAt(x) == b.(insertSeq := b.insertSeq + 1) && core'.index == core.index
      && JobAt(core', x) == Some(C.Matching(Admit(o, b.insertSeq + 1), o.orderType == Market, None))
  {
  }

  lemma PlacementHere(core: C.Engine, sh: Shard, x: string, mode: Mode, input: Incoming, a: Answer)
    requires SymbolOk(core, sh, x, mode) && Ready(sh, NewRequest(input)) && SymbolOf(input.order.symbol) == x
    requires !Malformed(input) && !PlacedBy(Begun(sh), input.order.clientOrderId) && input.order.clientOrderId !in core.index
    requires a.request == NewRequest(input) && a.ack.status == Accepted && a.ack.reason == NoReason && a.deliveries == []
    ensures SymbolOk(C.DoLockAndDraw(core, Named(input.order)), Working(sh, a), x, mode)
  {
    hide Live, BookAfter, LastOutcome, Submitted, Valid, Finish, WorkOk, Begun, Malformed, AnswerComing, SymbolOk, C.DoLockAndDraw, PlacedBy, Admit;
    var b, req, reqs := core.BookAt(x), NewRequest(input), Begun(sh);
    IdleUntilBegun(core, sh, x, mode);
    PlacementStarts(b, reqs, input, mode, a);
    PlacementCore(core, input);
    BegunGrows(sh, req, a);
    forall id ensures PlacedBy(reqs, id) ==> PlacedBy(reqs + [req], id) {
      PlacedByMore(reqs, req, id);
    }
    PlacementOk(C.DoLockAndDraw(core, Named(input.order)), Working(sh, a), x, mode, input, b);
  }

  lemma PlacementOk(core: C.Engine, sh: Shard, x: string, mode: Mode, input: Incoming, was: Book)
    requires !Malformed(input) && sh.hand == Some(NewRequest(input)) && SymbolOf(input.order.symbol) == x
    requires sh.partial.Some? && sh.partial.value.request == NewRequest(input)
    requires input.order.clientOrderId !in core.index
    requires JobAt(core, x) == Some(C.Matching(Admit(input.order, was.insertSeq + 1), input.order.orderType == Market, None))
    requires WorkOk(core.BookAt(x), JobAt(core, x), mode)
    requires Finish(core.BookAt(x), JobAt(core, x), mode).0 == BookAfter(Begun(sh), x, mode, false)
    requires AnswerComing(sh.partial.value, Begun(sh), Finish(core.BookAt(x), JobAt(core, x), mode).1, mode)
    requires forall id :: Live(core.BookAt(x), id) <==> Live(was, id)
    requires forall id :: id in core.index && core.index[id] == x <==> Live(was, id)
    requires forall id :: Live(was, id) ==> PlacedBy(Begun(sh), id)
    ensures SymbolOk(core, sh, x, mode)
  {
    hide Live, BookAfter, Valid, Finish, WorkOk, Begun, Malformed, AnswerComing, PlacedBy;
  }

  lemma RejectHere(core: C.Engine, sh: Shard, x: string, mode: Mode, input: Incoming, a: Answer)
    requires SymbolOk(core, sh, x, mode) && Ready(sh, NewRequest(input)) && SymbolOf(input.order.symbol) == x
    requires Malformed(input)
    requires a.request == NewRequest(input) && a.ack.status == Rejected && a.ack.reason == InvalidOrder && a.deliveries == []
    ensures SymbolOk(C.DoReject(core, Named(input.order)), Done(sh, a), x, mode)
    ensures AnswerOk(a, Begun(sh) + [NewRequest(input)], mode)
  {
    var b, req, reqs := core.BookAt(x), NewRequest(input), Begun(sh);
    IdleUntilBegun(core, sh, x, mode);
    MalformedKeepsBook(b, input, mode);
    BegunGrows(sh, req, a);
    LastOfMore(reqs, req, x, mode, false);
    hide Live, BookAfter, LastOutcome, Submitted, Valid, WorkOk, Begun, Malformed, IndexedAt;
    assert C.DoReject(core, Named(input.order)).BookAt(x) == b;
    forall id | Live(b, id) ensures PlacedBy(reqs + [req], id) {
      PlacedByMore(reqs, req, id);
    }
  }

  /** What a cancel in hand does: it takes the order out if it still rests, and otherwise nothing. */
  lemma CancelWorks(core: C.Engine, x: string, mode: Mode, t: C.Ticket)
    requires x !in core.locks && Valid(core.BookAt(x), mode) && t.found == Some(x)
    requires forall id :: id in core.index && core.index[id] == x <==> Live(core.BookAt(x), id)
    ensures var core', b := CancelInHand(core, t), core.BookAt(x);
      && StillThere(core, t) == Cancel(b, t.orig).1
      && core'.BookAt(x) == Cancel(b, t.orig).0 && core'.index == core.index
      && JobAt(core', x) == (if StillThere(core, t) then Some(C.Unindexing(t.orig)) else None)
      && Valid(core'.BookAt(x), mode) && IndexedAt(core'.BookAt(x), JobAt(core', x), core'.index, x)
      && (forall id :: Live(core'.BookAt(x), id) ==> Live(b, id))
      && (StillThere(core, t) ==> Live(b, t.orig))
  {
    hide Cancel, Live, Valid, IndexedAt;
    var b := core.BookAt(x);
    CancelFindsLive(b, t.orig, mode);
    if !Live(b, t.orig) { CancelMissing(b, t.orig); }
    CancelIndexed(b, Cancel(b, t.orig).0, t.orig, core.index, x);
  }

  lemma CancelIndexed(b: Book, b': Book, orig: string, index: map<string, string>, x: string)
    requires forall id :: id in index && index[id] == x <==> Live(b, id)
    requires forall id :: Live(b', id) <==> Live(b, id) && id != orig
    ensures IndexedAt(b', if Live(b, orig) then Some(C.Unindexing(orig)) else None, index, x)
  {
    hide Live;
  }

  /** The answer a cancel begins with is the one the cancel alone would get. */
  lemma CancelStarts(b: Book, reqs: seq<Request>, t: C.Ticket, x: string, mode: Mode, a: Answer)
    requires t.found == Some(x) && b == BookAfter(reqs, x, mode, false)
    requires a.request == CancelRequest(t) && a.ack.reason == NoReason && a.deliveries == []
    requires a.ack.status == if Cancel(b, t.orig).1 then Canceled else NotFound
    ensures var all := reqs + [CancelRequest(t)];
      BookAfter(all, x, mode, false) == Cancel(b, t.orig).0 && AnswerComing(a, all, [], mode) && AnswerOk(a, all, mode)
  {
    LastOfMore(reqs, CancelRequest(t), x, mode, false);
    hide BookAfter, LastOutcome, Cancel;
    assert FillsIn(a.deliveries) + [] == [];
  }

  lemma UnindexingOk(core: C.Engine, sh: Shard, x: string, mode: Mode, t: C.Ticket)
    requires sh.hand == Some(CancelRequest(t)) && t.found == Some(x)
    requires sh.partial.Some? && sh.partial.value.request == CancelRequest(t)
    requires JobAt(core, x) == Some(C.Unindexing(t.orig)) && Valid(core.BookAt(x), mode)
    requires core.BookAt(x) == BookAfter(Begun(sh), x, mode, false)
    requires IndexedAt(core.BookAt(x), JobAt(core, x), core.index, x)
    requires (forall id :: Live(core.BookAt(x), id) ==> PlacedBy(Begun(sh), id)) && PlacedBy(Begun(sh), t.orig)
    requires AnswerComing(sh.partial.value, Begun(sh), [], mode)
    ensures SymbolOk(core, sh, x, mode)
  {
    hide Live, BookAfter, Valid, Begun, IndexedAt, PlacedBy, AnswerComing, Complete;
  }

  lemma IdleOk(core: C.Engine, sh: Shard, x: string, mode: Mode)
    requires JobAt(core, x) == None && Valid(core.BookAt(x), mode)
    requires core.BookAt(x) == BookAfter(Begun(sh), x, mode, false)
    requires IndexedAt(core.BookAt(x), JobAt(core, x), core.index, x)
    requires forall id :: Live(core.BookAt(x), id) ==> PlacedBy(Begun(sh), id)
    ensures SymbolOk(core, sh, x, mode)
  {
    hide Live, BookAfter, Valid, Begun, IndexedAt, PlacedBy, AnswerComing, Complete;
  }

  lemma CancelHere(core: C.Engine, sh: Shard, x: string, mode: Mode, t: C.Ticket, a: Answer)
    requires SymbolOk(core, sh, x, mode) && Ready(sh, CancelRequest(t)) && t.found == Some(x)
    requires a.request == CancelRequest(t) && a.ack.reason == NoReason && a.deliveries == []
    requires a.ack.status == if StillThere(core, t) then Canceled else NotFound
    ensures SymbolOk(CancelInHand(core, t), if StillThere(core, t) then Working(sh, a) else Done(sh, a), x, mode)
    ensures !StillThere(core, t) ==> AnswerOk(a, Begun(sh) + [CancelRequest(t)], mode)
  {
    hide SymbolOk, Live, BookAfter, LastOutcome, Valid, Begun, IndexedAt, Cancel, CancelInHand, StillThere, PlacedBy, AnswerComing, AnswerOk, JobAt;
    var b, req, reqs := core.BookAt(x), CancelRequest(t), Begun(sh);
    var core' := CancelInHand(core, t);
    IdleUntilBegun(core, sh, x, mode);
    CancelWorks(core, x, mode, t);
    CancelStarts(b, reqs, t, x, mode, a);
    BegunGrows(sh, req, a);
    forall id ensures PlacedBy(reqs, id) ==> PlacedBy(reqs + [req], id) {
      PlacedByMore(reqs, req, id);
    }
    if StillThere(core, t) {
      UnindexingOk(core', Working(sh, a), x, mode, t);
    } else {
      IdleOk(core', Done(sh, a), x, mode);
    }
  }

  // ----- everything else stays -----

  /** The move touches the book, the work and the index entries of `x` alone, and indexes nothing new but `name`. */
  ghost predicate Only(core: C.Engine, core': C.Engine, x: string, name: Option<string>) {
    && core.counter <= core'.counter
    && (forall y :: y != x ==> core'.BookAt(y) == core.BookAt(y) && JobAt(core', y) == JobAt(core, y))
    && (forall id :: id in core.index && core.index[id] != x ==> id in core'.index && core'.index[id] == core.index[id])
    && (forall id :: id in core'.index && core'.index[id] != x ==> id in core.index && core'.index[id] == core.index[id])
    && (forall id :: id in core'.index && id !in core.index ==> name == Some(id))
  }

  lemma HandIsClaimed(sh: Shard, i: nat, s: Engine)
    requires ShardOk(sh, i, s) && sh.hand.Some?
    ensures Ring.Head(sh.ring) > 0 && |sh.answers| < |sh.ring.claims|
    ensures sh.ring.claims[|sh.answers|] == sh.hand.value && ShardFor(sh.hand.value.Symbol()) == i && Begins(sh.hand.value)
    ensures WellNamed(sh.hand.value) ==> NameOf(sh.hand.value) in s.homes && s.homes[NameOf(sh.hand.value)] == sh.hand.value.Symbol()
  {
    hide ShardFor, AnswersOk, Increasing, WellNamed;
    var r := sh.ring;
    assert r.consumed == r.claims[..Ring.Head(r)];
  }

  /** What is placed through a ring was claimed there. */
  lemma PlacedWasClaimed(sh: Shard, i: nat, s: Engine, id: string)
    requires ShardOk(sh, i, s) && PlacedBy(Begun(sh), id)
    ensures id in s.homes && ShardFor(s.homes[id]) == i
    ensures sh.hand.Some? && sh.partial.None? ==> WellNamed(sh.hand.value) ==> NameOf(sh.hand.value) != id
  {
    var r := sh.ring;
    assert r.consumed == r.claims[..Ring.Head(r)];
    hide ShardFor, AnswersOk, Increasing, Ring.Inv;
    var k :| 0 <= k < |Begun(sh)| && WellNamed(Begun(sh)[k]) && NameOf(Begun(sh)[k]) == id;
    assert Begun(sh)[k] == r.claims[k];
    if sh.hand.Some? && sh.partial.None? {
      assert r.claims[|sh.answers|] == sh.hand.value && k < |sh.answers|;
    }
  }

  /** Two matchers never have the same id in hand. */
  lemma HandsDiffer(s: Engine, i: nat, j: nat)
    requires EngineOk(s) && i < SHARDS && j < SHARDS && i != j
    requires s.shards[i].hand.Some? && s.shards[j].hand.Some?
    ensures WellNamed(s.shards[i].hand.value) && WellNamed(s.shards[j].hand.value)
      ==> NameOf(s.shards[i].hand.value) != NameOf(s.shards[j].hand.value)
  {
    hide ShardOk, SymbolOk, ShardFor, WellNamed;
    HandIsClaimed(s.shards[i], i, s);
    HandIsClaimed(s.shards[j], j, s);
  }

  /** An id about to be placed is nowhere yet. */
  lemma NotYetPlaced(s: Engine, i: nat, req: Request)
    requires EngineOk(s) && i < SHARDS && Ready(s.shards[i], req) && WellNamed(req)
    ensures NameOf(req) !in s.core.index && !PlacedBy(Begun(s.shards[i]), NameOf(req))
  {
    hide ShardOk, SymbolOk, ShardFor, PlacedBy, Begun, Malformed;
    var id := NameOf(req);
    HandIsClaimed(s.shards[i], i, s);
    if PlacedBy(Begun(s.shards[i]), id) { PlacedWasClaimed(s.shards[i], i, s, id); }
    if id in s.core.index {
      var y := s.core.index[id];
      var j := ShardFor(y);
      IndexedIsPlaced(s.core, s.shards[j], y, s.mode, id);
      PlacedWasClaimed(s.shards[j], j, s, id);
    }
  }

  lemma IndexedIsPlaced(core: C.Engine, sh: Shard, y: string, mode: Mode, id: string)
    requires SymbolOk(core, sh, y, mode) && id in core.index && core.index[id] == y
    ensures PlacedBy(Begun(sh), id)
  {
    hide Live, BookAfter, PlacedBy, Begun, WorkOk, Finish, AnswerComing, JobFits, Lags, Leads;
    assert IndexedAt(core.BookAt(y), JobAt(core, y), core.index, y);
  }

  /** Shard `i` moved on its symbol in hand; every other symbol and shard is as it was. */
  ghost predicate Moved(s: Engine, s': Engine, i: nat, x: string, name: Option<string>) {
    && |s.shards| == |s'.shards| == SHARDS && i < SHARDS
    && s'.mode == s.mode && s'.homes == s.homes
    && s.shards[i].hand.Some? && s.shards[i].hand.value.Symbol() == x
    && (forall j :: 0 <= j < SHARDS && j != i ==> s'.shards[j] == s.shards[j])
    && s'.shards[i].ring == s.shards[i].ring
    && (Begun(s'.shards[i]) == Begun(s.shards[i]) || Begun(s'.shards[i]) == Begun(s.shards[i]) + [s.shards[i].hand.value])
    && Only(s.core, s'.core, x, name)
    && (name.Some? ==> WellNamed(s.shards[i].hand.value) && NameOf(s.shards[i].hand.value) == name.value)
  }

  lemma OtherShardKept(s: Engine, s': Engine, i: nat, x: string, name: Option<string>, j: nat)
    requires EngineOk(s) && Moved(s, s', i, x, name) && ShardFor(x) == i && j < SHARDS && j != i
    ensures ShardOk(s'.shards[j], j, s')
  {
    hide ShardFor, RingOk, GivenOk, StampsOf, SymbolOk, Begun, WellNamed;
    var sh := s.shards[j];
    assert ShardOk(sh, j, s);
    if sh.hand.Some? {
      HandIsClaimed(sh, j, s);
      assert JobAt(s'.core, sh.hand.value.Symbol()) == JobAt(s.core, sh.hand.value.Symbol());
    }
  }

  lemma OtherSymbolKept(s: Engine, s': Engine, i: nat, x: string, name: Option<string>, y: string)
    requires EngineOk(s) && Moved(s, s', i, x, name) && ShardFor(x) == i && y != x
    ensures SymbolOk(s'.core, s'.shards[ShardFor(y)], y, s.mode)
  {
    var j := ShardFor(y);
    var sh, sh' := s.shards[j], s'.shards[j];
    assert SymbolOk(s.core, sh, y, s.mode);
    if y in s.core.locks {
      LockedIsInHand(s.core, sh, y, s.mode);
      assert j != i;
      HandsDiffer(s, i, j);
    }
    if j == i { OtherSymbolGrows(s.shards[i], s'.shards[i], y, s.mode); }
    hide EngineOk, ShardFor, SymbolOk, Begun, BookAfter, PlacedBy, WellNamed, Brings, ShardOk;
    SymbolElsewhere(s.core, s'.core, sh, sh', y, s.mode);
  }

  lemma LockedIsInHand(core: C.Engine, sh: Shard, y: string, mode: Mode)
    requires SymbolOk(core, sh, y, mode) && y in core.locks
    ensures sh.hand.Some? && sh.hand.value.Symbol() == y
    ensures forall id :: Brings(JobAt(core, y), id) ==> WellNamed(sh.hand.value) && NameOf(sh.hand.value) == id && id !in core.index
  {
    hide Live, BookAfter, PlacedBy, Begun, WorkOk, Finish, AnswerComing, WellNamed, Brings;
  }

  lemma OtherSymbolGrows(sh: Shard, sh': Shard, y: string, mode: Mode)
    requires sh.hand.Some? && sh.hand.value.Symbol() != y
    requires Begun(sh') == Begun(sh) || Begun(sh') == Begun(sh) + [sh.hand.value]
    ensures BookAfter(Begun(sh'), y, mode, false) == BookAfter(Begun(sh), y, mode, false)
    ensures forall id :: PlacedBy(Begun(sh), id) ==> PlacedBy(Begun(sh'), id)
  {
    var reqs, req := Begun(sh), sh.hand.value;
    hide Begun;
    if Begun(sh') == reqs + [req] {
      LastOfMore(reqs, req, y, mode, false);
      forall id ensures PlacedBy(reqs, id) ==> PlacedBy(reqs + [req], id) { PlacedByMore(reqs, req, id); }
    }
  }

  lemma MovedKeeps(s: Engine, s': Engine, i: nat, x: string, name: Option<string>)
    requires EngineOk(s) && Moved(s, s', i, x, name) && ShardFor(x) == i
    requires ShardOk(s'.shards[i], i, s') && SymbolOk(s'.core, s'.shards[i], x, s.mode)
    ensures EngineOk(s')
  {
    hide ShardOk, SymbolOk, ShardFor;
    forall j | 0 <= j < SHARDS ensures ShardOk(s'.shards[j], j, s') {
      if j != i { OtherShardKept(s, s', i, x, name, j); }
    }
    forall y ensures SymbolOk(s'.core, s'.shards[ShardFor(y)], y, s'.mode) {
      if y != x { OtherSymbolKept(s, s', i, x, name, y); }
    }
  }

  // ----- the moving shard -----

  lemma IncreasingMore(nums: seq<nat>, last: nat)
    requires Increasing(nums, last)
    ensures Increasing(nums + [last + 1], last + 1)
  {
  }

  lemma AllStampsMore(answers: seq<Answer>, a: Answer)
    ensures AllStamps(answers + [a]) == AllStamps(answers) + Stamps(a)
  {
    assert (answers + [a])[..|answers|] == answers;
  }

  lemma StampsWorking(sh: Shard, a: Answer, n: nat)
    requires Stamps(a) == (if sh.partial.Some? then Stamps(sh.partial.value) else []) + [n]
    ensures StampsOf(Working(sh, a)) == StampsOf(sh) + [n]
  {
    hide Stamps, AllStamps;
    var before := if sh.partial.Some? then Stamps(sh.partial.value) else [];
    assert AllStamps(sh.answers) + (before + [n]) == AllStamps(sh.answers) + before + [n];
  }

  /** The answer in the making goes on, with the number just drawn. */
  lemma ShardWorks(s: Engine, s': Engine, i: nat, a: Answer)
    requires |s.shards| == SHARDS && i < SHARDS && ShardOk(s.shards[i], i, s) && s.shards[i].hand.Some?
    requires s'.mode == s.mode && s'.homes == s.homes && s.shards[i].hand.value.Symbol() in s'.core.locks
    requires s'.core.counter == s.core.counter + 1
    requires Stamps(a) == (if s.shards[i].partial.Some? then Stamps(s.shards[i].partial.value) else []) + [s.core.counter + 1]
    ensures ShardOk(Working(s.shards[i], a), i, s')
  {
    hide ShardFor, RingOk, AnswersOk, Stamps, StampsOf, AllStamps, Increasing;
    StampsWorking(s.shards[i], a, s.core.counter + 1);
    IncreasingMore(StampsOf(s.shards[i]), s.core.counter);
  }

  /** No number is drawn, and the answer is not finished yet. */
  lemma ShardWaits(s: Engine, s': Engine, i: nat)
    requires |s.shards| == SHARDS && i < SHARDS && ShardOk(s.shards[i], i, s) && s.shards[i].partial.Some?
    requires s'.mode == s.mode && s'.homes == s.homes && s'.core.counter == s.core.counter
    requires s.shards[i].hand.value.Symbol() in s'.core.locks
    ensures ShardOk(s.shards[i], i, s')
  {
    hide ShardFor, RingOk, GivenOk, Increasing, StampsOf;
  }

  lemma GivenGrows(sh: Shard, a: Answer, mode: Mode)
    requires GivenOk(sh, mode) && sh.hand.Some? && |sh.ring.consumed| == |sh.answers| + 1
    requires sh.ring.consumed[|sh.answers|] == sh.hand.value && AnswerOk(a, sh.ring.consumed, mode)
    ensures GivenOk(Done(sh, a), mode)
  {
    hide AnswerOk, AnswersOk;
    var before := sh.ring.consumed[..|sh.answers|];
    assert sh.ring.consumed == before + [sh.hand.value];
    AnswersGrow(sh.answers, before, a, sh.hand.value, mode);
    assert sh.ring.consumed[..|sh.answers| + 1] == sh.ring.consumed;
  }

  lemma StampsGiven(sh: Shard, a: Answer)
    ensures StampsOf(Done(sh, a)) == AllStamps(sh.answers) + Stamps(a)
  {
    AllStampsMore(sh.answers, a);
    assert AllStamps(sh.answers + [a]) + [] == AllStamps(sh.answers + [a]);
  }

  /** The answer is given. */
  lemma ShardAnswers(s: Engine, s': Engine, i: nat, a: Answer)
    requires |s.shards| == SHARDS && i < SHARDS && ShardOk(s.shards[i], i, s) && s.shards[i].hand.Some?
    requires s'.mode == s.mode && s'.homes == s.homes
    requires AnswerOk(a, s.shards[i].ring.consumed, s.mode)
    requires Increasing(AllStamps(s.shards[i].answers) + Stamps(a), s'.core.counter)
    ensures ShardOk(Done(s.shards[i], a), i, s')
  {
    hide ShardFor, AnswerOk, RingOk, GivenOk, Stamps, AllStamps, StampsOf, Increasing;
    GivenGrows(s.shards[i], a, s.mode);
    StampsGiven(s.shards[i], a);
  }

  /** The answer in the making is the final one once no fills are to come. */
  lemma ShardFinishes(s: Engine, s': Engine, i: nat)
    requires |s.shards| == SHARDS && i < SHARDS && ShardOk(s.shards[i], i, s) && s.shards[i].partial.Some?
    requires s'.mode == s.mode && s'.homes == s.homes && s'.core.counter == s.core.counter
    requires AnswerComing(s.shards[i].partial.value, Begun(s.shards[i]), [], s.mode)
    ensures ShardOk(Done(s.shards[i], s.shards[i].partial.value), i, s')
  {
    var sh := s.shards[i];
    var a := sh.partial.value;
    hide ShardFor, ClaimsOk, Ring.Inv, Stamps, AllStamps, Increasing, AnswersOk, LastOutcome;
    assert Begun(sh) == sh.ring.consumed;
    assert FillsIn(a.deliveries) + [] == FillsIn(a.deliveries);
    assert AnswerOk(a, sh.ring.consumed, s.mode);
    hide AnswerOk;
    ShardAnswers(s, s', i, a);
  }

  // ----- the moves of a matcher -----

  lemma TakenInHand(sh: Shard, i: nat, s: Engine)
    requires ShardOk(sh, i, s) && sh.hand.Some? && sh.partial.None?
    ensures Ready(sh, sh.hand.value) && Begun(sh) + [sh.hand.value] == sh.ring.consumed
    ensures StampsOf(sh) == AllStamps(sh.answers)
  {
    hide ShardFor, ClaimsOk, Ring.Inv, AnswersOk, Increasing;
    assert AllStamps(sh.answers) + [] == AllStamps(sh.answers);
  }

  lemma OneStamp(a: Answer)
    requires a.deliveries == []
    ensures Stamps(a) == [a.ack.engineSeq]
  {
  }

  lemma StampsBounded(sh: Shard, i: nat, s: Engine)
    requires ShardOk(sh, i, s)
    ensures Increasing(StampsOf(sh), s.core.counter)
  {
  }

  /** An answer given at once carries the one number just drawn. */
  lemma AnsweredAtOnce(s: Engine, s': Engine, i: nat, a: Answer)
    requires |s.shards| == SHARDS && i < SHARDS && ShardOk(s.shards[i], i, s)
    requires s.shards[i].hand.Some? && s.shards[i].partial.None?
    requires s'.mode == s.mode && s'.homes == s.homes && s'.core.counter == s.core.counter + 1
    requires a.ack.engineSeq == s.core.counter + 1 && a.deliveries == []
    requires AnswerOk(a, Begun(s.shards[i]) + [s.shards[i].hand.value], s.mode)
    ensures ShardOk(Done(s.shards[i], a), i, s')
  {
    hide ShardFor, RingOk, GivenOk, AllStamps, Increasing, AnswerOk, Stamps, StampsOf, Begun, ShardOk;
    TakenInHand(s.shards[i], i, s);
    OneStamp(a);
    StampsBounded(s.shards[i], i, s);
    IncreasingMore(AllStamps(s.shards[i].answers), s.core.counter);
    ShardAnswers(s, s', i, a);
  }

  lemma BegunWorking(s: Engine, s': Engine, i: nat, a: Answer)
    requires |s.shards| == SHARDS && i < SHARDS && ShardOk(s.shards[i], i, s)
    requires s.shards[i].hand.Some? && s.shards[i].partial.None?
    requires s'.mode == s.mode && s'.homes == s.homes && s'.core.counter == s.core.counter + 1
    requires s.shards[i].hand.value.Symbol() in s'.core.locks
    requires a.ack.engineSeq == s.core.counter + 1 && a.deliveries == []
    ensures ShardOk(Working(s.shards[i], a), i, s')
  {
    assert Stamps(a) == [] + [s.core.counter + 1];
    hide ShardOk;
    ShardWorks(s, s', i, a);
  }

  /** What the invariant says of a request about to begin. */
  lemma HandReady(s: Engine, i: nat)
    requires EngineOk(s) && Allowed(s, Begin(i))
    ensures i < SHARDS == |s.shards| && ShardOk(s.shards[i], i, s) && SymbolOk(s.core, s.shards[i], SymbolInHand(s, i), s.mode)
    ensures ShardFor(SymbolInHand(s, i)) == i && Ready(s.shards[i], s.shards[i].hand.value)
  {
    assert ShardOk(s.shards[i], i, s);
    hide SymbolOk, ShardFor, ShardOk, Ready;
    HandIsClaimed(s.shards[i], i, s);
    TakenInHand(s.shards[i], i, s);
  }

  /** A move changes one shard and the work on its symbol. */
  lemma MovesOne(s: Engine, s': Engine, i: nat, sh': Shard, x: string, name: Option<string>)
    requires EngineOk(s) && i < |s.shards| && s.shards[i].hand.Some? && s.shards[i].hand.value.Symbol() == x && ShardFor(x) == i
    requires s'.mode == s.mode && s'.homes == s.homes && s'.shards == s.shards[i := sh'] && sh'.ring == s.shards[i].ring
    requires Begun(sh') == Begun(s.shards[i]) || Begun(sh') == Begun(s.shards[i]) + [s.shards[i].hand.value]
    requires Only(s.core, s'.core, x, name)
    requires name.Some? ==> WellNamed(s.shards[i].hand.value) && NameOf(s.shards[i].hand.value) == name.value
    requires ShardOk(sh', i, s') && SymbolOk(s'.core, sh', x, s.mode)
    ensures EngineOk(s')
  {
    hide ShardOk, SymbolOk, ShardFor, Begun, Only, WellNamed;
    assert Moved(s, s', i, x, name);
    hide Moved;
    MovedKeeps(s, s', i, x, name);
  }

  lemma RejectOnly(core: C.Engine, o: NewOrder, x: string)
    ensures Only(core, C.DoReject(core, o), x, None) && C.DoReject(core, o).counter == core.counter + 1
  {
  }

  lemma RejectKeeps(s: Engine, s': Engine, i: nat)
    requires EngineOk(s) && Allowed(s, Begin(i)) && s' == Taken(s, Begin(i))
    requires s.shards[i].hand.value.NewRequest? && Malformed(s.shards[i].hand.value.input)
    ensures EngineOk(s')
  {
    hide EngineOk, ShardOk, SymbolOk, ShardFor, Malformed, Ready, Begun, AnswerOk, Only, C.DoReject, WellNamed;
    var sh, req, x := s.shards[i], s.shards[i].hand.value, SymbolInHand(s, i);
    var a := Answer(req, Ack(req.Id(), Rejected, InvalidOrder, s.core.counter + 1), []);
    HandReady(s, i);
    RejectHere(s.core, sh, x, s.mode, req.input, a);
    RejectOnly(s.core, Named(req.input.order), x);
    AnsweredAtOnce(s, s', i, a);
    BegunGrows(sh, req, a);
    MovesOne(s, s', i, Done(sh, a), x, None);
  }

  lemma PlacementOnly(core: C.Engine, o: NewOrder)
    ensures Only(core, C.DoLockAndDraw(core, o), o.symbol, None) && C.DoLockAndDraw(core, o).counter == core.counter + 1
    ensures o.symbol in C.DoLockAndDraw(core, o).locks
  {
  }

  lemma PlacementKeeps(s: Engine, s': Engine, i: nat)
    requires EngineOk(s) && Allowed(s, Begin(i)) && s' == Taken(s, Begin(i))
    requires s.shards[i].hand.value.NewRequest? && !Malformed(s.shards[i].hand.value.input)
    ensures EngineOk(s')
  {
    hide EngineOk, ShardOk, SymbolOk, ShardFor, Malformed, Ready, Begun, PlacedBy, Only, C.DoLockAndDraw;
    var sh, req, x := s.shards[i], s.shards[i].hand.value, SymbolInHand(s, i);
    var a := Answer(req, Ack(req.Id(), Accepted, NoReason, s.core.counter + 1), []);
    HandReady(s, i);
    NotYetPlaced(s, i, req);
    PlacementHere(s.core, sh, x, s.mode, req.input, a);
    PlacementOnly(s.core, Named(req.input.order));
    BegunWorking(s, s', i, a);
    BegunGrows(sh, req, a);
    MovesOne(s, s', i, Working(sh, a), x, None);
  }

  lemma CancelOnly(core: C.Engine, t: C.Ticket)
    requires t.found.Some?
    ensures Only(core, CancelInHand(core, t), t.found.value, None) && CancelInHand(core, t).counter == core.counter + 1
    ensures StillThere(core, t) ==> t.found.value in CancelInHand(core, t).locks
  {
    hide Cancel;
  }

  lemma CancelKeeps(s: Engine, s': Engine, i: nat)
    requires EngineOk(s) && Allowed(s, Begin(i)) && s' == Taken(s, Begin(i))
    requires s.shards[i].hand.value.CancelRequest?
    ensures EngineOk(s')
  {
    hide EngineOk, ShardOk, SymbolOk, ShardFor, Ready, Begun, StillThere, CancelInHand, Only, AnswerOk;
    var sh, req, x := s.shards[i], s.shards[i].hand.value, SymbolInHand(s, i);
    var t := req.ticket;
    var a := Answer(req, Ack(req.Id(), if StillThere(s.core, t) then Canceled else NotFound, NoReason, s.core.counter + 1), []);
    HandReady(s, i);
    CancelHere(s.core, sh, x, s.mode, t, a);
    CancelOnly(s.core, t);
    BegunGrows(sh, req, a);
    if StillThere(s.core, t) {
      BegunWorking(s, s', i, a);
      MovesOne(s, s', i, Working(sh, a), x, None);
    } else {
      AnsweredAtOnce(s, s', i, a);
      MovesOne(s, s', i, Done(sh, a), x, None);
    }
  }

  /** What the invariant says of the matcher at work in shard `i`. */
  lemma AtWorkOk(s: Engine, i: nat)
    requires EngineOk(s) && AtWork(s, i)
    ensures i < SHARDS == |s.shards| && ShardOk(s.shards[i], i, s) && SymbolOk(s.core, s.shards[i], SymbolInHand(s, i), s.mode)
    ensures ShardFor(SymbolInHand(s, i)) == i && SymbolInHand(s, i) in s.core.locks
  {
    hide SymbolOk, ShardFor, ClaimsOk, Ring.Inv, AnswersOk, Increasing;
    assert ShardOk(s.shards[i], i, s);
    HandIsClaimed(s.shards[i], i, s);
  }

  lemma FillOnly(core: C.Engine, x: string)
    requires C.IsMatching(core, x) && C.CanFill(core, x)
    ensures Only(core, C.DoFillOne(core, x), x, None) && C.DoFillOne(core, x).counter == core.counter + 1
    ensures x in C.DoFillOne(core, x).locks
  {
    hide TradeOnce, Tradable;
  }

  lemma FillOneKeeps(s: Engine, s': Engine, i: nat)
    requires EngineOk(s) && Allowed(s, FillOne(i)) && s' == Taken(s, FillOne(i))
    ensures EngineOk(s')
  {
    hide EngineOk, ShardOk, SymbolOk, ShardFor, TradeOnce, Tradable, Stamps, Begun, Only, C.DoFillOne;
    var sh, x := s.shards[i], SymbolInHand(s, i);
    AtWorkOk(s, i);
    OppositeThere(s.core.BookAt(x), s.core.locks[x].active, s.core.locks[x].market);
    var f := TradeOnce(s.core.BookAt(x), s.core.locks[x].active).fill;
    var p := sh.partial.value;
    var a := p.(deliveries := p.deliveries + [Delivery(s.core.counter + 1, f)]);
    FillHere(s.core, sh, x, s.mode, a);
    FillOnly(s.core, x);
    OneMoreDelivery(p, s.core.counter + 1, f);
    ShardWorks(s, s', i, a);
    StillBegun(sh, a);
    MovesOne(s, s', i, Working(sh, a), x, None);
  }

  lemma StillBegun(sh: Shard, a: Answer)
    requires sh.partial.Some?
    ensures Begun(Working(sh, a)) == Begun(sh) == Begun(Done(sh, a))
  {
  }

  /** Forgetting an index entry of `x` touches nothing of other symbols. */
  lemma ForgetOnly(core: C.Engine, core': C.Engine, x: string, id: string)
    requires id in core.index && core.index[id] == x && core'.index == core.index - {id}
    requires core'.counter == core.counter && core'.books == core.books
    requires forall y :: y != x ==> JobAt(core', y) == JobAt(core, y)
    ensures Only(core, core', x, None)
  {
  }

  lemma DeleteFilledKeeps(s: Engine, s': Engine, i: nat)
    requires EngineOk(s) && Allowed(s, DeleteFilled(i)) && s' == Taken(s, DeleteFilled(i))
    ensures EngineOk(s')
  {
    hide EngineOk, ShardOk, SymbolOk, ShardFor, Begun, Only;
    var sh, x := s.shards[i], SymbolInHand(s, i);
    AtWorkOk(s, i);
    DeleteFilledHere(s.core, sh, x, s.mode);
    ForgetOnly(s.core, s'.core, x, s.core.locks[x].filled.value);
    ShardWaits(s, s', i);
    assert s.shards[i := sh] == s.shards;
    MovesOne(s, s', i, sh, x, None);
  }

  /** With nothing left to fill the answer in the making is complete. */
  lemma NothingToCome(core: C.Engine, sh: Shard, x: string, mode: Mode)
    requires SymbolOk(core, sh, x, mode) && x in core.locks
    requires core.locks[x].Matching? ==> C.IsMatching(core, x) && !C.CanFill(core, x)
    ensures sh.partial.Some? && AnswerComing(sh.partial.value, Begun(sh), [], mode)
  {
    hide Live, BookAfter, LastOutcome, PlacedBy, Begun, WorkOk, IndexedAt, AnswerComing, Tradable, WellNamed;
    if core.locks[x].Matching? {
      S.CompleteStops(core.BookAt(x), core.locks[x].active, core.locks[x].market, mode);
    }
    hide Complete;
  }

  lemma SettleOnly(core: C.Engine, x: string, mode: Mode)
    requires C.IsMatching(core, x)
    ensures Only(core, C.DoSettle(core, x, mode), x, None) && C.DoSettle(core, x, mode).counter == core.counter
    ensures WillRest(core.locks[x]) ==> x in C.DoSettle(core, x, mode).locks
  {
    hide Rest;
  }

  lemma SettleKeeps(s: Engine, s': Engine, i: nat)
    requires EngineOk(s) && Allowed(s, Settle(i)) && s' == Taken(s, Settle(i))
    ensures EngineOk(s')
  {
    hide EngineOk, ShardOk, SymbolOk, ShardFor, Tradable, C.DoSettle, Only, Begun, AnswerComing;
    var sh, x := s.shards[i], SymbolInHand(s, i);
    AtWorkOk(s, i);
    SettleHere(s.core, sh, x, s.mode);
    SettleOnly(s.core, x, s.mode);
    StillBegun(sh, sh.partial.value);
    if WillRest(s.core.locks[x]) {
      ShardWaits(s, s', i);
      assert s.shards[i := sh] == s.shards;
      MovesOne(s, s', i, sh, x, None);
    } else {
      NothingToCome(s.core, sh, x, s.mode);
      ShardFinishes(s, s', i);
      MovesOne(s, s', i, Done(sh, sh.partial.value), x, None);
    }
  }

  lemma StoreOnly(core: C.Engine, x: string)
    requires x in core.locks && core.locks[x].Indexing? && core.locks[x].resting !in core.index
    ensures Only(core, C.DoStoreIndex(core, x), x, Some(core.locks[x].resting)) && C.DoStoreIndex(core, x).counter == core.counter
  {
  }

  lemma RestingBrought(core: C.Engine, x: string)
    requires x in core.locks && core.locks[x].Indexing?
    ensures Brings(JobAt(core, x), core.locks[x].resting)
  {
  }

  lemma StoreIndexKeeps(s: Engine, s': Engine, i: nat)
    requires EngineOk(s) && Allowed(s, StoreIndex(i)) && s' == Taken(s, StoreIndex(i))
    ensures EngineOk(s')
  {
    hide EngineOk, ShardOk, SymbolOk, ShardFor, Begun, WellNamed, Only, AnswerComing, Brings, C.DoStoreIndex;
    var sh, x := s.shards[i], SymbolInHand(s, i);
    AtWorkOk(s, i);
    RestingBrought(s.core, x);
    LockedIsInHand(s.core, sh, x, s.mode);
    StoreIndexHere(s.core, sh, x, s.mode);
    StoreOnly(s.core, x);
    NothingToCome(s.core, sh, x, s.mode);
    ShardFinishes(s, s', i);
    StillBegun(sh, sh.partial.value);
    MovesOne(s, s', i, Done(sh, sh.partial.value), x, Some(s.core.locks[x].resting));
  }

  lemma DeleteCancelledKeeps(s: Engine, s': Engine, i: nat)
    requires EngineOk(s) && Allowed(s, DeleteCancelled(i)) && s' == Taken(s, DeleteCancelled(i))
    ensures EngineOk(s')
  {
    hide EngineOk, ShardOk, SymbolOk, ShardFor, Begun, Only, AnswerComing;
    var sh, x := s.shards[i], SymbolInHand(s, i);
    AtWorkOk(s, i);
    DeleteCancelledHere(s.core, sh, x, s.mode);
    ForgetOnly(s.core, s'.core, x, s.core.locks[x].cancelled);
    NothingToCome(s.core, sh, x, s.mode);
    ShardFinishes(s, s', i);
    StillBegun(sh, sh.partial.value);
    MovesOne(s, s', i, Done(sh, sh.partial.value), x, None);
  }

  // ----- the moves of producers, and of `consume` -----

  /** Books, work and index are as they were, and every shard has begun the same requests. */
  ghost predicate SameWork(s: Engine, s': Engine) {
    && |s.shards| == |s'.shards| == SHARDS && s'.mode == s.mode
    && s'.core.books == s.core.books && s'.core.locks == s.core.locks && s'.core.index == s.core.index
    && forall i :: 0 <= i < SHARDS ==>
         Begun(s'.shards[i]) == Begun(s.shards[i]) && s'.shards[i].partial == s.shards[i].partial
         && (s.shards[i].partial.Some? ==> s'.shards[i].hand == s.shards[i].hand)
  }

  lemma SameWorkKeeps(s: Engine, s': Engine, x: string)
    requires SameWork(s, s') && SymbolOk(s.core, s.shards[ShardFor(x)], x, s.mode)
    ensures SymbolOk(s'.core, s'.shards[ShardFor(x)], x, s'.mode)
  {
    var sh, sh' := s.shards[ShardFor(x)], s'.shards[ShardFor(x)];
    hide Live, Finish, WorkOk, BookAfter, PlacedBy, Begun, AnswerComing, WellNamed, Brings, Lags, Leads, IndexedAt, ShardFor;
    assert s'.core.BookAt(x) == s.core.BookAt(x) && JobAt(s'.core, x) == JobAt(s.core, x);
  }

  lemma ProducerStepKeepsRing(s: Engine, i: nat, step: Ring.Step<Request>)
    requires i < |s.shards| && RingOk(s.shards[i].ring, i, s.homes) && Allowed(s, InRing(i, step)) && !step.Free?
    ensures RingOk(Ring.Do(s.shards[i].ring, step), i, DoInRing(s, i, step).homes)
  {
    hide ClaimsOk, ShardFor, Filed, Ring.Do, Ring.Enabled, Malformed, Ring.Inv, WellNamed, Routed;
    var r := s.shards[i].ring;
    RingSafety.StepKeeps(r, step);
    RingStepKeepsConsumed(r, step);
    if step.Claim? {
      RoutedClaim(s, i, step.producer, step.item);
      ClaimsGrow(r.claims, i, s.homes, step.item);
      if step.item.CancelRequest? { CancelsFileNothing(s.homes, step.item); }
    }
  }

  lemma SameHand(sh: Shard, sh': Shard, i: nat, s: Engine, s': Engine)
    requires ShardOk(sh, i, s) && RingOk(sh'.ring, i, s'.homes)
    requires sh'.ring.consumed == sh.ring.consumed && sh' == sh.(ring := sh'.ring)
    requires s'.mode == s.mode && s'.core == s.core
    ensures ShardOk(sh', i, s')
  {
    hide RingOk, AnswersOk, Increasing, AllStamps, Stamps;
  }

  lemma ProducerStepKeepsShard(s: Engine, i: nat, step: Ring.Step<Request>)
    requires EngineOk(s) && Allowed(s, InRing(i, step)) && !step.Free?
    ensures ShardOk(Taken(s, InRing(i, step)).shards[i], i, Taken(s, InRing(i, step)))
  {
    hide ShardFor, Filed, Ring.Do, Ring.Enabled, SymbolOk, RingOk, Routed, GivenOk, Increasing, HandOk;
    assert ShardOk(s.shards[i], i, s);
    ProducerStepKeepsRing(s, i, step);
    RingStepKeepsConsumed(s.shards[i].ring, step);
    hide ShardOk;
    var s' := Taken(s, InRing(i, step));
    SameHand(s.shards[i], s'.shards[i], i, s, s');
  }

  lemma CancelsFileNothing(homes: map<string, string>, req: Request)
    requires req.CancelRequest?
    ensures Filed(homes, req) == homes
  {
  }

  lemma RoutedClaim(s: Engine, i: nat, p: nat, req: Request)
    requires Routed(s, i, p, req)
    ensures ShardFor(req.Symbol()) == i && Begins(req) && (WellNamed(req) ==> NameOf(req) !in s.homes)
  {
  }

  lemma FreeFillsHand(sh: Shard, i: nat, s: Engine)
    requires ShardOk(sh, i, s) && sh.hand.None? && Ring.Enabled(sh.ring, Ring.Step.Free)
    ensures var sh' := sh.(ring := Ring.Do(sh.ring, Ring.Step.Free), hand := Some(sh.ring.consumer.item));
      ShardOk(sh', i, s) && Begun(sh') == Begun(sh)
    ensures sh.partial.None?
  {
    hide Increasing, ClaimsOk, Ring.Do, Ring.Inv, AllStamps, Stamps, AnswersOk;
    var r := sh.ring;
    FreeHandsOver(r);
    assert (r.consumed + [r.consumer.item])[..|r.consumed|] == r.consumed == r.consumed[..|sh.answers|];
  }

  lemma FreeKeepsShard(s: Engine, i: nat)
    requires EngineOk(s) && Allowed(s, InRing(i, Ring.Step.Free))
    ensures ShardOk(Taken(s, InRing(i, Ring.Step.Free)).shards[i], i, Taken(s, InRing(i, Ring.Step.Free)))
    ensures Begun(Taken(s, InRing(i, Ring.Step.Free)).shards[i]) == Begun(s.shards[i]) && s.shards[i].partial.None?
  {
    hide ShardFor, Ring.Do, SymbolOk, RingOk, GivenOk, HandOk, Begun, Increasing, Ring.Enabled;
    assert ShardOk(s.shards[i], i, s);
    FreeFillsHand(s.shards[i], i, s);
  }

  lemma OtherShardStays(sh: Shard, j: nat, s: Engine, s': Engine, req: Request)
    requires ShardOk(sh, j, s) && (WellNamed(req) ==> NameOf(req) !in s.homes)
    requires s'.homes == Filed(s.homes, req) || s'.homes == s.homes
    requires s'.mode == s.mode && s'.core == s.core
    ensures ShardOk(sh, j, s')
  {
    hide Ring.Inv, GivenOk, Increasing, ClaimsOk, Filed, WellNamed, StampsOf;
    ClaimsStay(sh.ring.claims, j, s.homes, req);
  }

  lemma InRingShards(s: Engine, s': Engine, i: nat, step: Ring.Step<Request>)
    requires EngineOk(s) && Allowed(s, InRing(i, step)) && s' == Taken(s, InRing(i, step))
    ensures forall j :: 0 <= j < SHARDS ==> ShardOk(s'.shards[j], j, s')
    ensures SameWork(s, s')
  {
    hide ShardOk, SymbolOk, ShardFor, Ring.Enabled, Malformed, WellNamed, Routed, Filed;
    var sh := s.shards[i];
    if step.Free? {
      FreeKeepsShard(s, i);
    } else {
      ProducerStepKeepsShard(s, i, step);
      RingStepKeepsConsumed(sh.ring, step);
    }
    hide Ring.Do;
    forall j | 0 <= j < SHARDS ensures ShardOk(s'.shards[j], j, s') {
      if j != i {
        if step.Claim? {
          RoutedClaim(s, i, step.producer, step.item);
          OtherShardStays(s.shards[j], j, s, s', step.item);
        } else {
          UntouchedShard(s.shards[j], j, s, s');
        }
      }
    }
  }

  lemma UntouchedShard(sh: Shard, j: nat, s: Engine, s': Engine)
    requires ShardOk(sh, j, s) && s'.homes == s.homes && s'.mode == s.mode
    requires s'.core.locks == s.core.locks && s.core.counter <= s'.core.counter
    ensures ShardOk(sh, j, s')
  {
    hide RingOk, GivenOk, StampsOf;
  }

  lemma SameWorkEverywhere(s: Engine, s': Engine)
    requires EngineOk(s) && SameWork(s, s')
    requires forall j :: 0 <= j < SHARDS ==> ShardOk(s'.shards[j], j, s')
    ensures EngineOk(s')
  {
    hide ShardOk, SymbolOk, ShardFor, Begun;
    forall x ensures SymbolOk(s'.core, s'.shards[ShardFor(x)], x, s'.mode) { SameWorkKeeps(s, s', x); }
  }

  /** Lookups, and cancels the index did not know, touch no shard. */
  lemma OutsideKeeps(s: Engine, s': Engine)
    requires EngineOk(s) && s'.shards == s.shards && s'.homes == s.homes && s'.mode == s.mode
    requires s'.core.books == s.core.books && s'.core.locks == s.core.locks && s'.core.index == s.core.index
    requires s.core.counter <= s'.core.counter
    ensures EngineOk(s')
  {
    hide ShardOk, SymbolOk, ShardFor, Begun;
    forall j | 0 <= j < SHARDS ensures ShardOk(s'.shards[j], j, s') { UntouchedShard(s.shards[j], j, s, s'); }
    SameWorkEverywhere(s, s');
  }

  // ----- every reachable state -----

  lemma EmptySymbol(sh: Shard, x: string, mode: Mode)
    requires sh.ring.consumed == [] && sh.hand.None? && sh.partial.None?
    ensures SymbolOk(C.Initial(false), sh, x, mode)
  {
    assert C.Initial(false).BookAt(x) == EMPTY_BOOK;
    hide Complete, C.MidMatch;
  }

  lemma StartIsOk(mode: Mode)
    ensures EngineOk(Start(mode))
  {
    var s := Start(mode);
    RingSafety.InitialOk<Request>(RING_SIZE);
    hide Ring.Inv, Ring.SlotOf, ShardFor, SymbolOk;
    forall i | 0 <= i < SHARDS ensures ShardOk(s.shards[i], i, s) {
      assert s.shards[i] == Shard(Ring.Initial(RING_SIZE), None, None, []);
    }
    forall x ensures SymbolOk(s.core, s.shards[ShardFor(x)], x, mode) {
      EmptySymbol(s.shards[ShardFor(x)], x, mode);
    }
  }

  lemma MoveKeeps(s: Engine, move: Move)
    requires EngineOk(s) && Allowed(s, move)
    ensures EngineOk(Taken(s, move)) && Taken(s, move).mode == s.mode
  {
    hide EngineOk, Malformed;
    var s' := Taken(s, move);
    match move
    case InRing(i, step) =>
      InRingShards(s, s', i, step);
      SameWorkEverywhere(s, s');
    case Begin(i) =>
      if s.shards[i].hand.value.CancelRequest? { CancelKeeps(s, s', i); }
      else if Malformed(s.shards[i].hand.value.input) { RejectKeeps(s, s', i); }
      else { PlacementKeeps(s, s', i); }
    case FillOne(i) => FillOneKeeps(s, s', i);
    case DeleteFilled(i) => DeleteFilledKeeps(s, s', i);
    case Settle(i) => SettleKeeps(s, s', i);
    case StoreIndex(i) => StoreIndexKeeps(s, s', i);
    case DeleteCancelled(i) => DeleteCancelledKeeps(s, s', i);
    case Lookup(_, _, _) => OutsideKeeps(s, s');
    case Miss(_) => OutsideKeeps(s, s');
  }

  lemma {:induction false} ReachableIsOk(mode: Mode, moves: seq<Move>, s: Engine)
    requires Reachable(mode, moves, s)
    ensures EngineOk(s) && s.mode == mode
  {
    hide EngineOk, Allowed, Taken;
    if moves == [] {
      StartIsOk(mode);
    } else {
      var n := |moves| - 1;
      var t :| Reachable(mode, moves[..n], t) && Allowed(t, moves[n]) && s == Taken(t, moves[n]);
      ReachableIsOk(mode, moves[..n], t);
      MoveKeeps(t, moves[n]);
    }
  }

  // ----- what it means for clients -----

  /**
   In every reachable state each shard has answered a prefix of its claims, every
   answer is the one those requests alone would have got, and the numbers a shard
   was given by the shared counter go up, whatever the other shards drew meanwhile.
   */
  lemma {:induction false} MatchersRunInClaimOrder(mode: Mode, moves: seq<Move>, s: Engine, i: nat)
    requires Reachable(mode, moves, s) && i < SHARDS
    ensures |s.shards| == SHARDS
    ensures var sh := s.shards[i];
      var k := |sh.answers|;
      && k <= |sh.ring.claims|
      && (forall j :: 0 <= j < k ==> AnswerOk(sh.answers[j], sh.ring.claims[..j + 1], mode))
      && Increasing(StampsOf(sh), s.core.counter)
  {
    hide Reachable, EngineOk, AnswerOk, Increasing, ShardOk, StampsOf;
    ReachableIsOk(mode, moves, s);
    ShardIsOk(s, i);
    StampsBounded(s.shards[i], i, s);
    AnswersAreClaims(s.shards[i], i, s);
  }

  lemma ShardIsOk(s: Engine, i: nat)
    requires EngineOk(s) && i < SHARDS
    ensures |s.shards| == SHARDS && ShardOk(s.shards[i], i, s)
  {
    hide ShardOk, SymbolOk;
  }

  lemma AnswersAreClaims(sh: Shard, i: nat, s: Engine)
    requires ShardOk(sh, i, s)
    ensures |sh.answers| <= |sh.ring.claims|
    ensures forall j :: 0 <= j < |sh.answers| ==> AnswerOk(sh.answers[j], sh.ring.claims[..j + 1], s.mode)
  {
    hide AnswerOk, Increasing, ClaimsOk, StampsOf;
    var r := sh.ring;
    assert r.consumed == r.claims[..Ring.Head(r)];
    forall j | 0 <= j < |sh.answers| ensures AnswerOk(sh.answers[j], r.claims[..j + 1], s.mode) {
      assert r.consumed[..|sh.answers|][..j + 1] == r.claims[..j + 1];
    }
  }

  /**
   A book no matcher is at work on is what the answered requests alone would have
   made of it; one that a matcher is at work on becomes that with the request in hand.
   */
  lemma BooksRunInClaimOrder(mode: Mode, moves: seq<Move>, s: Engine, x: string)
    requires Reachable(mode, moves, s)
    ensures |s.shards| == SHARDS
    ensures var sh, b := s.shards[ShardFor(x)], s.core.BookAt(x);
      var k := |sh.answers|;
      && k <= |sh.ring.claims|
      && (sh.partial.None? ==> x !in s.core.locks && b == BookAfter(sh.ring.claims[..k], x, mode, false) && Valid(b, mode))
      && (x in s.core.locks ==> k < |sh.ring.claims| && Finish(b, JobAt(s.core, x), mode).0 == BookAfter(sh.ring.claims[..k + 1], x, mode, false))
  {
    ReachableIsOk(mode, moves, s);
    var i := ShardFor(x);
    var sh := s.shards[i];
    assert ShardOk(sh, i, s) && SymbolOk(s.core, sh, x, mode);
    hide EngineOk, AnswersOk, Increasing, ShardFor, BookAfter, Finish, ClaimsOk;
    BegunIsClaimed(sh, i, s);
    if sh.partial.None? { IdleUntilBegun(s.core, sh, x, mode); }
  }

  lemma BegunIsClaimed(sh: Shard, i: nat, s: Engine)
    requires ShardOk(sh, i, s)
    ensures |sh.answers| <= |sh.ring.claims|
    ensures sh.partial.None? ==> Begun(sh) == sh.ring.claims[..|sh.answers|]
    ensures sh.partial.Some? ==> |sh.answers| < |sh.ring.claims| && Begun(sh) == sh.ring.claims[..|sh.answers| + 1]
  {
    hide AnswersOk, Increasing, ShardFor, ClaimsOk;
    assert sh.ring.consumed == sh.ring.claims[..Ring.Head(sh.ring)];
  }

  /** The move a matcher with a request in hand makes next. */
  function NextMove(s: Engine, i: nat): Move
    requires i < |s.shards| && s.shards[i].hand.Some?
  {
    var x := SymbolInHand(s, i);
    if s.shards[i].partial.None? || x !in s.core.locks then Begin(i)
    else
      match s.core.locks[x]
      case Matching(_, _, filled) =>
        if filled.Some? then DeleteFilled(i) else if C.CanFill(s.core, x) then FillOne(i) else Settle(i)
      case Indexing(_) => StoreIndex(i)
      case Unindexing(_) => DeleteCancelled(i)
  }

  /** A matcher never waits for another: with a request in hand it can always move. */
  lemma MatchersNeverWait(mode: Mode, moves: seq<Move>, s: Engine, i: nat)
    requires Reachable(mode, moves, s) && i < |s.shards| && s.shards[i].hand.Some?
    ensures Allowed(s, NextMove(s, i))
  {
    hide Reachable, Tradable, SymbolOk, ShardOk, ShardFor, EngineOk;
    ReachableIsOk(mode, moves, s);
    BeginsInHand(s, i);
    if s.shards[i].partial.Some? { AtWorkOk(s, i); }
  }

  lemma BeginsInHand(s: Engine, i: nat)
    requires EngineOk(s) && i < |s.shards| && s.shards[i].hand.Some?
    ensures Begins(s.shards[i].hand.value)
  {
    hide SymbolOk, ShardOk, ShardFor;
    HandIsClaimed(s.shards[i], i, s);
  }

  /** A request neither limit of the locked engine would notice. */
  ghost predicate Unlimited(reqs: seq<Request>, k: nat, mode: Mode, limits: bool)
    requires k < |reqs|
  {
    var b := BookAfter(reqs[..k], reqs[k].Symbol(), mode, limits);
    reqs[k].NewRequest? ==> Malformed(reqs[k].input) || (FieldsFit(reqs[k].input.order) && !HitsCap(b, reqs[k].input.order))
  }

  lemma OneRequestSameIff(b: Book, req: Request, mode: Mode)
    ensures SameAnswer(OneByOne(b, req, mode, true), OneByOne(b, req, mode, false))
      <==> (req.NewRequest? ==> Malformed(req.input) || (FieldsFit(req.input.order) && !HitsCap(b, req.input.order)))
    ensures OneByOne(b, req, mode, true).book == OneByOne(b, req, mode, false).book
      <==> SameAnswer(OneByOne(b, req, mode, true), OneByOne(b, req, mode, false))
  {
    hide Submitted, HitsCap, FieldsFit, Malformed, Cancel;
    if req.NewRequest? { LimitsInvisibleIff(b, req.input, mode); }
  }

  /** Under the limits nobody hits, the locked engine's books are these books. */
  lemma {:induction false} SameBooks(reqs: seq<Request>, symbol: string, mode: Mode)
    requires forall k :: 0 <= k < |reqs| ==> Unlimited(reqs, k, mode, true)
    ensures BookAfter(reqs, symbol, mode, true) == BookAfter(reqs, symbol, mode, false)
  {
    hide Unlimited, OneByOne, BookAfter;
    if reqs == [] {
      NoRequestsSameBook(symbol, mode);
    } else {
      var n := |reqs| - 1;
      forall k | 0 <= k < n ensures Unlimited(reqs[..n], k, mode, true) {
        PrefixSeesTheSame(reqs, n, k, mode);
      }
      SameBooks(reqs[..n], symbol, mode);
      SameBooks(reqs[..n], reqs[n].Symbol(), mode);
      assert Unlimited(reqs, n, mode, true);
      LastKeepsSameBook(reqs, symbol, mode);
    }
  }

  lemma NoRequestsSameBook(symbol: string, mode: Mode)
    ensures BookAfter([], symbol, mode, true) == BookAfter([], symbol, mode, false)
  {
  }

  lemma PrefixSeesTheSame(reqs: seq<Request>, n: nat, k: nat, mode: Mode)
    requires k < n <= |reqs|
    ensures Unlimited(reqs[..n], k, mode, true) <==> Unlimited(reqs, k, mode, true)
  {
    hide BookAfter, HitsCap, FieldsFit, Malformed;
    assert reqs[..n][..k] == reqs[..k] && reqs[..n][k] == reqs[k];
  }

  lemma LastKeepsSameBook(reqs: seq<Request>, symbol: string, mode: Mode)
    requires reqs != [] && Unlimited(reqs, |reqs| - 1, mode, true)
    requires var n := |reqs| - 1;
      && BookAfter(reqs[..n], symbol, mode, true) == BookAfter(reqs[..n], symbol, mode, false)
      && BookAfter(reqs[..n], reqs[n].Symbol(), mode, true) == BookAfter(reqs[..n], reqs[n].Symbol(), mode, false)
    ensures BookAfter(reqs, symbol, mode, true) == BookAfter(reqs, symbol, mode, false)
  {
    var n := |reqs| - 1;
    assert reqs == reqs[..n] + [reqs[n]];
    LastOfMore(reqs[..n], reqs[n], symbol, mode, true);
    LastOfMore(reqs[..n], reqs[n], symbol, mode, false);
    OneRequestSameIff(BookAfter(reqs[..n], reqs[n].Symbol(), mode, true), reqs[n], mode);
    hide OneByOne, BookAfter, HitsCap, FieldsFit, Malformed, LastOutcome;
  }

  /** The `k`-th request gets the same status, reason and fills from either engine. */
  ghost predicate SameAnswerAt(reqs: seq<Request>, k: nat, mode: Mode)
    requires k < |reqs|
  {
    SameAnswer(LastOutcome(reqs[..k + 1], mode, true), LastOutcome(reqs[..k + 1], mode, false))
  }

  lemma LastAgreesIff(reqs: seq<Request>, n: nat, mode: Mode)
    requires n < |reqs|
    requires BookAfter(reqs[..n], reqs[n].Symbol(), mode, true) == BookAfter(reqs[..n], reqs[n].Symbol(), mode, false)
    ensures SameAnswerAt(reqs, n, mode) <==> Unlimited(reqs, n, mode, true)
  {
    assert reqs[..n + 1][..n] == reqs[..n];
    OneRequestSameIff(BookAfter(reqs[..n], reqs[n].Symbol(), mode, true), reqs[n], mode);
    hide OneByOne, BookAfter;
  }

  ghost predicate AllSame(reqs: seq<Request>, n: nat, mode: Mode)
    requires n <= |reqs|
  {
    forall k :: 0 <= k < n ==> SameAnswerAt(reqs, k, mode)
  }

  ghost predicate AllUnlimited(reqs: seq<Request>, n: nat, mode: Mode)
    requires n <= |reqs|
  {
    forall k :: 0 <= k < n ==> Unlimited(reqs, k, mode, true)
  }

  /**
   The ring-fed engine gives the locked engine's answers, one by one, exactly as
   long as no field is too long and no side is full.
   */
  lemma {:induction false} AnswersAgreeIff(reqs: seq<Request>, n: nat, mode: Mode)
    requires n <= |reqs|
    ensures AllSame(reqs, n, mode) <==> AllUnlimited(reqs, n, mode)
  {
    hide SameAnswerAt, Unlimited;
    if n > 0 {
      AnswersAgreeIff(reqs, n - 1, mode);
      if AllUnlimited(reqs, n - 1, mode) {
        PrefixUnlimited(reqs, n - 1, mode);
        SameBooks(reqs[..n - 1], reqs[n - 1].Symbol(), mode);
        LastAgreesIff(reqs, n - 1, mode);
      }
    }
  }

  lemma PrefixUnlimited(reqs: seq<Request>, n: nat, mode: Mode)
    requires n <= |reqs| && AllUnlimited(reqs, n, mode)
    ensures forall k :: 0 <= k < n ==> Unlimited(reqs[..n], k, mode, true)
  {
    hide Unlimited;
    forall k | 0 <= k < n ensures Unlimited(reqs[..n], k, mode, true) {
      assert Unlimited(reqs, k, mode, true);
      PrefixSeesTheSame(reqs, n, k, mode);
    }
  }

  // ----- two requests that tell the engines apart -----

  function LongId(): string {
    seq(MAX_ORDER_FIELD_LEN + 1, _ => 'a')
  }

  function Bid(id: string): Request {
    NewRequest(Incoming(NewOrder(id, "X", Buy, 1, 1, 0, Limit), true))
  }

  /** An id one byte too long: the locked engine refuses the order, the ring-fed one takes it. */
  lemma LongIdTellsApart(mode: Mode)
    ensures LastOutcome([Bid(LongId())], mode, true).reason == FieldTooLong
    ensures LastOutcome([Bid(LongId())], mode, false).status == Accepted
    ensures !SameAnswerAt([Bid(LongId())], 0, mode)
  {
    var reqs := [Bid(LongId())];
    assert reqs[..0] == [] && reqs[..1] == reqs;
    assert |LongId()| == MAX_ORDER_FIELD_LEN + 1;
    hide Complete;
  }

  /** As many bids as you like, under ids of their own. */
  function Bids(n: nat): (r: seq<Request>)
    ensures |r| == n
  {
    if n == 0 then [] else Bids(n - 1) + [Bid(Decimals.Decimal(n - 1))]
  }

  /** With nothing to trade against, a bid the limits let through rests. */
  lemma BidRests(b: Book, id: string, mode: Mode, limits: bool)
    requires b.sells == [] && id != "" && FieldsFit(Bid(id).input.order)
    ensures HitsCap(b, Bid(id).input.order) <==> |b.buys| >= MAX_RESTING_PER_SYMBOL
    ensures !limits || |b.buys| < MAX_RESTING_PER_SYMBOL ==>
      (var b' := OneByOne(b, Bid(id), mode, limits).book; b'.sells == [] && |b'.buys| == |b.buys| + 1)
  {
    hide Insert;
  }

  lemma ShortIds(n: nat)
    requires n <= MAX_RESTING_PER_SYMBOL
    ensures Decimals.Decimal(n) != "" && FieldsFit(Bid(Decimals.Decimal(n)).input.order)
  {
    assert Decimals.Pow10(3) == 1000 && Decimals.Pow10(5) == 100_000;
    Decimals.DecimalLength(n, 6);
    ShortAsciiFits(Decimals.Decimal(n));
    ShortAsciiFits("X");
  }

  lemma {:induction false} BidsPileUp(n: nat, mode: Mode)
    requires n <= MAX_RESTING_PER_SYMBOL
    ensures var b := BookAfter(Bids(n), "X", mode, true); b.sells == [] && |b.buys| == n
  {
    if n > 0 {
      BidsPileUp(n - 1, mode);
      ShortIds(n - 1);
      var b, id := BookAfter(Bids(n - 1), "X", mode, true), Decimals.Decimal(n - 1);
      BidRests(b, id, mode, true);
      LastOfMore(Bids(n - 1), Bid(id), "X", mode, true);
      hide OneByOne, BookAfter;
    }
  }

  /** One bid more than a side holds: the locked engine refuses it, the ring-fed one lets it rest. */
  lemma FullSideTellsApart(mode: Mode)
    ensures !SameAnswerAt(Bids(MAX_RESTING_PER_SYMBOL + 1), MAX_RESTING_PER_SYMBOL, mode)
  {
    var n := MAX_RESTING_PER_SYMBOL;
    BidsPileUp(n, mode);
    ShortIds(n);
    OneBidTooMany(Bids(n), n, mode);
  }

  lemma OneBidTooMany(reqs: seq<Request>, n: nat, mode: Mode)
    requires |reqs| == n && Decimals.Decimal(n) != "" && FieldsFit(Bid(Decimals.Decimal(n)).input.order)
    requires var b := BookAfter(reqs, "X", mode, true); b.sells == [] && |b.buys| >= MAX_RESTING_PER_SYMBOL
    ensures !SameAnswerAt(reqs + [Bid(Decimals.Decimal(n))], n, mode)
  {
    var id := Decimals.Decimal(n);
    var all := reqs + [Bid(id)];
    hide Decimals.Decimal;
    assert all[..n] == reqs && all[..n + 1] == all;
    BidRests(BookAfter(reqs, "X", mode, true), id, mode, true);
    RefusedOrRested(reqs, id, mode);
  }

  lemma RefusedOrRested(reqs: seq<Request>, id: string, mode: Mode)
    requires id != "" && FieldsFit(Bid(id).input.order) && HitsCap(BookAfter(reqs, "X", mode, true), Bid(id).input.order)
    ensures !SameAnswer(LastOutcome(reqs + [Bid(id)], mode, true), LastOutcome(reqs + [Bid(id)], mode, false))
  {
    LastOfMore(reqs, Bid(id), "X", mode, true);
    LastOfMore(reqs, Bid(id), "X", mode, false);
    hide BookAfter, LastOutcome, Place, EngineSpec.Matching;
    assert Rejection(Bid(id).input.order) == None;
  }
}
