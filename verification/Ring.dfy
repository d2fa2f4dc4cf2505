/**
 The lock-free ring between many producers and one matcher, as single atomic
 steps: a fetch-and-add claims a position, each slot's sequence number hands the
 slot back and forth, and data is touched only in between.
 */
module Ring {
  import opened Types

  /** Where a producer is inside `publish`. */
  datatype Producing<T> =
    | Claimed(pos: nat, item: T)   // spins until the slot's sequence is `pos`
    | Writing(pos: nat, item: T)   // has seen it
    | Written(pos: nat, item: T)   // has stored the item

  /** Where the matcher is inside `consume`. */
  datatype Consuming<T> =
    | Polling              // spins until the slot's sequence is `cons + 1`
    | Reading              // has seen it
    | Clearing(item: T)    // has copied the item out
    | Advancing(item: T)   // has dropped the slot's reference
    | Freeing(item: T)     // has moved its cursor on

  /** `claims` and `consumed` record what was claimed and handed to the matcher, in order. */
  datatype Ring<T> = Ring(
    size: nat,
    seqs: seq<nat>,
    data: seq<Option<T>>,
    prod: nat,
    cons: nat,
    producers: map<nat, Producing<T>>,
    consumer: Consuming<T>,
    claims: seq<T>,
    consumed: seq<T>)

  /** A position with its whole laps taken off: what masking leaves of it. */
  function SlotOf(pos: nat, size: nat): (j: nat)
    requires size > 0
    ensures j < size
  {
    if pos < size then pos else SlotOf(pos - size, size)
  }

  function Initial<T>(size: nat): Ring<T>
    requires size > 0
  {
    Ring(size, seq(size, i => i), seq(size, i => None), 0, 0, map[], Polling, [], [])
  }

  datatype Step<T> =
    | Claim(producer: nat, item: T)
    | SeeFree(producer: nat)
    | Write(producer: nat)
    | Publish(producer: nat)
    | SeePublished
    | Read
    | Clear
    | Advance
    | Free

  predicate Shaped<T>(r: Ring<T>) {
    r.size > 0 && |r.seqs| == r.size && |r.data| == r.size
  }

  predicate Enabled<T>(r: Ring<T>, step: Step<T>)
    requires Shaped(r)
  {
    match step
    case Claim(p, _) => p !in r.producers
    case SeeFree(p) =>
      p in r.producers && r.producers[p].Claimed? && r.seqs[SlotOf(r.producers[p].pos, r.size)] == r.producers[p].pos
    case Write(p) => p in r.producers && r.producers[p].Writing?
    case Publish(p) => p in r.producers && r.producers[p].Written?
    case SeePublished => r.consumer.Polling? && r.seqs[SlotOf(r.cons, r.size)] == r.cons + 1
    case Read => r.consumer.Reading? && r.data[SlotOf(r.cons, r.size)].Some?
    case Clear => r.consumer.Clearing?
    case Advance => r.consumer.Advancing?
    case Free => r.consumer.Freeing? && r.cons > 0
  }

  function Do<T>(r: Ring<T>, step: Step<T>): (r': Ring<T>)
    requires Shaped(r) && Enabled(r, step)
    ensures Shaped(r')
  {
    match step
    case Claim(p, item) =>
      r.(prod := r.prod + 1, claims := r.claims + [item], producers := r.producers[p := Claimed(r.prod, item)])
    case SeeFree(p) => r.(producers := r.producers[p := Writing(r.producers[p].pos, r.producers[p].item)])
    case Write(p) =>
      var w := r.producers[p];
      r.(data := r.data[SlotOf(w.pos, r.size) := Some(w.item)], producers := r.producers[p := Written(w.pos, w.item)])
    case Publish(p) =>
      var pos := r.producers[p].pos;
      r.(seqs := r.seqs[SlotOf(pos, r.size) := pos + 1], producers := r.producers - {p})
    case SeePublished => r.(consumer := Reading)
    case Read => r.(consumer := Clearing(r.data[SlotOf(r.cons, r.size)].value))
    case Clear => r.(data := r.data[SlotOf(r.cons, r.size) := None], consumer := Advancing(r.consumer.item))
    case Advance => r.(cons := r.cons + 1, consumer := Freeing(r.consumer.item))
    case Free =>
      var pos := r.cons - 1;
      r.(seqs := r.seqs[SlotOf(pos, r.size) := pos + r.size], consumer := Polling, consumed := r.consumed + [r.consumer.item])
  }

  ghost predicate Reaches<T(!new)>(size: nat, steps: seq<Step<T>>, r: Ring<T>)
    requires size > 0
  {
    if steps == [] then r == Initial(size)
    else
      var n := |steps| - 1;
      exists q :: Reaches(size, steps[..n], q) && Shaped(q) && Enabled(q, steps[n]) && r == Do(q, steps[n])
  }

  // ----- the invariant -----

  /** The oldest position the matcher has not handed back. */
  function Head<T>(r: Ring<T>): int {
    if r.consumer.Freeing? then r.cons - 1 else r.cons
  }

  ghost predicate Owned<T>(r: Ring<T>, pos: nat) {
    exists p :: p in r.producers && r.producers[p].pos == pos
  }

  ghost predicate Published<T>(r: Ring<T>, pos: nat) {
    pos < r.prod && !Owned(r, pos)
  }

  /** Every position of the window is free for its producer or published for the matcher. */
  ghost predicate SlotOk<T>(r: Ring<T>, pos: nat)
    requires Shaped(r)
  {
    && r.seqs[SlotOf(pos, r.size)] == (if Published(r, pos) then pos + 1 else pos)
    && (Published(r, pos) && pos >= r.cons && !(pos == r.cons && r.consumer.Advancing?) ==>
      pos < |r.claims| && r.data[SlotOf(pos, r.size)] == Some(r.claims[pos]))
  }

  ghost predicate ProducerOk<T>(r: Ring<T>, p: nat)
    requires Shaped(r) && p in r.producers
  {
    var w := r.producers[p];
    && Head(r) <= w.pos < r.prod == |r.claims| && w.item == r.claims[w.pos]
    && (!w.Claimed? ==> w.pos < Head(r) + r.size)
    && (w.Written? ==> r.data[SlotOf(w.pos, r.size)] == Some(w.item))
    && (forall q :: q in r.producers && r.producers[q].pos == w.pos ==> q == p)
  }

  ghost predicate ConsumerOk<T>(r: Ring<T>) {
    && 0 <= Head(r) <= r.prod == |r.claims|
    && r.consumed == r.claims[..Head(r)]
    && (!r.consumer.Polling? ==> Published(r, Head(r)))
    && (r.consumer.Clearing? || r.consumer.Advancing? || r.consumer.Freeing? ==>
      Head(r) < r.prod && r.consumer.item == r.claims[Head(r)])
  }

  ghost predicate Inv<T>(r: Ring<T>) {
    && Shaped(r) && ConsumerOk(r)
    && (forall pos: nat :: Head(r) <= pos < Head(r) + r.size ==> SlotOk(r, pos))
    && (forall pos: nat :: pos >= Head(r) + r.size ==> !Published(r, pos))
    && (forall p :: p in r.producers ==> ProducerOk(r, p))
  }
}
