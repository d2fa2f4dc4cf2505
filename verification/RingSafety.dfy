/** What every interleaving of producers and the matcher keeps. */
module RingSafety {
  import opened Types
  import opened Ring

  // ----- slots -----

  /** Positions less than a ring apart have slots of their own. */
  lemma {:induction false} SlotsApart(p: nat, q: nat, size: nat)
    requires size > 0 && p < q < p + size
    ensures SlotOf(p, size) != SlotOf(q, size)
  {
    if p >= size { SlotsApart(p - size, q - size, size); }
  }

  lemma WindowSlot<T>(r: Ring<T>, p: nat, q: nat)
    requires Shaped(r) && Head(r) <= p < Head(r) + r.size && Head(r) <= q < Head(r) + r.size && p != q
    ensures SlotOf(p, r.size) != SlotOf(q, r.size)
  {
    SlotsApart(if p < q then p else q, if p < q then q else p, r.size);
  }

  // ----- each step -----

  lemma {:induction false} InitialOk<T>(size: nat)
    requires size > 0
    ensures Inv(Initial<T>(size))
  {
  }

  lemma {:induction false} ClaimOwn<T>(r: Ring<T>, p: nat, item: T)
    requires Shaped(r) && Enabled(r, Claim(p, item))
    ensures forall pos: nat :: Published(Do(r, Claim(p, item)), pos) <==> Published(r, pos)
  {
    var r' := Do(r, Claim(p, item));
    forall pos: nat ensures Owned(r', pos) <==> Owned(r, pos) || pos == r.prod {
      if Owned(r, pos) {
        var q :| q in r.producers && r.producers[q].pos == pos;
        assert q in r'.producers && r'.producers[q].pos == pos;
      }
      if pos == r.prod { assert p in r'.producers && r'.producers[p].pos == pos; }
    }
  }

  lemma {:induction false} ClaimKeeps<T>(r: Ring<T>, p: nat, item: T)
    requires Inv(r) && Enabled(r, Claim(p, item))
    ensures Inv(Do(r, Claim(p, item)))
  {
    var r' := Do(r, Claim(p, item));
    ClaimOwn(r, p, item);
    hide SlotOf, Published;
    forall pos: nat | Head(r') <= pos < Head(r') + r'.size ensures SlotOk(r', pos) {
      assert SlotOk(r, pos);
    }
    forall q | q in r'.producers ensures ProducerOk(r', q) {
      if q != p { assert ProducerOk(r, q); }
    }
  }

  /** A producer that only moves its own marker. */
  ghost predicate Moves<T>(r: Ring<T>, r': Ring<T>, p: nat) {
    && p in r.producers && p in r'.producers
    && r' == r.(data := r'.data, producers := r.producers[p := r'.producers[p]])
    && r'.producers[p].pos == r.producers[p].pos && r'.producers[p].item == r.producers[p].item
  }

  lemma {:induction false} MovesOwn<T>(r: Ring<T>, r': Ring<T>, p: nat)
    requires Moves(r, r', p)
    ensures forall pos: nat :: Published(r', pos) <==> Published(r, pos)
  {
    forall pos: nat ensures Owned(r', pos) <==> Owned(r, pos) {
      if Owned(r, pos) {
        var q :| q in r.producers && r.producers[q].pos == pos;
        assert q in r'.producers && r'.producers[q].pos == pos;
      }
      if Owned(r', pos) {
        var q :| q in r'.producers && r'.producers[q].pos == pos;
        assert q in r.producers && r.producers[q].pos == pos;
      }
    }
  }

  /** The window holds exactly one position for each slot. */
  lemma {:induction false} InWindow(pos: nat, head: nat, size: nat) returns (low: nat)
    requires size > 0 && pos >= head + size
    ensures head <= low < head + size && SlotOf(low, size) == SlotOf(pos, size) && low + size <= pos
    decreases pos
  {
    if pos - size < head + size {
      low := pos - size;
    } else {
      low := InWindow(pos - size, head, size);
    }
  }

  /** With two slots or more, a slot never shows a position beyond the window. */
  lemma {:induction false} BeyondIsNotShown<T>(r: Ring<T>, pos: nat)
    requires Inv(r) && r.size >= 2 && pos >= Head(r) + r.size
    ensures r.seqs[SlotOf(pos, r.size)] != pos
  {
    var low := InWindow(pos, Head(r), r.size);
    hide SlotOf, ProducerOk, ConsumerOk, Published;
    assert SlotOk(r, low);
  }

  lemma {:induction false} SeenFreeIsInWindow<T>(r: Ring<T>, p: nat)
    requires Inv(r) && r.size >= 2 && Enabled(r, SeeFree(p))
    ensures r.producers[p].pos < Head(r) + r.size
  {
    assert ProducerOk(r, p);
    hide SlotOf, ProducerOk, ConsumerOk, Published, SlotOk;
    if r.producers[p].pos >= Head(r) + r.size {
      BeyondIsNotShown(r, r.producers[p].pos);
    }
  }

  lemma {:induction false} SeeFreeKeeps<T>(r: Ring<T>, p: nat)
    requires Inv(r) && r.size >= 2 && Enabled(r, SeeFree(p))
    ensures Inv(Do(r, SeeFree(p)))
  {
    var r' := Do(r, SeeFree(p));
    SeenFreeIsInWindow(r, p);
    MovesOwn(r, r', p);
    hide SlotOf, Published;
    forall pos: nat | Head(r') <= pos < Head(r') + r'.size ensures SlotOk(r', pos) { assert SlotOk(r, pos); }
    forall q | q in r'.producers ensures ProducerOk(r', q) { assert ProducerOk(r, q) && ProducerOk(r, p); }
  }

  lemma {:induction false} WriteKeeps<T>(r: Ring<T>, p: nat)
    requires Inv(r) && Enabled(r, Write(p))
    ensures Inv(Do(r, Write(p)))
  {
    var r' := Do(r, Write(p));
    MovesOwn(r, r', p);
    assert ProducerOk(r, p);
    var pos := r.producers[p].pos;
    assert Owned(r, pos);
    assert !Published(r, pos);
    hide SlotOf, Published;
    forall q: nat | Head(r') <= q < Head(r') + r'.size ensures SlotOk(r', q) {
      assert SlotOk(r, q);
      if q != pos { WindowSlot(r, q, pos); }
    }
    forall q | q in r'.producers ensures ProducerOk(r', q) {
      assert ProducerOk(r, q);
      if q != p && r.producers[q].Written? { WindowSlot(r, r.producers[q].pos, pos); }
    }
  }

  lemma {:induction false} PublishOwn<T>(r: Ring<T>, p: nat)
    requires HasWritten(r, p) && ProducerOk(r, p)
    ensures var r' := Do(r, Publish(p));
      forall q: nat :: Published(r', q) <==> Published(r, q) || q == r.producers[p].pos
  {
    var r', pos := Do(r, Publish(p)), r.producers[p].pos;
    forall q: nat ensures Owned(r', q) <==> Owned(r, q) && q != pos {
      if Owned(r, q) && q != pos {
        var x :| x in r.producers && r.producers[x].pos == q;
        assert x in r'.producers && r'.producers[x].pos == q;
      }
      if Owned(r', q) {
        var x :| x in r'.producers && r'.producers[x].pos == q;
        assert x in r.producers && r.producers[x].pos == q;
      }
    }
  }

  predicate HasWritten<T>(r: Ring<T>, p: nat) {
    Shaped(r) && p in r.producers && r.producers[p].Written?
  }

  lemma {:induction false} PublishKeeps<T>(r: Ring<T>, p: nat)
    requires Inv(r) && Enabled(r, Publish(p))
    ensures Inv(Do(r, Publish(p)))
  {
    var r', pos := Do(r, Publish(p)), r.producers[p].pos;
    assert ProducerOk(r, p);
    PublishOwn(r, p);
    hide SlotOf, Published;
    forall q: nat | Head(r') <= q < Head(r') + r'.size ensures SlotOk(r', q) {
      assert SlotOk(r, q);
      if q != pos { WindowSlot(r, q, pos); }
    }
    forall q | q in r'.producers ensures ProducerOk(r', q) { assert ProducerOk(r, q); }
  }

  /** The matcher's steps leave the producers alone. */
  lemma {:induction false} SamePublished<T>(r: Ring<T>, r': Ring<T>)
    requires r'.producers == r.producers && r'.prod == r.prod
    ensures forall pos: nat :: Published(r', pos) <==> Published(r, pos)
  {
    assert forall pos: nat :: Owned(r', pos) <==> Owned(r, pos);
  }

  lemma {:induction false} SeePublishedKeeps<T>(r: Ring<T>)
    requires Inv(r) && Enabled(r, SeePublished)
    ensures Inv(Do(r, SeePublished))
  {
    var r' := Do(r, SeePublished);
    SamePublished(r, r');
    assert SlotOk(r, r.cons);
    hide SlotOf, Published;
    forall q: nat | Head(r') <= q < Head(r') + r'.size ensures SlotOk(r', q) { assert SlotOk(r, q); }
    forall q | q in r'.producers ensures ProducerOk(r', q) { assert ProducerOk(r, q); }
  }

  lemma {:induction false} ReadKeeps<T>(r: Ring<T>)
    requires Inv(r) && Enabled(r, Read)
    ensures Inv(Do(r, Read))
  {
    var r' := Do(r, Read);
    SamePublished(r, r');
    assert SlotOk(r, r.cons);
    assert Published(r, r.cons);
    assert r.cons < r.prod;
    hide SlotOf, Published;
    forall q: nat | Head(r') <= q < Head(r') + r'.size ensures SlotOk(r', q) { assert SlotOk(r, q); }
    forall q | q in r'.producers ensures ProducerOk(r', q) { assert ProducerOk(r, q); }
  }

  lemma {:induction false} ClearKeeps<T>(r: Ring<T>)
    requires Inv(r) && Enabled(r, Clear)
    ensures Inv(Do(r, Clear))
  {
    var r' := Do(r, Clear);
    SamePublished(r, r');
    assert !Owned(r, r.cons);
    hide SlotOf, Published;
    forall q: nat | Head(r') <= q < Head(r') + r'.size ensures SlotOk(r', q) {
      assert SlotOk(r, q);
      if q != r.cons { WindowSlot(r, q, r.cons); }
    }
    forall q | q in r'.producers ensures ProducerOk(r', q) {
      assert ProducerOk(r, q);
      assert r.producers[q].pos != r.cons;
      if r.producers[q].Written? { WindowSlot(r, r.producers[q].pos, r.cons); }
    }
  }

  lemma {:induction false} AdvanceKeeps<T>(r: Ring<T>)
    requires Inv(r) && Enabled(r, Advance)
    ensures Inv(Do(r, Advance))
  {
    var r' := Do(r, Advance);
    SamePublished(r, r');
    hide SlotOf, Published;
    forall q: nat | Head(r') <= q < Head(r') + r'.size ensures SlotOk(r', q) { assert SlotOk(r, q); }
    forall q | q in r'.producers ensures ProducerOk(r', q) { assert ProducerOk(r, q); }
  }

  lemma {:induction false} FreeKeeps<T>(r: Ring<T>)
    requires Inv(r) && Enabled(r, Free)
    ensures Inv(Do(r, Free))
  {
    var r' := Do(r, Free);
    var pos := r.cons - 1;
    SamePublished(r, r');
    assert !Owned(r, pos);
    assert SlotOf(pos + r.size, r.size) == SlotOf(pos, r.size);
    hide SlotOf, Published;
    forall q: nat | Head(r') <= q < Head(r') + r'.size ensures SlotOk(r', q) {
      if q != pos + r.size {
        assert SlotOk(r, q);
        WindowSlot(r, q, pos);
      }
    }
    forall q | q in r'.producers ensures ProducerOk(r', q) {
      assert ProducerOk(r, q);
      assert r.producers[q].pos != pos;
    }
  }

  lemma {:induction false} StepKeeps<T>(r: Ring<T>, step: Step<T>)
    requires Inv(r) && r.size >= 2 && Enabled(r, step)
    ensures Inv(Do(r, step)) && Do(r, step).size == r.size
  {
    hide Inv;
    match step
    case Claim(p, item) => ClaimKeeps(r, p, item);
    case SeeFree(p) => SeeFreeKeeps(r, p);
    case Write(p) => WriteKeeps(r, p);
    case Publish(p) => PublishKeeps(r, p);
    case SeePublished => SeePublishedKeeps(r);
    case Read => ReadKeeps(r);
    case Clear => ClearKeeps(r);
    case Advance => AdvanceKeeps(r);
    case Free => FreeKeeps(r);
  }

  lemma {:induction false} ReachableInv<T(!new)>(size: nat, steps: seq<Step<T>>, r: Ring<T>)
    requires size >= 2 && Reaches(size, steps, r)
    ensures Inv(r) && r.size == size
  {
    hide Inv, Enabled, Do;
    if steps == [] {
      InitialOk<T>(size);
    } else {
      var n := |steps| - 1;
      var q :| Reaches(size, steps[..n], q) && Shaped(q) && Enabled(q, steps[n]) && r == Do(q, steps[n]);
      ReachableInv(size, steps[..n], q);
      StepKeeps(q, steps[n]);
    }
  }

  // ----- the guarantees -----

  /** What the matcher has been handed is a prefix of what was claimed: nothing lost, repeated or out of order. */
  lemma {:induction false} ConsumedInClaimOrder<T(!new)>(size: nat, steps: seq<Step<T>>, r: Ring<T>)
    requires size >= 2 && Reaches(size, steps, r)
    ensures |r.consumed| <= |r.claims| && r.consumed == r.claims[..|r.consumed|]
    ensures r.consumer.Clearing? || r.consumer.Advancing? || r.consumer.Freeing? ==>
      |r.consumed| < |r.claims| && r.consumer.item == r.claims[|r.consumed|]
  {
    ReachableInv(size, steps, r);
  }

  /** Who is between seeing a slot and handing it on, and which position they hold. */
  ghost predicate Holds<T>(r: Ring<T>, actor: Option<nat>, pos: int) {
    match actor
    case Some(p) => p in r.producers && !r.producers[p].Claimed? && r.producers[p].pos == pos
    case None => !r.consumer.Polling? && Head(r) == pos
  }

  lemma {:induction false} HeldInWindow<T>(r: Ring<T>, actor: Option<nat>, pos: int)
    requires Inv(r) && Holds(r, actor, pos)
    ensures Head(r) <= pos < Head(r) + r.size
    ensures actor.Some? ==> Owned(r, pos)
    ensures actor.None? ==> !Owned(r, pos)
  {
    if actor.Some? { assert ProducerOk(r, actor.value); }
  }

  /** No two actors ever hold one slot. */
  lemma {:induction false} SlotsAreExclusive<T(!new)>(size: nat, steps: seq<Step<T>>, r: Ring<T>, a: Option<nat>, b: Option<nat>, p: int, q: int)
    requires size >= 2 && Reaches(size, steps, r)
    requires a != b && Holds(r, a, p) && Holds(r, b, q)
    ensures p >= 0 && q >= 0 && SlotOf(p, r.size) != SlotOf(q, r.size)
  {
    ReachableInv(size, steps, r);
    HeldInWindow(r, a, p);
    HeldInWindow(r, b, q);
    hide SlotOf;
    if a.Some? && b.Some? { assert ProducerOk(r, a.value) && ProducerOk(r, b.value); }
    assert p != q;
    WindowSlot(r, p, q);
  }

  /** What is published and not yet handed over fits in the ring. */
  lemma {:induction false} NeverOverfull<T(!new)>(size: nat, steps: seq<Step<T>>, r: Ring<T>, pos: nat)
    requires size >= 2 && Reaches(size, steps, r)
    requires Published(r, pos) && pos >= |r.consumed|
    ensures pos < |r.consumed| + size
  {
    ReachableInv(size, steps, r);
  }

  /** A step of an actor that is already at work, as opposed to a new claim. */
  ghost predicate CanProceed<T(!new)>(r: Ring<T>)
    requires Shaped(r)
  {
    exists step: Step<T> :: !step.Claim? && Enabled(r, step)
  }

  /** The oldest position is published, or its producer can take its next step. */
  lemma {:induction false} HeadProceeds<T(!new)>(r: Ring<T>)
    requires Inv(r) && Head(r) < r.prod && !Published(r, Head(r))
    ensures CanProceed(r)
  {
    var h := Head(r);
    var p :| p in r.producers && r.producers[p].pos == h;
    assert SlotOk(r, h) && ProducerOk(r, p);
    hide SlotOf, Published, Inv;
    match r.producers[p]
    case Claimed(_, _) => assert Enabled(r, SeeFree(p));
    case Writing(_, _) => assert Enabled(r, Write(p));
    case Written(_, _) => assert Enabled(r, Publish(p));
  }

  lemma {:induction false} MatcherProceeds<T(!new)>(r: Ring<T>)
    requires Inv(r) && Published(r, Head(r))
    ensures CanProceed(r)
  {
    assert SlotOk(r, Head(r));
    assert Head(r) < r.prod == |r.claims|;
    hide SlotOf, Published, ProducerOk, Inv, ConsumerOk;
    match r.consumer
    case Polling => assert Enabled(r, SeePublished);
    case Reading => assert Enabled(r, Read);
    case Clearing(_) => assert Enabled(r, Clear);
    case Advancing(_) => assert Enabled(r, Advance);
    case Freeing(_) => assert Enabled(r, Free);
  }

  /** As long as something claimed has not been handed over, somebody can move. */
  lemma {:induction false} AlwaysProgress<T(!new)>(size: nat, steps: seq<Step<T>>, r: Ring<T>)
    requires size >= 2 && Reaches(size, steps, r)
    ensures Shaped(r)
    ensures |r.consumed| < |r.claims| ==> CanProceed(r)
  {
    ReachableInv(size, steps, r);
    hide Reaches, Published, CanProceed, SlotOk, ProducerOk;
    if |r.consumed| < |r.claims| {
      if Published(r, Head(r)) { MatcherProceeds(r); } else { HeadProceeds(r); }
    }
  }

  // ----- why the ring needs two slots -----

  lemma {:induction false} OneMore<T(!new)>(size: nat, steps: seq<Step<T>>, q: Ring<T>, step: Step<T>)
    requires size > 0 && Reaches(size, steps, q) && Shaped(q) && Enabled(q, step)
    ensures Reaches(size, steps + [step], Do(q, step))
  {
    assert (steps + [step])[..|steps|] == steps;
  }

  function AfterFirst(a: int): Ring<int> {
    Ring(1, [1], [Some(a)], 1, 0, map[], Polling, [a], [])
  }

  function Overwritten(a: int, b: int): Ring<int> {
    Ring(1, [1], [Some(b)], 2, 0, map[1 := Written(1, b)], Polling, [a, b], [])
  }

  lemma {:induction false} FirstIsPublished(a: int) returns (s4: seq<Step<int>>)
    ensures Reaches(1, s4, AfterFirst(a))
  {
    hide Reaches;
    var r0 := Initial<int>(1);
    var r1 := Do(r0, Claim(0, a));
    var r2 := Do(r1, SeeFree(0));
    var r3 := Do(r2, Write(0));
    assert Do(r3, Publish(0)) == AfterFirst(a);
    NothingYet();
    OneMore(1, [], r0, Claim(0, a));
    var s1 := [] + [Claim(0, a)];
    OneMore(1, s1, r1, SeeFree(0));
    var s2 := s1 + [SeeFree(0)];
    OneMore(1, s2, r2, Write(0));
    var s3 := s2 + [Write(0)];
    OneMore(1, s3, r3, Publish(0));
    s4 := s3 + [Publish(0)];
  }

  lemma {:induction false} NothingYet()
    ensures Reaches(1, [], Initial<int>(1))
  {
  }

  lemma {:induction false} SecondOverwrites(a: int, b: int, steps: seq<Step<int>>)
    requires Reaches(1, steps, AfterFirst(a))
    ensures Reaches(1, ((steps + [Claim(1, b)]) + [SeeFree(1)]) + [Write(1)], Overwritten(a, b))
  {
    hide Reaches;
    var r1 := Do(AfterFirst(a), Claim(1, b));
    var r2 := Do(r1, SeeFree(1));
    assert Do(r2, Write(1)) == Overwritten(a, b);
    OneMore(1, steps, AfterFirst(a), Claim(1, b));
    OneMore(1, steps + [Claim(1, b)], r1, SeeFree(1));
    OneMore(1, (steps + [Claim(1, b)]) + [SeeFree(1)], r2, Write(1));
  }

  lemma {:induction false} MatcherReadsSecond(a: int, b: int, s0: seq<Step<int>>) returns (s5: seq<Step<int>>, r5: Ring<int>)
    requires Reaches(1, s0, Overwritten(a, b))
    ensures Reaches(1, s5, r5) && r5.claims == [a, b] && r5.consumed == [b]
  {
    hide Reaches;
    var r0 := Overwritten(a, b);
    var r1 := Do(r0, SeePublished);
    var r2 := Do(r1, Read);
    var r3 := Do(r2, Clear);
    var r4 := Do(r3, Advance);
    r5 := Do(r4, Free);
    OneMore(1, s0, r0, SeePublished);
    var s1 := s0 + [SeePublished];
    OneMore(1, s1, r1, Read);
    var s2 := s1 + [Read];
    OneMore(1, s2, r2, Clear);
    var s3 := s2 + [Clear];
    OneMore(1, s3, r3, Advance);
    var s4 := s3 + [Advance];
    OneMore(1, s4, r4, Free);
    s5 := s4 + [Free];
  }

  /** With a single slot, "published" and "free for the next lap" look the same, and an item is overwritten. */
  lemma {:induction false} OneSlotLosesItems(a: int, b: int) returns (steps: seq<Step<int>>, r: Ring<int>)
    ensures Reaches(1, steps, r) && r.claims == [a, b] && r.consumed == [b]
  {
    hide Reaches;
    var s1 := FirstIsPublished(a);
    SecondOverwrites(a, b, s1);
    steps, r := MatcherReadsSecond(a, b, ((s1 + [Claim(1, b)]) + [SeeFree(1)]) + [Write(1)]);
  }
}
