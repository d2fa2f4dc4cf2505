/** The bounded two-generation window that recognises re-delivered acks. */
module DedupWindow {
  import opened Types
  import opened Sequences

  datatype Window<T> = Window(active: set<T>, aged: set<T>)

  function Empty<T>(): Window<T> {
    Window({}, {})
  }

  predicate Retains<T(==)>(w: Window<T>, id: T) {
    id in w.active || id in w.aged
  }

  /** A new identity goes into the active generation; a full active generation first becomes the aged one. */
  function Inserted<T(==)>(w: Window<T>, cap: nat, id: T): Window<T> {
    if Retains(w, id) then w
    else if |w.active| >= cap then Window({id}, w.active)
    else w.(active := w.active + {id})
  }

  /** The window of the source: two sets and a cap of at least one. */
  class WindowedDedup<T(==)> {
    var active: set<T>
    var aged: set<T>
    const cap: nat

    ghost function Value(): Window<T>
      reads this
    {
      Window(active, aged)
    }

    constructor (cap: nat)
      ensures this.cap == (if cap == 0 then 1 else cap) && Value() == Empty()
    {
      active, aged := {}, {};
      this.cap := if cap == 0 then 1 else cap;
    }

    method Insert(id: T) returns (inserted: bool)
      modifies this
      ensures inserted <==> !Retains(old(Value()), id)
      ensures Value() == Inserted(old(Value()), cap, id)
    {
      if id in active || id in aged {
        return false;
      }
      if |active| >= cap {
        active, aged := aged, active;
        active := {};
      }
      active := active + {id};
      return true;
    }
  }

  // ----- which identities a stream of insertions leaves in the window -----

  function After<T(==)>(cap: nat, ids: seq<T>): Window<T> {
    if ids == [] then Empty() else Inserted(After(cap, ids[..|ids| - 1]), cap, ids[|ids| - 1])
  }

  /** The identities that were new when they came, in order. */
  function Accepted<T(==)>(cap: nat, ids: seq<T>): (r: seq<T>)
    ensures |r| <= |ids|
  {
    if ids == [] then []
    else
      var r := Accepted(cap, ids[..|ids| - 1]);
      if Retains(After(cap, ids[..|ids| - 1]), ids[|ids| - 1]) then r else r + [ids[|ids| - 1]]
  }

  /** How many of `n` accepted identities the active generation holds: it restarts after every `cap`. */
  function ActiveSize(cap: nat, n: nat): (p: nat)
    requires cap >= 1
    ensures p <= n && p <= cap
    ensures n > 0 ==> p >= 1
  {
    if n == 0 then 0
    else if n <= cap then n
    else ActiveSize(cap, n - cap)
  }

  /** The oldest accepted identity still known, by its position among the accepted ones. */
  function Horizon(cap: nat, n: nat): (h: nat)
    requires cap >= 1
    ensures h <= n
    ensures n - h <= 2 * cap
  {
    var cut := n - ActiveSize(cap, n);
    if cut <= cap then 0 else cut - cap
  }

  lemma {:induction false} ActiveSizeSteps(cap: nat, n: nat)
    requires cap >= 1
    ensures ActiveSize(cap, n + 1) == if ActiveSize(cap, n) >= cap then 1 else ActiveSize(cap, n) + 1
    ensures n > cap ==> n - ActiveSize(cap, n) >= cap
    decreases n
  {
    if n > cap {
      ActiveSizeSteps(cap, n - cap);
    }
  }

  function Elements<T>(s: seq<T>): set<T> {
    set x | x in s
  }

  lemma ElementsOfOne<T>(s: seq<T>, x: T)
    ensures Elements(s + [x]) == Elements(s) + {x}
  {
    forall y | y in Elements(s) + {x} ensures y in s + [x] {
      if y == x {
        assert (s + [x])[|s|] == x;
      } else {
        var i :| 0 <= i < |s| && s[i] == y;
        assert (s + [x])[i] == y;
      }
    }
  }

  lemma {:induction false} ElementsCount<T>(s: seq<T>)
    requires NoRepetition(s)
    ensures |Elements(s)| == |s|
  {
    if s != [] {
      var p, x := s[..|s| - 1], s[|s| - 1];
      assert s == p + [x];
      ElementsCount(p);
      ElementsOfOne(p, x);
    }
  }

  /** Among the accepted identities `a` the active generation starts at `cut` and the aged one at `h`. */
  ghost predicate Spans<T>(w: Window<T>, a: seq<T>, h: nat, cut: nat) {
    && h <= cut <= |a|
    && w.active == Elements(a[cut..])
    && w.aged == Elements(a[h..cut])
    && NoRepetition(a[h..])
  }

  ghost predicate TellsRecent<T>(w: Window<T>, cap: nat, a: seq<T>)
    requires cap >= 1
  {
    Spans(w, a, Horizon(cap, |a|), |a| - ActiveSize(cap, |a|))
  }

  lemma ActiveCount<T>(w: Window<T>, a: seq<T>, h: nat, cut: nat)
    requires Spans(w, a, h, cut)
    ensures |w.active| == |a| - cut
  {
    assert forall i :: 0 <= i < |a[cut..]| ==> a[cut..][i] == a[h..][cut - h + i];
    ElementsCount(a[cut..]);
  }

  lemma RetainsTheRecent<T>(w: Window<T>, a: seq<T>, h: nat, cut: nat, id: T)
    requires Spans(w, a, h, cut)
    ensures Retains(w, id) <==> id in a[h..]
  {
    assert a[h..] == a[h..cut] + a[cut..];
  }

  lemma SuffixDistinct<T>(a: seq<T>, h: nat, g: nat, id: T)
    requires h <= g <= |a| && NoRepetition(a[h..]) && id !in a[h..]
    ensures NoRepetition((a + [id])[g..])
  {
    assert (a + [id])[g..] == a[g..] + [id];
    assert forall i :: 0 <= i < |a[g..]| ==> a[g..][i] == a[h..][g - h + i];
  }

  lemma RotatedStep<T>(w: Window<T>, a: seq<T>, id: T, h: nat, cut: nat)
    requires Spans(w, a, h, cut) && id !in a[h..]
    ensures Spans(Window({id}, w.active), a + [id], cut, |a|)
  {
    assert (a + [id])[|a|..] == [id];
    assert [id][0] == id;
    assert (a + [id])[cut..|a|] == a[cut..];
    SuffixDistinct(a, h, cut, id);
  }

  lemma GrownStep<T>(w: Window<T>, a: seq<T>, id: T, h: nat, cut: nat)
    requires Spans(w, a, h, cut) && id !in a[h..]
    ensures Spans(w.(active := w.active + {id}), a + [id], h, cut)
  {
    assert (a + [id])[cut..] == a[cut..] + [id];
    ElementsOfOne(a[cut..], id);
    assert (a + [id])[h..cut] == a[h..cut];
    SuffixDistinct(a, h, h, id);
  }

  lemma AcceptedStep<T>(w: Window<T>, cap: nat, a: seq<T>, id: T)
    requires cap >= 1 && TellsRecent(w, cap, a) && !Retains(w, id)
    ensures TellsRecent(Inserted(w, cap, id), cap, a + [id])
  {
    hide Elements, NoRepetition, Spans, Retains;
    var n := |a|;
    var p, h := ActiveSize(cap, n), Horizon(cap, n);
    ActiveCount(w, a, h, n - p);
    RetainsTheRecent(w, a, h, n - p, id);
    ActiveSizeSteps(cap, n);
    CutIsWhole(cap, n);
    hide ActiveSize;
    if p >= cap {
      RotatedStep(w, a, id, h, n - p);
    } else {
      GrownStep(w, a, id, h, n - p);
    }
  }

  /** The window holds exactly the identities accepted since the horizon. */
  lemma {:induction false} WindowIsRecent<T>(cap: nat, ids: seq<T>)
    requires cap >= 1
    ensures TellsRecent(After(cap, ids), cap, Accepted(cap, ids))
  {
    if ids != [] {
      var p, id := ids[..|ids| - 1], ids[|ids| - 1];
      WindowIsRecent(cap, p);
      if !Retains(After(cap, p), id) {
        AcceptedStep(After(cap, p), cap, Accepted(cap, p), id);
      }
    }
  }

  /** However long the stream, two generations are all that is kept. */
  lemma RetainedIsBounded<T>(cap: nat, ids: seq<T>)
    requires cap >= 1
    ensures |After(cap, ids).active| <= cap
    ensures |After(cap, ids).active + After(cap, ids).aged| <= 2 * cap
  {
    WindowIsRecent(cap, ids);
    hide After, Accepted;
    var a, w := Accepted(cap, ids), After(cap, ids);
    var h, cut := Horizon(cap, |a|), |a| - ActiveSize(cap, |a|);
    ActiveCount(w, a, h, cut);
    ElementsCount(a[h..]);
    forall x | x in w.active + w.aged ensures x in Elements(a[h..]) {
      RetainsTheRecent(w, a, h, cut, x);
    }
    SubsetCount(w.active + w.aged, Elements(a[h..]));
  }

  /** Where in its generation the accepted identity at index `i` landed. */
  function Slot(cap: nat, i: nat): (p: nat)
    requires cap >= 1
    ensures p < cap
  {
    ActiveSize(cap, i + 1) - 1
  }

  lemma {:induction false} CutIsWhole(cap: nat, n: nat)
    requires cap >= 1
    ensures n <= cap ==> n - ActiveSize(cap, n) == 0
    ensures n > cap ==> n - ActiveSize(cap, n) >= cap
    ensures n > 2 * cap ==> n - ActiveSize(cap, n) >= 2 * cap
    decreases n
  {
    if n > cap {
      CutIsWhole(cap, n - cap);
    }
  }

  /**
   * The exact life of an identity: accepted at index `i`, it is forgotten by the acceptance that
   * brings the number of later ones to twice the cap less the slot it took.
   */
  lemma {:induction false} KnownExactly(cap: nat, i: nat, n: nat)
    requires cap >= 1 && i < n
    ensures i >= Horizon(cap, n) <==> n - 1 - i < 2 * cap - Slot(cap, i)
    decreases n
  {
    CutIsWhole(cap, n);
    if i >= cap {
      KnownExactly(cap, i - cap, n - cap);
      CutIsWhole(cap, n - cap);
    }
  }

  /** The accepted identities equal to `id` that came late enough to be known still. */
  ghost predicate KnownAt<T>(cap: nat, a: seq<T>, id: T, j: nat)
    requires cap >= 1
  {
    j < |a| && a[j] == id && |a| - 1 - j < 2 * cap - Slot(cap, j)
  }

  ghost predicate Recognisable<T>(cap: nat, a: seq<T>, id: T)
    requires cap >= 1
  {
    exists j: nat :: KnownAt(cap, a, id, j)
  }

  lemma InSuffix<T>(a: seq<T>, h: nat, j: nat)
    requires h <= j < |a|
    ensures a[j] in a[h..]
  {
    assert a[h..][j - h] == a[j];
  }

  lemma FromSuffix<T>(a: seq<T>, h: nat, id: T) returns (j: nat)
    requires h <= |a| && id in a[h..]
    ensures h <= j < |a| && a[j] == id
  {
    var k :| 0 <= k < |a[h..]| && a[h..][k] == id;
    j := h + k;
  }

  lemma RecentIsKnown<T>(cap: nat, a: seq<T>, id: T)
    requires cap >= 1
    ensures id in a[Horizon(cap, |a|)..] <==> Recognisable(cap, a, id)
  {
    hide Slot, Horizon;
    var h := Horizon(cap, |a|);
    if id in a[h..] {
      var j := FromSuffix(a, h, id);
      KnownExactly(cap, j, |a|);
      assert KnownAt(cap, a, id, j);
    }
    if j :| KnownAt(cap, a, id, j) {
      KnownExactly(cap, j, |a|);
      InSuffix(a, h, j);
    }
  }

  /** An identity is recognised exactly when some acceptance of it is recent enough. */
  lemma RecognisedIff<T>(cap: nat, ids: seq<T>, id: T)
    requires cap >= 1
    ensures Retains(After(cap, ids), id) <==> Recognisable(cap, Accepted(cap, ids), id)
  {
    hide After, Accepted, Slot, Horizon, ActiveSize, Spans, Retains, Recognisable;
    var a := Accepted(cap, ids);
    WindowIsRecent(cap, ids);
    RetainsTheRecent(After(cap, ids), a, Horizon(cap, |a|), |a| - ActiveSize(cap, |a|), id);
    RecentIsKnown(cap, a, id);
  }

  /** A re-delivery after at most `cap` later acceptances is always recognised. */
  lemma RecognisedForOneGeneration<T>(cap: nat, ids: seq<T>, i: nat)
    requires cap >= 1 && i < |Accepted(cap, ids)| <= i + 1 + cap
    ensures Retains(After(cap, ids), Accepted(cap, ids)[i])
  {
    RecognisedIff(cap, ids, Accepted(cap, ids)[i]);
    assert KnownAt(cap, Accepted(cap, ids), Accepted(cap, ids)[i], i);
  }

  /** Once `2 * cap` further identities were accepted, none of them equal, the identity counts as new again. */
  lemma ForgottenAfterTwoGenerations<T>(cap: nat, ids: seq<T>, i: nat)
    requires cap >= 1 && i + 2 * cap < |Accepted(cap, ids)|
    requires forall j :: i < j < |Accepted(cap, ids)| ==> Accepted(cap, ids)[j] != Accepted(cap, ids)[i]
    ensures !Retains(After(cap, ids), Accepted(cap, ids)[i])
  {
    RecognisedIff(cap, ids, Accepted(cap, ids)[i]);
  }
}
