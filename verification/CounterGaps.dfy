/** The counter skips no number: what was passed landed, is the gap, or is still out. */
module CounterGaps {
  import opened Bytes
  import opened Counter

  /** A transaction under this number was sent for certain. */
  ghost predicate Landed(log: seq<Event>, v: nat) {
    exists i :: 0 <= i < |log| && log[i].Settled? && log[i].value == v && log[i].sent == Yes
  }

  /** Where the last alignment that went through put the counter. */
  function Floor(log: seq<Event>): nat {
    if log == [] then 0
    else if log[|log| - 1].Aligned? then log[|log| - 1].next
    else Floor(log[..|log| - 1])
  }

  /** Who holds a number holds the gap's to fill it, or the one just below the next. */
  ghost predicate Holding(w: World) {
    forall c :: c in w.held ==>
      if w.held[c].1 then w.a.gap == Some(w.held[c].0) else w.a.gap.None? && w.held[c].0 + 1 == w.a.next
  }

  ghost predicate Accounted(w: World, v: nat) {
    Landed(w.log, v) || w.a.gap == Some(v) || w.a.out == Some(v)
  }

  ghost predicate NoneMissing(w: World) {
    forall v: nat :: Floor(w.log) <= v < w.a.next ==> Accounted(w, v)
  }

  lemma LogGrows(log: seq<Event>, e: Event)
    ensures Floor(log + [e]) == if e.Aligned? then e.next else Floor(log)
    ensures forall v: nat :: Landed(log + [e], v) <==> Landed(log, v) || (e.Settled? && e.value == v && e.sent == Yes)
  {
    var all := log + [e];
    assert all[..|log|] == log;
    forall v: nat ensures Landed(all, v) <==> Landed(log, v) || (e.Settled? && e.value == v && e.sent == Yes) {
      assert all[|log|] == e;
      if i :| 0 <= i < |log| && log[i].Settled? && log[i].value == v && log[i].sent == Yes {
        assert all[i] == log[i];
      }
    }
  }

  lemma OneStays(w: World, s: Step)
    requires AtMostOne(w)
    ensures AtMostOne(Next(w, s))
  {
    var after := Next(w, s);
    match s {
      case TakeToken(c) =>
      case Lock(c, fill) =>
        if c in w.inside {
          assert w.held == map[] && w.inside - {c} == {};
          var (a, v) := if fill then GapReserved(w.a) else Reserved(w.a);
          if v.Ok? {
            assert c in after.held;
          }
        }
      case Finish(c, sent) =>
        if c in w.held {
          assert after.held.Keys == {};
        }
      case Align(n) =>
        AlignedIsOne(w, after);
    }
  }

  lemma LockMissesNone(w: World, c: nat, fill: bool)
    requires AtMostOne(w) && Holding(w) && NoneMissing(w) && c in w.inside
    ensures Holding(Next(w, Lock(c, fill))) && NoneMissing(Next(w, Lock(c, fill)))
  {
    assert w.held == map[] && w.a.out.None?;
    var (a, v) := if fill then GapReserved(w.a) else Reserved(w.a);
    if v.Ok? {
      LogGrows(w.log, Given(v.value, fill));
    }
    hide Landed, Floor;
    var after := Next(w, Lock(c, fill));
    forall u: nat | Floor(after.log) <= u < after.a.next ensures Accounted(after, u) {
      assert u < w.a.next ==> Accounted(w, u);
    }
  }

  lemma FinishMissesNone(w: World, c: nat, sent: Sent)
    requires AtMostOne(w) && Holding(w) && NoneMissing(w) && c in w.held
    ensures Holding(Next(w, Finish(c, sent))) && NoneMissing(Next(w, Finish(c, sent)))
  {
    var (v, fill) := w.held[c];
    var after := Next(w, Finish(c, sent));
    LogGrows(w.log, Settled(v, fill, sent));
    FinishIs(w, c, sent);
    hide Landed, Floor, AtMostOne, Next, Resolved;
    forall u: nat | Floor(after.log) <= u < after.a.next ensures Accounted(after, u) {
      assert Accounted(w, u);
    }
  }

  /** What the end of a send leaves of the account. */
  lemma FinishIs(w: World, c: nat, sent: Sent)
    requires AtMostOne(w) && Holding(w) && c in w.held
    ensures var (v, fill), after := w.held[c], Next(w, Finish(c, sent));
      && after.held == map[] && after.a.out.None? && after.log == w.log + [Settled(v, fill, sent)] && w.a.out == Some(v)
      && after.a.next == (if !fill && sent == No then v else w.a.next)
      && after.a.gap == (if fill then if sent == Yes then None else w.a.gap else if sent == Unknown then Some(v) else w.a.gap)
      && (if fill then w.a.gap == Some(v) else w.a.gap.None? && v + 1 == w.a.next)
  {
    assert Next(w, Finish(c, sent)).held.Keys == {};
  }

  lemma StepMissesNone(w: World, s: Step)
    requires AtMostOne(w) && Holding(w) && NoneMissing(w)
    ensures Holding(Next(w, s)) && NoneMissing(Next(w, s))
  {
    match s {
      case Lock(c, fill) => if c in w.inside { LockMissesNone(w, c, fill); }
      case Finish(c, sent) => if c in w.held { FinishMissesNone(w, c, sent); }
      case Align(n) => if w.a.out.None? { LogGrows(w.log, Aligned(n)); }
      case TakeToken(_) => assert forall v: nat :: Accounted(w, v) ==> Accounted(Next(w, s), v);
    }
  }

  /** Over every interleaving of any number of callers, and whatever the alignments: every number from the
      last alignment on that the counter has passed was sent under, is the gap that waits to be filled, or
      is in somebody's hands. So with no gap and nobody at work, the chain has seen every one of them. */
  lemma {:induction false} NoneIsSkipped(steps: seq<Step>)
    ensures AtMostOne(Run(steps)) && Holding(Run(steps)) && NoneMissing(Run(steps))
  {
    if steps != [] {
      var before := steps[..|steps| - 1];
      NoneIsSkipped(before);
      hide AtMostOne, Holding, NoneMissing;
      OneStays(Run(before), steps[|steps| - 1]);
      StepMissesNone(Run(before), steps[|steps| - 1]);
    }
  }

  lemma NothingMissing(steps: seq<Step>, v: nat)
    requires Run(steps).a.gap.None? && Run(steps).a.out.None? && Floor(Run(steps).log) <= v < Run(steps).a.next
    ensures Landed(Run(steps).log, v)
  {
    NoneIsSkipped(steps);
    hide RunFrom, Landed, Floor;
    assert Accounted(Run(steps), v);
  }
}
