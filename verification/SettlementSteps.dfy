/** Stretches of a settlement run: what one actor's next calls do, whatever the others are at. */
module SettlementSteps {
  import opened Bytes
  import opened Intent
  import S = Settlement
  import Ledger
  import Journal

  /** The world after more events. */
  function After(c: Journal.RowHasher, h: Hasher, w: S.World, es: seq<S.Event>): S.World
    decreases |es|
  {
    if es == [] then w else After(c, h, S.Next(c, h, w, es[0]), es[1..])
  }

  /** A run carries on from where it stands. */
  lemma {:induction false} RunGoesOn(c: Journal.RowHasher, h: Hasher, es: seq<S.Event>, more: seq<S.Event>)
    ensures S.Run(c, h, es + more) == After(c, h, S.Run(c, h, es), more)
    decreases |more|
  {
    if more == [] {
      assert es + more == es;
    } else {
      var on := es + [more[0]];
      assert on[..|on| - 1] == es;
      RunGoesOn(c, h, on, more[1..]);
      assert on + more[1..] == es + more;
    }
  }

  lemma AfterOne(c: Journal.RowHasher, h: Hasher, w: S.World, e: S.Event, es: seq<S.Event>)
    ensures After(c, h, w, [e] + es) == After(c, h, S.Next(c, h, w, e), es)
    ensures After(c, h, w, []) == w
  {
    hide S.Next;
    assert ([e] + es)[1..] == es;
  }

  lemma {:induction false} AfterBoth(c: Journal.RowHasher, h: Hasher, w: S.World, es: seq<S.Event>, more: seq<S.Event>)
    ensures After(c, h, w, es + more) == After(c, h, After(c, h, w, es), more)
    decreases |es|
  {
    hide S.Next;
    if es == [] {
      assert es + more == more;
    } else {
      assert (es + more)[1..] == es[1..] + more;
      AfterBoth(c, h, S.Next(c, h, w, es[0]), es[1..], more);
    }
  }

  lemma AfterNone(c: Journal.RowHasher, h: Hasher, w: S.World)
    ensures After(c, h, w, []) == w
  {
  }

  /** Store, books and what was handed to the sender, without the program counters. */
  datatype Shared = Shared(shelf: Shelf, books: S.Books, sends: seq<S.Broadcast>)

  function SharedOf(w: S.World): Shared { Shared(w.shelf, w.books, w.broadcasts) }

  // ---- Next, one program counter at a time ----

  lemma BeginStep(c: Journal.RowHasher, h: Hasher, w: S.World, a: nat, id: Str, goal: S.Goal, at: Time)
    ensures S.Next(c, h, w, S.Event(a, at, S.Begin(id, goal)))
      == w.(locals := w.locals[a := if id in w.shelf.m then S.Decide(w.shelf.m[id], goal, at) else S.Idle])
  {
    hide S.Decide;
  }

  lemma IdleStep(c: Journal.RowHasher, h: Hasher, w: S.World, e: S.Event)
    requires e.actor in w.locals && w.locals[e.actor] == S.Idle && !e.action.Begin? && !e.action.Create?
    ensures S.Next(c, h, w, e) == w
  {
  }

  lemma SwapStep(c: Journal.RowHasher, h: Hasher, w: S.World, a: nat, at: Time)
    requires a in w.locals && (w.locals[a].Claiming? || w.locals[a].Saving?)
    ensures var l := w.locals[a];
      S.Next(c, h, w, S.Event(a, at, S.Go)) ==
        if l.Claiming? then S.Swap(h, w, a, l.it, Request(Settling, Relayer, [], [], at), true) else S.Swap(h, w, a, l.it, l.req, false)
  {
    hide S.Swap;
  }

  lemma HoldStep(c: Journal.RowHasher, h: Hasher, w: S.World, a: nat, at: Time)
    requires a in w.locals && w.locals[a].Holding?
    ensures var it := w.locals[a].it; S.Next(c, h, w, S.Event(a, at, S.Go)) == S.Book(c, w, a, S.HoldEntry(it), S.Sending(it))
  {
    hide S.Book, S.HoldEntry;
  }

  lemma VoidStep(c: Journal.RowHasher, h: Hasher, w: S.World, a: nat, at: Time)
    requires a in w.locals && w.locals[a].Voiding?
    ensures var l, r := w.locals[a], Journal.AppendTo(c, w.books, S.VoidEntry(w.locals[a].it));
      var fail := S.Saving(l.it, Request(Failed, Relayer, [], l.reason, at));
      S.Next(c, h, w, S.Event(a, at, S.Go)) ==
        if r.Ok? then w.(books := r.value.journal, locals := w.locals[a := fail])
        else if r.error == Ledger.NoSuchHold || r.error == Ledger.AlreadyResolved then w.(locals := w.locals[a := fail])
        else w.(locals := w.locals[a := S.Idle])
  {
    hide Journal.AppendTo, S.VoidEntry;
  }

  lemma RescueStep(c: Journal.RowHasher, h: Hasher, w: S.World, a: nat, at: Time, plan: S.Plan)
    requires a in w.locals && w.locals[a].Rescuing?
    ensures S.Next(c, h, w, S.Event(a, at, S.GoRescue(plan))) == S.Rescue(w, a, w.locals[a].it, plan, at)
  {
    hide S.Rescue;
  }

  lemma SendStep(c: Journal.RowHasher, h: Hasher, w: S.World, a: nat, at: Time, out: S.Outcome)
    requires a in w.locals && w.locals[a].Sending?
    ensures var it, w' := w.locals[a].it, S.Next(c, h, w, S.Event(a, at, S.GoSend(out)));
      w' == w.(broadcasts := w.broadcasts + [S.Sent(it.id)], locals := w.locals[a := if out.Accepted? then S.Saving(it, S.Confirmed(out.txHash, at)) else S.Idle])
  {
  }

  lemma {:induction false} IdleForever(c: Journal.RowHasher, h: Hasher, w: S.World, a: nat, es: seq<S.Event>)
    requires a in w.locals && w.locals[a] == S.Idle
    requires forall i :: 0 <= i < |es| ==> es[i].actor == a && !es[i].action.Begin? && !es[i].action.Create?
    ensures After(c, h, w, es) == w
    decreases |es|
  {
    hide S.Next;
    if es != [] {
      IdleStep(c, h, w, es[0]);
      IdleForever(c, h, w, a, es[1..]);
    }
  }

  lemma AfterTwo(c: Journal.RowHasher, h: Hasher, w0: S.World, e1: S.Event, w1: S.World, e2: S.Event, w2: S.World)
    requires S.Next(c, h, w0, e1) == w1 && S.Next(c, h, w1, e2) == w2
    ensures After(c, h, w0, [e1, e2]) == w2
  {
    hide S.Next, After;
    AfterOne(c, h, w0, e1, [e2]);
    AfterOne(c, h, w1, e2, []);
    AfterOne(c, h, w2, e2, []);
    assert [e1] + [e2] == [e1, e2] && [e2] + [] == [e2];
  }
}
