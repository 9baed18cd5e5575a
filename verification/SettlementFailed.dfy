/** What becomes of the hold of a payment that ended: when it can still be left pending. */
module SettlementFailed {
  import opened Bytes
  import opened Intent
  import opened Settlement
  import opened SettlementInvariant
  import opened SettlementSafety
  import Ledger
  import Journal
  import Steps = SettlementSteps

  predicate Booked(j: Books, id: Str) {
    exists i :: 0 <= i < |j| && j[i].entry.id == id + HOLD
  }

  /** On the books and resolved by nothing. */
  predicate LeftPending(j: Books, id: Str) {
    Booked(j, id) && !Journal.Resolved(j, id + HOLD)
  }

  /** Actor a won the claim and is about to book the payment's hold. */
  predicate AboutToHold(w: World, a: nat, id: Str) {
    a in w.locals && w.locals[a].Holding? && w.locals[a].it.id == id && Ledger.EntryError(HoldEntry(w.locals[a].it)) == None
  }

  ghost predicate SomeoneAboutToHold(w: World, id: Str) {
    exists a :: AboutToHold(w, a, id)
  }

  // ---- what one step does to holds ----

  /** A row under a payment's hold id is that payment's hold. */
  lemma RowIsTheHold(m: map<Str, Intent>, j: Books, p: nat, id: Str)
    requires p < |j| && BooksOk(m, j) && (forall x :: x in m ==> m[x].id == x) && j[p].entry.id == id + HOLD
    ensures id in m && Strip(j[p].entry) == Strip(HoldEntry(m[id])) && j[p].entry.kind == Ledger.Hold
  {
    Suffixes();
    assert Belongs(m, j[p].entry);
    var x :| x in m && EntryOf(m[x], j[p].entry);
    DifferentSuffix(x, id, POST, HOLD);
    DifferentSuffix(x, id, VOID, HOLD);
    SameSuffix(x, id, HOLD);
  }

  lemma BookedStays(j: Books, k: Books, id: Str)
    requires j <= k
    ensures Booked(j, id) ==> Booked(k, id)
    ensures Journal.Resolved(j, id + HOLD) ==> Journal.Resolved(k, id + HOLD)
  {
    if Booked(j, id) {
      var i :| 0 <= i < |j| && j[i].entry.id == id + HOLD;
      assert k[i].entry.id == id + HOLD;
    }
    if Journal.Resolved(j, id + HOLD) {
      var i :| 0 <= i < |j| && Journal.Resolves(j[i], id + HOLD);
      assert Journal.Resolves(k[i], id + HOLD);
    }
  }

  /** Books only grow, and a payment's hold appears only by its claimant's hand. */
  lemma BookingHolds(c: Journal.RowHasher, w: World, a: nat, e: Ledger.Entry, then_: Local, id: Str)
    requires Journal.WellFormed(c, w.books)
    ensures w.books <= Book(c, w, a, e, then_).books
    ensures Booked(Book(c, w, a, e, then_).books, id) && !Booked(w.books, id) ==> e.id == id + HOLD && Ledger.EntryError(e) == None
  {
    var r := Journal.AppendTo(c, w.books, e);
    if r.Ok? {
      Journal.AppendKeepsWellFormed(c, w.books, e);
      hide Journal.WellFormed;
      OneMoreRow(w.books, r.value.row, id);
    }
  }

  lemma OneMoreRow(j: Books, r: Journal.Row, id: Str)
    ensures Booked(j + [r], id) <==> Booked(j, id) || r.entry.id == id + HOLD
  {
    var k := j + [r];
    assert k[|j|] == r;
    if Booked(j, id) {
      BookedStays(j, k, id);
    }
  }

  lemma ContinueHolds(c: Journal.RowHasher, h: Hasher, w: World, a: nat, at: Time, act: Action, id: Str)
    requires Journal.WellFormed(c, w.books) && a in w.locals
    ensures var v := Continue(c, h, w, a, w.locals[a], at, act);
      w.books <= v.books && (Booked(v.books, id) && !Booked(w.books, id) ==> AboutToHold(w, a, id))
  {
    hide Journal.WellFormed, Journal.AppendTo, Book, Swap, Rescue, Booked;
    var l := w.locals[a];
    Suffixes();
    match l {
      case Holding(it) =>
        BookingHolds(c, w, a, HoldEntry(it), Sending(it), id);
        if it.id + HOLD == id + HOLD { SameSuffix(it.id, id, HOLD); }
      case Posting(it) =>
        BookingHolds(c, w, a, PostEntry(it, it.amount), Saving(it, Request(Settled, Listener, it.txHash, [], at)), id);
        DifferentSuffix(it.id, id, POST, HOLD);
      case Voiding(it, why) =>
        BookingHolds(c, w, a, VoidEntry(it), Saving(it, Request(Failed, Relayer, [], why, at)), id);
        DifferentSuffix(it.id, id, VOID, HOLD);
      case Rescuing(it) => if act.GoRescue? { RescueSparesBooks(w, a, it, act.plan, at); }
      case Claiming(it) => SwapSparesBooks(h, w, a, it, Request(Settling, Relayer, [], [], at), true);
      case Saving(it, req) => SwapSparesBooks(h, w, a, it, req, false);
      case _ =>
    }
  }

  lemma RescueSparesBooks(w: World, a: nat, it: Intent, plan: Plan, at: Time)
    ensures Rescue(w, a, it, plan, at).books == w.books
  {
  }

  lemma SwapSparesBooks(h: Hasher, w: World, a: nat, it: Intent, req: Request, claim: bool)
    ensures Swap(h, w, a, it, req, claim).books == w.books
  {
  }

  lemma NextHolds(c: Journal.RowHasher, h: Hasher, w: World, e: Event, id: Str)
    requires Inv(c, w)
    ensures var v := Next(c, h, w, e);
      w.books <= v.books && (Booked(v.books, id) && !Booked(w.books, id) ==> AboutToHold(w, e.actor, id))
  {
    hide Continue, Booked, AboutToHold, Journal.WellFormed, ShelfOk, LocalsOk, BooksOk, ClaimsOk, UntouchedOk, Decide;
    if !e.action.Create? && !e.action.Begin? && e.actor in w.locals {
      ContinueHolds(c, h, w, e.actor, e.at, e.action, id);
    }
  }

  /** Of one actor's calls, only a won claim leads to booking a hold. */
  lemma ContinueMoves(c: Journal.RowHasher, h: Hasher, w: World, a: nat, at: Time, act: Action)
    requires a in w.locals && !w.locals[a].Claiming?
    ensures var v := Continue(c, h, w, a, w.locals[a], at, act);
      v.locals.Keys == w.locals.Keys && (forall b :: b in w.locals && b != a ==> v.locals[b] == w.locals[b])
      && (v.locals[a].Holding? ==> v.locals[a] == w.locals[a])
  {
    hide Journal.AppendTo, HoldEntry, PostEntry, VoidEntry, CompareAndSwap;
  }

  lemma SwapHolds(h: Hasher, w: World, a: nat, it: Intent, req: Request)
    requires a in w.locals
    ensures var v, r := Swap(h, w, a, it, req, true), CompareAndSwap(h, w.shelf, it, req);
      v.locals.Keys == w.locals.Keys && (forall b :: b in w.locals && b != a ==> v.locals[b] == w.locals[b])
      && (v.locals[a].Holding? ==> r.Some? && v.locals[a].it == r.value.1)
  {
    hide CompareAndSwap;
  }

  lemma DecideHoldsNothing(w: World, e: Event)
    requires e.action.Begin? && e.action.id in w.shelf.m
    ensures !Decide(w.shelf.m[e.action.id], e.action.goal, e.at).Holding?
  {
  }

  lemma ClaimFails(c: Journal.RowHasher, h: Hasher, w: World, a: nat, at: Time, id: Str)
    requires Inv(c, w) && id in w.shelf.m && w.shelf.m[id].state.Terminal() && a in w.locals && w.locals[a].Claiming?
    ensures var l := w.locals[a]; var r := CompareAndSwap(h, w.shelf, l.it, Request(Settling, Relayer, [], [], at));
      r.Some? ==> r.value.1.id != id
  {
    hide Journal.WellFormed, ShelfOk, BooksOk, ClaimsOk, UntouchedOk, CompareAndSwap;
    var l := w.locals[a];
    var req := Request(Settling, Relayer, [], [], at);
    assert Knows(w.shelf.m, w.books, l);
    if CompareAndSwap(h, w.shelf, l.it, req).Some? {
      SwapMoves(h, w.shelf, l.it, req);
    }
  }

  /** Nobody wins the claim on a payment that ended. */
  lemma NoNewHolder(c: Journal.RowHasher, h: Hasher, w: World, e: Event, a: nat, id: Str)
    requires Inv(c, w) && id in w.shelf.m && w.shelf.m[id].state.Terminal()
    requires AboutToHold(Next(c, h, w, e), a, id)
    ensures AboutToHold(w, a, id)
  {
    hide Inv, Continue, HoldEntry, CompareAndSwap, Decide, Swap;
    match e.action {
      case Create(_) =>
      case Begin(_, _) =>
        if e.action.id in w.shelf.m { DecideHoldsNothing(w, e); }
      case _ =>
        if e.actor in w.locals {
          if w.locals[e.actor].Claiming? {
            ClaimFails(c, h, w, e.actor, e.at, id);
            ClaimIsSwap(c, h, w, e);
            SwapHolds(h, w, e.actor, w.locals[e.actor].it, Request(Settling, Relayer, [], [], e.at));
          } else {
            ContinueMoves(c, h, w, e.actor, e.at, e.action);
          }
        }
    }
  }

  lemma ClaimIsSwap(c: Journal.RowHasher, h: Hasher, w: World, e: Event)
    requires !e.action.Create? && !e.action.Begin? && e.actor in w.locals && w.locals[e.actor].Claiming?
    ensures Next(c, h, w, e) == Swap(h, w, e.actor, w.locals[e.actor].it, Request(Settling, Relayer, [], [], e.at), true)
  {
    hide Swap;
  }

  // ---- when a payment that ended can be left with a pending hold ----

  /** It ended, its hold is not pending, and if there is none yet nobody is about to book one. */
  ghost predicate Closed(w: World, id: Str) {
    && id in w.shelf.m && w.shelf.m[id].state.Terminal() && !LeftPending(w.books, id)
    && (Booked(w.books, id) || !SomeoneAboutToHold(w, id))
  }

  lemma NextStaysClosed(c: Journal.RowHasher, h: Hasher, w: World, e: Event, id: Str)
    requires Inv(c, w) && Closed(w, id)
    ensures Closed(Next(c, h, w, e), id)
  {
    hide Inv, Next, Booked, AboutToHold, Journal.Resolved;
    var v := Next(c, h, w, e);
    TerminalStays(c, h, w, e, id);
    NextHolds(c, h, w, e, id);
    BookedStays(w.books, v.books, id);
    if !Booked(v.books, id) && SomeoneAboutToHold(v, id) {
      var a :| AboutToHold(v, a, id);
      NoNewHolder(c, h, w, e, a, id);
    }
  }

  lemma OneMore(c: Journal.RowHasher, h: Hasher, es: seq<Event>, e: Event)
    ensures Run(c, h, es + [e]) == Next(c, h, Run(c, h, es), e)
  {
    assert (es + [e])[..|es|] == es;
    hide Next;
  }

  lemma {:induction false} StaysClosed(c: Journal.RowHasher, h: Hasher, es: seq<Event>, more: seq<Event>, id: Str)
    requires Closed(Run(c, h, es), id)
    ensures Closed(Run(c, h, es + more), id)
  {
    hide Run, Inv, Closed, Next;
    if more == [] {
      assert es + more == es;
    } else {
      var front, e := more[..|more| - 1], more[|more| - 1];
      StaysClosed(c, h, es, front, id);
      assert es + more == es + front + [e];
      OneMore(c, h, es + front, e);
      RunKeeps(c, h, es + front);
      NextStaysClosed(c, h, Run(c, h, es + front), e, id);
    }
  }

  /** A resolved hold is on the books, by the journal's own rule. */
  lemma ResolvedIsBooked(c: Journal.RowHasher, j: Books, id: Str)
    requires Journal.WellFormed(c, j) && Journal.Resolved(j, id + HOLD)
    ensures Booked(j, id)
  {
    var i :| 0 <= i < |j| && Journal.Resolves(j[i], id + HOLD);
    hide Journal.Chained, Journal.AllValid, Journal.UniqueIds, Journal.ResolvedOnce;
    var k :| 0 <= k < i && Journal.HoldsRow(j, i, k);
    assert j[k].entry.id == id + HOLD;
  }

  lemma HoldIsBooked(c: Journal.RowHasher, h: Hasher, w: World, a: nat, at: Time, id: Str)
    requires Inv(c, w) && AboutToHold(w, a, id) && !Booked(w.books, id)
    ensures LeftPending(Next(c, h, w, Event(a, at, Go)).books, id)
  {
    hide ShelfOk, LocalsOk, BooksOk, ClaimsOk, UntouchedOk;
    var e := HoldEntry(w.locals[a].it);
    var r := Journal.AppendTo(c, w.books, e);
    assert r.Ok? && r.value.journal == w.books + [r.value.row] && r.value.row.entry == e;
    var j := r.value.journal;
    assert j[|w.books|].entry.id == id + HOLD;
    Journal.ResolvedExtends(w.books, r.value.row, id + HOLD);
    if Journal.Resolved(w.books, id + HOLD) {
      ResolvedIsBooked(c, w.books, id);
    }
  }

  /** From every reached world in which a payment has ended: no continuation leaves it with a pending
      hold exactly when it has none now and, unless its hold is already on the books, nobody who won
      the claim is still about to book it. */
  lemma EndedHolds(c: Journal.RowHasher, h: Hasher, es: seq<Event>, id: Str)
    requires id in Run(c, h, es).shelf.m && Run(c, h, es).shelf.m[id].state.Terminal()
    ensures (forall more: seq<Event> :: !LeftPending(Run(c, h, es + more).books, id)) <==> Closed(Run(c, h, es), id)
  {
    var w := Run(c, h, es);
    RunKeeps(c, h, es);
    hide Run, Inv, Next, LeftPending, Booked, AboutToHold;
    if Closed(w, id) {
      forall more: seq<Event> ensures !LeftPending(Run(c, h, es + more).books, id) {
        StaysClosed(c, h, es, more, id);
      }
    } else if LeftPending(w.books, id) {
      assert es + [] == es;
    } else {
      var a :| AboutToHold(w, a, id);
      HoldIsBooked(c, h, w, a, 0, id);
      OneMore(c, h, es, Event(a, 0, Go));
      assert LeftPending(Run(c, h, es + [Event(a, 0, Go)]).books, id);
    }
  }

  // ---- voiding first, failing second ----

  /** A void that goes through, or is a replay, finds the hold on the books and leaves it resolved. */
  lemma VoidWritten(c: Journal.RowHasher, j: Books, it: Intent)
    requires Journal.WellFormed(c, j) && Journal.AppendTo(c, j, VoidEntry(it)).Ok?
    ensures var k := Journal.AppendTo(c, j, VoidEntry(it)).value.journal;
      j <= k && Booked(j, it.id) && Booked(k, it.id) && Journal.Resolved(k, it.id + HOLD)
  {
    var e := VoidEntry(it);
    var r := Journal.AppendTo(c, j, e).value;
    Journal.AppendKeepsWellFormed(c, j, e);
    hide Journal.WellFormed, Journal.AppendTo;
    var k := r.journal;
    var i :| 0 <= i < |k| && k[i] == r.row;
    assert Journal.Resolves(k[i], it.id + HOLD);
    ResolvedIsBooked(c, k, it.id);
    Suffixes();
    DifferentSuffix(it.id, it.id, VOID, HOLD);
    OneMoreRow(j, r.row, it.id);
  }

  lemma VoidRefused(c: Journal.RowHasher, j: Books, it: Intent)
    requires Journal.AppendTo(c, j, VoidEntry(it)).Err?
    ensures Journal.AppendTo(c, j, VoidEntry(it)).error == Ledger.AlreadyResolved ==> Journal.Resolved(j, it.id + HOLD)
    ensures Journal.AppendTo(c, j, VoidEntry(it)).error == Ledger.NoSuchHold ==>
      var target := Journal.Find(j, it.id + HOLD); target.None? || !Journal.HoldFits(j[target.value].entry, VoidEntry(it))
  {
    hide Journal.Find, Journal.Resolved;
  }

  /** A hold under this payment's id always fits its void. */
  lemma NoSuchHoldIsNone(c: Journal.RowHasher, w: World, it: Intent)
    requires Inv(c, w) && Copy(w.shelf.m, it)
    requires var target := Journal.Find(w.books, it.id + HOLD); target.None? || !Journal.HoldFits(w.books[target.value].entry, VoidEntry(it))
    ensures !Booked(w.books, it.id)
  {
    hide Journal.WellFormed, LocalsOk, ClaimsOk, UntouchedOk, Sound, BooksOk, PostedFor;
    var target := Journal.Find(w.books, it.id + HOLD);
    if target.Some? {
      RowIsTheHold(w.shelf.m, w.books, target.value, it.id);
    }
  }

  /** The void before a failure leaves the hold resolved, exactly when the hold is on the books. */
  lemma VoidFrees(c: Journal.RowHasher, h: Hasher, w: World, a: nat, at: Time)
    requires Inv(c, w) && a in w.locals && w.locals[a].Voiding?
    ensures var it, v := w.locals[a].it, Next(c, h, w, Event(a, at, Go));
      && (Booked(v.books, it.id) <==> Booked(w.books, it.id))
      && (v.locals[a].Saving? ==> (Journal.Resolved(v.books, it.id + HOLD) <==> Booked(w.books, it.id)))
  {
    var it := w.locals[a].it;
    assert Knows(w.shelf.m, w.books, w.locals[a]);
    Steps.VoidStep(c, h, w, a, at);
    var r := Journal.AppendTo(c, w.books, VoidEntry(it));
    if r.Ok? {
      VoidWritten(c, w.books, it);
    } else {
      VoidRefused(c, w.books, it);
      if r.error == Ledger.NoSuchHold {
        NoSuchHoldIsNone(c, w, it);
      }
    }
    if Journal.Resolved(w.books, it.id + HOLD) {
      ResolvedIsBooked(c, w.books, it.id);
    }
    hide Inv, Journal.AppendTo, VoidEntry, Journal.Resolved, Booked, Knows, Next;
  }

  lemma {:induction false} BooksGrow(c: Journal.RowHasher, h: Hasher, es: seq<Event>, more: seq<Event>)
    ensures Run(c, h, es).books <= Run(c, h, es + more).books
  {
    if more == [] {
      assert es + more == es;
    } else {
      var front, e := more[..|more| - 1], more[|more| - 1];
      hide *;
      BooksGrow(c, h, es, front);
      OneMore(c, h, es + front, e);
      assert es + front + [e] == es + more;
      RunKeeps(c, h, es + front);
      NextHolds(c, h, Run(c, h, es + front), e, []);
    }
  }

  ghost predicate ResolvedExactlyOnce(j: Books, hold: Str) {
    exists i :: 0 <= i < |j| && Journal.Resolves(j[i], hold) && forall k :: 0 <= k < |j| && Journal.Resolves(j[k], hold) ==> k == i
  }

  /** A relayer that goes on to fail a payment whose hold was on the books when it asked for the void
      has that hold resolved, once, for good. */
  lemma FailedHoldIsFreed(c: Journal.RowHasher, h: Hasher, es: seq<Event>, a: nat, at: Time, more: seq<Event>)
    requires a in Run(c, h, es).locals && Run(c, h, es).locals[a].Voiding? && Booked(Run(c, h, es).books, Run(c, h, es).locals[a].it.id)
    requires Run(c, h, es + [Event(a, at, Go)]).locals[a].Saving?
    ensures ResolvedExactlyOnce(Run(c, h, es + [Event(a, at, Go)] + more).books, Run(c, h, es).locals[a].it.id + HOLD)
  {
    var on := es + [Event(a, at, Go)];
    var hold := Run(c, h, es).locals[a].it.id + HOLD;
    RunKeeps(c, h, es);
    RunKeeps(c, h, on + more);
    OneMore(c, h, es, Event(a, at, Go));
    VoidFrees(c, h, Run(c, h, es), a, at);
    BooksGrow(c, h, on, more);
    BookedStays(Run(c, h, on).books, Run(c, h, on + more).books, Run(c, h, es).locals[a].it.id);
    var j := Run(c, h, on + more).books;
    hide Run, Next, Booked, ShelfOk, LocalsOk, BooksOk, ClaimsOk, UntouchedOk, Journal.Chained, Journal.AllValid, Journal.UniqueIds, Journal.BehindHold;
    var i :| 0 <= i < |j| && Journal.Resolves(j[i], hold);
    OnlyResolver(j, i, hold);
  }
}
