/** Safety of the settlement protocol over every interleaving. */
module SettlementSafety {
  import opened Bytes
  import opened Intent
  import opened Settlement
  import opened SettlementInvariant
  import Ledger
  import Journal

  // ---- every kind of step keeps the invariant ----

  lemma OpenKeeps(c: Journal.RowHasher, h: Hasher, w: World, spec: Spec, at: Time)
    requires Inv(c, w)
    ensures Inv(c, Opened(h, w, spec, at))
  {
    var r := New(h, spec, at);
    if r.Ok? && Saved(h, w.shelf, r.value, 0).Ok? {
      NewIsSound(h, spec, at);
      var it, m := r.value, w.shelf.m;
      var m' := m[it.id := it];
      VersionsArePositive(m, w.books);
      assert it.id !in m;
      hide Journal.WellFormed, ClaimsOk, Sound, PostedFor, New, Knows, BooksOk, Copy;
      forall l: Local | Knows(m, w.books, l) ensures Knows(m', w.books, l) {
        KnowsBeside(m, w.books, it, l);
      }
      BooksBeside(m, w.books, it);
    }
  }

  lemma VersionsArePositive(m: map<Str, Intent>, j: Books)
    requires ShelfOk(m, j)
    ensures forall id :: id in m ==> m[id].version >= 1
  {
  }

  lemma KnowsBeside(m: map<Str, Intent>, j: Books, it: Intent, l: Local)
    requires it.id !in m && Knows(m, j, l)
    ensures Knows(m[it.id := it], j, l)
  {
    hide Sound, OnBooks, HoldEntry, PostEntry;
  }

  lemma BooksBeside(m: map<Str, Intent>, j: Books, it: Intent)
    requires it.id !in m && BooksOk(m, j)
    ensures BooksOk(m[it.id := it], j)
  {
    hide EntryOf;
    forall i | 0 <= i < |j| ensures Belongs(m[it.id := it], j[i].entry) {
      assert Belongs(m, j[i].entry);
      var id :| id in m && EntryOf(m[id], j[i].entry);
      assert EntryOf(m[it.id := it][id], j[i].entry);
    }
  }

  lemma BeginKeeps(c: Journal.RowHasher, w: World, a: nat, id: Str, goal: Goal, at: Time)
    requires Inv(c, w)
    ensures Inv(c, w.(locals := w.locals[a := if id in w.shelf.m then Decide(w.shelf.m[id], goal, at) else Idle]))
  {
    IdleKnows(w.shelf.m, w.books);
    if id in w.shelf.m {
      var it := w.shelf.m[id];
      ReadIsCopy(w.shelf.m, w.books, id);
      DecideKnows(w.shelf.m, w.books, it, goal, at);
      hide Inv, Decide, Knows;
      MoveKeeps(c, w, a, Decide(it, goal, at));
    } else {
      hide Inv, Decide, Knows;
      MoveKeeps(c, w, a, Idle);
    }
  }

  lemma ReadIsCopy(m: map<Str, Intent>, j: Books, id: Str)
    requires ShelfOk(m, j) && id in m
    ensures Copy(m, m[id])
  {
    hide Sound, PostedFor;
  }

  lemma DecideKnows(m: map<Str, Intent>, j: Books, it: Intent, goal: Goal, at: Time)
    requires Copy(m, it)
    ensures Knows(m, j, Decide(it, goal, at)) && forall id :: !Claims(Decide(it, goal, at), id)
  {
    hide Copy, OnBooks, HoldEntry, PostEntry;
  }

  lemma SwapStepKeeps(c: Journal.RowHasher, h: Hasher, w: World, a: nat, it: Intent, req: Request)
    requires Inv(c, w) && Knows(w.shelf.m, w.books, Saving(it, req))
    ensures Inv(c, Swap(h, w, a, it, req, false))
  {
    hide Inv, CompareAndSwap;
    var r := CompareAndSwap(h, w.shelf, it, req);
    if r.None? {
      MoveKeeps(c, w, a, Idle);
    } else {
      SwapKeeps(c, h, w, it, req);
      MoveKeeps(c, w.(shelf := r.value.0), a, Idle);
    }
  }

  /** Winning the claim: until that moment nobody had it and nothing was sent. */
  lemma ClaimKeeps(c: Journal.RowHasher, h: Hasher, w: World, a: nat, it: Intent, at: Time)
    requires Inv(c, w) && Knows(w.shelf.m, w.books, Claiming(it))
    ensures Inv(c, Swap(h, w, a, it, Request(Settling, Relayer, [], [], at), true))
  {
    var req := Request(Settling, Relayer, [], [], at);
    var r := CompareAndSwap(h, w.shelf, it, req);
    if r.None? {
      hide CompareAndSwap;
      MoveKeeps(c, w, a, Idle);
    } else {
      SwapKeeps(c, h, w, it, req);
      SwapMoves(h, w.shelf, it, req);
      hide CompareAndSwap, Inv, Copy, Sound, Applied;
      UnclaimedIsFree(c, w, it);
      FreeClaimKeeps(c, w.(shelf := r.value.0), a, r.value.1);
    }
  }

  /** Nobody carries the claim on this payment, and it was never sent. */
  ghost predicate Free(w: World, id: Str) {
    (forall b :: b in w.locals ==> !Claims(w.locals[b], id)) && Sent(id) !in w.broadcasts
  }

  lemma UnclaimedIsFree(c: Journal.RowHasher, w: World, it: Intent)
    requires Inv(c, w) && it.id in w.shelf.m && w.shelf.m[it.id].state == Authorized
    ensures Free(w, it.id)
  {
    hide Journal.WellFormed, ShelfOk, LocalsOk, BooksOk, ClaimsOk, Claims;
  }

  lemma FreeClaimKeeps(c: Journal.RowHasher, w: World, a: nat, it: Intent)
    requires Inv(c, w) && Free(w, it.id) && Copy(w.shelf.m, it) && it.state == Settling
    ensures Inv(c, w.(locals := w.locals[a := Holding(it)]))
  {
    hide Journal.WellFormed, ShelfOk, BooksOk, Sound;
    assert forall id :: Claims(Holding(it), id) <==> id == it.id;
  }

  lemma BookStepKeeps(c: Journal.RowHasher, w: World, a: nat, it: Intent, e: Ledger.Entry, l: Local)
    requires Inv(c, w) && Copy(w.shelf.m, it) && EntryOf(it, e)
    requires forall j: Books :: OnBooks(j, e) ==> Knows(w.shelf.m, j, l)
    requires forall id :: Claims(l, id) ==> a in w.locals && Claims(w.locals[a], id)
    ensures Inv(c, Book(c, w, a, e, l))
  {
    hide Inv, Journal.AppendTo, Knows, EntryOf;
    var r := Journal.AppendTo(c, w.books, e);
    if r.Err? {
      MoveKeeps(c, w, a, Idle) by {
        IdleKnows(w.shelf.m, w.books);
      }
    } else {
      AppendKeeps(c, w, it, e);
      MoveKeeps(c, w.(books := r.value.journal), a, l);
    }
  }

  lemma IdleKnows(m: map<Str, Intent>, j: Books)
    ensures Knows(m, j, Idle)
  {
  }

  lemma SendKeeps(c: Journal.RowHasher, w: World, a: nat, it: Intent, l: Local)
    requires Inv(c, w) && a in w.locals && w.locals[a] == Sending(it)
    requires Knows(w.shelf.m, w.books, l) && forall id :: !Claims(l, id)
    ensures Inv(c, w.(broadcasts := w.broadcasts + [Sent(it.id)], locals := w.locals[a := l]))
  {
    hide Journal.WellFormed, ShelfOk, BooksOk, Sound;
    assert Claims(w.locals[a], it.id);
  }

  lemma ReplaceKeeps(c: Journal.RowHasher, w: World, a: nat, it: Intent, l: Local)
    requires Inv(c, w) && Copy(w.shelf.m, it) && it.state == Settling
    requires Knows(w.shelf.m, w.books, l) && forall id :: !Claims(l, id)
    ensures Inv(c, w.(broadcasts := w.broadcasts + [Replaced(it.id)], locals := w.locals[a := l]))
  {
    hide Journal.WellFormed, ShelfOk, BooksOk, Sound;
  }

  lemma CanSave(m: map<Str, Intent>, it: Intent, req: Request)
    requires Copy(m, it)
    requires req.to != Settled && (req.actor == Relayer ==> req.to == Confirming || req.to == NeedsReview || req.to == Failed)
    ensures forall j: Books :: Knows(m, j, Saving(it, req))
  {
  }

  lemma VoidKeeps(c: Journal.RowHasher, h: Hasher, w: World, a: nat, at: Time, act: Action)
    requires Inv(c, w) && a in w.locals && w.locals[a].Voiding?
    ensures Inv(c, Continue(c, h, w, a, w.locals[a], at, act))
  {
    var l := w.locals[a];
    assert Knows(w.shelf.m, w.books, l);
    var fail := Request(Failed, Relayer, [], l.reason, at);
    EntriesOf(l.it);
    CanSave(w.shelf.m, l.it, fail);
    hide Inv, Knows, Book, EntryOf, VoidEntry, Journal.AppendTo;
    MoveKeeps(c, w, a, Saving(l.it, fail));
    BookStepKeeps(c, w, a, l.it, VoidEntry(l.it), Saving(l.it, fail));
  }

  lemma PostKeeps(c: Journal.RowHasher, h: Hasher, w: World, a: nat, at: Time, act: Action)
    requires Inv(c, w) && a in w.locals && w.locals[a].Posting?
    ensures Inv(c, Continue(c, h, w, a, w.locals[a], at, act))
  {
    var l := w.locals[a];
    assert Knows(w.shelf.m, w.books, l);
    EntriesOf(l.it);
    hide Inv, Book, EntryOf, PostEntry, Copy, OnBooks;
    BookStepKeeps(c, w, a, l.it, PostEntry(l.it, l.it.amount), Saving(l.it, Request(Settled, Listener, l.it.txHash, [], at)));
  }

  lemma HoldKeeps(c: Journal.RowHasher, h: Hasher, w: World, a: nat, at: Time, act: Action)
    requires Inv(c, w) && a in w.locals && w.locals[a].Holding?
    ensures Inv(c, Continue(c, h, w, a, w.locals[a], at, act))
  {
    var l := w.locals[a];
    assert Knows(w.shelf.m, w.books, l);
    EntriesOf(l.it);
    hide Inv, Book, EntryOf, HoldEntry, Copy, OnBooks;
    BookStepKeeps(c, w, a, l.it, HoldEntry(l.it), Sending(l.it));
  }

  lemma SendStepKeeps(c: Journal.RowHasher, h: Hasher, w: World, a: nat, at: Time, act: Action)
    requires Inv(c, w) && a in w.locals && w.locals[a].Sending? && act.GoSend?
    ensures Inv(c, Continue(c, h, w, a, w.locals[a], at, act))
  {
    hide ShelfOk, BooksOk, ClaimsOk, Journal.WellFormed, Sound, HoldEntry, Moved;
    var it := w.locals[a].it;
    assert Knows(w.shelf.m, w.books, w.locals[a]);
    hide Inv, Copy, OnBooks;
    SendKeeps(c, w, a, it, if act.outcome.Accepted? then Saving(it, Confirmed(act.outcome.txHash, at)) else Idle);
  }

  lemma RescueKeeps(c: Journal.RowHasher, h: Hasher, w: World, a: nat, at: Time, act: Action)
    requires Inv(c, w) && a in w.locals && w.locals[a].Rescuing? && act.GoRescue?
    ensures Inv(c, Continue(c, h, w, a, w.locals[a], at, act))
  {
    var it := w.locals[a].it;
    RescuerKnows(c, w, a);
    IdleKnows(w.shelf.m, w.books);
    hide Inv, Copy, Knows;
    match act.plan {
      case KeepWaiting => MoveKeeps(c, w, a, Idle);
      case AskForReview(why) => RescuerSaves(c, w, a, it, Request(NeedsReview, Relayer, [], why, at));
      case Clear(why) => RescuerSaves(c, w, a, it, Request(NeedsReview, Relayer, [], why, at));
      case Replace(outcome) =>
        if outcome.Accepted? {
          CanSave(w.shelf.m, it, Confirmed(outcome.txHash, at));
          ReplaceKeeps(c, w, a, it, Saving(it, Confirmed(outcome.txHash, at)));
        } else {
          ReplaceKeeps(c, w, a, it, Idle);
        }
    }
  }

  lemma RescuerKnows(c: Journal.RowHasher, w: World, a: nat)
    requires Inv(c, w) && a in w.locals && w.locals[a].Rescuing?
    ensures Copy(w.shelf.m, w.locals[a].it) && w.locals[a].it.state == Settling
  {
    hide Journal.WellFormed, ShelfOk, BooksOk, ClaimsOk, Copy;
    assert Knows(w.shelf.m, w.books, w.locals[a]);
  }

  lemma RescuerSaves(c: Journal.RowHasher, w: World, a: nat, it: Intent, req: Request)
    requires Inv(c, w) && Copy(w.shelf.m, it) && req.actor == Relayer && req.to == NeedsReview
    ensures Inv(c, w.(locals := w.locals[a := Saving(it, req)]))
  {
    hide Inv, Copy, Knows;
    CanSave(w.shelf.m, it, req);
    MoveKeeps(c, w, a, Saving(it, req));
  }

  lemma ContinueKeeps(c: Journal.RowHasher, h: Hasher, w: World, a: nat, at: Time, act: Action)
    requires Inv(c, w) && a in w.locals
    ensures Inv(c, Continue(c, h, w, a, w.locals[a], at, act))
  {
    var l := w.locals[a];
    assert Knows(w.shelf.m, w.books, l);
    hide Inv, Knows, Swap, Book, Rescue;
    match l {
      case Idle =>
      case Claiming(it) => ClaimKeeps(c, h, w, a, it, at);
      case Saving(it, req) => SwapStepKeeps(c, h, w, a, it, req);
      case Holding(it) => HoldKeeps(c, h, w, a, at, act);
      case Posting(it) => PostKeeps(c, h, w, a, at, act);
      case Voiding(it, why) => VoidKeeps(c, h, w, a, at, act);
      case Sending(it) => if act.GoSend? { SendStepKeeps(c, h, w, a, at, act); }
      case Rescuing(it) => if act.GoRescue? { RescueKeeps(c, h, w, a, at, act); }
    }
  }

  lemma EntriesOf(it: Intent)
    ensures EntryOf(it, HoldEntry(it)) && EntryOf(it, PostEntry(it, it.amount)) && EntryOf(it, VoidEntry(it))
  {
  }

  /** One step of any actor keeps the invariant. */
  lemma NextKeeps(c: Journal.RowHasher, h: Hasher, w: World, e: Event)
    requires Inv(c, w)
    ensures Inv(c, Next(c, h, w, e))
  {
    hide Inv, Continue, Opened, Decide;
    match e.action {
      case Create(spec) => OpenKeeps(c, h, w, spec, e.at);
      case Begin(id, goal) => BeginKeeps(c, w, e.actor, id, goal, e.at);
      case Go => if e.actor in w.locals { ContinueKeeps(c, h, w, e.actor, e.at, e.action); }
      case GoSend(_) => if e.actor in w.locals { ContinueKeeps(c, h, w, e.actor, e.at, e.action); }
      case GoRescue(_) => if e.actor in w.locals { ContinueKeeps(c, h, w, e.actor, e.at, e.action); }
    }
  }

  /** So does every interleaving, from the empty store and the empty books. */
  lemma {:induction false} RunKeeps(c: Journal.RowHasher, h: Hasher, es: seq<Event>)
    ensures Inv(c, Run(c, h, es))
  {
    if es != [] {
      RunKeeps(c, h, es[..|es| - 1]);
      NextKeeps(c, h, Run(c, h, es[..|es| - 1]), es[|es| - 1]);
    }
  }

  // ---- settled means paid exactly once, on the books ----

  lemma SameSuffix(a: Str, b: Str, x: Str)
    requires a + x == b + x
    ensures a == b
  {
    assert a == (a + x)[..|a|] && b == (b + x)[..|b|];
  }

  lemma DifferentSuffix(a: Str, b: Str, x: Str, y: Str)
    requires |x| == |y| && x != y
    ensures a + x != b + y
  {
    assert (a + x)[|a|..] == x && (b + y)[|b|..] == y;
  }

  lemma Suffixes()
    ensures HOLD != POST && HOLD != VOID && POST != VOID && |HOLD| == |POST| == |VOID|
  {
    assert HOLD[1] == 104 && POST[1] == 112 && VOID[1] == 118;
  }

  /** The row that a payment's post or void resolves is that payment's own hold, in full. */
  lemma HoldIsOurs(m: map<Str, Intent>, j: Books, p: nat, id: Str)
    requires p < |j| && BooksOk(m, j) && (forall x :: x in m ==> m[x].id == x)
    requires j[p].entry.kind == Ledger.Hold && j[p].entry.id == id + HOLD
    ensures id in m && Strip(j[p].entry) == Strip(HoldEntry(m[id]))
  {
    var x :| x in m && EntryOf(m[x], j[p].entry);
    SameSuffix(x, id, HOLD);
  }

  /** What "settled by the listener" means on the books. */
  ghost predicate PaidOnce(j: Books, it: Intent, p: nat, i: nat) {
    && p < i < |j|
    && Strip(j[p].entry) == Strip(HoldEntry(it))
    && Strip(j[i].entry) == Strip(PostEntry(it, it.amount))
    && j[i].entry.txHash == it.txHash
    && (forall k :: 0 <= k < |j| && Journal.Resolves(j[k], it.id + HOLD) ==> k == i)
    && (forall k :: 0 <= k < |j| && j[k].entry.id == it.id + POST ==> k == i)
    && (forall k :: 0 <= k < |j| ==> j[k].entry.id != it.id + VOID)
  }

  lemma VoidResolves(m: map<Str, Intent>, j: Books, k: nat, id: Str)
    requires k < |j| && BooksOk(m, j) && (forall x :: x in m ==> m[x].id == x)
    requires j[k].entry.id == id + VOID
    ensures Journal.Resolves(j[k], id + HOLD) && j[k].entry.kind == Ledger.Void
  {
    Suffixes();
    var x :| x in m && EntryOf(m[x], j[k].entry);
    DifferentSuffix(x, id, HOLD, VOID);
    DifferentSuffix(x, id, POST, VOID);
    SameSuffix(x, id, VOID);
  }

  lemma PaidOnceAt(c: Journal.RowHasher, m: map<Str, Intent>, j: Books, id: Str, p: nat, i: nat)
    requires Journal.WellFormed(c, j) && BooksOk(m, j) && (forall x :: x in m ==> m[x].id == x) && id in m
    requires i < |j| && Strip(j[i].entry) == Strip(PostEntry(m[id], m[id].amount)) && j[i].entry.txHash == m[id].txHash
    requires p < i && Journal.HoldsRow(j, i, p)
    ensures PaidOnce(j, m[id], p, i)
  {
    hide Journal.Chained, Journal.AllValid, Journal.BehindHold, BooksOk;
    HoldIsOurs(m, j, p, id);
    OnlyResolver(j, i, id + HOLD);
    forall k | 0 <= k < |j| && j[k].entry.id == id + VOID
      ensures Journal.Resolves(j[k], id + HOLD) && j[k].entry.kind == Ledger.Void
    {
      VoidResolves(m, j, k, id);
    }
  }

  /** Over every interleaving: an intent that the listener settled has its hold on the
      books, exactly one post that resolves it, carrying the hash on the intent and moving
      exactly the requested amount to the merchant, and no void. */
  lemma SettledMeansPaidOnce(c: Journal.RowHasher, h: Hasher, es: seq<Event>, id: Str)
    requires id in Run(c, h, es).shelf.m && SettledByListener(Run(c, h, es).shelf.m[id])
    ensures exists p, i :: PaidOnce(Run(c, h, es).books, Run(c, h, es).shelf.m[id], p, i)
  {
    RunKeeps(c, h, es);
    var m, j := Run(c, h, es).shelf.m, Run(c, h, es).books;
    hide Run, Journal.Chained, Journal.AllValid, Journal.UniqueIds, Journal.ResolvedOnce, Sound, LocalsOk, ClaimsOk, UntouchedOk, BooksOk;
    assert PostedFor(j, m[id]);
    var i :| 0 <= i < |j| && Strip(j[i].entry) == Strip(PostEntry(m[id], m[id].amount)) && j[i].entry.txHash == m[id].txHash;
    var p :| 0 <= p < i && Journal.HoldsRow(j, i, p);
    PaidOnceAt(c, m, j, id, p, i);
  }

  lemma OnlyResolver(j: Books, i: nat, hold: Str)
    requires i < |j| && Journal.ResolvedOnce(j) && Journal.Resolves(j[i], hold)
    ensures forall k :: 0 <= k < |j| && Journal.Resolves(j[k], hold) ==> k == i
  {
  }

  // ---- a payment is sent at most once, behind its hold, and never after a cancellation ----

  /** No run calls Send twice for one intent. */
  lemma SentAtMostOnce(c: Journal.RowHasher, h: Hasher, es: seq<Event>, i: nat, k: nat)
    requires i < |Run(c, h, es).broadcasts| && k < |Run(c, h, es).broadcasts|
    requires Run(c, h, es).broadcasts[i].Sent? && Run(c, h, es).broadcasts[i] == Run(c, h, es).broadcasts[k]
    ensures i == k
  {
    RunKeeps(c, h, es);
  }

  /** A step that calls Send finds that intent's hold, for the full amount, already booked. */
  lemma SentBehindItsHold(c: Journal.RowHasher, h: Hasher, es: seq<Event>, e: Event, id: Str)
    requires var w, w' := Run(c, h, es), Next(c, h, Run(c, h, es), e);
      |w.broadcasts| < |w'.broadcasts| && w'.broadcasts[|w.broadcasts|] == Sent(id)
    ensures var w := Run(c, h, es);
      id in w.shelf.m && exists p :: 0 <= p < |w.books| && Strip(w.books[p].entry) == Strip(HoldEntry(w.shelf.m[id]))
  {
    RunKeeps(c, h, es);
    var w := Run(c, h, es);
    SendsFrom(c, h, w, e, id);
    hide Run, Next;
    SendingHeld(c, w, e.actor);
  }

  /** Only an actor about to send sends. */
  lemma SendsFrom(c: Journal.RowHasher, h: Hasher, w: World, e: Event, id: Str)
    requires var w' := Next(c, h, w, e); |w.broadcasts| < |w'.broadcasts| && w'.broadcasts[|w.broadcasts|] == Sent(id)
    ensures e.actor in w.locals && w.locals[e.actor].Sending? && w.locals[e.actor].it.id == id
  {
    hide CompareAndSwap, Decide, Journal.AppendTo, New, Saved;
  }

  lemma SendingHeld(c: Journal.RowHasher, w: World, a: nat)
    requires Inv(c, w) && a in w.locals && w.locals[a].Sending?
    ensures var id := w.locals[a].it.id;
      id in w.shelf.m && exists p :: 0 <= p < |w.books| && Strip(w.books[p].entry) == Strip(HoldEntry(w.shelf.m[id]))
  {
    var it := w.locals[a].it;
    assert Knows(w.shelf.m, w.books, w.locals[a]);
    hide Inv, Sound, HoldEntry, Strip;
    var p :| 0 <= p < |w.books| && w.books[p].entry == HoldEntry(it);
    SameHold(it, w.shelf.m[it.id]);
  }

  lemma SameHold(a: Intent, b: Intent)
    requires b.SameTerms(a)
    ensures Strip(HoldEntry(a)) == Strip(HoldEntry(b))
  {
  }

  /** Terminal intents are never touched again, whatever is still in flight. */
  lemma {:induction false} TerminalIsFinal(c: Journal.RowHasher, h: Hasher, es: seq<Event>, more: seq<Event>, id: Str)
    requires id in Run(c, h, es).shelf.m && Run(c, h, es).shelf.m[id].state.Terminal()
    ensures id in Run(c, h, es + more).shelf.m
    ensures Run(c, h, es + more).shelf.m[id] == Run(c, h, es).shelf.m[id]
  {
    if more == [] {
      assert es + more == es;
    } else {
      var front, e := more[..|more| - 1], more[|more| - 1];
      TerminalIsFinal(c, h, es, front, id);
      assert (es + more)[..|es + more| - 1] == es + front;
      RunKeeps(c, h, es + front);
      TerminalStays(c, h, Run(c, h, es + front), e, id);
    }
  }

  lemma SwapSparesTerminal(h: Hasher, s: Shelf, it: Intent, req: Request, id: Str)
    requires Copy(s.m, it) && id in s.m && s.m[id].id == id && s.m[id].state.Terminal()
    requires CompareAndSwap(h, s, it, req).Some?
    ensures id in CompareAndSwap(h, s, it, req).value.0.m && CompareAndSwap(h, s, it, req).value.0.m[id] == s.m[id]
  {
    SwapMoves(h, s, it, req);
  }

  /** Only a winning write changes the shelf. */
  lemma OnlySwapsWrite(c: Journal.RowHasher, h: Hasher, w: World, a: nat, l: Local, at: Time, act: Action)
    requires !l.Claiming? && !l.Saving?
    ensures Continue(c, h, w, a, l, at, act).shelf == w.shelf
  {
    hide Journal.AppendTo, HoldEntry, PostEntry, VoidEntry;
  }

  lemma ContinueSparesTerminal(c: Journal.RowHasher, h: Hasher, w: World, a: nat, l: Local, at: Time, act: Action, id: Str)
    requires Knows(w.shelf.m, w.books, l)
    requires id in w.shelf.m && w.shelf.m[id].id == id && w.shelf.m[id].state.Terminal()
    ensures var w' := Continue(c, h, w, a, l, at, act);
      id in w'.shelf.m && w'.shelf.m[id] == w.shelf.m[id]
  {
    if l.Claiming? || l.Saving? {
      var req := if l.Claiming? then Request(Settling, Relayer, [], [], at) else l.req;
      if CompareAndSwap(h, w.shelf, l.it, req).Some? { SwapSparesTerminal(h, w.shelf, l.it, req, id); }
      hide CompareAndSwap;
    } else {
      OnlySwapsWrite(c, h, w, a, l, at, act);
    }
  }

  lemma TerminalStays(c: Journal.RowHasher, h: Hasher, w: World, e: Event, id: Str)
    requires Inv(c, w) && id in w.shelf.m && w.shelf.m[id].state.Terminal()
    ensures id in Next(c, h, w, e).shelf.m && Next(c, h, w, e).shelf.m[id] == w.shelf.m[id]
  {
    hide Continue, Decide, Journal.WellFormed;
    match e.action {
      case Create(spec) => if New(h, spec, e.at).Ok? { NewIsSound(h, spec, e.at); }
      case Begin(_, _) =>
      case _ => if e.actor in w.locals { ContinueSparesTerminal(c, h, w, e.actor, w.locals[e.actor], e.at, e.action, id); }
    }
  }

  /** An intent that is canceled at any point of a run is never broadcast, before or after:
      neither sent nor replaced. */
  lemma CanceledIsNeverBroadcast(c: Journal.RowHasher, h: Hasher, es: seq<Event>, more: seq<Event>, id: Str)
    requires id in Run(c, h, es).shelf.m && Run(c, h, es).shelf.m[id].state == Canceled
    ensures Sent(id) !in Run(c, h, es + more).broadcasts && Replaced(id) !in Run(c, h, es + more).broadcasts
  {
    TerminalIsFinal(c, h, es, more, id);
    RunKeeps(c, h, es + more);
  }
}
