/** What one delivery comes to when nobody is in its way, from any state a run can reach: a payment
    that was authorized is sent, and one that is given up ends. */
module SettlementProgress {
  import opened Bytes
  import opened Intent
  import opened Settlement
  import opened SettlementInvariant
  import IntentHistory
  import JournalRows
  import SettlementSafety
  import Steps = SettlementSteps
  import Ledger
  import Journal

  // ---- nothing is on the books of a payment no relayer has claimed ----

  ghost predicate OfClaimed(m: map<Str, Intent>, e: Ledger.Entry) {
    exists id :: id in m && m[id].id == id && EntryOf(m[id], e) && !m[id].state.Untouched()
  }

  ghost predicate AllClaimed(m: map<Str, Intent>, j: Books) {
    forall i :: 0 <= i < |j| ==> OfClaimed(m, j[i].entry)
  }

  lemma BookClaims(c: Journal.RowHasher, w: World, a: nat, it: Intent, e: Ledger.Entry, l: Local)
    requires AllClaimed(w.shelf.m, w.books) && Copy(w.shelf.m, it) && !it.state.Untouched() && EntryOf(it, e)
    requires w.shelf.m[it.id].id == it.id
    ensures AllClaimed(w.shelf.m, Book(c, w, a, e, l).books)
  {
    hide EntryOf, Sound;
    EntryOfTerms(it, w.shelf.m[it.id], e);
    assert OfClaimed(w.shelf.m, e);
    hide OfClaimed, Ledger.EntryError, Journal.Find, Journal.Resolved;
  }

  lemma SwapClaims(h: Hasher, s: Shelf, j: Books, it: Intent, req: Request)
    requires AllClaimed(s.m, j) && Copy(s.m, it) && CompareAndSwap(h, s, it, req).Some?
    ensures AllClaimed(CompareAndSwap(h, s, it, req).value.0.m, j)
  {
    SwapMoves(h, s, it, req);
    var (s', it') := CompareAndSwap(h, s, it, req).value;
    hide CompareAndSwap, Copy, Sound, EntryOf, Moved, Applied, OfClaimed;
    forall i | 0 <= i < |j| ensures OfClaimed(s'.m, j[i].entry) {
      StillClaimed(s.m, it, it', j[i].entry);
    }
  }

  lemma StillClaimed(m: map<Str, Intent>, it: Intent, it': Intent, e: Ledger.Entry)
    requires OfClaimed(m, e) && it.id in m && m[it.id] == it && it'.SameTerms(it) && (it'.state.Untouched() ==> it.state.Untouched())
    ensures OfClaimed(m[it.id := it'], e)
  {
    hide EntryOf;
    EntryOfTerms(it', it, e);
    var id :| id in m && m[id].id == id && EntryOf(m[id], e) && !m[id].state.Untouched();
    assert m[it.id := it'][id].id == id;
  }

  lemma ContinueClaims(c: Journal.RowHasher, h: Hasher, w: World, a: nat, l: Local, at: Time, act: Action)
    requires AllClaimed(w.shelf.m, w.books) && Knows(w.shelf.m, w.books, l) && forall id :: id in w.shelf.m ==> w.shelf.m[id].id == id
    ensures var w' := Continue(c, h, w, a, l, at, act); AllClaimed(w'.shelf.m, w'.books)
  {
    hide AllClaimed, CompareAndSwap, EntryOf, Sound, Journal.AppendTo;
    match l {
      case Claiming(it) =>
        var req := Request(Settling, Relayer, [], [], at);
        if CompareAndSwap(h, w.shelf, it, req).Some? { SwapClaims(h, w.shelf, w.books, it, req); }
      case Saving(it, req) => if CompareAndSwap(h, w.shelf, it, req).Some? { SwapClaims(h, w.shelf, w.books, it, req); }
      case Holding(it) =>
        SettlementSafety.EntriesOf(it);
        BookClaims(c, w, a, it, HoldEntry(it), Sending(it));
      case Posting(it) =>
        SettlementSafety.EntriesOf(it);
        BookClaims(c, w, a, it, PostEntry(it, it.amount), Saving(it, Request(Settled, Listener, it.txHash, [], at)));
      case Voiding(it, why) =>
        SettlementSafety.EntriesOf(it);
        BookClaims(c, w, a, it, VoidEntry(it), Saving(it, Request(Failed, Relayer, [], why, at)));
      case _ =>
    }
  }

  lemma OpenClaims(h: Hasher, w: World, spec: Spec, at: Time)
    requires AllClaimed(w.shelf.m, w.books) && forall id :: id in w.shelf.m ==> w.shelf.m[id].version > 0
    ensures AllClaimed(Opened(h, w, spec, at).shelf.m, w.books)
  {
    hide EntryOf;
    var m, m' := w.shelf.m, Opened(h, w, spec, at).shelf.m;
    assert forall id :: id in m ==> id in m' && m'[id] == m[id];
    hide Opened;
    forall i | 0 <= i < |w.books| ensures OfClaimed(m', w.books[i].entry) {
      assert OfClaimed(m, w.books[i].entry);
    }
  }

  lemma InvSays(c: Journal.RowHasher, w: World)
    requires Inv(c, w)
    ensures forall id :: id in w.shelf.m ==> w.shelf.m[id].id == id && w.shelf.m[id].version > 0
    ensures forall a :: a in w.locals ==> Knows(w.shelf.m, w.books, w.locals[a])
    ensures Journal.WellFormed(c, w.books)
  {
    hide Knows, Journal.WellFormed, PostedFor;
  }

  lemma {:induction false} RunClaims(c: Journal.RowHasher, h: Hasher, es: seq<Event>)
    ensures AllClaimed(Run(c, h, es).shelf.m, Run(c, h, es).books)
  {
    if es != [] {
      var w, e := Run(c, h, es[..|es| - 1]), es[|es| - 1];
      RunClaims(c, h, es[..|es| - 1]);
      SettlementSafety.RunKeeps(c, h, es[..|es| - 1]);
      InvSays(c, w);
      hide Run, Continue, Opened, Decide, Knows, AllClaimed, Inv, Journal.WellFormed;
      if e.action.Create? {
        OpenClaims(h, w, e.action.spec, e.at);
      } else if !e.action.Begin? && e.actor in w.locals {
        ContinueClaims(c, h, w, e.actor, w.locals[e.actor], e.at, e.action);
      }
    }
  }

  /** So the name under which its hold will be booked is free. */
  lemma NoHoldYet(m: map<Str, Intent>, j: Books, id: Str)
    requires AllClaimed(m, j) && id in m && m[id].state.Untouched()
    ensures !JournalRows.Taken(j, id + HOLD)
  {
    if i :| 0 <= i < |j| && j[i].entry.id == id + HOLD {
      var x :| x in m && m[x].id == x && EntryOf(m[x], j[i].entry) && !m[x].state.Untouched();
      NamesHold(m[x], j[i].entry, id);
    }
  }

  /** Only a payment's own hold goes by its hold's name. */
  lemma NamesHold(it: Intent, e: Ledger.Entry, id: Str)
    requires EntryOf(it, e) && e.id == id + HOLD
    ensures it.id == id
  {
    SettlementSafety.Suffixes();
    assert e.id == Strip(e).id;
    hide PayLegs;
    if Strip(e) == Strip(HoldEntry(it)) {
      SettlementSafety.SameSuffix(it.id, id, HOLD);
    } else {
      SettlementSafety.DifferentSuffix(it.id, id, POST, HOLD);
      SettlementSafety.DifferentSuffix(it.id, id, VOID, HOLD);
    }
  }

  // ---- writing back with nobody in between ----

  /** Nothing but the move itself can refuse a stored payment: its copy is fresh and its ref its own. */
  lemma FreshSwap(h: Hasher, s: Shelf, id: Str, req: Request)
    requires id in s.m && s.m[id].id == id && IntentHistory.Told(h, s.m[id])
    requires s.m[id].state != req.to && Applied(s.m[id], req).Ok?
    ensures var r := CompareAndSwap(h, s, s.m[id], req);
      && r.Some? && r.value.1 == Moved(s.m[id], req) && r.value.0.m == s.m[id := Moved(s.m[id], req)]
      && Moved(s.m[id], req).state == req.to && IntentHistory.Told(h, Moved(s.m[id], req))
  {
    IntentHistory.MoveIsTold(h, s.m[id], req);
    IntentHistory.MovesWhen(s.m[id], req, Transition(s.m[id].state, req.to, req.actor, req.at, req.txHash, req.reason));
    hide IntentHistory.StepTold;
  }

  // ---- giving up ----

  /** A void for this payment can be booked, is booked already, or has nothing to free. */
  ghost predicate Voidable(j: Books, it: Intent) {
    it.ref != ZERO && it.updatedAt != 0 && forall i :: 0 <= i < |j| && j[i].entry.id == it.id + VOID ==> j[i].entry == VoidEntry(it)
  }

  lemma VoidGoes(c: Journal.RowHasher, h: Hasher, j: Books, it: Intent)
    requires Journal.WellFormed(c, j) && IntentHistory.WellOpened(h, it)
    ensures var r := Journal.AppendTo(c, j, VoidEntry(it));
      Voidable(j, it) <==> r.Ok? || r.error == Ledger.NoSuchHold || r.error == Ledger.AlreadyResolved
  {
    var e := VoidEntry(it);
    JournalRows.AppendSays(c, j, e);
    assert e.id[|it.id|..] == VOID && e.holds != [];
    assert JournalRows.SoundEntry(e) <==> it.ref != ZERO && it.updatedAt != 0;
    hide JournalRows.SoundEntry, Journal.AppendTo, JournalRows.Held, JournalRows.Spent, IntentHistory.WellOpened;
    if i :| 0 <= i < |j| && j[i].entry.id == e.id {
      assert forall k :: 0 <= k < |j| && j[k].entry.id == e.id ==> k == i;
    }
    hide Journal.WellFormed;
  }

  function GiveUpOf(a: nat, id: Str, nothingSent: bool, why: Str, at: Time): seq<Event> {
    [Event(a, at, Begin(id, GiveUp(nothingSent, why))), Event(a, at, Go), Event(a, at, Go)]
  }

  lemma Three(c: Journal.RowHasher, h: Hasher, w: World, e: Event, f: Event, g: Event)
    ensures Steps.After(c, h, w, [e, f, g]) == Next(c, h, Next(c, h, Next(c, h, w, e), f), g)
  {
    hide Next;
    Steps.AfterTwo(c, h, Next(c, h, w, e), f, Next(c, h, Next(c, h, w, e), f), g, Next(c, h, Next(c, h, Next(c, h, w, e), f), g));
    assert [e, f, g][1..] == [f, g];
  }

  lemma ReviewSteps(c: Journal.RowHasher, h: Hasher, w: World, a: nat, id: Str, why: Str, at: Time)
    requires id in w.shelf.m && w.shelf.m[id].id == id && w.shelf.m[id].state == Settling && IntentHistory.Told(h, w.shelf.m[id]) && why != []
    ensures var w' := Steps.After(c, h, w, GiveUpOf(a, id, false, why, at));
      w'.shelf.m == w.shelf.m[id := Moved(w.shelf.m[id], Request(NeedsReview, Relayer, [], why, at))] && w'.books == w.books
  {
    hide IntentHistory.Told, CompareAndSwap, Next;
    var req := Request(NeedsReview, Relayer, [], why, at);
    var begin, go := Event(a, at, Begin(id, GiveUp(false, why))), Event(a, at, Go);
    Three(c, h, w, begin, go, go);
    Steps.BeginStep(c, h, w, a, id, GiveUp(false, why), at);
    var w1 := Next(c, h, w, begin);
    assert w1.locals[a] == Saving(w.shelf.m[id], req);
    Steps.SwapStep(c, h, w1, a, at);
    FreshSwap(h, w.shelf, id, req);
    Steps.IdleStep(c, h, Next(c, h, w1, go), go);
  }

  lemma VoidSteps(c: Journal.RowHasher, h: Hasher, w: World, a: nat, id: Str, why: Str, at: Time)
    requires id in w.shelf.m && w.shelf.m[id].id == id && w.shelf.m[id].state == Settling && IntentHistory.Told(h, w.shelf.m[id]) && why != []
    requires Journal.WellFormed(c, w.books)
    ensures var it, w' := w.shelf.m[id], Steps.After(c, h, w, GiveUpOf(a, id, true, why, at));
      w'.shelf.m == if Voidable(w.books, it) then w.shelf.m[id := Moved(it, Request(Failed, Relayer, [], why, at))] else w.shelf.m
  {
    hide CompareAndSwap, Next, Journal.AppendTo, Journal.WellFormed, Voidable, VoidEntry, IntentHistory.StepTold, IntentHistory.WellOpened;
    var req := Request(Failed, Relayer, [], why, at);
    var begin, go := Event(a, at, Begin(id, GiveUp(true, why))), Event(a, at, Go);
    Three(c, h, w, begin, go, go);
    Steps.BeginStep(c, h, w, a, id, GiveUp(true, why), at);
    var w1 := Next(c, h, w, begin);
    Steps.VoidStep(c, h, w1, a, at);
    VoidGoes(c, h, w.books, w.shelf.m[id]);
    var w2 := Next(c, h, w1, go);
    if Voidable(w.books, w.shelf.m[id]) {
      Steps.SwapStep(c, h, w2, a, at);
      FreshSwap(h, w.shelf, id, req);
    } else {
      Steps.IdleStep(c, h, w2, go);
    }
  }

  /** Giving a settling payment up, undisturbed, from any reachable state: it goes to review unless
      nothing was sent; then it fails exactly when its void can be booked or has nothing to free,
      and stays as it is otherwise, which takes a missing clock or an older void of another time. */
  lemma GiveUpEnds(c: Journal.RowHasher, h: Hasher, es: seq<Event>, a: nat, id: Str, nothingSent: bool, why: Str, at: Time)
    requires id in Run(c, h, es).shelf.m && Run(c, h, es).shelf.m[id].state == Settling && why != []
    ensures var w, w' := Run(c, h, es), Run(c, h, es + GiveUpOf(a, id, nothingSent, why, at));
      && w'.shelf.m.Keys == w.shelf.m.Keys && (forall x :: x in w.shelf.m && x != id ==> w'.shelf.m[x] == w.shelf.m[x])
      && w'.shelf.m[id].state == (if !nothingSent then NeedsReview else if Voidable(w.books, w.shelf.m[id]) then Failed else Settling)
  {
    hide *;
    var w := Run(c, h, es);
    SettlementSafety.RunKeeps(c, h, es);
    InvSays(c, w);
    IntentHistory.HistoriesAreTold(c, h, es);
    ToldOf(h, w.shelf.m, id);
    Steps.RunGoesOn(c, h, es, GiveUpOf(a, id, nothingSent, why, at));
    MovedTo(w.shelf.m[id], Request(Failed, Relayer, [], why, at));
    MovedTo(w.shelf.m[id], Request(NeedsReview, Relayer, [], why, at));
    if nothingSent {
      VoidSteps(c, h, w, a, id, why, at);
    } else {
      ReviewSteps(c, h, w, a, id, why, at);
    }
  }

  lemma ToldOf(h: Hasher, m: map<Str, Intent>, id: Str)
    requires IntentHistory.AllTold(h, m) && id in m
    ensures IntentHistory.Told(h, m[id])
  {
    hide IntentHistory.Told;
  }

  lemma MovedTo(it: Intent, req: Request)
    ensures Moved(it, req).state == req.to && Moved(it, req).id == it.id && Moved(it, req).ref == it.ref
  {
  }

  // ---- paying ----

  lemma LegsAreSound(it: Intent)
    requires it.amount > 0
    ensures JournalRows.Legged(PayLegs(it, it.amount)) && JournalRows.Sum(PayLegs(it, it.amount)) == 0
  {
    var legs := PayLegs(it, it.amount);
    assert legs[0].account[0] == 112 && legs[1].account[0] == 109;
    assert legs[1..] == [legs[1]] && [legs[1]][1..] == [];
    assert JournalRows.Sum([legs[1]]) == legs[1].amount + JournalRows.Sum([]);
  }

  /** A first hold is booked exactly when it says when and for what. */
  lemma HoldGoes(c: Journal.RowHasher, h: Hasher, j: Books, it: Intent)
    requires Journal.WellFormed(c, j) && IntentHistory.WellOpened(h, it) && !JournalRows.Taken(j, it.id + HOLD)
    ensures var r := Journal.AppendTo(c, j, HoldEntry(it));
      (r.Ok? <==> it.ref != ZERO && it.updatedAt != 0) && (r.Ok? ==> r.value.row.entry == HoldEntry(it) && r.value.journal == j + [r.value.row])
  {
    var e := HoldEntry(it);
    JournalRows.AppendSays(c, j, e);
    assert e.id[|it.id|..] == HOLD;
    LegsAreSound(it);
    hide PayLegs, JournalRows.Legged;
    assert JournalRows.SoundEntry(e) <==> it.ref != ZERO && it.updatedAt != 0;
    assert forall i :: 0 <= i < |j| && j[i].entry == e ==> JournalRows.Taken(j, e.id);
    JournalRows.FindSays(j, e.id);
    hide JournalRows.SoundEntry, IntentHistory.WellOpened, Journal.WellFormed;
  }

  /** One delivery of a payment's job that meets nothing but the sender's answer. */
  function DeliveryOf(a: nat, id: Str, at: Time, out: Outcome, doneAt: Time): seq<Event> {
    [Event(a, at, Begin(id, Process)), Event(a, at, Go), Event(a, at, Go)] + SendOf(a, out, doneAt)
  }

  function SendOf(a: nat, out: Outcome, doneAt: Time): seq<Event> { [Event(a, doneAt, GoSend(out)), Event(a, doneAt, Go)] }

  function ClaimedAt(it: Intent, at: Time): Intent { Moved(it, Request(Settling, Relayer, [], [], at)) }

  /** Up to the moment of sending: the payment is claimed, and its hold is booked if it can be. */
  lemma ClaimSteps(c: Journal.RowHasher, h: Hasher, w: World, a: nat, id: Str, at: Time) returns (w': World)
    requires id in w.shelf.m && w.shelf.m[id].id == id && w.shelf.m[id].state == Authorized && IntentHistory.Told(h, w.shelf.m[id])
    requires Journal.WellFormed(c, w.books) && !JournalRows.Taken(w.books, id + HOLD)
    ensures w' == Steps.After(c, h, w, [Event(a, at, Begin(id, Process)), Event(a, at, Go), Event(a, at, Go)])
    ensures var it, copy, can := w.shelf.m[id], ClaimedAt(w.shelf.m[id], at), w.shelf.m[id].ref != ZERO && at != 0;
      && w'.shelf.m == w.shelf.m[id := copy] && w'.broadcasts == w.broadcasts && IntentHistory.Told(h, copy)
      && a in w'.locals && w'.locals[a] == (if can then Sending(copy) else Idle)
      && (can ==> |w'.books| == |w.books| + 1 && w'.books[|w.books|].entry == HoldEntry(copy)) && (!can ==> w'.books == w.books)
  {
    hide CompareAndSwap, Next, Journal.AppendTo, Journal.WellFormed, HoldEntry, IntentHistory.StepTold, IntentHistory.WellOpened, JournalRows.Taken;
    var req := Request(Settling, Relayer, [], [], at);
    var begin, go := Event(a, at, Begin(id, Process)), Event(a, at, Go);
    Three(c, h, w, begin, go, go);
    Steps.BeginStep(c, h, w, a, id, Process, at);
    var w1 := Next(c, h, w, begin);
    Steps.SwapStep(c, h, w1, a, at);
    FreshSwap(h, w.shelf, id, req);
    var w2 := Next(c, h, w1, go);
    Steps.HoldStep(c, h, w2, a, at);
    HoldGoes(c, h, w.books, ClaimedAt(w.shelf.m[id], at));
    w' := Next(c, h, w2, go);
  }

  /** From there: one send, and its hash on record when the sender took it. */
  lemma SendSteps(c: Journal.RowHasher, h: Hasher, w: World, a: nat, it: Intent, out: Outcome, doneAt: Time)
    requires it.id in w.shelf.m && w.shelf.m[it.id] == it && it.state == Settling && IntentHistory.Told(h, it)
    requires a in w.locals && (w.locals[a] == Sending(it) || w.locals[a] == Idle)
    ensures var w', taken := Steps.After(c, h, w, SendOf(a, out, doneAt)), out.Accepted? && out.txHash != [] && w.locals[a] == Sending(it);
      && w'.shelf.m == (if taken then w.shelf.m[it.id := Moved(it, Confirmed(out.txHash, doneAt))] else w.shelf.m)
      && w'.broadcasts == w.broadcasts + (if w.locals[a] == Idle then [] else [Sent(it.id)]) && w'.books == w.books
      && (taken ==> w'.shelf.m[it.id].state == Confirming && w'.shelf.m[it.id].txHash == out.txHash)
  {
    hide CompareAndSwap, Next, IntentHistory.StepTold, IntentHistory.WellOpened;
    var send, go := Event(a, doneAt, GoSend(out)), Event(a, doneAt, Go);
    var w1 := Next(c, h, w, send);
    Steps.AfterTwo(c, h, w, send, w1, go, Next(c, h, w1, go));
    if w.locals[a] == Idle {
      Steps.IdleStep(c, h, w, send);
      Steps.IdleStep(c, h, w, go);
    } else {
      Steps.SendStep(c, h, w, a, doneAt, out);
      if out.Accepted? {
        Steps.SwapStep(c, h, w1, a, doneAt);
        ConfirmSwap(h, w1.shelf, it, out.txHash, doneAt);
      } else {
        Steps.IdleStep(c, h, w1, go);
      }
    }
  }

  lemma ConfirmSwap(h: Hasher, s: Shelf, it: Intent, txHash: Str, at: Time)
    requires it.id in s.m && s.m[it.id] == it && it.state == Settling && IntentHistory.Told(h, it)
    ensures var r := CompareAndSwap(h, s, it, Confirmed(txHash, at));
      && (r.Some? <==> txHash != []) && (r.Some? ==> r.value.0.m == s.m[it.id := Moved(it, Confirmed(txHash, at))])
  {
    hide IntentHistory.StepTold;
    if txHash != [] {
      FreshSwap(h, s, it.id, Confirmed(txHash, at));
    }
  }

  /** An authorized payment, delivered undisturbed from any reachable state: exactly when the clock
      reads something and its ref is not the zero ref, its hold is booked and it is sent, once; it is
      confirming on the sender's hash exactly when, besides, the sender took it and named one.
      Otherwise it is claimed and nothing is sent. No other payment is touched. */
  lemma DeliveryPays(c: Journal.RowHasher, h: Hasher, es: seq<Event>, a: nat, id: Str, at: Time, out: Outcome, doneAt: Time)
    requires id in Run(c, h, es).shelf.m && Run(c, h, es).shelf.m[id].state == Authorized
    ensures var w, w' := Run(c, h, es), Run(c, h, es + DeliveryOf(a, id, at, out, doneAt));
      var can := w.shelf.m[id].ref != ZERO && at != 0;
      && w'.shelf.m.Keys == w.shelf.m.Keys && (forall x :: x in w.shelf.m && x != id ==> w'.shelf.m[x] == w.shelf.m[x])
      && w'.broadcasts == w.broadcasts + (if can then [Sent(id)] else [])
      && |w'.books| == |w.books| + (if can then 1 else 0) && (can ==> w'.books[|w.books|].entry.id == id + HOLD)
      && w'.shelf.m[id].state == (if can && out.Accepted? && out.txHash != [] then Confirming else Settling)
      && (w'.shelf.m[id].state == Confirming ==> w'.shelf.m[id].txHash == out.txHash)
  {
    hide *;
    var w := Run(c, h, es);
    SettlementSafety.RunKeeps(c, h, es);
    InvSays(c, w);
    RunClaims(c, h, es);
    NoHoldYet(w.shelf.m, w.books, id);
    IntentHistory.HistoriesAreTold(c, h, es);
    ToldOf(h, w.shelf.m, id);
    Steps.RunGoesOn(c, h, es, DeliveryOf(a, id, at, out, doneAt));
    DeliverySteps(c, h, w, a, id, at, out, doneAt);
    var held := ClaimSteps(c, h, w, a, id, at);
    ClaimedIs(w.shelf.m[id], at);
    SendSteps(c, h, held, a, ClaimedAt(w.shelf.m[id], at), out, doneAt);
  }

  lemma DeliverySteps(c: Journal.RowHasher, h: Hasher, w: World, a: nat, id: Str, at: Time, out: Outcome, doneAt: Time)
    ensures Steps.After(c, h, w, DeliveryOf(a, id, at, out, doneAt))
      == Steps.After(c, h, Steps.After(c, h, w, [Event(a, at, Begin(id, Process)), Event(a, at, Go), Event(a, at, Go)]), SendOf(a, out, doneAt))
  {
    hide Steps.After, SendOf;
    Steps.AfterBoth(c, h, w, [Event(a, at, Begin(id, Process)), Event(a, at, Go), Event(a, at, Go)], SendOf(a, out, doneAt));
  }

  lemma ClaimedIs(it: Intent, at: Time)
    ensures var copy := ClaimedAt(it, at); copy.id == it.id && copy.state == Settling && HoldEntry(copy).id == it.id + HOLD
  {
  }
}
