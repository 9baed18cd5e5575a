/** The relayer's worker: what one delivered job makes it call, in order.

    The worker runs alone here; each method says that its calls are steps of one actor of
    the settlement protocol, so what holds over every interleaving of such steps holds for
    workers that are cut off or overtaken between any two of their calls. */
module Relayer {
  import opened Bytes
  import opened Intent
  import opened SettlementSteps
  import S = Settlement
  import C = Counter
  import Ledger
  import Journal

  /** What the sender answers: the transaction's hash, that it certainly did not leave, or
      an error that says neither. */
  datatype Answer = Taken(txHash: Str) | NotSent | NoWord {
    function Sent(): C.Sent {
      match this case Taken(_) => C.Yes case NotSent => C.No case NoWord => C.Unknown
    }

    function Outcome(): S.Outcome {
      if Taken? then S.Accepted(txHash) else S.Refused
    }
  }

  datatype Report = Done(txHash: Str) | Noop | Retry | Review | Replaced(txHash: Str) | Cleared(txHash: Str) | Poison | Broken

  /** The job goes back to the queue. */
  predicate Again(r: Report) { r == Retry || r == Broken }

  /** The payment is still waiting for a relayer. */
  predicate Pending(s: State) { s == Created || s == Authorized || s == Settling }

  /** What the fee policy decides for a payment stuck in settling. */
  datatype Plan = Wait | AskForReview | SpeedUp | Cancel

  /** What a delivery meets: a place at the limiter, the account whose numbers it needs, whether
      waiting for it pays, the policy's plan, the sender's answer, and the clock. */
  datatype Chances = Chances(room: bool, account: Option<Str>, patient: bool, stillPatient: bool,
                             plan: Plan, canReplace: bool, answer: Answer, at: Time, doneAt: Time)

  const WHY: Str := Text("the relayer gave up on it")

  // ---- numbers ----

  /** What an account's numbers come to once a send that took one has ended like this: kept, used
      up, or, when nobody knows, a gap that is kept until somebody does. */
  function Used(a: C.Account, sent: C.Sent): C.Account {
    match sent
    case No => a
    case Yes => if a.gap.Some? then a.(gap := None) else a.(next := a.next + 1)
    case Unknown => if a.gap.Some? then a else a.(next := a.next + 1, gap := Some(a.next))
  }

  /** An account with its gap's number, or else its next one, in somebody's hands. */
  function Out(a: C.Account): C.Account {
    if a.gap.Some? then a.(token := false, out := a.gap) else a.(token := false, next := a.next + 1, out := Some(a.next))
  }

  /** Resolving a number that was handed out like that leaves what the send's end makes of it. */
  lemma TakenComesBack(a: C.Account, sent: C.Sent)
    ensures a.token && a.out.None? ==>
      C.Resolved(Out(a), if a.gap.Some? then a.gap.value else a.next, a.gap.Some?, sent) == (Used(a, sent), None)
  {
  }

  lemma TakenIsOut(a: C.Account)
    ensures a.gap.None? ==> Out(a) == a.(token := false, next := a.next + 1, out := Some(a.next))
  {
  }

  lemma UnsentKeeps(a: C.Account)
    ensures Used(a, C.No) == a
  {
  }

  /** Only this account's numbers moved, and they moved as the send ended. */
  twostate predicate Accounted(numbers: C.Sequencer, account: Option<Str>, sent: C.Sent)
    reads numbers
  {
    && (forall n :: account != Some(n) ==> numbers.Of(n) == old(numbers.Of(n)))
    && (account.Some? && (old(numbers.Of(account.value)).token ==> old(numbers.Of(account.value)).out.None?) ==>
         numbers.Of(account.value) == Used(old(numbers.Of(account.value)), sent))
  }

  // ---- the calls of one delivery ----

  /** Claim, hold, send, confirm; a call that is refused makes the rest of them do nothing. */
  function PayCalls(ch: Chances, a: nat, numbers: Option<C.Account>): seq<S.Event> {
    if !ch.room || (numbers.Some? && !(ch.patient && numbers.value.token && numbers.value.gap.None?)) then []
    else [S.Event(a, ch.at, S.Go), S.Event(a, ch.at, S.Go), S.Event(a, ch.doneAt, S.GoSend(ch.answer.Outcome())), S.Event(a, ch.doneAt, S.Go)]
  }

  function ReviewCalls(at: Time, a: nat): seq<S.Event> {
    [S.Event(a, at, S.GoRescue(S.AskForReview(WHY))), S.Event(a, at, S.Go)]
  }

  function AgainCalls(ch: Chances, a: nat): seq<S.Event> {
    if ch.plan == Cancel then if ch.answer.Taken? then ReviewCalls(ch.doneAt, a) else []
    else [S.Event(a, ch.doneAt, S.GoRescue(S.Replace(ch.answer.Outcome()))), S.Event(a, ch.doneAt, S.Go)]
  }

  function RescueCalls(ch: Chances, a: nat, numbers: Option<C.Account>): seq<S.Event> {
    if ch.plan == Wait then []
    else if ch.plan == AskForReview || !ch.canReplace || numbers.None? then ReviewCalls(ch.at, a)
    else if !ch.room || !ch.patient || !numbers.value.token then []
    else if numbers.value.gap.None? && ch.plan == Cancel then ReviewCalls(ch.at, a)
    else if numbers.value.gap.None? && !ch.stillPatient then []
    else AgainCalls(ch, a)
  }

  /** Read, and then what the state that was read calls for. */
  function ProcessCalls(s: Shelf, id: Str, ch: Chances, a: nat, numbers: Option<C.Account>): seq<S.Event> {
    [S.Event(a, ch.at, S.Begin(id, S.Process))] +
    if id !in s.m then []
    else if s.m[id].state == Authorized then PayCalls(ch, a, numbers)
    else if s.m[id].state == Settling then RescueCalls(ch, a, numbers)
    else []
  }

  function GiveUpCalls(id: Str, nothingSent: bool, at: Time, a: nat): seq<S.Event> {
    [S.Event(a, at, S.Begin(id, S.GiveUp(nothingSent, WHY))), S.Event(a, at, S.Go), S.Event(a, at, S.Go)]
  }

  // ---- the worker ----

  class Worker {
    const store: MemoryStore
    const journal: Journal.MemoryJournal
    const numbers: C.Sequencer
    var sends: seq<S.Broadcast>
    var last: map<Str, C.Sent>

    ghost predicate Valid()
      reads store, journal
    {
      store.Valid() && journal.Valid()
    }

    ghost function View(): Shared
      reads `sends, store, journal
    {
      Shared(store.View(), journal.entries, sends)
    }

    /** The numbers of the account a delivery sends from, if its sender needs any. */
    function Numbers(account: Option<Str>): Option<C.Account>
      reads numbers
    {
      if account.Some? then Some(numbers.Of(account.value)) else None
    }

    constructor (store: MemoryStore, journal: Journal.MemoryJournal, numbers: C.Sequencer)
      requires store.Valid() && journal.Valid()
      ensures Valid() && this.store == store && this.journal == journal && this.numbers == numbers
      ensures sends == [] && last == map[]
    {
      this.store, this.journal, this.numbers := store, journal, numbers;
      sends, last := [], map[];
    }

    /** Apply to the copy in hand and write it back: whoever was faster shows up as a conflict. */
    method Advance(it: Intent, req: Request) returns (r: Result<Intent, Error>)
      requires Valid() && it.state != req.to
      modifies store
      ensures Valid()
      ensures var swap := S.CompareAndSwap(store.h, old(store.View()), it, req);
        && (r.Ok? <==> swap.Some?)
        && (swap.Some? ==> r == Ok(swap.value.1) && store.View() == swap.value.0)
        && (swap.None? ==> store.View() == old(store.View()))
      ensures r.Ok? ==> r.value == Moved(it, req) && store.m == old(store.m)[it.id := r.value]
      ensures it.id in old(store.m) && old(store.m[it.id]).version == it.version ==> r != Err(VersionConflict)
    {
      var rec := new Record(it);
      var applied := rec.Apply(req);
      if applied.Err? {
        return Err(applied.error);
      }
      var err := store.Save(rec.View(), it.version);
      if err.Some? {
        return Err(err.value);
      }
      return Ok(rec.View());
    }

    /** The actor stands at its claim on this payment. */
    ghost predicate At(from: S.World, a: nat, l: S.Local)
      reads `sends, store, journal
    {
      Valid() && SharedOf(from) == View() && a in from.locals && from.locals[a] == l
    }

    lemma Stands(from: S.World, a: nat, l: S.Local)
      requires At(from, a, l)
      ensures Valid() && SharedOf(from) == View() && a in from.locals && from.locals[a] == l
    {
    }

    /** Move on from the claim or to what was decided, unless somebody was faster. */
    method Swap(it: Intent, req: Request, ghost a: nat, ghost from: S.World) returns (r: Result<Intent, Error>)
      requires it.state != req.to && a in from.locals
      requires At(from, a, if from.locals[a].Claiming? then S.Claiming(it) else S.Saving(it, req))
      requires from.locals[a].Claiming? ==> req == Request(Settling, Relayer, [], [], req.at)
      modifies store
      ensures var to := S.Next(journal.c, store.h, from, S.Event(a, req.at, S.Go));
        At(to, a, if r.Ok? && from.locals[a].Claiming? then S.Holding(r.value) else S.Idle)
      ensures r.Ok? ==> r.value == Moved(it, req) && store.m == old(store.m)[it.id := r.value]
      ensures r.Err? ==> store.m == old(store.m)
      ensures it.id in old(store.m) && old(store.m[it.id]).version == it.version ==> r != Err(VersionConflict)
    {
      hide S.CompareAndSwap, S.Next, Moved;
      SwapStep(journal.c, store.h, from, a, req.at);
      r := Advance(it, req);
    }

    /** Book the hold before anything is sent. */
    method Hold(it: Intent, at: Time, ghost a: nat, ghost from: S.World) returns (held: bool)
      requires At(from, a, S.Holding(it))
      modifies journal
      ensures var to := S.Next(journal.c, store.h, from, S.Event(a, at, S.Go));
        At(to, a, if held then S.Sending(it) else S.Idle)
    {
      hide Journal.AppendTo, S.HoldEntry, S.Next;
      HoldStep(journal.c, store.h, from, a, at);
      var booked := journal.Append(S.HoldEntry(it));
      held := booked.Ok?;
    }

    /** Let go of a payment's hold; that there is none, or that it was resolved, is no obstacle to failing it. */
    method Free(it: Intent, at: Time, ghost a: nat, ghost from: S.World) returns (freed: bool)
      requires At(from, a, S.Voiding(it, WHY))
      modifies journal
      ensures var to := S.Next(journal.c, store.h, from, S.Event(a, at, S.Go));
        At(to, a, if freed then S.Saving(it, Request(Failed, Relayer, [], WHY, at)) else S.Idle)
    {
      hide Journal.AppendTo, S.VoidEntry, S.Next;
      VoidStep(journal.c, store.h, from, a, at);
      var booked := journal.Append(S.VoidEntry(it));
      freed := booked.Ok? || booked.error == Ledger.NoSuchHold || booked.error == Ledger.AlreadyResolved;
    }

    /** Send, note how it ended, confirm. */
    method Send(it: Intent, ch: Chances, ghost a: nat, ghost from: S.World) returns (r: Report, ghost to: S.World)
      requires it.state == Settling && At(from, a, S.Sending(it))
      modifies this, store
      ensures Valid() && SharedOf(to) == View()
      ensures to == After(journal.c, store.h, from, [S.Event(a, ch.doneAt, S.GoSend(ch.answer.Outcome())), S.Event(a, ch.doneAt, S.Go)])
      ensures sends == old(sends) + [S.Sent(it.id)] && last == old(last)[it.id := ch.answer.Sent()]
      ensures !Again(r) ==> it.id in store.m && store.m[it.id].state == Confirming && r == Done(store.m[it.id].txHash)
    {
      hide After, S.Next;
      ghost var send, end := S.Event(a, ch.doneAt, S.GoSend(ch.answer.Outcome())), S.Event(a, ch.doneAt, S.Go);
      ghost var mid := S.Next(journal.c, store.h, from, send);
      to := S.Next(journal.c, store.h, mid, end);
      AfterTwo(journal.c, store.h, from, send, mid, end, to);
      SendStep(journal.c, store.h, from, a, ch.doneAt, ch.answer.Outcome());
      sends := sends + [S.Sent(it.id)];
      last := last[it.id := ch.answer.Sent()];
      if !ch.answer.Taken? {
        IdleStep(journal.c, store.h, mid, end);
        return Retry, to;
      }
      var done := Swap(it, S.Confirmed(ch.answer.txHash, ch.doneAt), a, mid);
      return (if done.Err? then Broken else Done(ch.answer.txHash)), to;
    }

    /** Claim, hold, and only then send. */
    method Carry(it: Intent, ch: Chances, ghost a: nat, ghost from: S.World) returns (r: Report, sent: C.Sent, ghost to: S.World)
      requires it.state == Authorized && At(from, a, S.Claiming(it))
      modifies this, store, journal
      ensures Valid() && SharedOf(to) == View() && to == After(journal.c, store.h, from, PayCalls(ch.(room := true), a, None))
      ensures sends == old(sends) || sends == old(sends) + [S.Sent(it.id)]
      ensures sent == if sends == old(sends) then C.No else ch.answer.Sent()
      ensures last == if sends == old(sends) then old(last) else old(last)[it.id := sent]
      ensures !Again(r) ==> it.id in store.m && store.m[it.id].state == Confirming && r == Done(store.m[it.id].txHash)
    {
      hide After, S.Next, At, Valid, View;
      sent := C.No;
      ghost var go, send, end := S.Event(a, ch.at, S.Go), S.Event(a, ch.doneAt, S.GoSend(ch.answer.Outcome())), S.Event(a, ch.doneAt, S.Go);
      ghost var w1 := S.Next(journal.c, store.h, from, go);
      ghost var w2 := S.Next(journal.c, store.h, w1, go);
      AfterOne(journal.c, store.h, from, go, [go, send, end]);
      AfterOne(journal.c, store.h, w1, go, [send, end]);
      assert [go] + [go, send, end] == [go, go, send, end] && [go] + [send, end] == [go, send, end];
      Stands(from, a, S.Claiming(it));
      var claimed := Swap(it, Request(Settling, Relayer, [], [], ch.at), a, from);
      if claimed.Err? {
        to := w1;
        Stands(to, a, S.Idle);
        IdleForever(journal.c, store.h, to, a, [go, send, end]);
        return (if claimed.error == VersionConflict then Retry else Broken), sent, to;
      }
      var copy := claimed.value;
      var held := Hold(copy, ch.at, a, w1);
      if !held {
        to := w2;
        Stands(to, a, S.Idle);
        IdleForever(journal.c, store.h, to, a, [send, end]);
        return Broken, sent, to;
      }
      sent := ch.answer.Sent();
      r, to := Send(copy, ch, a, w2);
    }

    /** Take this account's next number, if there is one to be had. */
    method TakeNumber(name: Str, patient: bool) returns (r: Option<C.Reservation>)
      modifies numbers
      ensures forall n :: n != name ==> numbers.Of(n) == old(numbers.Of(n))
      ensures var was := old(numbers.Of(name));
        if r.Some? then patient && was.token && was.gap.None? && r.value == C.Reservation(name, was.next, true, false)
                        && name in numbers.accounts && numbers.Of(name) == was.(token := false, next := was.next + 1, out := Some(was.next))
        else !(patient && was.token && was.gap.None?) && numbers.Of(name) == was
    {
      var taken := numbers.Take(name, patient);
      if !taken {
        return None;
      }
      var got := numbers.Reserve(name);
      return if got.Ok? then Some(got.value) else None;
    }

    /** Take the gap's number; failing that, and unless it is only to be cleared, the next one. */
    method TakeGap(name: Str, ch: Chances) returns (r: Option<C.Reservation>, noGap: bool)
      modifies numbers
      ensures forall n :: n != name ==> numbers.Of(n) == old(numbers.Of(n))
      ensures var was := old(numbers.Of(name));
        && (noGap <==> ch.patient && was.token && was.gap.None? && ch.plan == Cancel)
        && (r.Some? <==> ch.patient && was.token && (was.gap.Some? || (ch.plan != Cancel && ch.stillPatient)))
        && (r.None? ==> numbers.Of(name) == was)
        && (r.Some? ==> name in numbers.accounts && numbers.Of(name) == Out(was))
        && (r.Some? ==> r.value == C.Reservation(name, if was.gap.Some? then was.gap.value else was.next, true, was.gap.Some?))
    {
      var taken := numbers.Take(name, ch.patient);
      if !taken {
        return None, false;
      }
      var got := numbers.ReserveGap(name);
      if got.Ok? {
        return Some(got.value), false;
      }
      if ch.plan == Cancel {
        return None, true;
      }
      r := TakeNumber(name, ch.stillPatient);
      return r, false;
    }

    /** What one delivery does to an authorized payment, number and all. */
    method Pay(it: Intent, ch: Chances, ghost a: nat, ghost from: S.World) returns (r: Report, sent: C.Sent, ghost to: S.World)
      requires it.state == Authorized && At(from, a, S.Claiming(it))
      modifies this, store, journal, numbers
      ensures Valid() && SharedOf(to) == View() && to == After(journal.c, store.h, from, PayCalls(ch, a, old(Numbers(ch.account))))
      ensures sends == old(sends) || sends == old(sends) + [S.Sent(it.id)]
      ensures sent == if sends == old(sends) then C.No else ch.answer.Sent()
      ensures last == if sends == old(sends) then old(last) else old(last)[it.id := sent]
      ensures Accounted(numbers, ch.account, sent)
      ensures !Again(r) ==> it.id in store.m && store.m[it.id].state == Confirming && r == Done(store.m[it.id].txHash)
    {
      hide After, S.Next, At, Valid, View, Out, Used, C.Resolved;
      Stands(from, a, S.Claiming(it));
      AfterNone(journal.c, store.h, from);
      ghost var was := numbers.Of(if ch.account.Some? then ch.account.value else []);
      UnsentKeeps(was);
      sent, to := C.No, from;
      if !ch.room {
        return Retry, sent, to;
      }
      if ch.account.None? {
        r, sent, to := Carry(it, ch, a, from);
        return r, sent, to;
      }
      var slot := TakeNumber(ch.account.value, ch.patient);
      if slot.None? {
        return Retry, sent, to;
      }
      TakenIsOut(was);
      TakenComesBack(was, C.No);
      r, sent, to := Carry(it, ch, a, from);
      TakenComesBack(was, sent);
      var _ := numbers.Resolve(slot.value, sent);
    }

    /** Save what the rescuer decided, after its plan was carried out. */
    method PlanAndSave(it: Intent, plan: S.Plan, req: Request, at: Time, ghost a: nat, ghost from: S.World) returns (err: Option<Error>, ghost to: S.World)
      requires it.state == Settling && At(from, a, S.Rescuing(it)) && req.to != Settling && req.at == at
      requires S.Rescue(from, a, it, plan, at).locals[a] == S.Saving(it, req) && !plan.KeepWaiting?
      modifies this, store
      ensures Valid() && SharedOf(to) == View() && last == old(last)
      ensures to == After(journal.c, store.h, from, [S.Event(a, at, S.GoRescue(plan)), S.Event(a, at, S.Go)])
      ensures sends == if plan.Replace? then old(sends) + [S.Replaced(it.id)] else old(sends)
      ensures store.m == if err.Some? then old(store.m) else old(store.m)[it.id := Moved(it, req)]
      ensures it.id in old(store.m) && old(store.m[it.id]).version == it.version ==> err != Some(VersionConflict)
    {
      hide After, S.Next, S.CompareAndSwap;
      ghost var first, second := S.Event(a, at, S.GoRescue(plan)), S.Event(a, at, S.Go);
      ghost var mid := S.Next(journal.c, store.h, from, first);
      to := S.Next(journal.c, store.h, mid, second);
      AfterTwo(journal.c, store.h, from, first, mid, second, to);
      RescueStep(journal.c, store.h, from, a, at, plan);
      if plan.Replace? {
        sends := sends + [S.Replaced(it.id)];
      }
      var saved := Swap(it, req, a, mid);
      err := if saved.Err? then Some(saved.error) else None;
    }

    /** Hand a stuck payment to people. */
    method SendToReview(it: Intent, at: Time, ghost a: nat, ghost from: S.World) returns (r: Report, ghost to: S.World)
      requires it.state == Settling && At(from, a, S.Rescuing(it))
      modifies this, store
      ensures Valid() && SharedOf(to) == View() && to == After(journal.c, store.h, from, ReviewCalls(at, a))
      ensures sends == old(sends) && last == old(last)
      ensures r == Review || r == Retry || r == Broken
      ensures r == Review ==> it.id in store.m && store.m[it.id].state == NeedsReview
      ensures it.id in old(store.m) && old(store.m[it.id]).version == it.version ==> r != Retry
    {
      hide After;
      var err;
      err, to := PlanAndSave(it, S.AskForReview(WHY), Request(NeedsReview, Relayer, [], WHY, at), at, a, from);
      r := if err == None then Review else if err == Some(VersionConflict) then Retry else Broken;
    }

    /** With a number in hand: the same payment at a better price, or nothing at all in its place. */
    method SendAgain(it: Intent, ch: Chances, ghost a: nat, ghost from: S.World) returns (r: Report, ghost to: S.World)
      requires it.state == Settling && At(from, a, S.Rescuing(it)) && it.id in store.m && store.m[it.id] == it
      modifies this, store
      ensures Valid() && SharedOf(to) == View() && to == After(journal.c, store.h, from, AgainCalls(ch, a))
      ensures last == old(last) && sends == if ch.plan == Cancel then old(sends) else old(sends) + [S.Replaced(it.id)]
      ensures !Again(r) ==> it.id in store.m && store.m[it.id].state == if ch.plan == Cancel then NeedsReview else Confirming
      ensures r.Replaced? ==> ch.answer == Taken(r.txHash) && store.m[it.id].txHash == r.txHash
    {
      hide After, S.Next;
      to := from;
      if ch.plan == Cancel {
        if !ch.answer.Taken? {
          AfterNone(journal.c, store.h, from);
          return Retry, to;
        }
        r, to := SendToReview(it, ch.doneAt, a, from);
        return (if r == Broken then r else Cleared(ch.answer.txHash)), to;
      }
      var plan := S.Replace(ch.answer.Outcome());
      if !ch.answer.Taken? {
        ghost var first, second := S.Event(a, ch.doneAt, S.GoRescue(plan)), S.Event(a, ch.doneAt, S.Go);
        to := S.Next(journal.c, store.h, from, first);
        RescueStep(journal.c, store.h, from, a, ch.doneAt, plan);
        IdleStep(journal.c, store.h, to, second);
        AfterTwo(journal.c, store.h, from, first, to, second, to);
        sends := sends + [S.Replaced(it.id)];
        return Retry, to;
      }
      var err;
      err, to := PlanAndSave(it, plan, S.Confirmed(ch.answer.txHash, ch.doneAt), ch.doneAt, a, from);
      r := if err == None then Replaced(ch.answer.txHash) else if err == Some(VersionConflict) then Retry else Broken;
    }

    /** What one delivery does to a payment stuck in settling. */
    method Rescue(it: Intent, ch: Chances, ghost a: nat, ghost from: S.World) returns (r: Report, sent: C.Sent, ghost to: S.World)
      requires it.state == Settling && At(from, a, S.Rescuing(it)) && it.id in store.m && store.m[it.id] == it
      modifies this, store, numbers
      ensures Valid() && SharedOf(to) == View() && to == After(journal.c, store.h, from, RescueCalls(ch, a, old(Numbers(ch.account))))
      ensures sends == old(sends) || (sends == old(sends) + [S.Replaced(it.id)] && sent == ch.answer.Sent())
      ensures sent != C.No ==> last == old(last)[it.id := sent]
      ensures Accounted(numbers, ch.account, sent)
      ensures !Again(r) ==> it.id in store.m && !Pending(store.m[it.id].state)
    {
      hide After, S.Next, S.Rescue, AgainCalls, ReviewCalls;
      AfterNone(journal.c, store.h, from);
      sent, to := C.No, from;
      if ch.plan == Wait {
        return Retry, sent, to;
      }
      if ch.plan == AskForReview || !ch.canReplace || ch.account.None? {
        r, to := SendToReview(it, ch.at, a, from);
        return r, sent, to;
      }
      if !ch.room {
        return Retry, sent, to;
      }
      r, sent, to := RescueOn(it, ch, a, from);
    }

    /** The same, once there is room to send from this account. */
    method RescueOn(it: Intent, ch: Chances, ghost a: nat, ghost from: S.World) returns (r: Report, sent: C.Sent, ghost to: S.World)
      requires it.state == Settling && At(from, a, S.Rescuing(it)) && it.id in store.m && store.m[it.id] == it
      requires (ch.plan == SpeedUp || ch.plan == Cancel) && ch.canReplace && ch.room && ch.account.Some?
      modifies this, store, numbers
      ensures Valid() && SharedOf(to) == View() && to == After(journal.c, store.h, from, RescueCalls(ch, a, old(Numbers(ch.account))))
      ensures sends == old(sends) || (sends == old(sends) + [S.Replaced(it.id)] && sent == ch.answer.Sent())
      ensures sent != C.No ==> last == old(last)[it.id := sent]
      ensures Accounted(numbers, ch.account, sent)
      ensures !Again(r) ==> it.id in store.m && !Pending(store.m[it.id].state)
    {
      hide After, S.Next, S.Rescue, AgainCalls, ReviewCalls, Out, Used, C.Resolved, At, Valid, View;
      Stands(from, a, S.Rescuing(it));
      AfterNone(journal.c, store.h, from);
      sent, to := C.No, from;
      UnsentKeeps(numbers.Of(ch.account.value));
      var slot, noGap := TakeGap(ch.account.value, ch);
      if noGap {
        r, to := SendToReview(it, ch.at, a, from);
        return r, sent, to;
      }
      if slot.None? {
        return Retry, sent, to;
      }
      r, to := SendOn(it, ch, slot.value, old(numbers.Of(ch.account.value)), a, from);
      sent := ch.answer.Sent();
    }

    /** With this number in hand: note how the send ended, and give the number back as it did. */
    method SendOn(it: Intent, ch: Chances, slot: C.Reservation, ghost was: C.Account, ghost a: nat, ghost from: S.World)
      returns (r: Report, ghost to: S.World)
      requires it.state == Settling && At(from, a, S.Rescuing(it)) && it.id in store.m && store.m[it.id] == it
      requires slot == C.Reservation(slot.account, if was.gap.Some? then was.gap.value else was.next, true, was.gap.Some?)
      requires slot.account in numbers.accounts && numbers.Of(slot.account) == Out(was)
      modifies this, store, numbers
      ensures Valid() && SharedOf(to) == View() && to == After(journal.c, store.h, from, AgainCalls(ch, a))
      ensures last == old(last)[it.id := ch.answer.Sent()] && (sends == old(sends) || sends == old(sends) + [S.Replaced(it.id)])
      ensures forall n :: n != slot.account ==> numbers.Of(n) == old(numbers.Of(n))
      ensures was.token && was.out.None? ==> numbers.Of(slot.account) == Used(was, ch.answer.Sent())
      ensures !Again(r) ==> it.id in store.m && !Pending(store.m[it.id].state)
    {
      hide After, S.Next, AgainCalls, Out, Used, C.Resolved, At, Valid, View;
      last := last[it.id := ch.answer.Sent()];
      r, to := SendAgain(it, ch, a, from);
      TakenComesBack(was, ch.answer.Sent());
      var _ := numbers.Resolve(slot, ch.answer.Sent());
    }

    /** One delivery of a job, whatever state its payment is in. */
    method Process(id: Str, ch: Chances, ghost a: nat, ghost from: S.World) returns (r: Report, sent: C.Sent, ghost to: S.World)
      requires Valid() && SharedOf(from) == View()
      modifies this, store, journal, numbers
      ensures Valid() && SharedOf(to) == View()
      ensures to == After(journal.c, store.h, from, ProcessCalls(old(store.View()), id, ch, a, old(Numbers(ch.account))))
      ensures sends == old(sends) || ((sends == old(sends) + [S.Sent(id)] || sends == old(sends) + [S.Replaced(id)]) && sent == ch.answer.Sent())
      ensures sent != C.No ==> last == old(last)[id := sent]
      ensures Accounted(numbers, ch.account, sent)
      ensures !Again(r) ==> id !in store.m || !Pending(store.m[id].state)
    {
      hide After, S.Next, PayCalls, RescueCalls;
      sent := C.No;
      ghost var begin := S.Event(a, ch.at, S.Begin(id, S.Process));
      to := S.Next(journal.c, store.h, from, begin);
      BeginStep(journal.c, store.h, from, a, id, S.Process, ch.at);
      AfterNone(journal.c, store.h, to);
      ghost var had := Numbers(ch.account);
      AfterOne(journal.c, store.h, from, begin, []);
      AfterOne(journal.c, store.h, from, begin, PayCalls(ch, a, had));
      AfterOne(journal.c, store.h, from, begin, RescueCalls(ch, a, had));
      var got := store.Get(id);
      if got.Err? {
        return Noop, sent, to;
      }
      var it := got.value;
      if it.state == Created {
        return Retry, sent, to;
      }
      if it.state == Authorized {
        r, sent, to := Pay(it, ch, a, to);
        return r, sent, to;
      }
      if it.state == Settling {
        r, sent, to := Rescue(it, ch, a, to);
        return r, sent, to;
      }
      return Noop, sent, to;
    }

    /** What is done about a payment whose job will not be delivered again: fail it when its last
        send certainly did not leave, after letting go of its hold; otherwise ask people. */
    method GiveUp(id: Str, at: Time, ghost a: nat, ghost from: S.World) returns (r: Report, ghost to: S.World)
      requires Valid() && SharedOf(from) == View()
      modifies store, journal
      ensures Valid() && SharedOf(to) == View()
      ensures to == After(journal.c, store.h, from, GiveUpCalls(id, id in last && last[id] == C.No, at, a))
      ensures r == Poison && id in old(store.m) && old(store.m[id]).state == Settling ==>
        id in store.m && store.m[id].state == if id in last && last[id] == C.No then Failed else NeedsReview
      ensures r == Poison || r == Retry || r == Broken
    {
      hide After, S.Next;
      var nothingSent := id in last && last[id] == C.No;
      ghost var begin, go := S.Event(a, at, S.Begin(id, S.GiveUp(nothingSent, WHY))), S.Event(a, at, S.Go);
      ghost var w1 := S.Next(journal.c, store.h, from, begin);
      ghost var w2 := S.Next(journal.c, store.h, w1, go);
      to := S.Next(journal.c, store.h, w2, go);
      AfterOne(journal.c, store.h, from, begin, [go, go]);
      assert [begin] + [go, go] == GiveUpCalls(id, nothingSent, at, a);
      AfterTwo(journal.c, store.h, w1, go, w2, go, to);
      BeginStep(journal.c, store.h, from, a, id, S.GiveUp(nothingSent, WHY), at);
      var got := store.Get(id);
      if got.Err? || got.value.state != Settling {
        IdleStep(journal.c, store.h, w1, go);
        return Poison, to;
      }
      var it := got.value;
      var saved;
      if !nothingSent {
        saved := Swap(it, Request(NeedsReview, Relayer, [], WHY, at), a, w1);
        IdleStep(journal.c, store.h, w2, go);
      } else {
        var freed := Free(it, at, a, w1);
        if !freed {
          IdleStep(journal.c, store.h, w2, go);
          return Broken, to;
        }
        saved := Swap(it, Request(Failed, Relayer, [], WHY, at), a, w2);
      }
      r := if saved.Ok? then Poison else if saved.error == VersionConflict then Retry else Broken;
    }
  }
}
