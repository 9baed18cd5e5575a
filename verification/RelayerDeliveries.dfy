/** What a delivery makes of a payment, said in what it met: the fee policy's plan, the sender, the limiter,
    the account's numbers and the sender's answer. */
module RelayerDeliveries {
  import opened Bytes
  import opened Intent
  import opened Relayer
  import S = Settlement
  import C = Counter
  import IntentHistory
  import SettlementProgress
  import SettlementSafety
  import Steps = SettlementSteps
  import Journal

  // ---- a payment that was authorized ----

  /** Room at the limiter, and the account's next number where its sender needs numbers: nobody holds the
      token, and no gap is waiting for it. */
  predicate CanSend(ch: Chances, numbers: Option<C.Account>) {
    ch.room && (numbers.Some? ==> ch.patient && numbers.value.token && numbers.value.gap == None)
  }

  /** One undisturbed delivery of an authorized payment, from any reachable state: it is claimed exactly when
      it can be sent, sent behind its hold exactly when that can be booked, and confirming exactly when the
      sender then named a hash. */
  lemma PayEnds(c: Journal.RowHasher, h: Hasher, es: seq<S.Event>, a: nat, id: Str, ch: Chances, numbers: Option<C.Account>)
    requires id in S.Run(c, h, es).shelf.m && S.Run(c, h, es).shelf.m[id].state == Authorized
    ensures var w := S.Run(c, h, es);
      var w' := S.Run(c, h, es + ProcessCalls(w.shelf, id, ch, a, numbers));
      var sends := CanSend(ch, numbers) && w.shelf.m[id].ref != ZERO && ch.at != 0;
      && id in w'.shelf.m && w'.broadcasts == w.broadcasts + (if sends then [S.Sent(id)] else [])
      && w'.shelf.m[id].state == (if !CanSend(ch, numbers) then Authorized else if sends && ch.answer.Taken? && ch.answer.txHash != [] then Confirming else Settling)
      && (w'.shelf.m[id].state == Confirming ==> w'.shelf.m[id].txHash == ch.answer.txHash)
  {
    var w := S.Run(c, h, es);
    var begin := S.Event(a, ch.at, S.Begin(id, S.Process));
    if CanSend(ch, numbers) {
      SettlementProgress.DeliveryPays(c, h, es, a, id, ch.at, ch.answer.Outcome(), ch.doneAt);
      assert ProcessCalls(w.shelf, id, ch, a, numbers) == SettlementProgress.DeliveryOf(a, id, ch.at, ch.answer.Outcome(), ch.doneAt);
      hide S.Run, SettlementProgress.DeliveryOf, ProcessCalls;
    } else {
      assert ProcessCalls(w.shelf, id, ch, a, numbers) == [begin];
      hide ProcessCalls, S.Run, S.Next;
      Steps.RunGoesOn(c, h, es, [begin]);
      Steps.AfterOne(c, h, w, begin, []);
      Steps.AfterNone(c, h, S.Next(c, h, w, begin));
      assert [begin] + [] == [begin];
      Steps.BeginStep(c, h, w, a, id, S.Process, ch.at);
    }
  }

  // ---- a payment stuck in settling ----

  /** Everything it takes to send once more: a sender that can replace, room at the limiter, an account,
      its token, and a number: the gap's, or a new one unless the slot is only to be cleared. */
  predicate Ready(ch: Chances, numbers: Option<C.Account>) {
    && ch.canReplace && ch.room && ch.patient && numbers.Some? && numbers.value.token
    && (numbers.value.gap.Some? || (ch.plan == SpeedUp && ch.stillPatient))
  }

  /** The payment itself is sent again. */
  predicate SendsAgain(ch: Chances, numbers: Option<C.Account>) { ch.plan == SpeedUp && Ready(ch, numbers) }

  /** People are asked: the policy says so, or there is no second transaction to try, or the slot to be
      cleared holds nothing back, or it was cleared and what became of the payment is open. */
  predicate AsksPeople(ch: Chances, numbers: Option<C.Account>) {
    || ch.plan == AskForReview
    || (ch.plan != Wait && (!ch.canReplace || numbers.None?))
    || (ch.plan == Cancel && ch.room && ch.patient && numbers.Some? && numbers.value.token && (numbers.value.gap.None? || ch.answer.Taken?))
  }

  /** A slot is cleared before people are asked about the payment in it. */
  function AskedAt(ch: Chances, numbers: Option<C.Account>): Time {
    if ch.plan == Cancel && ch.canReplace && numbers.Some? && numbers.value.gap.Some? then ch.doneAt else ch.at
  }

  /** At most one of the two, and the calls are the ones for it; otherwise nothing is called. */
  lemma CallsSay(ch: Chances, a: nat, numbers: Option<C.Account>)
    ensures !(SendsAgain(ch, numbers) && AsksPeople(ch, numbers))
    ensures var calls := RescueCalls(ch, a, numbers);
      if SendsAgain(ch, numbers) then calls == [S.Event(a, ch.doneAt, S.GoRescue(S.Replace(ch.answer.Outcome()))), S.Event(a, ch.doneAt, S.Go)]
      else if AsksPeople(ch, numbers) then calls == ReviewCalls(AskedAt(ch, numbers), a)
      else calls == []
  {
  }

  lemma ReplaceSteps(c: Journal.RowHasher, h: Hasher, w: S.World, a: nat, it: Intent, out: S.Outcome, at: Time)
    requires it.id in w.shelf.m && w.shelf.m[it.id] == it && it.state == Settling && IntentHistory.Told(h, it)
    requires a in w.locals && w.locals[a] == S.Rescuing(it)
    ensures var w', taken := Steps.After(c, h, w, [S.Event(a, at, S.GoRescue(S.Replace(out))), S.Event(a, at, S.Go)]), out.Accepted? && out.txHash != [];
      && w'.shelf.m == (if taken then w.shelf.m[it.id := Moved(it, S.Confirmed(out.txHash, at))] else w.shelf.m)
      && w'.broadcasts == w.broadcasts + [S.Replaced(it.id)] && w'.books == w.books
      && (taken ==> w'.shelf.m[it.id].state == Confirming && w'.shelf.m[it.id].txHash == out.txHash)
  {
    hide S.CompareAndSwap, S.Next, IntentHistory.StepTold, IntentHistory.WellOpened;
    var first, go := S.Event(a, at, S.GoRescue(S.Replace(out))), S.Event(a, at, S.Go);
    var w1 := S.Next(c, h, w, first);
    Steps.AfterTwo(c, h, w, first, w1, go, S.Next(c, h, w1, go));
    Steps.RescueStep(c, h, w, a, at, S.Replace(out));
    if out.Accepted? {
      Steps.SwapStep(c, h, w1, a, at);
      SettlementProgress.ConfirmSwap(h, w1.shelf, it, out.txHash, at);
    } else {
      Steps.IdleStep(c, h, w1, go);
    }
  }

  lemma ReviewSteps(c: Journal.RowHasher, h: Hasher, w: S.World, a: nat, it: Intent, at: Time)
    requires it.id in w.shelf.m && w.shelf.m[it.id] == it && it.state == Settling && IntentHistory.Told(h, it)
    requires a in w.locals && w.locals[a] == S.Rescuing(it)
    ensures var w', req := Steps.After(c, h, w, ReviewCalls(at, a)), Request(NeedsReview, Relayer, [], WHY, at);
      w'.shelf.m == w.shelf.m[it.id := Moved(it, req)] && w'.broadcasts == w.broadcasts && w'.books == w.books
  {
    hide S.CompareAndSwap, S.Next, IntentHistory.StepTold, IntentHistory.WellOpened;
    var first, go := S.Event(a, at, S.GoRescue(S.AskForReview(WHY))), S.Event(a, at, S.Go);
    var w1 := S.Next(c, h, w, first);
    Steps.AfterTwo(c, h, w, first, w1, go, S.Next(c, h, w1, go));
    Steps.RescueStep(c, h, w, a, at, S.AskForReview(WHY));
    Steps.SwapStep(c, h, w1, a, at);
    assert WHY != [];
    SettlementProgress.FreshSwap(h, w1.shelf, it.id, Request(NeedsReview, Relayer, [], WHY, at));
  }

  function RescueOf(a: nat, id: Str, ch: Chances, numbers: Option<C.Account>): seq<S.Event> {
    [S.Event(a, ch.at, S.Begin(id, S.Process))] + RescueCalls(ch, a, numbers)
  }

  /** One undisturbed delivery of a stuck payment, from any reachable state: it is replaced on the chain
      exactly when the policy speeds it up and all it takes is at hand, and then it is confirming exactly
      when the sender named a hash; it goes to people exactly when they are to be asked; otherwise it
      stays as it was. Nothing is booked, and no other payment is touched. */
  lemma RescueEnds(c: Journal.RowHasher, h: Hasher, es: seq<S.Event>, a: nat, id: Str, ch: Chances, numbers: Option<C.Account>)
    requires id in S.Run(c, h, es).shelf.m && S.Run(c, h, es).shelf.m[id].state == Settling
    ensures var w, w' := S.Run(c, h, es), S.Run(c, h, es + RescueOf(a, id, ch, numbers));
      var again := SendsAgain(ch, numbers);
      && w'.shelf.m.Keys == w.shelf.m.Keys && (forall x :: x in w.shelf.m && x != id ==> w'.shelf.m[x] == w.shelf.m[x])
      && w'.books == w.books && w'.broadcasts == w.broadcasts + (if again then [S.Replaced(id)] else [])
      && w'.shelf.m[id].state == (if again && ch.answer.Taken? && ch.answer.txHash != [] then Confirming
                                  else if AsksPeople(ch, numbers) then NeedsReview else Settling)
      && (w'.shelf.m[id].state == Confirming ==> w'.shelf.m[id].txHash == ch.answer.txHash)
  {
    hide *;
    var w := S.Run(c, h, es);
    SettlementSafety.RunKeeps(c, h, es);
    SettlementProgress.InvSays(c, w);
    IntentHistory.HistoriesAreTold(c, h, es);
    SettlementProgress.ToldOf(h, w.shelf.m, id);
    Steps.RunGoesOn(c, h, es, RescueOf(a, id, ch, numbers));
    RescueFrom(c, h, w, a, id, ch, numbers);
  }

  lemma RescueFrom(c: Journal.RowHasher, h: Hasher, w: S.World, a: nat, id: Str, ch: Chances, numbers: Option<C.Account>)
    requires id in w.shelf.m && w.shelf.m[id].id == id && w.shelf.m[id].state == Settling && IntentHistory.Told(h, w.shelf.m[id])
    ensures var w' := Steps.After(c, h, w, RescueOf(a, id, ch, numbers));
      var again := SendsAgain(ch, numbers);
      && w'.shelf.m.Keys == w.shelf.m.Keys && (forall x :: x in w.shelf.m && x != id ==> w'.shelf.m[x] == w.shelf.m[x])
      && w'.books == w.books && w'.broadcasts == w.broadcasts + (if again then [S.Replaced(id)] else [])
      && w'.shelf.m[id].state == (if again && ch.answer.Taken? && ch.answer.txHash != [] then Confirming
                                  else if AsksPeople(ch, numbers) then NeedsReview else Settling)
      && (w'.shelf.m[id].state == Confirming ==> w'.shelf.m[id].txHash == ch.answer.txHash)
  {
    CallsSay(ch, a, numbers);
    hide S.Next, IntentHistory.Told, Steps.After, RescueCalls, ReviewCalls, SendsAgain, AsksPeople;
    var begin := S.Event(a, ch.at, S.Begin(id, S.Process));
    Steps.BeginStep(c, h, w, a, id, S.Process, ch.at);
    Steps.AfterOne(c, h, w, begin, RescueCalls(ch, a, numbers));
    var w1 := S.Next(c, h, w, begin);
    if SendsAgain(ch, numbers) {
      ReplaceSteps(c, h, w1, a, w.shelf.m[id], ch.answer.Outcome(), ch.doneAt);
    } else if AsksPeople(ch, numbers) {
      ReviewSteps(c, h, w1, a, w.shelf.m[id], AskedAt(ch, numbers));
    } else {
      Steps.AfterNone(c, h, w1);
    }
  }
}
