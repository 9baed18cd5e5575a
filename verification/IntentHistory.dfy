/** What the history of a payment says, whoever moved it: the steps it may hold, and what the
    intent's own fields owe to them. */
module IntentHistory {
  import opened Bytes
  import opened Intent
  import opened Settlement
  import opened SettlementInvariant
  import IntentStore
  import SettlementSafety
  import Journal

  // ---- one step ----

  /** Who may take a payment where, and with what in hand: state by state, how it is entered. */
  predicate Enters(t: Transition) {
    var hash, why := t.txHash != [], t.reason != [];
    match t.to
    case Created => false
    case Authorized => t.from == Created && t.actor == API
    case Settling => (t.from == Authorized && t.actor == Relayer) || (t.from == Confirming && t.actor == Listener && why)
    case Confirming => t.from == Settling && (t.actor == Relayer || t.actor == Listener) && hash
    case NeedsReview => ((t.from == Settling && t.actor == Relayer) || (t.from == Confirming && t.actor == Listener)) && why
    case Settled => hash && ((t.from == Confirming && t.actor == Listener) || (t.from == NeedsReview && t.actor == Operator && why))
    case Failed => ((t.from == Settling && t.actor == Relayer) || (t.from == NeedsReview && t.actor == Operator)) && why
    case Canceled =>
      && why
      && ((t.from == Created && (t.actor == API || t.actor == Operator || t.actor == System))
          || (t.from == Authorized && (t.actor == API || t.actor == Operator)))
    case Unlisted(_) => false
  }

  predicate Asks(it: Intent, req: Request, t: Transition) {
    t == Transition(it.state, req.to, req.actor, req.at, req.txHash, req.reason)
  }

  /** The signing window of a payment that has one is still open. */
  predicate Open(it: Intent, at: Time) { it.expiresAt == 0 || at <= it.expiresAt }

  /** The hash a payment is settled on is the one on record, if there is one. */
  predicate Agrees(it: Intent, hash: Str) { it.txHash == [] || hash == it.txHash }

  /** A request moves a payment exactly when the step it asks for may be taken, in time and on the
      hash on record; the moved payment holds that step and owes its state, clock and hash to it. */
  lemma MovesWhen(it: Intent, req: Request, t: Transition)
    requires it.state != req.to && Asks(it, req, t)
    ensures Applied(it, req).Ok? <==> Enters(t) && (t.to == Authorized ==> Open(it, t.at)) && (t.to == Settled ==> Agrees(it, t.txHash))
    ensures Applied(it, req).Ok? ==> var (to, applied) := Applied(it, req).value;
      && applied && to.history == it.history + [t] && to.state == t.to && to.updatedAt == t.at && to.SameTerms(it)
      && to.createdAt == it.createdAt && to.expiresAt == it.expiresAt
  {
  }

  // ---- a whole history ----

  /** What a payment was opened with. */
  predicate WellOpened(h: Hasher, it: Intent) {
    && it.id != [] && it.chain != [] && it.token != [] && it.payer != [] && it.merchant != []
    && it.amount > 0 && (it.expiresAt == 0 || it.createdAt < it.expiresAt)
    && IntentStore.OwnRef(h, it)
  }

  /** No step after the i-th takes the payment back to settling. */
  ghost predicate Kept(history: seq<Transition>, i: nat) {
    forall k :: i < k < |history| ==> history[k].to != Settling
  }

  predicate OnChain(s: State) { s == Confirming || s == Settled }

  ghost predicate StepTold(it: Intent, i: nat)
    requires i < |it.history|
  {
    var t := it.history[i];
    && Enters(t)
    && t.from == (if i == 0 then Created else it.history[i - 1].to)
    && (t.to == Authorized ==> Open(it, t.at))
    && (OnChain(t.to) && Kept(it.history, i) ==> it.txHash == t.txHash)
  }

  /** A history of steps that may be taken, from created on; the last one gives the state and the
      clock, and the hash on record is that of the last look at the chain that was not taken back. */
  ghost predicate Told(h: Hasher, it: Intent) {
    && WellOpened(h, it)
    && (forall i :: 0 <= i < |it.history| ==> StepTold(it, i))
    && it.version == |it.history| + 1
    && it.state == (if it.history == [] then Created else it.history[|it.history| - 1].to)
    && it.updatedAt == (if it.history == [] then it.createdAt else it.history[|it.history| - 1].at)
  }

  lemma NewIsTold(h: Hasher, s: Spec, now: Time)
    ensures New(h, s, now).Ok? <==>
      s.id != [] && s.chain != [] && s.token != [] && s.payer != [] && s.merchant != [] && s.amount > 0 && (s.expiresAt == 0 || now < s.expiresAt)
    ensures New(h, s, now).Ok? ==> Told(h, New(h, s, now).value)
  {
  }

  lemma KeptLonger(history: seq<Transition>, t: Transition, i: nat)
    requires i < |history|
    ensures Kept(history + [t], i) <==> Kept(history, i) && t.to != Settling
  {
    var longer := history + [t];
    assert longer[|history|] == t;
    assert forall k :: i < k < |history| ==> longer[k] == history[k];
  }

  lemma StepsStayTold(h: Hasher, it: Intent, req: Request, t: Transition, i: nat)
    requires Told(h, it) && it.state != req.to && Applied(it, req).Ok? && Asks(it, req, t) && i <= |it.history|
    ensures Moved(it, req).history == it.history + [t] && StepTold(Moved(it, req), i)
  {
    MovesWhen(it, req, t);
    if i < |it.history| {
      assert StepTold(it, i);
      KeptLonger(it.history, t, i);
    }
  }

  lemma MoveIsTold(h: Hasher, it: Intent, req: Request)
    requires Told(h, it) && it.state != req.to && Applied(it, req).Ok?
    ensures Told(h, Moved(it, req))
  {
    var t := Transition(it.state, req.to, req.actor, req.at, req.txHash, req.reason);
    MovesWhen(it, req, t);
    forall i | 0 <= i <= |it.history| ensures StepTold(Moved(it, req), i) && Moved(it, req).history == it.history + [t] {
      StepsStayTold(h, it, req, t, i);
    }
  }

  // ---- over every run ----

  ghost predicate AllTold(h: Hasher, m: map<Str, Intent>) {
    forall id :: id in m ==> Told(h, m[id])
  }

  lemma SwapTells(h: Hasher, s: Shelf, it: Intent, req: Request)
    requires AllTold(h, s.m) && Copy(s.m, it) && CompareAndSwap(h, s, it, req).Some?
    ensures AllTold(h, CompareAndSwap(h, s, it, req).value.0.m)
  {
    SwapMoves(h, s, it, req);
    hide Told, Copy, Sound, CompareAndSwap, Moved, Applied;
    MoveIsTold(h, it, req);
  }

  lemma ContinueTells(c: Journal.RowHasher, h: Hasher, w: World, a: nat, l: Local, at: Time, act: Action)
    requires AllTold(h, w.shelf.m) && Knows(w.shelf.m, w.books, l)
    ensures AllTold(h, Continue(c, h, w, a, l, at, act).shelf.m)
  {
    hide Told, CompareAndSwap, Copy;
    if l.Claiming? || l.Saving? {
      var req := if l.Claiming? then Request(Settling, Relayer, [], [], at) else l.req;
      if CompareAndSwap(h, w.shelf, l.it, req).Some? {
        SwapTells(h, w.shelf, l.it, req);
      }
    } else {
      SettlementSafety.OnlySwapsWrite(c, h, w, a, l, at, act);
    }
  }

  lemma OpenTells(h: Hasher, w: World, spec: Spec, at: Time)
    requires AllTold(h, w.shelf.m)
    ensures AllTold(h, Opened(h, w, spec, at).shelf.m)
  {
    NewIsTold(h, spec, at);
    hide Told, New;
  }

  /** Over every run, every stored payment was opened on sound terms, its steps were taken by those
      who may take them with what they need in hand, it was authorized inside its window, and it
      stands where, when and on the hash its history says. */
  lemma {:induction false} HistoriesAreTold(c: Journal.RowHasher, h: Hasher, es: seq<Event>)
    ensures AllTold(h, Run(c, h, es).shelf.m)
  {
    if es != [] {
      var w, e := Run(c, h, es[..|es| - 1]), es[|es| - 1];
      HistoriesAreTold(c, h, es[..|es| - 1]);
      SettlementSafety.RunKeeps(c, h, es[..|es| - 1]);
      hide Run, Continue, Opened, Decide, Knows, Told;
      if e.action.Create? {
        OpenTells(h, w, e.action.spec, e.at);
      } else if !e.action.Begin? && e.actor in w.locals {
        ContinueTells(c, h, w, e.actor, w.locals[e.actor], e.at, e.action);
      }
    }
  }

  /** A settled payment was last seen on the chain in the transaction it is settled on: by whomever
      it was settled, on the hash of its latest step to confirming unless that was taken back. */
  lemma SettledOnWhatWasSeen(c: Journal.RowHasher, h: Hasher, es: seq<Event>, id: Str, i: nat)
    requires var m := Run(c, h, es).shelf.m; id in m && m[id].state == Settled && i < |m[id].history|
    requires var t := Run(c, h, es).shelf.m[id].history; t[i].to == Confirming && Kept(t, i)
    ensures var it := Run(c, h, es).shelf.m[id];
      && it.txHash == it.history[i].txHash == it.history[|it.history| - 1].txHash != []
      && it.history[|it.history| - 1].to == Settled
  {
    HistoriesAreTold(c, h, es);
    hide Run, WellOpened;
    var it := Run(c, h, es).shelf.m[id];
    assert Told(h, it) && StepTold(it, i) && StepTold(it, |it.history| - 1);
  }
}
