/** The settlement protocol with the accounts' numbers: who may claim, send again and give up while
    somebody holds an account's token, and what that does to the hold of a payment that failed.

    Every worker uses one sequencer.  Workers of one pool share theirs; workers made one by one each
    have their own. */
module SettlementSequencers {
  import opened Bytes
  import opened Intent
  import opened Settlement
  import opened SettlementInvariant
  import opened SettlementSafety
  import opened SettlementFailed
  import C = Counter
  import Ledger
  import Journal
  import PaymentRef
  import Steps = SettlementSteps

  /** The sequencer each actor's worker uses, whether the sender needs numbers at all (only such a
      sender can send again), and the account a payment goes out from. */
  datatype Setup = Setup(sequencer: nat -> nat, ordered: bool, account: PaymentRef.Terms -> Str)

  /** An account in a sequencer. */
  type Slot = (nat, Str)

  /** A number in an actor's hands. */
  datatype Held = Held(slot: Slot, value: nat, fill: bool)

  /** refused: the payments with a send on record that certainly did not leave, in whichever notebook. */
  datatype Site = Site(w: World, accounts: map<Slot, C.Account>, held: map<nat, Held>, refused: set<Str>)

  const FIRST := Site(EMPTY, map[], map[], {})

  /** Act: one call on the store, the journal or the sender; `noted` says whether a send that certainly
      did not leave was written down before the worker was cut off.  Return: the end of a delivery, its
      number given back as the send ended.  Restart: a process dies with all its workers. */
  datatype Call =
    | Act(e: Event, noted: bool)
    | Take(actor: nat, fill: bool)
    | ClearRefused(actor: nat)
    | Return(actor: nat, sent: C.Sent)
    | Align(slot: Slot, next: nat)
    | Restart(sequencer: nat)

  function AccountAt(s: Site, slot: Slot): C.Account {
    if slot in s.accounts then s.accounts[slot] else C.NEW
  }

  function SlotOf(p: Setup, a: nat, it: Intent): Slot { (p.sequencer(a), p.account(it.Terms())) }

  predicate Has(p: Setup, s: Site, a: nat, it: Intent) {
    a in s.held && s.held[a].slot == SlotOf(p, a, it)
  }

  /** What the worker's own order of calls allows: a number before the claim and before sending again,
      the gap's number for a clearing send, nothing new with a number in hand, and failing a payment only
      on a send recorded as certainly not out. */
  predicate Allowed(p: Setup, s: Site, e: Event) {
    if e.action.Create? then true
    else if e.action.Begin? then
      e.actor !in s.held && (e.action.goal.GiveUp? && e.action.goal.nothingSent ==> e.action.id in s.refused)
    else
      e.actor in s.w.locals ==>
        && (s.w.locals[e.actor].Claiming? && p.ordered ==> Has(p, s, e.actor, s.w.locals[e.actor].it) && !s.held[e.actor].fill)
        && (s.w.locals[e.actor].Rescuing? && e.action.GoRescue? ==> MaySend(p, s, e.actor, s.w.locals[e.actor].it, e.action.plan))
  }

  predicate MaySend(p: Setup, s: Site, a: nat, it: Intent, plan: Plan) {
    && (plan.Replace? || plan.Clear? ==> p.ordered && Has(p, s, a, it))
    && (plan.Clear? ==> s.held[a].fill)
  }

  /** The payment a send was refused for. */
  function RefusedBy(w: World, e: Event): set<Str> {
    if e.actor !in w.locals then {}
    else
      match w.locals[e.actor]
      case Sending(it) => if e.action.GoSend? && e.action.outcome.Refused? then {it.id} else {}
      case Rescuing(it) => if e.action.GoRescue? && e.action.plan.Replace? && e.action.plan.outcome.Refused? then {it.id} else {}
      case _ => {}
  }

  /** Wait for the account's token, then take the next number or the gap's. */
  function Taken(p: Setup, s: Site, a: nat, it: Intent, fill: bool): Site {
    var slot := SlotOf(p, a, it);
    var account := AccountAt(s, slot);
    if !account.token then s
    else
      var (after, v) := if fill then C.GapReserved(account.(token := false)) else C.Reserved(account.(token := false));
      s.(accounts := s.accounts[slot := after], held := if v.Ok? then s.held[a := Held(slot, v.value, fill)] else s.held)
  }

  function Gone(w: World, p: Setup, q: nat): World {
    w.(locals := map a | a in w.locals && p.sequencer(a) != q :: w.locals[a])
  }

  function Step(c: Journal.RowHasher, h: Hasher, p: Setup, s: Site, call: Call): Site {
    match call
    case Act(e, noted) =>
      if !Allowed(p, s, e) then s
      else s.(w := Next(c, h, s.w, e), refused := if noted then s.refused + RefusedBy(s.w, e) else s.refused)
    case Take(a, fill) =>
      if a in s.held || a !in s.w.locals || !p.ordered then s
      else
        (match s.w.locals[a]
         case Claiming(it) => if fill then s else Taken(p, s, a, it, false)
         case Rescuing(it) => Taken(p, s, a, it, fill)
         case _ => s)
    case ClearRefused(a) =>
      if a in s.w.locals && s.w.locals[a].Rescuing? && p.ordered && Has(p, s, a, s.w.locals[a].it) && s.held[a].fill then
        s.(refused := s.refused + {s.w.locals[a].it.id})
      else s
    case Return(a, sent) =>
      if a !in s.held then s
      else
        var n := s.held[a];
        Site(s.w.(locals := s.w.locals[a := Idle]),
             s.accounts[n.slot := C.Resolved(AccountAt(s, n.slot), n.value, n.fill, sent).0], s.held - {a}, s.refused)
    case Align(slot, next) => s.(accounts := s.accounts[slot := C.Synced(AccountAt(s, slot), next).0])
    case Restart(q) =>
      Site(Gone(s.w, p, q), map slot | slot in s.accounts && slot.0 != q :: s.accounts[slot],
           map a | a in s.held && p.sequencer(a) != q :: s.held[a], s.refused)
  }

  function Runs(c: Journal.RowHasher, h: Hasher, p: Setup, calls: seq<Call>): Site {
    if calls == [] then FIRST else Step(c, h, p, Runs(c, h, p, calls[..|calls| - 1]), calls[|calls| - 1])
  }

  // ---- tokens ----

  /** A number in hand means the account's token is out, and nobody else has one of that account. */
  ghost predicate TokensOk(p: Setup, s: Site) {
    && (forall a :: a in s.held ==> s.held[a].slot.0 == p.sequencer(a) && !AccountAt(s, s.held[a].slot).token)
    && (forall a, b :: a in s.held && b in s.held && s.held[a].slot == s.held[b].slot ==> a == b)
  }

  /** Whoever carries a claim has the number it took before. */
  ghost predicate ClaimsBacked(p: Setup, s: Site) {
    p.ordered ==> forall a :: a in s.w.locals && (s.w.locals[a].Holding? || s.w.locals[a].Sending?) ==> Has(p, s, a, s.w.locals[a].it)
  }

  lemma TakenKeepsTokens(p: Setup, s: Site, a: nat, it: Intent, fill: bool)
    requires TokensOk(p, s) && a !in s.held
    ensures TokensOk(p, Taken(p, s, a, it, fill))
  {
  }

  lemma StepKeepsTokens(c: Journal.RowHasher, h: Hasher, p: Setup, s: Site, call: Call)
    requires TokensOk(p, s)
    ensures TokensOk(p, Step(c, h, p, s, call))
  {
    hide Next, Allowed, RefusedBy, Gone, Taken, C.Resolved, C.Synced;
    match call {
      case Take(a, fill) =>
        if a !in s.held && a in s.w.locals && (s.w.locals[a].Claiming? || s.w.locals[a].Rescuing?) {
          TakenKeepsTokens(p, s, a, s.w.locals[a].it, fill);
        }
      case Align(slot, next) => AlignLeavesToken(AccountAt(s, slot), next);
      case _ =>
    }
  }

  lemma AlignLeavesToken(a: C.Account, next: nat)
    ensures C.Synced(a, next).0.token == a.token
  {
  }

  /** Of one actor's calls, only a won claim and the hold behind it lead to carrying a claim. */
  lemma CarriedOn(c: Journal.RowHasher, h: Hasher, w: World, a: nat, at: Time, act: Action)
    requires a in w.locals && !w.locals[a].Claiming?
    ensures var v := Continue(c, h, w, a, w.locals[a], at, act);
      && v.locals.Keys == w.locals.Keys && (forall b :: b in w.locals && b != a ==> v.locals[b] == w.locals[b])
      && (Carries(v.locals[a]) ==> Carries(w.locals[a]) && v.locals[a].it == w.locals[a].it)
      && (v.locals[a].Holding? ==> w.locals[a].Holding?)
  {
    hide Journal.AppendTo, HoldEntry, PostEntry, VoidEntry, CompareAndSwap;
  }

  predicate Carries(l: Local) { l.Holding? || l.Sending? }

  lemma DecideCarriesNothing(it: Intent, goal: Goal, at: Time)
    ensures !Carries(Decide(it, goal, at))
  {
  }

  /** Who carries a claim after a step carried it before, or has just won it. */
  lemma CarriedBefore(c: Journal.RowHasher, h: Hasher, w: World, e: Event, a: nat)
    requires Inv(c, w)
    ensures var v := Next(c, h, w, e);
      a in v.locals && Carries(v.locals[a]) ==>
        && a in w.locals && !w.locals[a].Idle? && v.locals[a].it.SameTerms(w.locals[a].it)
        && (Carries(w.locals[a]) || Won(w, v, e, a))
        && (v.locals[a].Holding? ==> w.locals[a].Holding? || Won(w, v, e, a))
  {
    hide Inv, Continue, CompareAndSwap, Decide, Swap, Carries, Opened;
    if e.action.Create? {
      OpenedLocals(h, w, e.action.spec, e.at);
    } else if e.action.Begin? {
      if e.action.id in w.shelf.m { DecideCarriesNothing(w.shelf.m[e.action.id], e.action.goal, e.at); }
      assert !Carries(Idle) by { CarriesIs(Idle); }
    } else if e.actor in w.locals {
      if w.locals[e.actor].Claiming? {
        var it, req := w.locals[e.actor].it, Request(Settling, Relayer, [], [], e.at);
        ClaimIsSwap(c, h, w, e);
        SwapHolds(h, w, e.actor, it, req);
        ClaimedCopy(c, w, e.actor);
        if CompareAndSwap(h, w.shelf, it, req).Some? { SwapMoves(h, w.shelf, it, req); }
        SwapCarries(h, w, e.actor, it, req);
      } else {
        CarriedOn(c, h, w, e.actor, e.at, e.action);
      }
    }
    if a in w.locals { CarriesIs(w.locals[a]); }
  }

  /** Actor a's step was the claim that moved this payment out of authorized. */
  ghost predicate Won(w: World, v: World, e: Event, a: nat) {
    && a == e.actor && !e.action.Create? && !e.action.Begin? && a in w.locals && w.locals[a].Claiming? && a in v.locals && v.locals[a].Holding?
    && w.locals[a].it.id in w.shelf.m && w.shelf.m[w.locals[a].it.id].state == Authorized
  }

  lemma CarriesIs(l: Local)
    ensures Carries(l) <==> l.Holding? || l.Sending?
  {
  }

  lemma OpenedLocals(h: Hasher, w: World, spec: Spec, at: Time)
    ensures Opened(h, w, spec, at).locals == w.locals && Opened(h, w, spec, at).books == w.books
  {
  }

  lemma ClaimedCopy(c: Journal.RowHasher, w: World, a: nat)
    requires Inv(c, w) && a in w.locals && w.locals[a].Claiming?
    ensures Copy(w.shelf.m, w.locals[a].it) && w.locals[a].it.state == Authorized
  {
    hide Journal.WellFormed, ShelfOk, BooksOk, ClaimsOk, UntouchedOk, Copy;
    assert Knows(w.shelf.m, w.books, w.locals[a]);
  }

  lemma SwapCarries(h: Hasher, w: World, a: nat, it: Intent, req: Request)
    ensures var v, r := Swap(h, w, a, it, req, true), CompareAndSwap(h, w.shelf, it, req);
      a in v.locals && (Carries(v.locals[a]) ==> v.locals[a].Holding? && r.Some? && v.locals[a].it == r.value.1)
  {
    hide CompareAndSwap;
  }

  /** A won claim was made with a number in hand, and keeps it. */
  lemma ActKeepsBacking(c: Journal.RowHasher, h: Hasher, p: Setup, s: Site, e: Event)
    requires Inv(c, s.w) && ClaimsBacked(p, s) && Allowed(p, s, e)
    ensures ClaimsBacked(p, s.(w := Next(c, h, s.w, e)))
  {
    var v := Next(c, h, s.w, e);
    hide Inv, Next;
    if p.ordered {
      forall a | a in v.locals && (v.locals[a].Holding? || v.locals[a].Sending?) ensures Has(p, s, a, v.locals[a].it) {
        CarriedBefore(c, h, s.w, e, a);
        assert Has(p, s, a, s.w.locals[a].it);
      }
    }
  }

  // ---- refused sends, voids and failures ----

  /** A payment with a refused send on record has been claimed, and its hold is booked or nobody is
      about to book it. */
  ghost predicate RefusedOk(w: World, refused: set<Str>) {
    forall id :: id in refused ==>
      id in w.shelf.m && !w.shelf.m[id].state.Untouched() && (Booked(w.books, id) || forall a :: !HoldsFor(w, a, id))
  }

  predicate HoldsFor(w: World, a: nat, id: Str) {
    a in w.locals && w.locals[a].Holding? && w.locals[a].it.id == id
  }

  /** Refused, and resolved if on the books. */
  predicate Freed(w: World, refused: set<Str>, id: Str) {
    id in refused && !LeftPending(w.books, id)
  }

  /** What the actor's local says of the payment it is failing. */
  ghost predicate DoomOk(w: World, refused: set<Str>, l: Local) {
    && (l.Voiding? ==> l.it.id in refused)
    && (l.Saving? && l.req.to == Failed && l.req.actor == Relayer ==> Freed(w, refused, l.it.id))
  }

  ghost predicate AllDoomOk(w: World, refused: set<Str>) {
    forall a :: a in w.locals ==> DoomOk(w, refused, w.locals[a])
  }

  predicate FailedByRelayer(it: Intent) {
    it.state == Failed && it.history != [] && it.history[|it.history| - 1].actor == Relayer
  }

  ghost predicate FailedOk(w: World, refused: set<Str>) {
    forall id :: id in w.shelf.m && FailedByRelayer(w.shelf.m[id]) ==> Freed(w, refused, id)
  }

  /** After a call: the books go on, refused payments stay refused, and no hold of one of them appears. */
  ghost predicate Onward(w: World, v: World, refused: set<Str>) {
    && w.books <= v.books
    && forall id :: id in refused && Booked(v.books, id) ==> Booked(w.books, id)
  }

  lemma FreedStays(w: World, v: World, refused: set<Str>, more: set<Str>, id: Str)
    requires Freed(w, refused, id) && Onward(w, v, refused) && refused <= more
    ensures Freed(v, more, id)
  {
    BookedStays(w.books, v.books, id);
    hide Booked, Journal.Resolved;
  }

  lemma ActGoesOn(c: Journal.RowHasher, h: Hasher, w: World, e: Event, refused: set<Str>)
    requires Inv(c, w) && RefusedOk(w, refused)
    ensures Onward(w, Next(c, h, w, e), refused)
  {
    hide Inv, Next, Booked;
    var v := Next(c, h, w, e);
    NextHolds(c, h, w, e, []);
    forall id | id in refused && Booked(v.books, id) ensures Booked(w.books, id) {
      NextHolds(c, h, w, e, id);
      assert AboutToHold(w, e.actor, id) ==> HoldsFor(w, e.actor, id);
    }
  }

  /** A payment that was claimed is never untouched again. */
  lemma TouchedStays(c: Journal.RowHasher, h: Hasher, w: World, e: Event, id: Str)
    requires Inv(c, w) && id in w.shelf.m && !w.shelf.m[id].state.Untouched()
    ensures id in Next(c, h, w, e).shelf.m && !Next(c, h, w, e).shelf.m[id].state.Untouched()
  {
    ShelfAfter(c, h, w, e, id);
  }

  /** What a step does to one payment on the shelf: nothing, or one move by the actor who steps. */
  ghost predicate Moves(w: World, e: Event, it: Intent, to: Intent) {
    exists l: Local, req: Request :: MovesBy(w, e, it, to, l, req)
  }

  ghost predicate MovesBy(w: World, e: Event, it: Intent, to: Intent, l: Local, req: Request) {
    && e.actor in w.locals && w.locals[e.actor] == l && !e.action.Create? && !e.action.Begin?
    && (l.Claiming? || l.Saving?) && l.it == it && req == (if l.Claiming? then Request(Settling, Relayer, [], [], e.at) else l.req)
    && to == Moved(it, req) && to.state == req.to && (to.state.Untouched() ==> it.state.Untouched())
  }

  lemma SwapOne(h: Hasher, s: Shelf, it: Intent, req: Request, id: Str)
    requires Copy(s.m, it) && CompareAndSwap(h, s, it, req).Some?
    ensures var v := CompareAndSwap(h, s, it, req).value.0.m;
      && (id in v <==> id in s.m)
      && (id in s.m ==> if id == it.id then s.m[id] == it && v[id] == Moved(it, req) && v[id].state == req.to && (v[id].state.Untouched() ==> it.state.Untouched()) else v[id] == s.m[id])
  {
    SwapMoves(h, s, it, req);
  }

  lemma ShelfAfter(c: Journal.RowHasher, h: Hasher, w: World, e: Event, id: Str)
    requires Inv(c, w)
    ensures var v := Next(c, h, w, e);
      && (id in w.shelf.m ==> id in v.shelf.m && (v.shelf.m[id] == w.shelf.m[id] || Moves(w, e, w.shelf.m[id], v.shelf.m[id])))
      && (id !in w.shelf.m && id in v.shelf.m ==> v.shelf.m[id].state == Created)
  {
    hide Inv, Continue, CompareAndSwap, Decide, Swap, Copy;
    if e.action.Create? {
      OpenedShelf(c, h, w, e.action.spec, e.at, id);
    } else if !e.action.Begin? && e.actor in w.locals {
      var l := w.locals[e.actor];
      if l.Claiming? || l.Saving? {
        var req := if l.Claiming? then Request(Settling, Relayer, [], [], e.at) else l.req;
        SwapperCopy(c, w, e.actor);
        SwapShelf(h, w, e.actor, l.it, req, l.Claiming?);
        ContinueSwaps(c, h, w, e.actor, e.at, e.action);
        if CompareAndSwap(h, w.shelf, l.it, req).Some? {
          SwapOne(h, w.shelf, l.it, req, id);
          if id in w.shelf.m && id == l.it.id {
            assert MovesBy(w, e, w.shelf.m[id], Next(c, h, w, e).shelf.m[id], l, req);
          }
        }
      } else {
        OnlySwapsWrite(c, h, w, e.actor, l, e.at, e.action);
      }
    }
  }

  lemma SwapperCopy(c: Journal.RowHasher, w: World, a: nat)
    requires Inv(c, w) && a in w.locals && (w.locals[a].Claiming? || w.locals[a].Saving?)
    ensures Copy(w.shelf.m, w.locals[a].it)
  {
    hide Journal.WellFormed, ShelfOk, BooksOk, ClaimsOk, UntouchedOk, Copy;
    assert Knows(w.shelf.m, w.books, w.locals[a]);
  }

  lemma SwapShelf(h: Hasher, w: World, a: nat, it: Intent, req: Request, claim: bool)
    ensures var r := CompareAndSwap(h, w.shelf, it, req);
      Swap(h, w, a, it, req, claim).shelf == if r.Some? then r.value.0 else w.shelf
  {
    hide CompareAndSwap;
  }

  lemma ContinueSwaps(c: Journal.RowHasher, h: Hasher, w: World, a: nat, at: Time, act: Action)
    requires a in w.locals && (w.locals[a].Claiming? || w.locals[a].Saving?)
    ensures var l := w.locals[a];
      var req := if l.Claiming? then Request(Settling, Relayer, [], [], at) else l.req;
      Continue(c, h, w, a, l, at, act) == Swap(h, w, a, l.it, req, l.Claiming?)
  {
    hide Swap;
  }

  lemma OpenedShelf(c: Journal.RowHasher, h: Hasher, w: World, spec: Spec, at: Time, id: Str)
    requires Inv(c, w)
    ensures var v := Opened(h, w, spec, at);
      && (id in w.shelf.m ==> id in v.shelf.m && v.shelf.m[id] == w.shelf.m[id])
      && (id !in w.shelf.m && id in v.shelf.m ==> v.shelf.m[id].state == Created)
  {
    hide Journal.WellFormed, LocalsOk, BooksOk, ClaimsOk, UntouchedOk;
    if New(h, spec, at).Ok? { NewIsSound(h, spec, at); }
  }

  lemma ActKeepsRefused(c: Journal.RowHasher, h: Hasher, w: World, e: Event, refused: set<Str>)
    requires Inv(c, w) && RefusedOk(w, refused)
    ensures RefusedOk(Next(c, h, w, e), refused)
  {
    var v := Next(c, h, w, e);
    ActGoesOn(c, h, w, e, refused);
    hide Inv, Next, Booked;
    forall id | id in refused ensures id in v.shelf.m && !v.shelf.m[id].state.Untouched() && (Booked(v.books, id) || forall a :: !HoldsFor(v, a, id)) {
      TouchedStays(c, h, w, e, id);
      BookedStays(w.books, v.books, id);
      if !Booked(v.books, id) {
        forall a ensures !HoldsFor(v, a, id) {
          CarriedBefore(c, h, w, e, a);
          assert !HoldsFor(w, a, id);
        }
      }
    }
  }

  // ---- one sequencer ----

  /** Every worker uses the same sequencer. */
  ghost predicate Shared(p: Setup) {
    forall a, b :: p.sequencer(a) == p.sequencer(b)
  }

  lemma HolderCopy(c: Journal.RowHasher, w: World, a: nat)
    requires Inv(c, w) && a in w.locals && (w.locals[a].Holding? || w.locals[a].Sending? || w.locals[a].Rescuing?)
    ensures Copy(w.shelf.m, w.locals[a].it) && w.locals[a].it.state == Settling
    ensures w.locals[a].Sending? ==> Booked(w.books, w.locals[a].it.id)
  {
    hide Journal.WellFormed, ShelfOk, BooksOk, ClaimsOk, UntouchedOk, Copy;
    var l := w.locals[a];
    assert Knows(w.shelf.m, w.books, l);
    if l.Sending? {
      var i :| 0 <= i < |w.books| && w.books[i].entry == HoldEntry(l.it);
      assert w.books[i].entry.id == l.it.id + HOLD;
    }
  }

  lemma CopyIsTouched(m: map<Str, Intent>, it: Intent)
    requires Copy(m, it) && it.state == Settling
    ensures it.id in m && !m[it.id].state.Untouched() && m[it.id].SameTerms(it)
  {
  }

  /** Whoever sends again with the account's number in hand knows that the claimant is past booking the
      hold, or gone. */
  lemma SenderIsAlone(c: Journal.RowHasher, p: Setup, s: Site, a: nat)
    requires Inv(c, s.w) && TokensOk(p, s) && ClaimsBacked(p, s) && Shared(p) && p.ordered
    requires a in s.w.locals && s.w.locals[a].Rescuing? && Has(p, s, a, s.w.locals[a].it)
    ensures RefusedOk(s.w, {s.w.locals[a].it.id})
  {
    hide Inv, Booked, Copy;
    var it := s.w.locals[a].it;
    HolderCopy(c, s.w, a);
    CopyIsTouched(s.w.shelf.m, it);
    forall b ensures !HoldsFor(s.w, b, it.id) {
      assert p.sequencer(a) == p.sequencer(b);
      if HoldsFor(s.w, b, it.id) {
        HolderCopy(c, s.w, b);
        CopyIsTouched(s.w.shelf.m, s.w.locals[b].it);
      }
    }
  }

  lemma RefusalIsOk(c: Journal.RowHasher, p: Setup, s: Site, e: Event)
    requires Inv(c, s.w) && TokensOk(p, s) && ClaimsBacked(p, s) && (!p.ordered || Shared(p)) && Allowed(p, s, e)
    requires !e.action.Create? && !e.action.Begin?
    ensures RefusedOk(s.w, RefusedBy(s.w, e))
  {
    hide Inv, Booked, Copy, TokensOk, ClaimsBacked, Shared;
    if e.actor in s.w.locals {
      var l := s.w.locals[e.actor];
      if l.Sending? {
        HolderCopy(c, s.w, e.actor);
        CopyIsTouched(s.w.shelf.m, l.it);
      } else if l.Rescuing? && e.action.GoRescue? && e.action.plan.Replace? {
        SenderIsAlone(c, p, s, e.actor);
      }
    }
  }

  // ---- what becomes of the failing payments ----

  lemma DecideDooms(it: Intent, goal: Goal, at: Time)
    ensures var l := Decide(it, goal, at);
      && (l.Voiding? ==> l.it == it && goal.GiveUp? && goal.nothingSent)
      && !(l.Saving? && l.req.to == Failed && l.req.actor == Relayer)
  {
  }

  lemma ContinueDooms(c: Journal.RowHasher, h: Hasher, w: World, a: nat, at: Time, act: Action)
    requires a in w.locals && !w.locals[a].Voiding? && !w.locals[a].Saving?
    ensures var v := Continue(c, h, w, a, w.locals[a], at, act);
      && v.locals.Keys == w.locals.Keys && (forall b :: b in w.locals && b != a ==> v.locals[b] == w.locals[b])
      && !v.locals[a].Voiding? && !(v.locals[a].Saving? && v.locals[a].req.to == Failed && v.locals[a].req.actor == Relayer)
  {
    hide Journal.AppendTo, HoldEntry, PostEntry, VoidEntry, CompareAndSwap;
  }

  lemma SwapEnds(h: Hasher, w: World, a: nat, it: Intent, req: Request)
    requires a in w.locals
    ensures var v := Swap(h, w, a, it, req, false);
      v.locals == w.locals[a := Idle]
  {
    hide CompareAndSwap;
  }

  /** A void that goes on to the failure leaves the payment freed. */
  lemma VoidDooms(c: Journal.RowHasher, h: Hasher, w: World, e: Event, refused: set<Str>)
    requires Inv(c, w) && e.actor in w.locals && w.locals[e.actor].Voiding? && w.locals[e.actor].it.id in refused
    requires !e.action.Create? && !e.action.Begin?
    ensures var v := Next(c, h, w, e);
      && v.locals.Keys == w.locals.Keys && (forall b :: b in w.locals && b != e.actor ==> v.locals[b] == w.locals[b])
      && DoomOk(v, refused, v.locals[e.actor])
  {
    hide Inv, Next, Booked, Journal.Resolved, Journal.AppendTo, VoidEntry;
    AnyGoVoids(c, h, w, e);
    VoidFrees(c, h, w, e.actor, e.at);
    Steps.VoidStep(c, h, w, e.actor, e.at);
  }

  lemma AnyGoVoids(c: Journal.RowHasher, h: Hasher, w: World, e: Event)
    requires e.actor in w.locals && w.locals[e.actor].Voiding? && !e.action.Create? && !e.action.Begin?
    ensures Next(c, h, w, e) == Next(c, h, w, Event(e.actor, e.at, Go))
  {
    hide Journal.AppendTo, VoidEntry;
  }

  lemma DoomStays(w: World, v: World, refused: set<Str>, l: Local)
    requires DoomOk(w, refused, l) && Onward(w, v, refused)
    ensures DoomOk(v, refused, l)
  {
    hide LeftPending, Onward;
    if l.Saving? && l.req.to == Failed && l.req.actor == Relayer {
      FreedStays(w, v, refused, refused, l.it.id);
    }
  }

  /** Other actors' locals stay, and the one that steps knows what it may. */
  lemma ActKeepsDoom(c: Journal.RowHasher, h: Hasher, p: Setup, s: Site, e: Event)
    requires Inv(c, s.w) && Allowed(p, s, e) && RefusedOk(s.w, s.refused) && AllDoomOk(s.w, s.refused)
    ensures AllDoomOk(Next(c, h, s.w, e), s.refused)
  {
    var w, v := s.w, Next(c, h, s.w, e);
    ActGoesOn(c, h, w, e, s.refused);
    StepperDoom(c, h, p, s, e);
    hide Inv, Next, RefusedOk, Onward, DoomOk, Allowed;
    forall a | a in v.locals ensures DoomOk(v, s.refused, v.locals[a]) {
      if a != e.actor {
        DoomStays(w, v, s.refused, w.locals[a]);
      }
    }
  }

  lemma StepperDoom(c: Journal.RowHasher, h: Hasher, p: Setup, s: Site, e: Event)
    requires Inv(c, s.w) && Allowed(p, s, e) && RefusedOk(s.w, s.refused) && AllDoomOk(s.w, s.refused)
    ensures var v := Next(c, h, s.w, e);
      && (forall b :: b in v.locals && b != e.actor ==> b in s.w.locals && v.locals[b] == s.w.locals[b])
      && (e.actor in v.locals ==> DoomOk(v, s.refused, v.locals[e.actor]))
  {
    var w, v := s.w, Next(c, h, s.w, e);
    ActGoesOn(c, h, w, e, s.refused);
    hide Inv, Continue, Decide, Swap, RefusedOk, Onward, Freed, Opened;
    if e.action.Create? {
      OpenedLocals(h, w, e.action.spec, e.at);
      if e.actor in w.locals { DoomStays(w, v, s.refused, w.locals[e.actor]); }
    } else if e.action.Begin? {
      if e.action.id in w.shelf.m {
        DecideDooms(w.shelf.m[e.action.id], e.action.goal, e.at);
        StoredUnder(c, w, e.action.id);
      }
    } else if e.actor in w.locals {
      var l := w.locals[e.actor];
      if l.Voiding? {
        VoidDooms(c, h, w, e, s.refused);
      } else if l.Saving? {
        ContinueSwaps(c, h, w, e.actor, e.at, e.action);
        SwapEnds(h, w, e.actor, l.it, l.req);
      } else {
        ContinueDooms(c, h, w, e.actor, e.at, e.action);
      }
    }
  }

  lemma StoredUnder(c: Journal.RowHasher, w: World, id: Str)
    requires Inv(c, w) && id in w.shelf.m
    ensures w.shelf.m[id].id == id
  {
    hide Journal.WellFormed, LocalsOk, BooksOk, ClaimsOk, UntouchedOk, Sound, PostedFor;
  }

  lemma ActKeepsFailed(c: Journal.RowHasher, h: Hasher, w: World, e: Event, refused: set<Str>)
    requires Inv(c, w) && RefusedOk(w, refused) && AllDoomOk(w, refused) && FailedOk(w, refused)
    ensures FailedOk(Next(c, h, w, e), refused)
  {
    var v := Next(c, h, w, e);
    ActGoesOn(c, h, w, e, refused);
    hide Inv, Next, RefusedOk, Onward, LeftPending;
    forall id | id in v.shelf.m && FailedByRelayer(v.shelf.m[id]) ensures Freed(v, refused, id) {
      ShelfAfter(c, h, w, e, id);
      if id in w.shelf.m {
        StoredUnder(c, w, id);
        FreedStays(w, v, refused, refused, id);
      }
    }
  }

  // ---- every call keeps it all ----

  ghost predicate Steady(c: Journal.RowHasher, p: Setup, s: Site) {
    Inv(c, s.w) && TokensOk(p, s) && ClaimsBacked(p, s) && RefusedOk(s.w, s.refused) && AllDoomOk(s.w, s.refused) && FailedOk(s.w, s.refused)
  }

  lemma MoreRefused(w: World, refused: set<Str>, more: set<Str>)
    requires RefusedOk(w, refused) && RefusedOk(w, more) && AllDoomOk(w, refused) && FailedOk(w, refused)
    ensures RefusedOk(w, refused + more) && AllDoomOk(w, refused + more) && FailedOk(w, refused + more)
  {
    hide Booked, HoldsFor, LeftPending;
  }

  lemma ActIsSteady(c: Journal.RowHasher, h: Hasher, p: Setup, s: Site, e: Event, noted: bool)
    requires Steady(c, p, s) && (!p.ordered || Shared(p))
    ensures Steady(c, p, Step(c, h, p, s, Act(e, noted)))
  {
    var t := Step(c, h, p, s, Act(e, noted));
    StepKeepsTokens(c, h, p, s, Act(e, noted));
    if Allowed(p, s, e) {
      NextKeeps(c, h, s.w, e);
      ActKeepsBacking(c, h, p, s, e);
      Noted(c, p, s, e, noted);
      hide Inv, Next, TokensOk, RefusedOk, AllDoomOk, FailedOk, Allowed, RefusedBy, Shared;
      ActKeepsRefused(c, h, s.w, e, t.refused);
      ActKeepsDoom(c, h, p, s.(refused := t.refused), e) by {
        StillAllowed(p, s, e, t.refused);
      }
      ActKeepsFailed(c, h, s.w, e, t.refused);
      SameBacking(p, s.(w := Next(c, h, s.w, e)), t);
    }
  }

  lemma SameBacking(p: Setup, s: Site, t: Site)
    requires ClaimsBacked(p, s) && t.w == s.w && t.held == s.held
    ensures ClaimsBacked(p, t)
  {
  }

  lemma StillAllowed(p: Setup, s: Site, e: Event, more: set<Str>)
    requires Allowed(p, s, e) && s.refused <= more
    ensures Allowed(p, s.(refused := more), e)
  {
  }

  /** What a call writes down is true before it, too. */
  lemma Noted(c: Journal.RowHasher, p: Setup, s: Site, e: Event, noted: bool)
    requires Steady(c, p, s) && (!p.ordered || Shared(p)) && Allowed(p, s, e)
    ensures var more := if noted then s.refused + RefusedBy(s.w, e) else s.refused;
      s.refused <= more && RefusedOk(s.w, more) && AllDoomOk(s.w, more) && FailedOk(s.w, more)
  {
    hide Inv, TokensOk, ClaimsBacked, RefusedOk, AllDoomOk, FailedOk, Shared;
    NobodyRefuses(s.w, e);
    if !e.action.Create? && !e.action.Begin? {
      RefusalIsOk(c, p, s, e);
      MoreRefused(s.w, s.refused, RefusedBy(s.w, e));
    } else {
      assert s.refused + {} == s.refused;
    }
  }

  lemma NobodyRefuses(w: World, e: Event)
    ensures e.action.Create? || e.action.Begin? ==> RefusedBy(w, e) == {}
  {
  }

  /** Same store, books and sends; some actors idle or gone. */
  ghost predicate Fewer(w: World, v: World) {
    && v.shelf == w.shelf && v.books == w.books && v.broadcasts == w.broadcasts
    && forall a :: a in v.locals ==> v.locals[a] == Idle || (a in w.locals && v.locals[a] == w.locals[a])
  }

  lemma FewerKeeps(c: Journal.RowHasher, w: World, v: World, refused: set<Str>)
    requires Inv(c, w) && RefusedOk(w, refused) && AllDoomOk(w, refused) && FailedOk(w, refused) && Fewer(w, v)
    ensures Inv(c, v) && RefusedOk(v, refused) && AllDoomOk(v, refused) && FailedOk(v, refused)
  {
    FewerInv(c, w, v);
    hide Inv, Booked, Journal.Resolved;
    forall id | id in refused ensures id in v.shelf.m && !v.shelf.m[id].state.Untouched() && (Booked(v.books, id) || forall a :: !HoldsFor(v, a, id)) {
      if !Booked(w.books, id) {
        forall a ensures !HoldsFor(v, a, id) {
          assert !HoldsFor(w, a, id);
        }
      }
    }
  }

  lemma FewerInv(c: Journal.RowHasher, w: World, v: World)
    requires Inv(c, w) && Fewer(w, v)
    ensures Inv(c, v)
  {
    hide Journal.WellFormed, ShelfOk, BooksOk, Copy, OnBooks;
    IdleKnows(w.shelf.m, w.books);
    hide Knows;
  }

  lemma {:induction false} RestIsSteady(c: Journal.RowHasher, h: Hasher, p: Setup, s: Site, call: Call)
    requires Steady(c, p, s) && (!p.ordered || Shared(p)) && !call.Act?
    ensures Steady(c, p, Step(c, h, p, s, call))
  {
    var t := Step(c, h, p, s, call);
    StepKeepsTokens(c, h, p, s, call);
    BackingStays(c, h, p, s, call);
    hide Inv, TokensOk, RefusedOk, AllDoomOk, FailedOk, Shared, ClaimsBacked;
    StepIsFewer(c, h, p, s, call);
    FewerKeeps(c, s.w, t.w, s.refused);
    if call.ClearRefused? && t != s {
      SenderIsAlone(c, p, s, call.actor);
      MoreRefused(s.w, s.refused, {s.w.locals[call.actor].it.id});
    } else {
      SameRefused(c, h, p, s, call);
    }
  }

  lemma SameRefused(c: Journal.RowHasher, h: Hasher, p: Setup, s: Site, call: Call)
    requires !call.Act?
    ensures !call.ClearRefused? ==> Step(c, h, p, s, call).refused == s.refused
  {
  }

  lemma StepIsFewer(c: Journal.RowHasher, h: Hasher, p: Setup, s: Site, call: Call)
    requires !call.Act?
    ensures Fewer(s.w, Step(c, h, p, s, call).w)
  {
  }

  lemma BackingStays(c: Journal.RowHasher, h: Hasher, p: Setup, s: Site, call: Call)
    requires ClaimsBacked(p, s) && !call.Act?
    ensures ClaimsBacked(p, Step(c, h, p, s, call))
  {
    hide C.Resolved, C.Synced, Next;
  }

  lemma {:induction false} RunIsSteady(c: Journal.RowHasher, h: Hasher, p: Setup, calls: seq<Call>)
    requires !p.ordered || Shared(p)
    ensures Steady(c, p, Runs(c, h, p, calls))
  {
    if calls != [] {
      var before, call := calls[..|calls| - 1], calls[|calls| - 1];
      RunIsSteady(c, h, p, before);
      hide Steady, Step, Shared;
      if call.Act? {
        ActIsSteady(c, h, p, Runs(c, h, p, before), call.e, call.noted);
      } else {
        RestIsSteady(c, h, p, Runs(c, h, p, before), call);
      }
    }
  }

  /** With one sequencer, or a sender that needs no numbers: in every run, whatever dies or starts over,
      a payment that a relayer failed is closed. No hold of it is pending, and none can come to be. */
  lemma FailedIsClosed(c: Journal.RowHasher, h: Hasher, p: Setup, calls: seq<Call>, id: Str)
    requires !p.ordered || Shared(p)
    requires var w := Runs(c, h, p, calls).w; id in w.shelf.m && FailedByRelayer(w.shelf.m[id])
    ensures Closed(Runs(c, h, p, calls).w, id)
  {
    var s := Runs(c, h, p, calls);
    RunIsSteady(c, h, p, calls);
    hide Runs, Inv, LeftPending, Booked;
    assert Freed(s.w, s.refused, id);
    assert forall a :: AboutToHold(s.w, a, id) ==> HoldsFor(s.w, a, id);
  }

  // ---- and with more than one ----

  /** Whatever the sequencers, a run keeps the protocol's invariant. */
  lemma {:induction false} RunIsSafe(c: Journal.RowHasher, h: Hasher, p: Setup, calls: seq<Call>)
    ensures Inv(c, Runs(c, h, p, calls).w)
  {
    if calls == [] {
      RunKeeps(c, h, []);
    } else {
      var before, call := calls[..|calls| - 1], calls[|calls| - 1];
      RunIsSafe(c, h, p, before);
      var s := Runs(c, h, p, before);
      if call.Act? {
        NextKeeps(c, h, s.w, call.e);
        hide Inv, Next, Allowed;
      } else {
        hide Inv, Step;
        StepIsFewer(c, h, p, s, call);
        FewerInv(c, s.w, Step(c, h, p, s, call).w);
      }
    }
  }

  /** One payment, nothing booked. */
  function Stage(it: Intent, locals: map<nat, Local>, broadcasts: seq<Broadcast>): World {
    World(Shelf(map[it.id := it], map[it.ref := it.id]), [], locals, broadcasts)
  }

  function RefOf(h: Hasher, it: Intent): Digest { PaymentRef.Derive(h, it.Terms()) }

  lemma StageSwap(h: Hasher, it: Intent, locals: map<nat, Local>, broadcasts: seq<Broadcast>, a: nat, req: Request, claim: bool)
    requires it.ref == RefOf(h, it) && Applied(it, req) == Ok((Moved(it, req), true))
    ensures var to := Moved(it, req);
      Swap(h, Stage(it, locals, broadcasts), a, it, req, claim) == Stage(to, locals[a := if claim then Holding(to) else Idle], broadcasts)
      && to.ref == RefOf(h, to)
  {
    var to := Moved(it, req);
    assert map[it.id := it][it.id := to] == map[it.id := to];
    assert map[it.ref := it.id][it.ref := it.id] == map[it.ref := it.id];
  }

  const AUTHORIZE := Request(Authorized, API, [], [], 2)
  const CLAIM := Request(Settling, Relayer, [], [], 3)
  const GIVEN_UP: Str := Text("given up")
  const FAIL := Request(Failed, Relayer, [], GIVEN_UP, 5)

  /** The claimant x has taken a number, won the claim and not booked the hold yet.  The rescuer y, with a
      sequencer of its own, takes a number there, sends again and is refused; the job is given up, there is
      no hold to void, and the payment fails. */
  function Overtaken(spec: Spec, x: nat, y: nat): seq<Call> {
    [ Act(Event(x, 1, Create(spec)), true), Act(Event(x, 2, Begin(spec.id, Push(AUTHORIZE))), true), Act(Event(x, 2, Go), true),
      Act(Event(x, 3, Begin(spec.id, Process)), true), Take(x, false), Act(Event(x, 3, Go), true),
      Act(Event(y, 4, Begin(spec.id, Process)), true), Take(y, false), Act(Event(y, 4, GoRescue(Replace(Refused))), true), Return(y, C.No),
      Act(Event(y, 5, Begin(spec.id, GiveUp(true, GIVEN_UP))), true), Act(Event(y, 5, Go), true), Act(Event(y, 5, Go), true) ]
  }

  lemma OneCall(c: Journal.RowHasher, h: Hasher, p: Setup, calls: seq<Call>, k: nat)
    requires k < |calls|
    ensures Runs(c, h, p, calls[..k + 1]) == Step(c, h, p, Runs(c, h, p, calls[..k]), calls[k])
  {
    assert calls[..k + 1][..k] == calls[..k];
    hide Step;
  }

  lemma MovedIs(h: Hasher, it: Intent, req: Request)
    requires it.ref == RefOf(h, it)
    ensures var to := Moved(it, req); to.SameTerms(it) && to.state == req.to && to.updatedAt == req.at && to.ref == RefOf(h, to)
    ensures Moved(it, req).history != [] && Moved(it, req).history[|Moved(it, req).history| - 1].actor == req.actor
  {
  }

  lemma EmptyRun(c: Journal.RowHasher, h: Hasher, p: Setup, calls: seq<Call>)
    ensures Runs(c, h, p, calls[..0]) == FIRST
  {
  }

  lemma NothingRefused(w: World, e: Event)
    requires e.action.Create? || e.action.Begin? || e.action.Go?
    ensures RefusedBy(w, e) == {}
  {
  }

  lemma ActIs(c: Journal.RowHasher, h: Hasher, p: Setup, s: Site, e: Event, v: World)
    requires Allowed(p, s, e) && Next(c, h, s.w, e) == v && RefusedBy(s.w, e) == {}
    ensures Step(c, h, p, s, Act(e, true)) == s.(w := v)
  {
    hide Next, Allowed, RefusedBy;
    assert s.refused + {} == s.refused;
  }

  /** An account nobody used gives its first number. */
  lemma TakesFirst(c: Journal.RowHasher, h: Hasher, p: Setup, s: Site, a: nat, it: Intent)
    requires p.ordered && a !in s.held && a in s.w.locals && (s.w.locals[a] == Claiming(it) || s.w.locals[a] == Rescuing(it))
    requires SlotOf(p, a, it) !in s.accounts
    ensures var slot := SlotOf(p, a, it);
      Step(c, h, p, s, Take(a, false)) == s.(accounts := s.accounts[slot := C.Account(false, 1, Some(0), None)], held := s.held[a := Held(slot, 0, false)])
  {
  }

  lemma Begins(c: Journal.RowHasher, h: Hasher, p: Setup, s: Site, a: nat, it: Intent, goal: Goal, at: Time, locals: map<nat, Local>, b: seq<Broadcast>)
    requires s.w == Stage(it, locals, b) && a !in s.held && (goal.GiveUp? && goal.nothingSent ==> it.id in s.refused)
    ensures Step(c, h, p, s, Act(Event(a, at, Begin(it.id, goal)), true)) == s.(w := Stage(it, locals[a := Decide(it, goal, at)], b))
  {
    var e := Event(a, at, Begin(it.id, goal));
    Steps.BeginStep(c, h, s.w, a, it.id, goal, at);
    NothingRefused(s.w, e);
    hide Next, Decide, Step, RefusedBy;
    ActIs(c, h, p, s, e, Stage(it, locals[a := Decide(it, goal, at)], b));
  }

  lemma Wins(c: Journal.RowHasher, h: Hasher, p: Setup, s: Site, a: nat, it: Intent, locals: map<nat, Local>)
    requires s.w == Stage(it, locals, []) && a in locals && locals[a] == Claiming(it) && Has(p, s, a, it) && !s.held[a].fill
    requires it.ref == RefOf(h, it) && it.state == Authorized
    ensures var to := Moved(it, CLAIM); Step(c, h, p, s, Act(Event(a, 3, Go), true)) == s.(w := Stage(to, locals[a := Holding(to)], []))
  {
    Steps.SwapStep(c, h, s.w, a, 3);
    StageSwap(h, it, locals, [], a, CLAIM, true);
    NothingRefused(s.w, Event(a, 3, Go));
    hide Next, Swap, Step, RefusedBy;
    ActIs(c, h, p, s, Event(a, 3, Go), Stage(Moved(it, CLAIM), locals[a := Holding(Moved(it, CLAIM))], []));
  }

  lemma Saves(c: Journal.RowHasher, h: Hasher, p: Setup, s: Site, a: nat, it: Intent, req: Request, at: Time, locals: map<nat, Local>, b: seq<Broadcast>)
    requires s.w == Stage(it, locals, b) && a in locals && locals[a] == Saving(it, req)
    requires it.ref == RefOf(h, it) && Applied(it, req) == Ok((Moved(it, req), true))
    ensures Step(c, h, p, s, Act(Event(a, at, Go), true)) == s.(w := Stage(Moved(it, req), locals[a := Idle], b))
  {
    Steps.SwapStep(c, h, s.w, a, at);
    StageSwap(h, it, locals, b, a, req, false);
    NothingRefused(s.w, Event(a, at, Go));
    hide Next, Swap, Step, RefusedBy, Applied, Moved;
    ActIs(c, h, p, s, Event(a, at, Go), Stage(Moved(it, req), locals[a := Idle], b));
  }

  /** With no hold on the books the void finds none, and the failure goes ahead. */
  lemma Voids(c: Journal.RowHasher, h: Hasher, p: Setup, s: Site, a: nat, it: Intent, locals: map<nat, Local>, b: seq<Broadcast>)
    requires s.w == Stage(it, locals, b) && a in locals && locals[a] == Voiding(it, GIVEN_UP) && Ledger.EntryError(VoidEntry(it)) == None
    ensures Step(c, h, p, s, Act(Event(a, 5, Go), true)) == s.(w := Stage(it, locals[a := Saving(it, FAIL)], b))
  {
    Steps.VoidStep(c, h, s.w, a, 5);
    assert Journal.AppendTo(c, [], VoidEntry(it)) == Err(Ledger.NoSuchHold);
    NothingRefused(s.w, Event(a, 5, Go));
    hide Next, Step, RefusedBy, VoidEntry, Journal.AppendTo;
    ActIs(c, h, p, s, Event(a, 5, Go), Stage(it, locals[a := Saving(it, FAIL)], b));
  }

  lemma Claims3(c: Journal.RowHasher, h: Hasher, p: Setup, s: Site, x: nat, it: Intent)
    requires p.ordered && it.ref == RefOf(h, it) && it.state == Authorized
    requires s == Site(Stage(it, map[x := Idle], []), map[], map[], {})
    ensures var to, slot := Moved(it, CLAIM), SlotOf(p, x, it);
      Step(c, h, p, Step(c, h, p, Step(c, h, p, s, Act(Event(x, 3, Begin(it.id, Process)), true)), Take(x, false)), Act(Event(x, 3, Go), true)) ==
        Site(Stage(to, map[x := Holding(to)], []), map[slot := C.Account(false, 1, Some(0), None)], map[x := Held(slot, 0, false)], {})
  {
    hide Step, Moved, RefOf;
    var to, slot := Moved(it, CLAIM), SlotOf(p, x, it);
    Begins(c, h, p, s, x, it, Process, 3, map[x := Idle], []);
    assert map[x := Idle][x := Claiming(it)] == map[x := Claiming(it)] && map[x := Claiming(it)][x := Holding(to)] == map[x := Holding(to)];
    var s4 := s.(w := Stage(it, map[x := Claiming(it)], []));
    TakesFirst(c, h, p, s4, x, it);
    var s5 := Site(s4.w, map[slot := C.Account(false, 1, Some(0), None)], map[x := Held(slot, 0, false)], {});
    Wins(c, h, p, s5, x, it, map[x := Claiming(it)]);
  }

  lemma ReturnIs(c: Journal.RowHasher, h: Hasher, p: Setup, s: Site, a: nat)
    requires a in s.held && a in s.w.locals && s.w.locals[a] == Idle
    ensures var t := Step(c, h, p, s, Return(a, C.No));
      t.w == s.w && t.held == s.held - {a} && t.refused == s.refused
  {
    assert s.w.locals[a := Idle] == s.w.locals;
  }

  lemma SendsAgain(c: Journal.RowHasher, h: Hasher, p: Setup, s: Site, a: nat, it: Intent, locals: map<nat, Local>)
    requires p.ordered && s.w == Stage(it, locals, []) && a in locals && locals[a] == Rescuing(it) && Has(p, s, a, it)
    ensures Step(c, h, p, s, Act(Event(a, 4, GoRescue(Replace(Refused))), true))
         == s.(w := Stage(it, locals[a := Idle], [Replaced(it.id)]), refused := s.refused + {it.id})
  {
    Steps.RescueStep(c, h, s.w, a, 4, Replace(Refused));
    assert [] + [Replaced(it.id)] == [Replaced(it.id)];
    hide Next;
  }

  lemma Refuses4(c: Journal.RowHasher, h: Hasher, p: Setup, s: Site, x: nat, y: nat, it: Intent)
    requires p.ordered && p.sequencer(x) != p.sequencer(y) && it.state == Settling
    requires var slot := SlotOf(p, x, it);
      s == Site(Stage(it, map[x := Holding(it)], []), map[slot := C.Account(false, 1, Some(0), None)], map[x := Held(slot, 0, false)], {})
    ensures var t := Step(c, h, p, Step(c, h, p, Step(c, h, p, Step(c, h, p, s, Act(Event(y, 4, Begin(it.id, Process)), true)), Take(y, false)),
                                         Act(Event(y, 4, GoRescue(Replace(Refused))), true)), Return(y, C.No));
      t.w == Stage(it, map[x := Holding(it), y := Idle], [Replaced(it.id)]) && y !in t.held && it.id in t.refused
  {
    hide Step;
    var l7: map<nat, Local> := map[x := Holding(it), y := Rescuing(it)];
    Begins(c, h, p, s, y, it, Process, 4, map[x := Holding(it)], []);
    assert map[x := Holding(it)][y := Rescuing(it)] == l7;
    var s7 := s.(w := Stage(it, l7, []));
    TakesFirst(c, h, p, s7, y, it);
    var s8 := Step(c, h, p, s7, Take(y, false));
    SendsAgain(c, h, p, s8, y, it, l7);
    assert l7[y := Idle] == map[x := Holding(it), y := Idle];
    ReturnIs(c, h, p, Step(c, h, p, s8, Act(Event(y, 4, GoRescue(Replace(Refused))), true)), y);
  }

  lemma Fails3(c: Journal.RowHasher, h: Hasher, p: Setup, s: Site, x: nat, y: nat, it: Intent)
    requires x != y && it.ref == RefOf(h, it) && it.state == Settling && Ledger.EntryError(VoidEntry(it)) == None
    requires s.w == Stage(it, map[x := Holding(it), y := Idle], [Replaced(it.id)]) && y !in s.held && it.id in s.refused
    ensures Step(c, h, p, Step(c, h, p, Step(c, h, p, s, Act(Event(y, 5, Begin(it.id, GiveUp(true, GIVEN_UP))), true)), Act(Event(y, 5, Go), true)), Act(Event(y, 5, Go), true)).w
         == Stage(Moved(it, FAIL), map[x := Holding(it), y := Idle], [Replaced(it.id)])
  {
    CanFail(it);
    hide Step, Moved, RefOf, VoidEntry, Ledger.EntryError, Applied;
    var b := [Replaced(it.id)];
    var l11: map<nat, Local> := map[x := Holding(it), y := Voiding(it, GIVEN_UP)];
    var l12: map<nat, Local> := map[x := Holding(it), y := Saving(it, FAIL)];
    Begins(c, h, p, s, y, it, GiveUp(true, GIVEN_UP), 5, map[x := Holding(it), y := Idle], b);
    assert s.w.locals[y := Voiding(it, GIVEN_UP)] == l11 && l11[y := Saving(it, FAIL)] == l12 && l12[y := Idle] == s.w.locals;
    Voids(c, h, p, s.(w := Stage(it, l11, b)), y, it, l11, b);
    Saves(c, h, p, s.(w := Stage(it, l12, b)), y, it, FAIL, 5, l12, b);
  }

  lemma CanFail(it: Intent)
    requires it.state == Settling
    ensures Applied(it, FAIL) == Ok((Moved(it, FAIL), true))
  {
  }

  /** The run, call by call. */
  lemma CallsAre(spec: Spec, x: nat, y: nat)
    ensures var e := Overtaken(spec, x, y);
      && |e| == 13 && e[0] == Act(Event(x, 1, Create(spec)), true)
      && e[1] == Act(Event(x, 2, Begin(spec.id, Push(AUTHORIZE))), true) && e[2] == Act(Event(x, 2, Go), true)
      && e[3] == Act(Event(x, 3, Begin(spec.id, Process)), true) && e[4] == Take(x, false) && e[5] == Act(Event(x, 3, Go), true)
      && e[6] == Act(Event(y, 4, Begin(spec.id, Process)), true) && e[7] == Take(y, false)
      && e[8] == Act(Event(y, 4, GoRescue(Replace(Refused))), true) && e[9] == Return(y, C.No)
      && e[10] == Act(Event(y, 5, Begin(spec.id, GiveUp(true, GIVEN_UP))), true) && e[11] == Act(Event(y, 5, Go), true) && e[12] == Act(Event(y, 5, Go), true)
  {
  }

  lemma ThreeCalls(c: Journal.RowHasher, h: Hasher, p: Setup, calls: seq<Call>, k: nat)
    requires k + 3 <= |calls|
    ensures Runs(c, h, p, calls[..k + 3]) == Step(c, h, p, Step(c, h, p, Step(c, h, p, Runs(c, h, p, calls[..k]), calls[k]), calls[k + 1]), calls[k + 2])
  {
    hide Step, Runs;
    OneCall(c, h, p, calls, k);
    OneCall(c, h, p, calls, k + 1);
    OneCall(c, h, p, calls, k + 2);
  }

  lemma EntriesAreValid(h: Hasher, spec: Spec, it: Intent)
    requires New(h, spec, 1).Ok? && it.SameTerms(New(h, spec, 1).value) && it.ref != ZERO && it.updatedAt != 0
    ensures Ledger.EntryError(HoldEntry(it)) == None && Ledger.EntryError(VoidEntry(it)) == None
  {
    var legs := PayLegs(it, it.amount);
    assert legs[0].account[0] == 112 && legs[1].account[0] == 109;
    assert legs[..1][..0] == [] && legs[..|legs| - 1] == legs[..1];
    assert Ledger.Total(legs[..1]) == Ledger.Total([]) + legs[0].amount;
    assert (it.id + HOLD) != [];
  }

  lemma CanAuthorize(h: Hasher, spec: Spec)
    requires New(h, spec, 1).Ok? && spec.expiresAt == 0
    ensures var it := New(h, spec, 1).value;
      && it.ref == RefOf(h, it) && it.id == spec.id && Applied(it, AUTHORIZE) == Ok((Moved(it, AUTHORIZE), true))
  {
  }

  lemma Creates(c: Journal.RowHasher, h: Hasher, p: Setup, spec: Spec, x: nat)
    requires New(h, spec, 1).Ok?
    ensures Step(c, h, p, FIRST, Act(Event(x, 1, Create(spec)), true)) == FIRST.(w := Stage(New(h, spec, 1).value, map[], []))
  {
    var e, it := Event(x, 1, Create(spec)), New(h, spec, 1).value;
    assert Next(c, h, EMPTY, e) == Stage(it, map[], []);
    NothingRefused(EMPTY, e);
    hide Next, Step, RefusedBy, New;
    ActIs(c, h, p, FIRST, e, Stage(it, map[], []));
  }

  lemma Authorizes(c: Journal.RowHasher, h: Hasher, p: Setup, spec: Spec, x: nat, y: nat)
    requires New(h, spec, 1).Ok? && spec.expiresAt == 0
    ensures var it := Moved(New(h, spec, 1).value, AUTHORIZE);
      && it.ref == RefOf(h, it) && it.state == Authorized && it.id == spec.id && it.SameTerms(New(h, spec, 1).value)
      && Runs(c, h, p, Overtaken(spec, x, y)[..3]) == Site(Stage(it, map[x := Idle], []), map[], map[], {})
  {
    hide New, Step, Moved, Applied, RefOf, Runs, Overtaken;
    var it, e := New(h, spec, 1).value, Overtaken(spec, x, y);
    CanAuthorize(h, spec);
    MovedIs(h, it, AUTHORIZE);
    CallsAre(spec, x, y);
    EmptyRun(c, h, p, e);
    ThreeCalls(c, h, p, e, 0);
    Creates(c, h, p, spec, x);
    var s1 := FIRST.(w := Stage(it, map[], []));
    Begins(c, h, p, s1, x, it, Push(AUTHORIZE), 2, map[], []);
    var l2: map<nat, Local> := map[x := Saving(it, AUTHORIZE)];
    assert map[][x := Saving(it, AUTHORIZE)] == l2 && l2[x := Idle] == map[x := Idle];
    Saves(c, h, p, s1.(w := Stage(it, l2, [])), x, it, AUTHORIZE, 2, l2, []);
  }

  /** The run up to the failure. */
  lemma OvertakenEnds(c: Journal.RowHasher, h: Hasher, p: Setup, spec: Spec, x: nat, y: nat) returns (it: Intent)
    requires p.ordered && p.sequencer(x) != p.sequencer(y)
    requires New(h, spec, 1).Ok? && spec.expiresAt == 0 && New(h, spec, 1).value.ref != ZERO
    ensures it.id == spec.id && Ledger.EntryError(HoldEntry(it)) == None && it.ref == RefOf(h, it)
    ensures Runs(c, h, p, Overtaken(spec, x, y)).w == Stage(Moved(it, FAIL), map[x := Holding(it), y := Idle], [Replaced(it.id)])
  {
    hide New, Runs, Moved, HoldEntry, VoidEntry, Ledger.EntryError, Overtaken, Step, RefOf;
    NewRef(h, spec);
    Authorizes(c, h, p, spec, x, y);
    var it1 := Moved(New(h, spec, 1).value, AUTHORIZE);
    MovedIs(h, it1, CLAIM);
    it := Moved(it1, CLAIM);
    EntriesAreValid(h, spec, it);
    var e := Overtaken(spec, x, y);
    CallsAre(spec, x, y);
    ThreeCalls(c, h, p, e, 3);
    Claims3(c, h, p, Runs(c, h, p, e[..3]), x, it1);
    assert SlotOf(p, x, it1) == SlotOf(p, x, it);
    ThreeCalls(c, h, p, e, 6);
    OneCall(c, h, p, e, 9);
    Refuses4(c, h, p, Runs(c, h, p, e[..6]), x, y, it);
    ThreeCalls(c, h, p, e, 10);
    assert e[..13] == e;
    Fails3(c, h, p, Runs(c, h, p, e[..10]), x, y, it);
  }

  /** So it can be when claimant and rescuer have a sequencer each: the payment failed, nothing was on the
      books, and its claimant goes on to book a hold that is left pending. */
  lemma OvertakenIsLeftPending(c: Journal.RowHasher, h: Hasher, p: Setup, spec: Spec, x: nat, y: nat)
    requires p.ordered && p.sequencer(x) != p.sequencer(y)
    requires New(h, spec, 1).Ok? && spec.expiresAt == 0 && New(h, spec, 1).value.ref != ZERO
    ensures var w := Runs(c, h, p, Overtaken(spec, x, y)).w;
      && spec.id in w.shelf.m && FailedByRelayer(w.shelf.m[spec.id]) && w.books == [] && AboutToHold(w, x, spec.id)
    ensures var v := Runs(c, h, p, Overtaken(spec, x, y) + [Act(Event(x, 6, Go), true)]).w;
      && spec.id in v.shelf.m && FailedByRelayer(v.shelf.m[spec.id]) && LeftPending(v.books, spec.id)
  {
    hide New, Runs, Moved, HoldEntry, Ledger.EntryError, Inv, Overtaken, LeftPending, Next, Step, RefOf;
    var it := OvertakenEnds(c, h, p, spec, x, y);
    MovedIs(h, it, FAIL);
    var e, last := Overtaken(spec, x, y), Event(x, 6, Go);
    RunIsSafe(c, h, p, e);
    var s := Runs(c, h, p, e);
    HoldIsBooked(c, h, s.w, x, 6, spec.id);
    var on := e + [Act(last, true)];
    assert on[..|e|] == e && on[..|e| + 1] == on;
    OneCall(c, h, p, on, |e|);
    HoldsOn(c, h, p, s, last);
  }

  lemma NewRef(h: Hasher, spec: Spec)
    requires New(h, spec, 1).Ok?
    ensures New(h, spec, 1).value.ref == RefOf(h, New(h, spec, 1).value)
  {
  }

  lemma HoldsOn(c: Journal.RowHasher, h: Hasher, p: Setup, s: Site, e: Event)
    requires e.action.Go? && e.actor in s.w.locals && s.w.locals[e.actor].Holding?
    ensures var t := Step(c, h, p, s, Act(e, true));
      t.w == Next(c, h, s.w, e) && t.w.shelf == s.w.shelf
  {
    hide Journal.AppendTo, HoldEntry;
  }

  /** In all runs no payment a relayer failed is left with a pending hold, exactly when the sender needs no
      numbers or all workers use one sequencer. */
  lemma OneSequencer(c: Journal.RowHasher, h: Hasher, p: Setup, spec: Spec)
    requires New(h, spec, 1).Ok? && spec.expiresAt == 0 && New(h, spec, 1).value.ref != ZERO
    ensures (forall calls, id :: FailsWell(Runs(c, h, p, calls).w, id)) <==> !p.ordered || Shared(p)
  {
    hide Runs, New;
    if !p.ordered || Shared(p) {
      forall calls, id ensures FailsWell(Runs(c, h, p, calls).w, id) {
        var w := Runs(c, h, p, calls).w;
        if id in w.shelf.m && FailedByRelayer(w.shelf.m[id]) {
          FailedIsClosed(c, h, p, calls, id);
        }
      }
    } else {
      var x, y :| p.sequencer(x) != p.sequencer(y);
      OvertakenIsLeftPending(c, h, p, spec, x, y);
      assert !FailsWell(Runs(c, h, p, Overtaken(spec, x, y) + [Act(Event(x, 6, Go), true)]).w, spec.id);
    }
  }

  /** If a relayer failed it, its hold is not pending. */
  predicate FailsWell(w: World, id: Str) {
    id in w.shelf.m && FailedByRelayer(w.shelf.m[id]) ==> !LeftPending(w.books, id)
  }
}
