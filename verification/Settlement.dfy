/** The settlement protocol as interleaved atomic steps.

    Any number of actors (relayer workers, listeners, recon engines, the API, operators)
    each hold at most one local copy of an intent.  A step is one call on the shared
    store, the journal or the sender.  An actor may be delayed forever between two calls,
    which is what a crash looks like to the others, and may start over at any time, which
    is what a redelivered job looks like.  What the chain answers, when a send fails and
    which plan a rescue picks are choices of the environment. */
module Settlement {
  import opened Bytes
  import opened Intent
  import Ledger
  import Journal

  type Books = seq<Journal.Row>

  // ---- the entries the actors write ----

  const HOLD: Str := Text("/hold")
  const POST: Str := Text("/post")
  const VOID: Str := Text("/void")

  function AssetOf(it: Intent): Ledger.Asset { Ledger.Asset(it.chain, it.token) }

  function PayLegs(it: Intent, amount: int): seq<Ledger.Leg> {
    [Ledger.Leg(Ledger.PayerAccount(it.payer), -amount), Ledger.Leg(Ledger.MerchantAccount(it.merchant), amount)]
  }

  function HoldEntry(it: Intent): Ledger.Entry {
    Ledger.Entry(it.id + HOLD, it.ref, Ledger.Hold, [], AssetOf(it), PayLegs(it, it.amount),
                 Text("relayer"), it.updatedAt, [], [])
  }

  function VoidEntry(it: Intent): Ledger.Entry {
    Ledger.Entry(it.id + VOID, it.ref, Ledger.Void, it.id + HOLD, AssetOf(it), [],
                 Text("relayer"), it.updatedAt, [], Text("nothing was broadcast, releasing the hold"))
  }

  function PostEntry(it: Intent, received: int): Ledger.Entry {
    Ledger.Entry(it.id + POST, it.ref, Ledger.Post, it.id + HOLD, AssetOf(it), PayLegs(it, received),
                 Text("listener"), it.updatedAt, it.txHash, [])
  }

  // ---- actors ----

  datatype Local =
    | Idle
    | Claiming(it: Intent)
    | Holding(it: Intent)
    | Sending(it: Intent)
    | Rescuing(it: Intent)
    | Voiding(it: Intent, reason: Str)
    | Posting(it: Intent)
    | Saving(it: Intent, req: Request)

  /** What the chain says about the transaction of a confirming intent. */
  datatype Verdict = Wait | Lost(why: Str) | Wrong(why: Str) | Paid

  datatype Goal =
    | Process
    | GiveUp(nothingSent: bool, why: Str)
    | Check(verdict: Verdict)
    | Push(req: Request)

  datatype Outcome = Accepted(txHash: Str) | Refused

  datatype Plan = KeepWaiting | AskForReview(why: Str) | Replace(outcome: Outcome) | Clear(why: Str)

  datatype Action =
    | Create(spec: Spec)
    | Begin(id: Str, goal: Goal)
    | Go
    | GoSend(outcome: Outcome)
    | GoRescue(plan: Plan)

  /** Who acts, when, and how. */
  datatype Event = Event(actor: nat, at: Time, action: Action)

  datatype Broadcast = Sent(id: Str) | Replaced(id: Str)

  datatype World = World(shelf: Shelf, books: Books, locals: map<nat, Local>, broadcasts: seq<Broadcast>)

  const EMPTY: World := World(Shelf(map[], map[]), [], map[], [])

  /** Pushes that come from outside the workers and the listener's own check: the API,
      operators and the clock may ask for anything, recon only moves an intent back to
      settling or on to confirming. */
  predicate PushAllowed(req: Request) {
    || req.actor == API || req.actor == Operator || req.actor == System
    || (req.actor == Listener && (req.to == Settling || req.to == Confirming))
  }

  /** Read the intent and decide, on what was read, what to do next. */
  function Decide(it: Intent, goal: Goal, at: Time): Local {
    match goal
    case Process =>
      if it.state == Authorized then Claiming(it) else if it.state == Settling then Rescuing(it) else Idle
    case GiveUp(nothingSent, why) =>
      if it.state != Settling then Idle
      else if nothingSent then Voiding(it, why)
      else Saving(it, Request(NeedsReview, Relayer, [], why, at))
    case Check(verdict) =>
      if it.state != Confirming then Idle
      else
        (match verdict
         case Wait => Idle
         case Lost(why) => Saving(it, Request(Settling, Listener, [], why, at))
         case Wrong(why) => Saving(it, Request(NeedsReview, Listener, [], why, at))
         case Paid => Posting(it))
    case Push(req) => if PushAllowed(req) then Saving(it, req) else Idle
  }

  /** Apply to the local copy and write it back; None when anything refuses. */
  function CompareAndSwap(h: Hasher, s: Shelf, it: Intent, req: Request): Option<(Shelf, Intent)> {
    var applied := Applied(it, req);
    if applied.Err? || !applied.value.1 then None
    else
      var saved := Saved(h, s, applied.value.0, it.version);
      if saved.Err? then None else Some((saved.value, applied.value.0))
  }

  function Confirmed(txHash: Str, at: Time): Request { Request(Confirming, Relayer, txHash, [], at) }

  function Next(c: Journal.RowHasher, h: Hasher, w: World, e: Event): World {
    match e.action
    case Create(spec) => Opened(h, w, spec, e.at)
    case Begin(id, goal) =>
      w.(locals := w.locals[e.actor := if id in w.shelf.m then Decide(w.shelf.m[id], goal, e.at) else Idle])
    case _ =>
      if e.actor !in w.locals then w else Continue(c, h, w, e.actor, w.locals[e.actor], e.at, e.action)
  }

  function Opened(h: Hasher, w: World, spec: Spec, at: Time): World {
    var it := New(h, spec, at);
    if it.Err? then w
    else
      var saved := Saved(h, w.shelf, it.value, 0);
      if saved.Err? then w else w.(shelf := saved.value)
  }

  /** The next call of actor a, whose program counter and copy are `l`. */
  function Continue(c: Journal.RowHasher, h: Hasher, w: World, a: nat, l: Local, at: Time, act: Action): World {
    match l
    case Idle => w
    case Claiming(it) => Swap(h, w, a, it, Request(Settling, Relayer, [], [], at), true)
    case Saving(it, req) => Swap(h, w, a, it, req, false)
    case Holding(it) => Book(c, w, a, HoldEntry(it), Sending(it))
    case Posting(it) =>
      Book(c, w, a, PostEntry(it, it.amount), Saving(it, Request(Settled, Listener, it.txHash, [], at)))
    case Voiding(it, why) =>
      var fail := Saving(it, Request(Failed, Relayer, [], why, at));
      var r := Journal.AppendTo(c, w.books, VoidEntry(it));
      if r.Err? && (r.error == Ledger.NoSuchHold || r.error == Ledger.AlreadyResolved) then w.(locals := w.locals[a := fail])
      else Book(c, w, a, VoidEntry(it), fail)
    case Sending(it) =>
      if act.GoSend? then
        w.(broadcasts := w.broadcasts + [Sent(it.id)],
           locals := w.locals[a := if act.outcome.Accepted? then Saving(it, Confirmed(act.outcome.txHash, at)) else Idle])
      else w
    case Rescuing(it) =>
      if act.GoRescue? then Rescue(w, a, it, act.plan, at) else w
  }

  function Swap(h: Hasher, w: World, a: nat, it: Intent, req: Request, claim: bool): World {
    var r := CompareAndSwap(h, w.shelf, it, req);
    if r.None? then w.(locals := w.locals[a := Idle])
    else w.(shelf := r.value.0, locals := w.locals[a := if claim then Holding(r.value.1) else Idle])
  }

  function Book(c: Journal.RowHasher, w: World, a: nat, entry: Ledger.Entry, then_: Local): World {
    var r := Journal.AppendTo(c, w.books, entry);
    if r.Err? then w.(locals := w.locals[a := Idle])
    else w.(books := r.value.journal, locals := w.locals[a := then_])
  }

  function Rescue(w: World, a: nat, it: Intent, plan: Plan, at: Time): World {
    match plan
    case KeepWaiting => w.(locals := w.locals[a := Idle])
    case AskForReview(why) => w.(locals := w.locals[a := Saving(it, Request(NeedsReview, Relayer, [], why, at))])
    case Clear(why) => w.(locals := w.locals[a := Saving(it, Request(NeedsReview, Relayer, [], why, at))])
    case Replace(outcome) =>
      w.(broadcasts := w.broadcasts + [Replaced(it.id)],
         locals := w.locals[a := if outcome.Accepted? then Saving(it, Confirmed(outcome.txHash, at)) else Idle])
  }

  function Run(c: Journal.RowHasher, h: Hasher, es: seq<Event>): World {
    if es == [] then EMPTY else Next(c, h, Run(c, h, es[..|es| - 1]), es[|es| - 1])
  }
}
