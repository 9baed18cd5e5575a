/** The payment intent: its states, who may move it along which edge with what evidence,
    and the compare-and-swap store that decides which of two movers wins. */
module Intent {
  import opened Bytes
  import PaymentRef

  type Time = int

  datatype State =
    | Created | Authorized | Settling | Confirming | NeedsReview
    | Settled | Failed | Canceled
    | Unlisted(name: Str)
  {
    predicate Terminal() { this == Settled || this == Failed || this == Canceled }

    predicate Valid() { !Unlisted? }

    /** The states before any relayer has touched the intent, and the one that ends there. */
    predicate Untouched() { this == Created || this == Authorized || this == Canceled }
  }

  datatype Actor = API | Relayer | Listener | Operator | System

  datatype Rule = Rule(from: State, to: State, actors: set<Actor>, needsTxHash: bool, needsReason: bool)

  /** The whole transition table. */
  function Rules(): seq<Rule> {
    [ Rule(Created, Authorized, {API}, false, false),
      Rule(Created, Canceled, {API, Operator, System}, false, true),
      Rule(Authorized, Settling, {Relayer}, false, false),
      Rule(Authorized, Canceled, {API, Operator}, false, true),
      Rule(Settling, Confirming, {Relayer, Listener}, true, false),
      Rule(Settling, Failed, {Relayer}, false, true),
      Rule(Settling, NeedsReview, {Relayer}, false, true),
      Rule(Confirming, Settled, {Listener}, true, false),
      Rule(Confirming, Settling, {Listener}, false, true),
      Rule(Confirming, NeedsReview, {Listener}, false, true),
      Rule(NeedsReview, Settled, {Operator}, true, true),
      Rule(NeedsReview, Failed, {Operator}, false, true) ]
  }

  /** The row for an edge; None when the edge is not on the table. */
  function Lookup(from: State, to: State): Option<Rule> {
    match from
    case Created =>
      if to == Authorized then Some(Rules()[0]) else if to == Canceled then Some(Rules()[1]) else None
    case Authorized =>
      if to == Settling then Some(Rules()[2]) else if to == Canceled then Some(Rules()[3]) else None
    case Settling =>
      if to == Confirming then Some(Rules()[4]) else if to == Failed then Some(Rules()[5])
      else if to == NeedsReview then Some(Rules()[6]) else None
    case Confirming =>
      if to == Settled then Some(Rules()[7]) else if to == Settling then Some(Rules()[8])
      else if to == NeedsReview then Some(Rules()[9]) else None
    case NeedsReview =>
      if to == Settled then Some(Rules()[10]) else if to == Failed then Some(Rules()[11]) else None
    case _ => None
  }

  lemma OnTable(i: nat)
    requires i < |Rules()|
    ensures Lookup(Rules()[i].from, Rules()[i].to) == Some(Rules()[i])
  {
  }

  lemma InTable(from: State, to: State)
    ensures Lookup(from, to).Some? ==> exists i :: 0 <= i < |Rules()| && Rules()[i].from == from && Rules()[i].to == to
  {
    if Lookup(from, to).Some? {
      var r := Lookup(from, to).value;
      assert r.from == from && r.to == to && r in Rules();
    }
  }

  /** Searching the table by hand gives the same row. */
  method FindRule(from: State, to: State) returns (r: Option<Rule>)
    ensures r == Lookup(from, to)
  {
    InTable(from, to);
    hide Rules, Lookup;
    for i := 0 to |Rules()|
      invariant forall k :: 0 <= k < i ==> !(Rules()[k].from == from && Rules()[k].to == to)
    {
      if Rules()[i].from == from && Rules()[i].to == to {
        OnTable(i);
        return Some(Rules()[i]);
      }
    }
    return None;
  }

  datatype Transition = Transition(from: State, to: State, actor: Actor, at: Time, txHash: Str, reason: Str)

  datatype Intent = Intent(
    id: Str, ref: Digest, chain: Str, token: Str, payer: Str, merchant: Str, amount: int,
    state: State, version: nat, txHash: Str,
    createdAt: Time, updatedAt: Time, expiresAt: Time, history: seq<Transition>)
  {
    /** What the payment is, as opposed to how far it has come. */
    function Terms(): PaymentRef.Terms {
      PaymentRef.Terms(id, chain, token, payer, merchant, Decimal(amount))
    }

    predicate SameTerms(o: Intent) {
      && id == o.id && ref == o.ref && chain == o.chain && token == o.token
      && payer == o.payer && merchant == o.merchant && amount == o.amount
    }
  }

  datatype Request = Request(to: State, actor: Actor, txHash: Str, reason: Str, at: Time)

  datatype Error =
    | UnknownState | AlreadyTerminal | IllegalTransition | ForbiddenActor | MissingEvidence
    | Expired | EvidenceMismatch | InvalidSpec | NotFound | VersionConflict | RefMismatch

  datatype Spec = Spec(id: Str, chain: Str, token: Str, payer: Str, merchant: Str, amount: int, expiresAt: Time)

  /** A new intent, in `created` at version 1 with its ref already derived. */
  function New(h: Hasher, s: Spec, now: Time): Result<Intent, Error> {
    if s.id == [] || s.chain == [] || s.token == [] || s.payer == [] || s.merchant == [] || s.amount <= 0
       || (s.expiresAt != 0 && s.expiresAt <= now) then
      Err(InvalidSpec)
    else
      var blank := Intent(s.id, ZERO, s.chain, s.token, s.payer, s.merchant, s.amount,
                          Created, 1, [], now, now, s.expiresAt, []);
      Ok(blank.(ref := PaymentRef.Derive(h, blank.Terms())))
  }

  /** What an edge demands beyond the table. */
  function Guard(it: Intent, req: Request): Option<Error> {
    if it.state == Created && req.to == Authorized then
      if it.expiresAt != 0 && req.at > it.expiresAt then Some(Expired) else None
    else if req.to == Settled && it.txHash != [] && it.txHash != req.txHash then Some(EvidenceMismatch)
    else None
  }

  function Refusal(it: Intent, req: Request): Option<Error> {
    var rule := Lookup(it.state, req.to);
    if it.state.Terminal() then Some(AlreadyTerminal)
    else if rule.None? then Some(IllegalTransition)
    else if req.actor !in rule.value.actors then Some(ForbiddenActor)
    else if (rule.value.needsTxHash && req.txHash == []) || (rule.value.needsReason && req.reason == []) then
      Some(MissingEvidence)
    else Guard(it, req)
  }

  function Moved(it: Intent, req: Request): Intent {
    it.(history := it.history + [Transition(it.state, req.to, req.actor, req.at, req.txHash, req.reason)],
        state := req.to, version := it.version + 1, updatedAt := req.at,
        txHash := if req.to == Confirming || req.to == Settled then req.txHash
                  else if req.to == Settling then [] else it.txHash)
  }

  /** What Apply makes of an intent: the moved intent and true, the same intent and false
      when it is already there, or the reason for refusing. */
  function Applied(it: Intent, req: Request): Result<(Intent, bool), Error> {
    if !req.to.Valid() then Err(UnknownState)
    else if it.state == req.to then Ok((it, false))
    else if Refusal(it, req).Some? then Err(Refusal(it, req).value)
    else Ok((Moved(it, req), true))
  }

  // ---- what every reachable intent looks like ----

  predicate Step(t: Transition) {
    var rule := Lookup(t.from, t.to);
    && rule.Some? && t.actor in rule.value.actors
    && (rule.value.needsTxHash ==> t.txHash != []) && (rule.value.needsReason ==> t.reason != [])
  }

  ghost predicate Path(history: seq<Transition>, last: State) {
    if history == [] then last == Created
    else
      var t := history[|history| - 1];
      t.to == last && Step(t) && Path(history[..|history| - 1], t.from)
  }

  /** The history is a walk along the table from `created` to the present state, one
      version per step, and the hash on record fits the state. */
  ghost predicate Sound(it: Intent) {
    && it.state.Valid()
    && it.version == |it.history| + 1
    && Path(it.history, it.state)
    && (it.state.Untouched() || it.state == Settling ==> it.txHash == [])
    && (it.state == Confirming || it.state == Settled ==> it.txHash != [])
    && (it.history != [] ==> it.history[|it.history| - 1].to == it.state)
  }

  lemma NewIsSound(h: Hasher, s: Spec, now: Time)
    requires New(h, s, now).Ok?
    ensures Sound(New(h, s, now).value)
    ensures New(h, s, now).value.ref == PaymentRef.Derive(h, New(h, s, now).value.Terms())
  {
  }

  /** Every accepted move keeps the intent sound and its terms untouched, steps the
      version by exactly one, and never leaves a terminal state. */
  lemma AppliedKeepsSound(it: Intent, req: Request)
    requires Sound(it) && Applied(it, req).Ok?
    ensures var (r, applied) := Applied(it, req).value;
      && Sound(r) && r.SameTerms(it) && r.state == req.to
      && (applied ==> r.version == it.version + 1 && !it.state.Terminal() && it.history < r.history)
      && (!applied ==> r == it)
  {
    var r := Applied(it, req).value.0;
    if Applied(it, req).value.1 {
      assert r.history[..|r.history| - 1] == it.history;
    }
  }

  /** A delivered request delivered again is accepted and changes nothing. */
  lemma ReplayIsQuiet(it: Intent, req: Request)
    requires Applied(it, req).Ok?
    ensures Applied(Applied(it, req).value.0, req) == Ok((Applied(it, req).value.0, false))
  {
  }

  /** Only the relayer's claim leads out of the states in which nothing was ever sent. */
  lemma OnlyTheClaimTouches(it: Intent, req: Request)
    requires it.state.Untouched() && Applied(it, req).Ok? && !Applied(it, req).value.0.state.Untouched()
    ensures it.state == Authorized && req.to == Settling && req.actor == Relayer
  {
  }

  // ---- an intent in memory, changed in place ----

  class Record {
    const terms: Intent
    var state: State
    var version: nat
    var txHash: Str
    var updatedAt: Time
    var history: seq<Transition>

    function View(): Intent
      reads this
    {
      terms.(state := state, version := version, txHash := txHash, updatedAt := updatedAt, history := history)
    }

    constructor (it: Intent)
      ensures View() == it
    {
      terms := it;
      state, version, txHash, updatedAt, history := it.state, it.version, it.txHash, it.updatedAt, it.history;
    }

    /** Move to req.to or refuse; a refusal and a replay leave every field alone. */
    method Apply(req: Request) returns (r: Result<bool, Error>)
      modifies this
      ensures match Applied(old(View()), req)
              case Ok(moved) => View() == moved.0 && r == Ok(moved.1)
              case Err(e) => View() == old(View()) && r == Err(e)
    {
      if !req.to.Valid() {
        return Err(UnknownState);
      }
      if state == req.to {
        return Ok(false);
      }
      if state.Terminal() {
        return Err(AlreadyTerminal);
      }
      var rule := FindRule(state, req.to);
      if rule.None? {
        return Err(IllegalTransition);
      }
      if req.actor !in rule.value.actors {
        return Err(ForbiddenActor);
      }
      if rule.value.needsTxHash && req.txHash == [] {
        return Err(MissingEvidence);
      }
      if rule.value.needsReason && req.reason == [] {
        return Err(MissingEvidence);
      }
      var bad := Guard(View(), req);
      if bad.Some? {
        return Err(bad.value);
      }
      history := history + [Transition(state, req.to, req.actor, req.at, req.txHash, req.reason)];
      state := req.to;
      version := version + 1;
      updatedAt := req.at;
      if req.to == Confirming || req.to == Settled {
        txHash := req.txHash;
      } else if req.to == Settling {
        txHash := [];
      }
      return Ok(true);
    }
  }

  // ---- the store ----

  datatype Shelf = Shelf(m: map<Str, Intent>, byRef: map<Digest, Str>)

  /** Compare and swap: written only at the expected version and under its own ref. */
  function Saved(h: Hasher, s: Shelf, it: Intent, expected: nat): Result<Shelf, Error> {
    if it.id !in s.m && expected != 0 then Err(VersionConflict)
    else if it.id in s.m && s.m[it.id].version != expected then Err(VersionConflict)
    else if it.ref != PaymentRef.Derive(h, it.Terms()) then Err(RefMismatch)
    else Ok(Shelf(s.m[it.id := it], s.byRef[it.ref := it.id]))
  }

  class MemoryStore {
    const h: Hasher
    var m: map<Str, Intent>
    var byRef: map<Digest, Str>

    function View(): Shelf
      reads this
    {
      Shelf(m, byRef)
    }

    /** An intent is stored under its own id, and whatever a ref leads to is stored. */
    ghost predicate Valid()
      reads this
    {
      (forall id :: id in m ==> m[id].id == id) && (forall r :: r in byRef ==> byRef[r] in m)
    }

    constructor (h: Hasher)
      ensures Valid() && View() == Shelf(map[], map[]) && this.h == h
    {
      this.h := h;
      m, byRef := map[], map[];
    }

    method Get(id: Str) returns (r: Result<Intent, Error>)
      ensures r == if id in m then Ok(m[id]) else Err(NotFound)
    {
      if id !in m {
        return Err(NotFound);
      }
      return Ok(m[id]);
    }

    method GetByRef(ref: Digest) returns (r: Result<Intent, Error>)
      requires Valid()
      ensures r == if ref in byRef then Ok(m[byRef[ref]]) else Err(NotFound)
    {
      if ref !in byRef {
        return Err(NotFound);
      }
      return Ok(m[byRef[ref]]);
    }

    method Save(it: Intent, expected: nat) returns (err: Option<Error>)
      requires Valid()
      modifies this
      ensures Valid()
      ensures match Saved(h, old(View()), it, expected)
              case Ok(s) => View() == s && err == None
              case Err(e) => View() == old(View()) && err == Some(e)
    {
      if it.id !in m {
        if expected != 0 {
          return Some(VersionConflict);
        }
      } else if m[it.id].version != expected {
        return Some(VersionConflict);
      }
      if it.ref != PaymentRef.Derive(h, it.Terms()) {
        return Some(RefMismatch);
      }
      m := m[it.id := it];
      byRef := byRef[it.ref := it.id];
      return None;
    }

    /** Read, apply, write back, with nobody in between. */
    method Advance(id: Str, req: Request) returns (r: Result<(Intent, bool), Error>)
      requires Valid()
      modifies this
      ensures Valid()
      ensures r == AdvanceResult(h, old(View()), id, req)
      ensures View() == if r.Ok? && r.value.1 then Saved(h, old(View()), r.value.0, old(View()).m[id].version).value
                        else old(View())
    {
      var got := Get(id);
      if got.Err? {
        return Err(got.error);
      }
      var expected := got.value.version;
      var rec := new Record(got.value);
      var applied := rec.Apply(req);
      if applied.Err? {
        return Err(applied.error);
      }
      if !applied.value {
        return Ok((rec.View(), false));
      }
      var err := Save(rec.View(), expected);
      if err.Some? {
        return Err(err.value);
      }
      return Ok((rec.View(), true));
    }
  }

  function AdvanceResult(h: Hasher, s: Shelf, id: Str, req: Request): Result<(Intent, bool), Error> {
    if id !in s.m then Err(NotFound)
    else
      var r := Applied(s.m[id], req);
      if r.Err? then Err(r.error)
      else if !r.value.1 then r
      else
        var saved := Saved(h, s, r.value.0, s.m[id].version);
        if saved.Err? then Err(saved.error) else r
  }
}
