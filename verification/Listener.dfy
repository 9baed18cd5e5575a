/** One look at a confirming intent: ask the chain, judge, book, move. */
module Listener {
  import opened Bytes
  import opened Intent
  import S = Settlement
  import F = Finality
  import Ledger
  import Journal

  /** What the watcher saw of an intent's transaction: where it stands and what arrived. */
  datatype Seen = Seen(obs: F.Observation, received: Option<int>)

  /** A watcher's answers at one moment; None is a failed look. */
  type Watch = Intent -> Option<Seen>

  /** The store and the books. */
  datatype Records = Records(shelf: Shelf, books: S.Books)

  datatype Env = Env(h: Hasher, c: Journal.RowHasher, policy: Str -> Option<F.Policy>)

  datatype Outcome = Waiting | Closed | HandedBack | SentToReview | NothingToDo

  datatype Fail = Stored(cause: Error) | Booked(reason: Ledger.Error) | NoPolicy | NoAnswer | OutsideWindow

  datatype Judgement = Wait | Lost | Wrong | Paid

  /** The verdict on the transaction, then on the money. */
  function Judged(p: F.Policy, it: Intent, seen: Seen, at: Time): Judgement {
    match F.Judge(p, seen.obs, at - it.updatedAt)
    case Pending => Wait
    case Lost => Lost
    case Failed => Wrong
    case Final => if seen.received == Some(it.amount) then Paid else Wrong
  }

  const WHY: Str := Text("the chain says otherwise")

  /** Apply to the copy that was read, and write it back. */
  function Pushed(h: Hasher, s: Records, it: Intent, req: Request, out: Outcome): (Records, Result<Outcome, Fail>) {
    var applied := Applied(it, req);
    if applied.Err? then (s, Err(Stored(applied.error)))
    else if !applied.value.1 then (s, Ok(out))
    else
      var saved := Saved(h, s.shelf, applied.value.0, it.version);
      if saved.Err? then (s, Err(Stored(saved.error))) else (s.(shelf := saved.value), Ok(out))
  }

  /** What one Check does to the store and the books. */
  function CheckOf(env: Env, s: Records, id: Str, watch: Watch, at: Time): (Records, Result<Outcome, Fail>) {
    if id !in s.shelf.m then (s, Err(Stored(NotFound)))
    else
      var it := s.shelf.m[id];
      if it.state != Confirming then (s, Ok(NothingToDo))
      else if env.policy(it.chain).None? then (s, Err(NoPolicy))
      else
        var seen := watch(it);
        if seen.None? then (s, Err(NoAnswer))
        else
          match Judged(env.policy(it.chain).value, it, seen.value, at)
          case Wait => (s, Ok(Waiting))
          case Lost => Pushed(env.h, s, it, Request(Settling, Listener, [], WHY, at), HandedBack)
          case Wrong => Pushed(env.h, s, it, Request(NeedsReview, Listener, [], WHY, at), SentToReview)
          case Paid =>
            var booked := Journal.AppendTo(env.c, s.books, S.PostEntry(it, it.amount));
            if booked.Err? then (s, Err(Booked(booked.error)))
            else Pushed(env.h, s.(books := booked.value.journal), it, Request(Settled, Listener, it.txHash, [], at), Closed)
  }

  method Push(store: MemoryStore, it: Intent, req: Request, out: Outcome, ghost s: Records) returns (r: Result<Outcome, Fail>)
    requires store.Valid() && s.shelf == store.View()
    modifies store
    ensures store.Valid() && (s.(shelf := store.View()), r) == Pushed(store.h, s, it, req, out)
  {
    var rec := new Record(it);
    var applied := rec.Apply(req);
    if applied.Err? {
      return Err(Stored(applied.error));
    }
    if applied.value {
      var err := store.Save(rec.View(), it.version);
      if err.Some? {
        return Err(Stored(err.value));
      }
    }
    return Ok(out);
  }

  method Check(env: Env, store: MemoryStore, journal: Journal.MemoryJournal, id: Str, watch: Watch, at: Time) returns (r: Result<Outcome, Fail>)
    requires store.Valid() && journal.Valid() && store.h == env.h && journal.c == env.c
    modifies store, journal
    ensures store.Valid() && journal.Valid()
    ensures (Records(store.View(), journal.entries), r) == CheckOf(env, old(Records(store.View(), journal.entries)), id, watch, at)
  {
    ghost var s := Records(store.View(), journal.entries);
    var got := store.Get(id);
    if got.Err? {
      return Err(Stored(got.error));
    }
    var it := got.value;
    if it.state != Confirming {
      return Ok(NothingToDo);
    }
    var policy := env.policy(it.chain);
    if policy.None? {
      return Err(NoPolicy);
    }
    var seen := watch(it);
    if seen.None? {
      return Err(NoAnswer);
    }
    hide Journal.AppendTo, S.PostEntry, Applied, Saved;
    match Judged(policy.value, it, seen.value, at) {
      case Wait =>
        return Ok(Waiting);
      case Lost =>
        r := Push(store, it, Request(Settling, Actor.Listener, [], WHY, at), HandedBack, s);
      case Wrong =>
        r := Push(store, it, Request(NeedsReview, Actor.Listener, [], WHY, at), SentToReview, s);
      case Paid =>
        var booked := journal.Append(S.PostEntry(it, it.amount));
        if booked.Err? {
          return Err(Booked(booked.error));
        }
        r := Push(store, it, Request(Settled, Actor.Listener, it.txHash, [], at), Closed, Records(store.View(), journal.entries));
    }
  }
}
