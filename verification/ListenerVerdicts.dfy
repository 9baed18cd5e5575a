/** What a check rests on: the policy and the watcher's fields decide which way a confirming payment goes. */
module ListenerVerdicts {
  import opened Bytes
  import opened Intent
  import opened Listener
  import F = Finality
  import S = Settlement
  import Ledger
  import PaymentRef
  import Journal

  /** The listener has an intent to ask about, a policy to judge by and an answer to judge. */
  predicate Answered(env: Env, s: Records, id: Str, watch: Watch) {
    id in s.shelf.m && s.shelf.m[id].state == Confirming && env.policy(s.shelf.m[id].chain).Some? && watch(s.shelf.m[id]).Some?
  }

  /** Irreversible, ended well, and what arrived is what was asked for. */
  ghost predicate Proved(env: Env, s: Records, id: Str, watch: Watch)
  {
    Answered(env, s, id, watch)
    && var it := s.shelf.m[id];
      var p, seen := env.policy(it.chain).value, watch(it).value;
      F.Irreversible(p, seen.obs) && seen.obs.succeeded && seen.received == Some(it.amount)
  }

  /** Irreversible, but it failed, or nothing with this reference arrived, or not the amount asked for. */
  ghost predicate Disproved(env: Env, s: Records, id: Str, watch: Watch)
  {
    Answered(env, s, id, watch)
    && var it := s.shelf.m[id];
      var p, seen := env.policy(it.chain).value, watch(it).value;
      F.Irreversible(p, seen.obs) && (!seen.obs.succeeded || seen.received.None? || seen.received.value != it.amount)
  }

  /** In no block, and confirming for longer than the policy waits. */
  predicate Overdue(env: Env, s: Records, id: Str, watch: Watch, at: Time)
  {
    Answered(env, s, id, watch)
    && var it := s.shelf.m[id]; F.Missing(env.policy(it.chain).value, watch(it).value.obs, at - it.updatedAt)
  }

  /** The store keeps the intent under its own id and under the ref of its own terms. */
  predicate Kept(env: Env, s: Records, id: Str) {
    id in s.shelf.m && s.shelf.m[id].id == id && s.shelf.m[id].ref == PaymentRef.Derive(env.h, s.shelf.m[id].Terms())
  }

  /** What the journal makes of the payment's post. */
  function Booking(env: Env, s: Records, id: Str): Result<Journal.Appended, Ledger.Error>
    requires id in s.shelf.m
  {
    Journal.AppendTo(env.c, s.books, S.PostEntry(s.shelf.m[id], s.shelf.m[id].amount))
  }

  /** The three moves the listener may ask for. */
  function Asking(it: Intent, to: State, at: Time): Request {
    if to == Settled then Request(Settled, Actor.Listener, it.txHash, [], at) else Request(to, Actor.Listener, [], WHY, at)
  }

  /** Pushing a stored intent moves it, and it alone, exactly when the ref and the evidence allow it. */
  predicate Lands(env: Env, s: Records, books: S.Books, id: Str, req: Request, out: Outcome, got: (Records, Result<Outcome, Fail>))
    requires id in s.shelf.m
  {
    var may := Kept(env, s, id) && (req.to == Settled ==> s.shelf.m[id].txHash != []);
    && (got.1.Ok? <==> may) && (may ==> got.1 == Ok(out)) && got.0.books == books
    && got.0.shelf.m == if may then s.shelf.m[id := Moved(s.shelf.m[id], req)] else s.shelf.m
  }

  lemma PushLands(env: Env, s: Records, books: S.Books, id: Str, to: State, at: Time, out: Outcome)
    requires id in s.shelf.m && s.shelf.m[id].id == id && s.shelf.m[id].state == Confirming
    requires to == Settling || to == NeedsReview || to == Settled
    ensures var it := s.shelf.m[id];
      Lands(env, s, books, id, Asking(it, to, at), out, Pushed(env.h, s.(books := books), it, Asking(it, to, at), out))
  {
    assert |WHY| > 0;
    assert Moved(s.shelf.m[id], Asking(s.shelf.m[id], to, at)).Terms() == s.shelf.m[id].Terms();
    hide PaymentRef.Derive;
  }

  /** Every check is one of five: nothing to judge or nothing decided changes nothing, and the rest ask for
      one move each, the payment's own post booked before settling. */
  lemma CheckGoes(env: Env, s: Records, id: Str, watch: Watch, at: Time)
    ensures var (after, r) := CheckOf(env, s, id, watch, at);
      if Overdue(env, s, id, watch, at) then (after, r) == Pushed(env.h, s, s.shelf.m[id], Asking(s.shelf.m[id], Settling, at), HandedBack)
      else if Disproved(env, s, id, watch) then (after, r) == Pushed(env.h, s, s.shelf.m[id], Asking(s.shelf.m[id], NeedsReview, at), SentToReview)
      else if Proved(env, s, id, watch) then
        if Booking(env, s, id).Err? then (after, r) == (s, Err(Booked(Booking(env, s, id).error)))
        else (after, r) == Pushed(env.h, s.(books := Booking(env, s, id).value.journal), s.shelf.m[id], Asking(s.shelf.m[id], Settled, at), Closed)
      else after == s && (r == Ok(Waiting) <==> Answered(env, s, id, watch)) && (r.Ok? ==> r == Ok(Waiting) || r == Ok(NothingToDo))
    ensures !(Proved(env, s, id, watch) && Disproved(env, s, id, watch))
    ensures Overdue(env, s, id, watch, at) ==> !Proved(env, s, id, watch) && !Disproved(env, s, id, watch)
    ensures Proved(env, s, id, watch) || Disproved(env, s, id, watch) || Overdue(env, s, id, watch, at) ==> Answered(env, s, id, watch)
  {
    if Answered(env, s, id, watch) {
      var it := s.shelf.m[id];
      F.JudgeSays(env.policy(it.chain).value, watch(it).value.obs, at - it.updatedAt);
    }
    hide F.Judge, F.Heights, Pushed, Journal.AppendTo, S.PostEntry;
  }

  /** In every store, over all books, policies and clocks: a check settles exactly what is proved, sends to
      review exactly what is disproved, hands back exactly what is overdue and waits exactly for the rest,
      as far as the store kept the intent and the journal takes its post. */
  lemma CheckSays(env: Env, s: Records, id: Str, watch: Watch, at: Time)
    requires id in s.shelf.m ==> s.shelf.m[id].id == id
    ensures var r := CheckOf(env, s, id, watch, at).1;
      && (r == Ok(SentToReview) <==> Disproved(env, s, id, watch) && Kept(env, s, id))
      && (r == Ok(HandedBack) <==> Overdue(env, s, id, watch, at) && Kept(env, s, id))
      && (r == Ok(Closed) <==> Proved(env, s, id, watch) && Kept(env, s, id) && Booking(env, s, id).Ok? && s.shelf.m[id].txHash != [])
      && (r == Ok(Waiting) <==> Answered(env, s, id, watch) && !Proved(env, s, id, watch) && !Disproved(env, s, id, watch) && !Overdue(env, s, id, watch, at))
  {
    CheckGoes(env, s, id, watch, at);
    hide Proved, Disproved, Overdue, Pushed, Booking, Kept, CheckOf;
    Landings(env, s, id, watch, at);
  }

  lemma Landings(env: Env, s: Records, id: Str, watch: Watch, at: Time)
    requires id in s.shelf.m ==> s.shelf.m[id].id == id
    ensures Answered(env, s, id, watch) ==> var it := s.shelf.m[id];
      && Lands(env, s, s.books, id, Asking(it, Settling, at), HandedBack, Pushed(env.h, s, it, Asking(it, Settling, at), HandedBack))
      && Lands(env, s, s.books, id, Asking(it, NeedsReview, at), SentToReview, Pushed(env.h, s, it, Asking(it, NeedsReview, at), SentToReview))
      && (Booking(env, s, id).Ok? ==>
           var books := Booking(env, s, id).value.journal;
           Lands(env, s, books, id, Asking(it, Settled, at), Closed, Pushed(env.h, s.(books := books), it, Asking(it, Settled, at), Closed)))
  {
    hide Lands, Pushed, Asking, Booking;
    if Answered(env, s, id, watch) {
      PushLands(env, s, s.books, id, Settling, at, HandedBack);
      PushLands(env, s, s.books, id, NeedsReview, at, SentToReview);
      if Booking(env, s, id).Ok? {
        PushLands(env, s, Booking(env, s, id).value.journal, id, Settled, at, Closed);
      }
      assert s.(books := s.books) == s;
    }
  }

  /** Nothing is booked and nothing changes state but on the grounds named: a row is added, or the intent
      settles, only on proof, and the row is the payment's own post; every other intent is left alone. */
  lemma CheckChanges(env: Env, s: Records, id: Str, watch: Watch, at: Time)
    requires id in s.shelf.m ==> s.shelf.m[id].id == id
    ensures var after := CheckOf(env, s, id, watch, at).0;
      && after.shelf.m.Keys == s.shelf.m.Keys
      && (forall other :: other in s.shelf.m && other != id ==> after.shelf.m[other] == s.shelf.m[other])
      && (after.books != s.books ==> Proved(env, s, id, watch) && Booking(env, s, id).Ok? && after.books == Booking(env, s, id).value.journal)
      && (id in s.shelf.m && after.shelf.m[id] != s.shelf.m[id] ==>
           var to := after.shelf.m[id].state;
           && after.shelf.m[id] == Moved(s.shelf.m[id], Asking(s.shelf.m[id], to, at))
           && (to == Settled <==> Proved(env, s, id, watch)) && (to == NeedsReview <==> Disproved(env, s, id, watch))
           && (to == Settling <==> Overdue(env, s, id, watch, at)))
  {
    CheckGoes(env, s, id, watch, at);
    hide Proved, Disproved, Overdue, Pushed, Booking, Kept, CheckOf;
    Landings(env, s, id, watch, at);
  }
}
