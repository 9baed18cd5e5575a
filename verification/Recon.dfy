/** Reconciliation: every finalized transfer held against the intents and the books. */
module Recon {
  import opened Bytes
  import opened Intent
  import opened Listener
  import S = Settlement
  import Ledger
  import Journal

  datatype Transfer = Transfer(txHash: Str, height: nat, ref: Digest, token: Str, from: Str, to: Str, amount: int)

  datatype Kind = UnknownRef | Unreferenced | PaidTwice | Unexpected | Mismatch

  datatype How = PostMatches | Checked(out: Outcome) | Raced

  /** What a run says of one transfer; findings are for people. */
  datatype Note = Finding(kind: Kind, transfer: Transfer, id: Str) | Match(transfer: Transfer, id: Str, how: How)

  datatype SweptHow = Looked(out: Outcome) | LostRace | Requeued

  datatype Swept = Swept(id: Str, state: State, how: SweptHow)

  /** from above to when there was no new height to look at. */
  datatype Report = Report(from: nat, to: nat, sweeps: seq<Swept>, notes: seq<Note>)

  // ---- one transfer ----

  /** Read, apply, write back; false when somebody else moved it first. */
  function AdvanceTo(h: Hasher, s: Records, id: Str, req: Request): (Records, Result<bool, Fail>) {
    var r := AdvanceResult(h, s.shelf, id, req);
    if r.Err? then
      (s, if r.error == VersionConflict || r.error == AlreadyTerminal || r.error == IllegalTransition then Ok(false) else Err(Stored(r.error)))
    else if !r.value.1 then (s, Ok(true))
    else (s.(shelf := Saved(h, s.shelf, r.value.0, s.shelf.m[id].version).value), Ok(true))
  }

  /** Hand the intent to the listener and note its answer. */
  function CheckNote(env: Env, s: Records, t: Transfer, id: Str, watch: Watch, at: Time): (Records, Result<Note, Fail>) {
    var (after, r) := CheckOf(env, s, id, watch, at);
    (after, if r == Err(Stored(VersionConflict)) then Ok(Match(t, id, Raced))
            else if r.Err? then Err(r.error)
            else Ok(Match(t, id, Checked(r.value))))
  }

  /** Bring the intent to confirming on this transfer's hash, then check it. */
  function Adopt(env: Env, s: Records, t: Transfer, id: Str, watch: Watch, at: Time): (Records, Result<Note, Fail>) {
    var (after, moved) := AdvanceTo(env.h, s, id, Request(Confirming, Actor.Listener, t.txHash, [], at));
    if moved.Err? then (after, Err(moved.error))
    else if !moved.value then (after, Ok(Match(t, id, Raced)))
    else CheckNote(env, after, t, id, watch, at)
  }

  /** The amount a post moved to the merchant. */
  function MerchantLeg(legs: seq<Ledger.Leg>, merchant: Str): Option<int> {
    if legs == [] then None
    else if legs[0].account == Ledger.MerchantAccount(merchant) then Some(legs[0].amount)
    else MerchantLeg(legs[1..], merchant)
  }

  /** A transfer of an intent already settled, against the post on the books. */
  function AgainstPost(s: Records, t: Transfer, it: Intent): Note {
    var i := Journal.Find(s.books, it.id + S.POST);
    if i.None? then Finding(Mismatch, t, it.id)
    else
      var post := s.books[i.value].entry;
      if post.txHash != t.txHash then Finding(PaidTwice, t, it.id)
      else if MerchantLeg(post.legs, it.merchant) != Some(t.amount) then Finding(Mismatch, t, it.id)
      else Match(t, it.id, PostMatches)
  }

  predicate OwnTerms(chain: Str, t: Transfer, it: Intent) {
    it.chain == chain && t.token == it.token && t.from == it.payer && t.to == it.merchant
  }

  function Reconciled(env: Env, chain: Str, s: Records, t: Transfer, watch: Watch, at: Time): (Records, Result<Note, Fail>) {
    if t.ref == ZERO then (s, Ok(Finding(Unreferenced, t, [])))
    else if t.ref !in s.shelf.byRef || s.shelf.byRef[t.ref] !in s.shelf.m then (s, Ok(Finding(UnknownRef, t, [])))
    else
      var it := s.shelf.m[s.shelf.byRef[t.ref]];
      if !OwnTerms(chain, t, it) then (s, Ok(Finding(Unexpected, t, it.id)))
      else if it.state == Settled then (s, Ok(AgainstPost(s, t, it)))
      else if it.state == Confirming && it.txHash == t.txHash then CheckNote(env, s, t, it.id, watch, at)
      else if it.state == Confirming then
        var (back, moved) := AdvanceTo(env.h, s, it.id, Request(Settling, Actor.Listener, [], WHY, at));
        if moved.Err? then (back, Err(moved.error))
        else if !moved.value then (back, Ok(Match(t, it.id, Raced)))
        else Adopt(env, back, t, it.id, watch, at)
      else if it.state == Settling then Adopt(env, s, t, it.id, watch, at)
      else (s, Ok(Finding(Unexpected, t, it.id)))
  }

  // ---- one run ----

  predicate Open(it: Intent) {
    it.state == Authorized || it.state == Settling || it.state == Confirming
  }

  /** The off-chain half: the first n open intents, as they were when the sweep began. */
  function Sweep(env: Env, chain: Str, s: Records, ids: seq<Str>, n: nat, watch: Watch, at: Time): (Records, Result<seq<Swept>, Fail>)
    requires n <= |ids|
  {
    if n == 0 then (s, Ok([]))
    else
      var (mid, done) := Sweep(env, chain, s, ids, n - 1, watch, at);
      var id := ids[n - 1];
      if done.Err? || id !in s.shelf.m || s.shelf.m[id].chain != chain then (mid, done)
      else if s.shelf.m[id].state != Confirming then (mid, Ok(done.value + [Swept(id, s.shelf.m[id].state, Requeued)]))
      else
        var (after, r) := CheckOf(env, mid, id, watch, at);
        if r == Err(Stored(VersionConflict)) then (after, Ok(done.value + [Swept(id, Confirming, LostRace)]))
        else if r.Err? then (after, Err(r.error))
        else (after, Ok(done.value + [Swept(id, Confirming, Looked(r.value))]))
  }

  /** The on-chain half: the first n transfers of a window, in order. */
  function Walk(env: Env, chain: Str, s: Records, ts: seq<Transfer>, n: nat, from: nat, to: nat, watch: Watch, at: Time): (Records, Result<seq<Note>, Fail>)
    requires n <= |ts|
  {
    if n == 0 then (s, Ok([]))
    else
      var (mid, done) := Walk(env, chain, s, ts, n - 1, from, to, watch, at);
      if done.Err? then (mid, done)
      else if ts[n - 1].height < from || ts[n - 1].height > to then (mid, Err(OutsideWindow))
      else
        var (after, note) := Reconciled(env, chain, mid, ts[n - 1], watch, at);
        (after, if note.Err? then Err(note.error) else Ok(done.value + [note.value]))
  }

  /** What a run meets: the order it sweeps in, the watcher's answers while sweeping and while
      reconciling, the source's answers, its transfers as ordered, and the time. */
  datatype Inputs = Inputs(ids: seq<Str>, sweeping: Watch, finalized: Option<nat>, fetched: Option<seq<Transfer>>,
                           ordered: seq<Transfer>, watch: Watch, at: Time)

  function RunOf(env: Env, chain: Str, s: Records, cursor: nat, r: Inputs): (Records, nat, Result<Report, Fail>) {
    var (swept, sweeps) := Sweep(env, chain, s, r.ids, |r.ids|, r.sweeping, r.at);
    if sweeps.Err? then (swept, cursor, Err(sweeps.error))
    else if r.finalized.None? then (swept, cursor, Err(NoAnswer))
    else
      var from, to := cursor + 1, r.finalized.value;
      if to <= cursor then (swept, cursor, Ok(Report(from, to, sweeps.value, [])))
      else if r.fetched.None? then (swept, cursor, Err(NoAnswer))
      else
        var (after, notes) := Walk(env, chain, swept, r.ordered, |r.ordered|, from, to, r.watch, r.at);
        if notes.Err? then (after, cursor, Err(notes.error))
        else (after, to, Ok(Report(from, to, sweeps.value, notes.value)))
  }

  // ---- orders ----

  predicate Before(a: Str, b: Str) {
    b != [] && (a == [] || a[0] < b[0] || (a[0] == b[0] && Before(a[1..], b[1..])))
  }

  predicate Earlier(a: Transfer, b: Transfer) {
    a.height < b.height || (a.height == b.height && Before(a.txHash, b.txHash))
  }

  /** The same transfers, none behind a later one. */
  ghost predicate Ordered(ts: seq<Transfer>, o: seq<Transfer>) {
    multiset(ts) == multiset(o) && forall i, j :: 0 <= i < j < |o| ==> !Earlier(o[j], o[i])
  }

  /** Every intent open when the sweep began, once. */
  ghost predicate Listed(m: map<Str, Intent>, ids: seq<Str>) {
    && (forall id :: id in ids <==> id in m && Open(m[id]))
    && forall i, j :: 0 <= i < j < |ids| ==> ids[i] != ids[j]
  }

  lemma {:induction false} BeforeTransitive(a: Str, b: Str, c: Str)
    requires !Before(b, a) && !Before(c, b)
    ensures !Before(c, a)
  {
    if a != [] && c != [] && b != [] && a[0] == b[0] == c[0] {
      BeforeTransitive(a[1..], b[1..], c[1..]);
    }
  }

  lemma NotEarlierTransitive(a: Transfer, b: Transfer, c: Transfer)
    requires !Earlier(b, a) && !Earlier(c, b)
    ensures !Earlier(c, a)
  {
    if a.height == b.height == c.height {
      BeforeTransitive(a.txHash, b.txHash, c.txHash);
    }
  }

  lemma {:induction false} BeforeAsymmetric(a: Str, b: Str)
    requires Before(a, b)
    ensures !Before(b, a)
  {
    if a != [] && a[0] == b[0] {
      BeforeAsymmetric(a[1..], b[1..]);
    }
  }

  method Sort(ts: seq<Transfer>) returns (o: seq<Transfer>)
    ensures Ordered(ts, o)
  {
    o := [];
    for i := 0 to |ts|
      invariant Ordered(ts[..i], o)
    {
      ghost var was := o;
      o := Insert(o, ts[i]);
      assert ts[..i + 1] == ts[..i] + [ts[i]];
    }
    assert ts[..|ts|] == ts;
  }

  method Insert(o: seq<Transfer>, t: Transfer) returns (r: seq<Transfer>)
    requires forall i, j :: 0 <= i < j < |o| ==> !Earlier(o[j], o[i])
    ensures multiset(r) == multiset(o + [t])
    ensures forall i, j :: 0 <= i < j < |r| ==> !Earlier(r[j], r[i])
  {
    hide *;
    var k := |o|;
    while k > 0 && Earlier(t, o[k - 1])
      invariant 0 <= k <= |o|
      invariant forall j :: k <= j < |o| ==> Earlier(t, o[j])
    {
      k := k - 1;
    }
    r := o[..k] + [t] + o[k..];
    SameBag(o, t, k);
    InsertKeepsOrder(o, t, k);
  }

  lemma SameBag(o: seq<Transfer>, t: Transfer, k: nat)
    requires k <= |o|
    ensures multiset(o[..k] + [t] + o[k..]) == multiset(o + [t])
  {
    assert o == o[..k] + o[k..];
  }

  lemma InsertKeepsOrder(o: seq<Transfer>, t: Transfer, k: nat)
    requires k <= |o| && forall i, j :: 0 <= i < j < |o| ==> !Earlier(o[j], o[i])
    requires forall j :: k <= j < |o| ==> Earlier(t, o[j])
    requires k > 0 ==> !Earlier(t, o[k - 1])
    ensures var r := o[..k] + [t] + o[k..]; forall i, j :: 0 <= i < j < |r| ==> !Earlier(r[j], r[i])
  {
    forall j | k <= j < |o| ensures !Earlier(o[j], t) {
      EarlierAsymmetric(t, o[j]);
    }
    forall i | 0 <= i < k ensures !Earlier(t, o[i]) {
      if i < k - 1 {
        NotEarlierTransitive(o[i], o[k - 1], t);
      }
    }
    hide Earlier;
    var r := o[..k] + [t] + o[k..];
    forall i, j | 0 <= i < j < |r| ensures !Earlier(r[j], r[i]) {
      assert r[i] == if i < k then o[i] else if i == k then t else o[i - 1];
      assert r[j] == if j < k then o[j] else if j == k then t else o[j - 1];
    }
  }

  lemma EarlierAsymmetric(a: Transfer, b: Transfer)
    requires Earlier(a, b)
    ensures !Earlier(b, a)
  {
    if a.height == b.height {
      BeforeAsymmetric(a.txHash, b.txHash);
    }
  }

  // ---- the engine ----

  class Engine {
    const chain: Str
    const env: Env
    const store: MemoryStore
    const journal: Journal.MemoryJournal
    var cursor: nat

    ghost predicate Valid()
      reads this, store, journal
    {
      store.Valid() && journal.Valid() && store.h == env.h && journal.c == env.c
    }

    ghost function View(): Records
      reads store, journal
    {
      Records(store.View(), journal.entries)
    }

    constructor (chain: Str, env: Env, store: MemoryStore, journal: Journal.MemoryJournal, cursor: nat)
      requires store.Valid() && journal.Valid() && store.h == env.h && journal.c == env.c
      ensures Valid() && this.chain == chain && this.env == env && this.store == store && this.journal == journal && this.cursor == cursor
    {
      this.chain, this.env, this.store, this.journal, this.cursor := chain, env, store, journal, cursor;
    }

    method Push(id: Str, req: Request) returns (r: Result<bool, Fail>)
      requires Valid()
      modifies store
      ensures Valid() && (View(), r) == AdvanceTo(env.h, old(View()), id, req)
    {
      hide AdvanceResult;
      var moved := store.Advance(id, req);
      if moved.Err? {
        if moved.error == VersionConflict || moved.error == AlreadyTerminal || moved.error == IllegalTransition {
          return Ok(false);
        }
        return Err(Stored(moved.error));
      }
      return Ok(true);
    }

    method CheckAndNote(t: Transfer, id: Str, watch: Watch, at: Time) returns (r: Result<Note, Fail>)
      requires Valid()
      modifies store, journal
      ensures Valid() && (View(), r) == CheckNote(env, old(View()), t, id, watch, at)
    {
      hide CheckOf;
      var out := Check(env, store, journal, id, watch, at);
      if out == Err(Stored(VersionConflict)) {
        return Ok(Match(t, id, Raced));
      }
      if out.Err? {
        return Err(out.error);
      }
      return Ok(Match(t, id, Checked(out.value)));
    }

    method AdoptTransfer(t: Transfer, id: Str, watch: Watch, at: Time) returns (r: Result<Note, Fail>)
      requires Valid()
      modifies store, journal
      ensures Valid() && (View(), r) == Adopt(env, old(View()), t, id, watch, at)
    {
      hide AdvanceTo, CheckNote;
      var moved := Push(id, Request(Confirming, Actor.Listener, t.txHash, [], at));
      if moved.Err? {
        return Err(moved.error);
      }
      if !moved.value {
        return Ok(Match(t, id, Raced));
      }
      r := CheckAndNote(t, id, watch, at);
    }

    method Reconcile(t: Transfer, watch: Watch, at: Time) returns (r: Result<Note, Fail>)
      requires Valid()
      modifies store, journal
      ensures Valid() && (View(), r) == Reconciled(env, chain, old(View()), t, watch, at)
    {
      hide AdvanceTo, CheckNote, Adopt;
      if t.ref == ZERO {
        return Ok(Finding(Unreferenced, t, []));
      }
      var got := store.GetByRef(t.ref);
      if got.Err? {
        return Ok(Finding(UnknownRef, t, []));
      }
      var it := got.value;
      if !OwnTerms(chain, t, it) {
        return Ok(Finding(Unexpected, t, it.id));
      }
      if it.state == Settled {
        return Ok(AgainstPost(Records(store.View(), journal.entries), t, it));
      }
      if it.state == Confirming {
        if it.txHash != t.txHash {
          var moved := Push(it.id, Request(Settling, Actor.Listener, [], WHY, at));
          if moved.Err? {
            return Err(moved.error);
          }
          if !moved.value {
            return Ok(Match(t, it.id, Raced));
          }
          r := AdoptTransfer(t, it.id, watch, at);
          return;
        }
        r := CheckAndNote(t, it.id, watch, at);
        return;
      }
      if it.state == Settling {
        r := AdoptTransfer(t, it.id, watch, at);
        return;
      }
      return Ok(Finding(Unexpected, t, it.id));
    }

    method ListOpen() returns (ids: seq<Str>)
      ensures Listed(store.m, ids)
    {
      ids := [];
      var rest := store.m.Keys;
      while rest != {}
        invariant rest <= store.m.Keys
        invariant forall id :: id in ids <==> id in store.m && id !in rest && Open(store.m[id])
        invariant forall i, j :: 0 <= i < j < |ids| ==> ids[i] != ids[j]
        decreases |rest|
      {
        var id :| id in rest;
        if Open(store.m[id]) {
          ids := ids + [id];
        }
        rest := rest - {id};
      }
    }

    method SweepAll(ids: seq<Str>, watch: Watch, at: Time) returns (r: Result<seq<Swept>, Fail>)
      requires Valid()
      modifies store, journal
      ensures Valid() && (View(), r) == Sweep(env, chain, old(View()), ids, |ids|, watch, at)
    {
      var snapshot := store.m;
      var done: seq<Swept> := [];
      hide CheckOf;
      for i := 0 to |ids|
        invariant Valid() && (View(), Ok(done)) == Sweep(env, chain, old(View()), ids, i, watch, at)
      {
        var id := ids[i];
        if id in snapshot && snapshot[id].chain == chain {
          if snapshot[id].state != Confirming {
            done := done + [Swept(id, snapshot[id].state, Requeued)];
          } else {
            var out := Check(env, store, journal, id, watch, at);
            if out == Err(Stored(VersionConflict)) {
              done := done + [Swept(id, Confirming, LostRace)];
            } else if out.Err? {
              SweepStops(env, chain, old(View()), ids, i + 1, watch, at);
              return Err(out.error);
            } else {
              done := done + [Swept(id, Confirming, Looked(out.value))];
            }
          }
        }
      }
      return Ok(done);
    }

    method WalkAll(ts: seq<Transfer>, from: nat, to: nat, watch: Watch, at: Time) returns (r: Result<seq<Note>, Fail>)
      requires Valid()
      modifies store, journal
      ensures Valid() && (View(), r) == Walk(env, chain, old(View()), ts, |ts|, from, to, watch, at)
    {
      var notes: seq<Note> := [];
      hide Reconciled;
      for i := 0 to |ts|
        invariant Valid() && (View(), Ok(notes)) == Walk(env, chain, old(View()), ts, i, from, to, watch, at)
      {
        if ts[i].height < from || ts[i].height > to {
          WalkStops(env, chain, old(View()), ts, i + 1, from, to, watch, at);
          return Err(OutsideWindow);
        }
        var note := Reconcile(ts[i], watch, at);
        if note.Err? {
          WalkStops(env, chain, old(View()), ts, i + 1, from, to, watch, at);
          return Err(note.error);
        }
        notes := notes + [note.value];
      }
      return Ok(notes);
    }

    /** One run: sweep, fetch what became final, walk it in order, and only then move the cursor. */
    method Run(sweeping: Watch, finalized: Option<nat>, fetched: Option<seq<Transfer>>, watch: Watch, at: Time) returns (r: Result<Report, Fail>)
      requires Valid()
      modifies this, store, journal
      ensures Valid()
      ensures exists ids, o :: Listed(old(store.m), ids) && (fetched.Some? ==> Ordered(fetched.value, o))
                && (View(), cursor, r) == RunOf(env, chain, old(View()), old(cursor), Inputs(ids, sweeping, finalized, fetched, o, watch, at))
    {
      var ids := ListOpen();
      var o: seq<Transfer> := [];
      if fetched.Some? {
        o := Sort(fetched.value);
      }
      ghost var inputs := Inputs(ids, sweeping, finalized, fetched, o, watch, at);
      ghost var before := View();
      hide Sweep, Walk, Ordered, Listed;
      r := RunOrdered(inputs, ids, sweeping, finalized, fetched, o, watch, at);
      assert (View(), cursor, r) == RunOf(env, chain, before, old(cursor), inputs);
    }

    method RunOrdered(ghost inputs: Inputs, ids: seq<Str>, sweeping: Watch, finalized: Option<nat>, fetched: Option<seq<Transfer>>, o: seq<Transfer>, watch: Watch, at: Time)
      returns (r: Result<Report, Fail>)
      requires Valid() && inputs == Inputs(ids, sweeping, finalized, fetched, o, watch, at)
      modifies this, store, journal
      ensures Valid() && (View(), cursor, r) == RunOf(env, chain, old(View()), old(cursor), inputs)
    {
      hide Sweep, Walk;
      var sweeps := SweepAll(ids, sweeping, at);
      if sweeps.Err? {
        return Err(sweeps.error);
      }
      if finalized.None? {
        return Err(NoAnswer);
      }
      var from, to := cursor + 1, finalized.value;
      if to <= cursor {
        return Ok(Report(from, to, sweeps.value, []));
      }
      if fetched.None? {
        return Err(NoAnswer);
      }
      var notes := WalkAll(o, from, to, watch, at);
      if notes.Err? {
        return Err(notes.error);
      }
      cursor := to;
      return Ok(Report(from, to, sweeps.value, notes.value));
    }
  }

  lemma {:induction false} SweepStops(env: Env, chain: Str, s: Records, ids: seq<Str>, n: nat, watch: Watch, at: Time)
    requires n <= |ids| && Sweep(env, chain, s, ids, n, watch, at).1.Err?
    ensures Sweep(env, chain, s, ids, |ids|, watch, at) == Sweep(env, chain, s, ids, n, watch, at)
    decreases |ids| - n
  {
    if n < |ids| {
      SweepStops(env, chain, s, ids, n + 1, watch, at);
    }
  }

  lemma {:induction false} WalkStops(env: Env, chain: Str, s: Records, ts: seq<Transfer>, n: nat, from: nat, to: nat, watch: Watch, at: Time)
    requires n <= |ts| && Walk(env, chain, s, ts, n, from, to, watch, at).1.Err?
    ensures Walk(env, chain, s, ts, |ts|, from, to, watch, at) == Walk(env, chain, s, ts, n, from, to, watch, at)
    decreases |ts| - n
  {
    if n < |ts| {
      WalkStops(env, chain, s, ts, n + 1, from, to, watch, at);
    }
  }
}
