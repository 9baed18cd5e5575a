/** The off-chain half of a run: every open intent of the chain is spoken of, and what is proved settles. */
module ReconSweeps {
  import opened Bytes
  import opened Intent
  import opened Listener
  import opened ListenerVerdicts
  import opened Recon
  import opened ReconSafety
  import opened ReconRuns
  import F = Finality
  import Journal

  // ---- who is spoken of ----

  /** The listed intents of this chain, in the order listed. */
  function OnChain(chain: Str, s: Records, ids: seq<Str>): seq<Str> {
    if ids == [] then []
    else
      var before, id := OnChain(chain, s, ids[..|ids| - 1]), ids[|ids| - 1];
      if id in s.shelf.m && s.shelf.m[id].chain == chain then before + [id] else before
  }

  /** Said of an intent: the state it was in, and either that the relayer is to go on or what looking gave. */
  predicate SpokenOf(s: Records, sw: Swept, id: Str) {
    && id in s.shelf.m && sw.id == id && sw.state == s.shelf.m[id].state
    && (sw.how == Requeued <==> s.shelf.m[id].state != Confirming)
  }

  /** A sweep that goes through speaks of every listed intent of its chain, once and in order. */
  lemma {:induction false} SweepSpeaks(env: Env, chain: Str, s: Records, ids: seq<Str>, n: nat, watch: Watch, at: Time)
    requires n <= |ids| && Sweep(env, chain, s, ids, n, watch, at).1.Ok?
    ensures var said, who := Sweep(env, chain, s, ids, n, watch, at).1.value, OnChain(chain, s, ids[..n]);
      |said| == |who| && forall i :: 0 <= i < |said| ==> SpokenOf(s, said[i], who[i])
  {
    hide CheckOf;
    if n > 0 {
      SweepSpeaks(env, chain, s, ids, n - 1, watch, at);
      assert ids[..n][..n - 1] == ids[..n - 1];
    }
  }

  /** All open intents of the chain and no others. */
  lemma {:induction false} OpenOnChain(chain: Str, s: Records, ids: seq<Str>, id: Str)
    ensures id in OnChain(chain, s, ids) <==> id in ids && id in s.shelf.m && s.shelf.m[id].chain == chain
  {
    if ids != [] {
      OpenOnChain(chain, s, ids[..|ids| - 1], id);
      assert ids == ids[..|ids| - 1] + [ids[|ids| - 1]];
    }
  }

  /** Somebody has yet to move it: the relayer to send it, or the listener to settle it. */
  predicate Awaits(st: State) { st == Authorized || st == Settling || st == Confirming }

  lemma {:induction false} OnChainOnce(chain: Str, s: Records, ids: seq<Str>)
    requires forall i, j :: 0 <= i < j < |ids| ==> ids[i] != ids[j]
    ensures var who := OnChain(chain, s, ids); forall i, j :: 0 <= i < j < |who| ==> who[i] != who[j]
  {
    if ids != [] {
      OnChainOnce(chain, s, ids[..|ids| - 1]);
      OpenOnChain(chain, s, ids[..|ids| - 1], ids[|ids| - 1]);
    }
  }

  /** So of the open intents as the store lists them, in whatever order: a sweep that goes through speaks of
      exactly those of its chain that somebody has yet to move, of each once. */
  lemma EveryoneIsSpokenOf(env: Env, chain: Str, s: Records, ids: seq<Str>, watch: Watch, at: Time, id: Str)
    requires Listed(s.shelf.m, ids) && Sweep(env, chain, s, ids, |ids|, watch, at).1.Ok?
    ensures var said := Sweep(env, chain, s, ids, |ids|, watch, at).1.value;
      && (id in s.shelf.m && s.shelf.m[id].chain == chain && Awaits(s.shelf.m[id].state) <==> exists i :: 0 <= i < |said| && said[i].id == id)
      && forall i, j :: 0 <= i < j < |said| ==> said[i].id != said[j].id
  {
    SweepSpeaks(env, chain, s, ids, |ids|, watch, at);
    OpenOnChain(chain, s, ids, id);
    OnChainOnce(chain, s, ids);
    assert ids[..|ids|] == ids;
    hide Sweep, OnChain;
    var said, who := Sweep(env, chain, s, ids, |ids|, watch, at).1.value, OnChain(chain, s, ids);
    assert forall i :: 0 <= i < |said| ==> SpokenOf(s, said[i], who[i]);
    if id in who {
      var i :| 0 <= i < |who| && who[i] == id;
      assert said[i].id == id;
    }
  }

  // ---- the whole report ----

  lemma NoteIsAbout(env: Env, chain: Str, s: Records, t: Transfer, watch: Watch, at: Time)
    ensures Reconciled(env, chain, s, t, watch, at).1.Ok? ==> Reconciled(env, chain, s, t, watch, at).1.value.transfer == t
  {
    hide CheckOf, AdvanceTo, Journal.Find, MerchantLeg;
  }

  /** A walk that goes through speaks of every transfer, in order, and all of them lie in the window. */
  lemma {:induction false} WalkSpeaks(env: Env, chain: Str, s: Records, ts: seq<Transfer>, n: nat, from: nat, to: nat, watch: Watch, at: Time)
    requires n <= |ts| && Walk(env, chain, s, ts, n, from, to, watch, at).1.Ok?
    ensures var notes := Walk(env, chain, s, ts, n, from, to, watch, at).1.value;
      |notes| == n && forall i :: 0 <= i < n ==> notes[i].transfer == ts[i] && from <= ts[i].height <= to
  {
    hide Reconciled;
    if n > 0 {
      WalkSpeaks(env, chain, s, ts, n - 1, from, to, watch, at);
      NoteIsAbout(env, chain, Walk(env, chain, s, ts, n - 1, from, to, watch, at).0, ts[n - 1], watch, at);
    }
  }

  /** The report of a run that goes through covers the heights behind the cursor up to the newest final one,
      says what its sweep said, and speaks of every transfer in between, in order; the cursor ends on the
      newest final height or stays ahead of it. A run that fails leaves the cursor where it was, and so does
      a transfer from outside the window: it fails the run. */
  lemma ReportSays(env: Env, chain: Str, s: Records, cursor: nat, r: Inputs)
    ensures var (after, next, said) := RunOf(env, chain, s, cursor, r);
      && (said.Err? ==> next == cursor)
      && (said.Ok? ==>
        && r.finalized.Some? && said.value.from == cursor + 1 && said.value.to == r.finalized.value
        && Sweep(env, chain, s, r.ids, |r.ids|, r.sweeping, r.at).1 == Ok(said.value.sweeps)
        && next == (if r.finalized.value > cursor then r.finalized.value else cursor)
        && |said.value.notes| == (if r.finalized.value > cursor then |r.ordered| else 0)
        && forall i :: 0 <= i < |said.value.notes| ==> said.value.notes[i].transfer == r.ordered[i] && cursor < r.ordered[i].height <= r.finalized.value)
  {
    hide Sweep, Walk;
    var (swept, sweeps) := Sweep(env, chain, s, r.ids, |r.ids|, r.sweeping, r.at);
    if sweeps.Ok? && r.finalized.Some? && r.finalized.value > cursor
       && Walk(env, chain, swept, r.ordered, |r.ordered|, cursor + 1, r.finalized.value, r.watch, r.at).1.Ok? {
      WalkSpeaks(env, chain, swept, r.ordered, |r.ordered|, cursor + 1, r.finalized.value, r.watch, r.at);
    }
  }

  // ---- what is proved settles ----

  /** The listener would settle this payment, as it stands, on its own transaction. */
  ghost predicate ReadyToSettle(k: Case, s: Records, watch: Watch) {
    Bookable(k) && Live(k, s) && Proved(k.env, s, k.it.id, watch) && s.shelf.m[k.it.id].txHash in k.hashes
  }

  lemma ProvedIsPaid(k: Case, s: Records, watch: Watch, at: Time)
    requires k.it.id in s.shelf.m && Proved(k.env, s, k.it.id, watch)
    ensures s.shelf.m[k.it.id].state == Confirming && VerdictOf(k, s.shelf.m[k.it.id], watch, at) == Some(Paid)
  {
    var it := s.shelf.m[k.it.id];
    F.JudgeSays(k.env.policy(it.chain).value, watch(it).value.obs, at - it.updatedAt);
    hide F.Judge, F.Irreversible;
  }

  /** Looking at another payment leaves this one as it was. */
  lemma ForeignLook(k: Case, s: Records, ids: seq<Str>, n: nat, watch: Watch, at: Time)
    requires 0 < n <= |ids| && ids[n - 1] != k.it.id && Base(k, Sweep(k.env, k.chain, s, ids, n - 1, watch, at).0)
    ensures Untouched(k, Sweep(k.env, k.chain, s, ids, n - 1, watch, at).0, Sweep(k.env, k.chain, s, ids, n, watch, at).0)
  {
    hide *;
    var mid := Sweep(k.env, k.chain, s, ids, n - 1, watch, at).0;
    SweepStep(k.env, k.chain, s, ids, n, watch, at);
    UntouchedSelf(k, mid);
    ForeignCheck(k, mid, ids[n - 1], watch, at);
  }

  lemma SweepChecks(k: Case, s: Records, ids: seq<Str>, n: nat, watch: Watch, at: Time)
    requires 0 < n <= |ids| && Sweep(k.env, k.chain, s, ids, n, watch, at).1.Ok? && ids[n - 1] == k.it.id
    requires Bookable(k) && Live(k, s) && s.shelf.m[k.it.id].state == Confirming
    ensures Sweep(k.env, k.chain, s, ids, n, watch, at).0 == CheckOf(k.env, Sweep(k.env, k.chain, s, ids, n - 1, watch, at).0, k.it.id, watch, at).0
  {
    hide CheckOf, Journal.WellFormed, HoldOpen;
  }

  lemma SweepBefore(env: Env, chain: Str, s: Records, ids: seq<Str>, n: nat, watch: Watch, at: Time)
    requires 0 < n <= |ids| && Sweep(env, chain, s, ids, n, watch, at).1.Ok?
    ensures Sweep(env, chain, s, ids, n - 1, watch, at).1.Ok?
  {
    hide CheckOf;
  }

  lemma ReadyIsLive(k: Case, s: Records, watch: Watch)
    requires ReadyToSettle(k, s, watch)
    ensures Base(k, s) && Bookable(k) && Live(k, s) && k.it.id in s.shelf.m
    ensures Proved(k.env, s, k.it.id, watch) && s.shelf.m[k.it.id].txHash in k.hashes
  {
    hide Journal.WellFormed, HoldOpen, Proved;
  }

  lemma UntouchedIsReady(k: Case, s: Records, after: Records, watch: Watch)
    requires ReadyToSettle(k, s, watch) && Untouched(k, s, after)
    ensures ReadyToSettle(k, after, watch) && after.shelf.m[k.it.id] == s.shelf.m[k.it.id]
  {
    hide Journal.WellFormed, HoldOpen, PostedOn, F.Irreversible;
  }

  lemma UntouchedIsDone(k: Case, s: Records, after: Records, hash: Str)
    requires Done(k, s, hash) && Untouched(k, s, after)
    ensures Done(k, after, hash)
  {
    hide Base, HoldOpen, PostedOn;
  }

  lemma DoneIsBase(k: Case, s: Records, hash: Str)
    requires Done(k, s, hash)
    ensures Base(k, s)
  {
    hide Base, PostedOn;
  }

  /** Whatever it meets on the way, a sweep that goes through settles a live payment whose transaction is
      irreversible and moved exactly the amount, on that transaction's hash. */
  lemma {:induction false} SweepSettles(k: Case, s: Records, ids: seq<Str>, n: nat, p: nat, watch: Watch, at: Time)
    requires p < |ids| && ids[p] == k.it.id && n <= |ids| && (forall i :: 0 <= i < |ids| && i != p ==> ids[i] != k.it.id)
    requires ReadyToSettle(k, s, watch) && at != 0 && Sweep(k.env, k.chain, s, ids, n, watch, at).1.Ok?
    ensures k.it.id in s.shelf.m
    ensures var after := Sweep(k.env, k.chain, s, ids, n, watch, at).0;
      if n <= p then Untouched(k, s, after) else Done(k, after, s.shelf.m[k.it.id].txHash)
  {
    hide *;
    ReadyIsLive(k, s, watch);
    ProvedIsPaid(k, s, watch, at);
    if n == 0 {
      SweepNone(k.env, k.chain, s, ids, watch, at);
      UntouchedSelf(k, s);
    } else {
      SweepBefore(k.env, k.chain, s, ids, n, watch, at);
      SweepSettles(k, s, ids, n - 1, p, watch, at);
      var mid, after := Sweep(k.env, k.chain, s, ids, n - 1, watch, at).0, Sweep(k.env, k.chain, s, ids, n, watch, at).0;
      if n - 1 < p {
        UntouchedIsBase(k, s, mid);
        ForeignLook(k, s, ids, n, watch, at);
        UntouchedTwice(k, s, mid, after);
      } else if n - 1 == p {
        SweepChecks(k, s, ids, n, watch, at);
        UntouchedIsReady(k, s, mid, watch);
        ReadyIsLive(k, mid, watch);
        ProvedIsPaid(k, mid, watch, at);
        OwnSettle(k, mid, watch, at);
      } else {
        DoneIsBase(k, mid, s.shelf.m[k.it.id].txHash);
        ForeignLook(k, s, ids, n, watch, at);
        UntouchedIsDone(k, mid, after, s.shelf.m[k.it.id].txHash);
      }
    }
  }
}
