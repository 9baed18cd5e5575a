/** The listener and the recon engine are actors of the settlement protocol: all they do to the
    store and the books, they do by its steps. */
module ReconSteps {
  import opened Bytes
  import opened Intent
  import opened Listener
  import opened Recon
  import opened SettlementSteps
  import S = Settlement
  import Safety = SettlementSafety
  import Invariant = SettlementInvariant
  import Journal

  predicate HasRecords(w: S.World, s: Records) { w.shelf == s.shelf && w.books == s.books }

  /** These events, all of them actor a's, lead from w to these records, and send nothing. */
  ghost predicate Plays(env: Env, w: S.World, a: nat, es: seq<S.Event>, s: Records) {
    && (forall i :: 0 <= i < |es| ==> es[i].actor == a)
    && var w' := After(env.c, env.h, w, es); HasRecords(w', s) && w'.broadcasts == w.broadcasts
  }

  lemma PlaysNone(env: Env, w: S.World, a: nat, s: Records)
    requires HasRecords(w, s)
    ensures Plays(env, w, a, [], s)
  {
  }

  lemma PlaysOn(env: Env, w: S.World, a: nat, es: seq<S.Event>, mid: Records, more: seq<S.Event>, s: Records)
    requires Plays(env, w, a, es, mid) && Plays(env, After(env.c, env.h, w, es), a, more, s)
    ensures Plays(env, w, a, es + more, s)
  {
    hide After;
    AfterBoth(env.c, env.h, w, es, more);
  }

  // ---- the listener ----

  /** What a check learns about a confirming payment; nothing learned means waiting. */
  function VerdictIn(env: Env, s: Records, id: Str, watch: Watch, at: Time): S.Verdict {
    if id !in s.shelf.m || env.policy(s.shelf.m[id].chain).None? || watch(s.shelf.m[id]).None? then S.Wait
    else
      match Judged(env.policy(s.shelf.m[id].chain).value, s.shelf.m[id], watch(s.shelf.m[id]).value, at)
      case Wait => S.Wait
      case Lost => S.Verdict.Lost(WHY)
      case Wrong => S.Verdict.Wrong(WHY)
      case Paid => S.Verdict.Paid
  }

  function CheckCalls(env: Env, s: Records, id: Str, watch: Watch, at: Time, a: nat): seq<S.Event> {
    [S.Event(a, at, S.Begin(id, S.Check(VerdictIn(env, s, id, watch, at)))), S.Event(a, at, S.Go), S.Event(a, at, S.Go)]
  }

  /** Saving what was decided does to the shelf what pushing it does. */
  lemma PushIsSwap(env: Env, w: S.World, a: nat, s: Records, it: Intent, req: Request, out: Outcome)
    requires HasRecords(w, s) && a in w.locals && w.locals[a] == S.Saving(it, req)
    ensures var w' := S.Next(env.c, env.h, w, S.Event(a, req.at, S.Go));
      HasRecords(w', Pushed(env.h, s, it, req, out).0) && w'.broadcasts == w.broadcasts && a in w'.locals && w'.locals[a] == S.Idle
  {
    hide S.Next, Applied, Saved;
    SwapStep(env.c, env.h, w, a, req.at);
  }

  lemma PostStep(env: Env, w: S.World, a: nat, at: Time)
    requires a in w.locals && w.locals[a].Posting?
    ensures var it := w.locals[a].it;
      S.Next(env.c, env.h, w, S.Event(a, at, S.Go))
        == S.Book(env.c, w, a, S.PostEntry(it, it.amount), S.Saving(it, Request(Settled, Actor.Listener, it.txHash, [], at)))
  {
    hide S.Book, S.PostEntry;
  }

  /** A check is three steps of one actor: read and ask, then book or save, then save. */
  lemma CheckIsSteps(env: Env, s: Records, id: Str, watch: Watch, at: Time, w: S.World, a: nat)
    requires HasRecords(w, s)
    ensures Plays(env, w, a, CheckCalls(env, s, id, watch, at, a), CheckOf(env, s, id, watch, at).0)
  {
    var v := VerdictIn(env, s, id, watch, at);
    var begin, go := S.Event(a, at, S.Begin(id, S.Check(v))), S.Event(a, at, S.Go);
    var w1 := S.Next(env.c, env.h, w, begin);
    var w2 := S.Next(env.c, env.h, w1, go);
    var w3 := S.Next(env.c, env.h, w2, go);
    AfterOne(env.c, env.h, w, begin, [go, go]);
    AfterTwo(env.c, env.h, w1, go, w2, go, w3);
    assert [begin] + [go, go] == [begin, go, go];
    BeginStep(env.c, env.h, w, a, id, S.Check(v), at);
    hide After, S.Next, Journal.AppendTo, S.PostEntry, Pushed, Judged;
    if w1.locals[a].Idle? {
      IdleStep(env.c, env.h, w1, go);
    } else {
      var it := s.shelf.m[id];
      match v {
        case Wait =>
        case Lost(_) =>
          PushIsSwap(env, w1, a, s, it, Request(Settling, Actor.Listener, [], WHY, at), HandedBack);
          IdleStep(env.c, env.h, w2, go);
        case Wrong(_) =>
          PushIsSwap(env, w1, a, s, it, Request(NeedsReview, Actor.Listener, [], WHY, at), SentToReview);
          IdleStep(env.c, env.h, w2, go);
        case Paid =>
          PostStep(env, w1, a, at);
          var booked := Journal.AppendTo(env.c, s.books, S.PostEntry(it, it.amount));
          if booked.Err? {
            IdleStep(env.c, env.h, w2, go);
          } else {
            PushIsSwap(env, w2, a, s.(books := booked.value.journal), it, Request(Settled, Actor.Listener, it.txHash, [], at), Closed);
          }
      }
    }
  }

  // ---- the recon engine ----

  /** Bringing a payment to another state is two steps: read, and save. */
  lemma AdvanceIsSteps(env: Env, s: Records, id: Str, req: Request, w: S.World, a: nat) returns (es: seq<S.Event>)
    requires HasRecords(w, s) && S.PushAllowed(req)
    ensures Plays(env, w, a, es, AdvanceTo(env.h, s, id, req).0)
  {
    var begin, go := S.Event(a, req.at, S.Begin(id, S.Push(req))), S.Event(a, req.at, S.Go);
    es := [begin, go];
    var w1 := S.Next(env.c, env.h, w, begin);
    var w2 := S.Next(env.c, env.h, w1, go);
    AfterTwo(env.c, env.h, w, begin, w1, go, w2);
    BeginStep(env.c, env.h, w, a, id, S.Push(req), req.at);
    hide After, S.Next, Applied, Saved;
    if id in s.shelf.m {
      PushIsSwap(env, w1, a, s, s.shelf.m[id], req, NothingToDo);
    } else {
      IdleStep(env.c, env.h, w1, go);
    }
  }

  lemma AdoptIsSteps(env: Env, s: Records, t: Transfer, id: Str, watch: Watch, at: Time, w: S.World, a: nat) returns (es: seq<S.Event>)
    requires HasRecords(w, s)
    ensures Plays(env, w, a, es, Adopt(env, s, t, id, watch, at).0)
  {
    hide AdvanceTo, CheckOf, After, CheckCalls;
    var req := Request(Confirming, Actor.Listener, t.txHash, [], at);
    es := AdvanceIsSteps(env, s, id, req, w, a);
    var (mid, moved) := AdvanceTo(env.h, s, id, req);
    if moved.Ok? && moved.value {
      var more := CheckCalls(env, mid, id, watch, at, a);
      CheckIsSteps(env, mid, id, watch, at, After(env.c, env.h, w, es), a);
      PlaysOn(env, w, a, es, mid, more, CheckOf(env, mid, id, watch, at).0);
      es := es + more;
    }
  }

  lemma ReconciledIsSteps(env: Env, chain: Str, s: Records, t: Transfer, watch: Watch, at: Time, w: S.World, a: nat) returns (es: seq<S.Event>)
    requires HasRecords(w, s)
    ensures Plays(env, w, a, es, Reconciled(env, chain, s, t, watch, at).0)
  {
    hide AdvanceTo, CheckOf, Adopt, After, CheckCalls, AgainstPost, Plays;
    PlaysNone(env, w, a, s);
    es := [];
    if t.ref != ZERO && t.ref in s.shelf.byRef && s.shelf.byRef[t.ref] in s.shelf.m {
      var it := s.shelf.m[s.shelf.byRef[t.ref]];
      if OwnTerms(chain, t, it) && it.state == Confirming && it.txHash == t.txHash {
        es := CheckCalls(env, s, it.id, watch, at, a);
        CheckIsSteps(env, s, it.id, watch, at, w, a);
      } else if OwnTerms(chain, t, it) && it.state == Confirming {
        es := HandBackAndAdopt(env, s, t, it.id, watch, at, w, a);
        var (back, moved) := AdvanceTo(env.h, s, it.id, Request(Settling, Actor.Listener, [], WHY, at));
        assert Reconciled(env, chain, s, t, watch, at).0 == if moved.Ok? && moved.value then Adopt(env, back, t, it.id, watch, at).0 else back;
      } else if OwnTerms(chain, t, it) && it.state == Settling {
        es := AdoptIsSteps(env, s, t, it.id, watch, at, w, a);
      }
    }
  }

  lemma HandBackAndAdopt(env: Env, s: Records, t: Transfer, id: Str, watch: Watch, at: Time, w: S.World, a: nat) returns (es: seq<S.Event>)
    requires HasRecords(w, s)
    ensures var (back, moved) := AdvanceTo(env.h, s, id, Request(Settling, Actor.Listener, [], WHY, at));
      Plays(env, w, a, es, if moved.Ok? && moved.value then Adopt(env, back, t, id, watch, at).0 else back)
  {
    hide AdvanceTo, Adopt, After;
    var req := Request(Settling, Actor.Listener, [], WHY, at);
    es := AdvanceIsSteps(env, s, id, req, w, a);
    var (back, moved) := AdvanceTo(env.h, s, id, req);
    if moved.Ok? && moved.value {
      var more := AdoptIsSteps(env, back, t, id, watch, at, After(env.c, env.h, w, es), a);
      PlaysOn(env, w, a, es, back, more, Adopt(env, back, t, id, watch, at).0);
      es := es + more;
    }
  }

  lemma {:induction false} SweepIsSteps(env: Env, chain: Str, s: Records, ids: seq<Str>, n: nat, watch: Watch, at: Time, w: S.World, a: nat) returns (es: seq<S.Event>)
    requires n <= |ids| && HasRecords(w, s)
    ensures Plays(env, w, a, es, Sweep(env, chain, s, ids, n, watch, at).0)
  {
    if n == 0 {
      es := [];
      PlaysNone(env, w, a, s);
    } else {
      es := SweepIsSteps(env, chain, s, ids, n - 1, watch, at, w, a);
      var mid, id := Sweep(env, chain, s, ids, n - 1, watch, at).0, ids[n - 1];
      hide CheckOf, After, CheckCalls;
      var after := Sweep(env, chain, s, ids, n, watch, at).0;
      assert after == mid || after == CheckOf(env, mid, id, watch, at).0;
      if after != mid {
        var more := CheckCalls(env, mid, id, watch, at, a);
        CheckIsSteps(env, mid, id, watch, at, After(env.c, env.h, w, es), a);
        PlaysOn(env, w, a, es, mid, more, after);
        es := es + more;
      }
    }
  }

  lemma {:induction false} WalkIsSteps(env: Env, chain: Str, s: Records, ts: seq<Transfer>, n: nat, from: nat, to: nat, watch: Watch, at: Time, w: S.World, a: nat)
    returns (es: seq<S.Event>)
    requires n <= |ts| && HasRecords(w, s)
    ensures Plays(env, w, a, es, Walk(env, chain, s, ts, n, from, to, watch, at).0)
  {
    if n == 0 {
      es := [];
      PlaysNone(env, w, a, s);
    } else {
      es := WalkIsSteps(env, chain, s, ts, n - 1, from, to, watch, at, w, a);
      var mid := Walk(env, chain, s, ts, n - 1, from, to, watch, at).0;
      hide Reconciled, After;
      var after := Walk(env, chain, s, ts, n, from, to, watch, at).0;
      assert after == mid || after == Reconciled(env, chain, mid, ts[n - 1], watch, at).0;
      if after != mid {
        var more := ReconciledIsSteps(env, chain, mid, ts[n - 1], watch, at, After(env.c, env.h, w, es), a);
        PlaysOn(env, w, a, es, mid, more, after);
        es := es + more;
      }
    }
  }

  /** A whole recon run, however it ends, is a stretch of steps of one actor. */
  lemma RunIsSteps(env: Env, chain: Str, s: Records, cursor: nat, r: Inputs, w: S.World, a: nat) returns (es: seq<S.Event>)
    requires HasRecords(w, s)
    ensures Plays(env, w, a, es, RunOf(env, chain, s, cursor, r).0)
  {
    hide Sweep, Walk, After;
    es := SweepIsSteps(env, chain, s, r.ids, |r.ids|, r.sweeping, r.at, w, a);
    var swept := Sweep(env, chain, s, r.ids, |r.ids|, r.sweeping, r.at).0;
    var after := RunOf(env, chain, s, cursor, r).0;
    if after != swept {
      var more := WalkIsSteps(env, chain, swept, r.ordered, |r.ordered|, cursor + 1, r.finalized.value, r.watch, r.at, After(env.c, env.h, w, es), a);
      PlaysOn(env, w, a, es, swept, more, after);
      es := es + more;
    }
  }

  /** So recon may run at any point of any interleaving: whatever the listener counts as settled
      after it is still paid exactly once. */
  lemma ReconKeepsPaidOnce(env: Env, chain: Str, es: seq<S.Event>, cursor: nat, r: Inputs, a: nat, id: Str)
    requires var s := RunOf(env, chain, Records(S.Run(env.c, env.h, es).shelf, S.Run(env.c, env.h, es).books), cursor, r).0;
      id in s.shelf.m && Invariant.SettledByListener(s.shelf.m[id])
    ensures var s := RunOf(env, chain, Records(S.Run(env.c, env.h, es).shelf, S.Run(env.c, env.h, es).books), cursor, r).0;
      exists p, i :: Safety.PaidOnce(s.books, s.shelf.m[id], p, i)
  {
    hide RunOf, After, Invariant.SettledByListener, Safety.PaidOnce, S.Run;
    var w := S.Run(env.c, env.h, es);
    var more := RunIsSteps(env, chain, Records(w.shelf, w.books), cursor, r, w, a);
    RunGoesOn(env.c, env.h, es, more);
    Safety.SettledMeansPaidOnce(env.c, env.h, es + more, id);
  }
}
