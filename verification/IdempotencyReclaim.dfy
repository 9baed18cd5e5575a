/** A key claimed anew after its record expired: exactly when one answer is still all that leaves. */
module IdempotencyReclaim {
  import opened Bytes
  import opened Idempotency

  // ---- what happened since a moment ----

  /** The world with what was stored and answered up to `base` forgotten. */
  function Since(base: World, w: World): World
    requires |base.stored| <= |w.stored| && |base.replies| <= |w.replies|
  {
    World(w.m, w.running, w.stored[|base.stored|..], w.replies[|base.replies|..])
  }

  lemma SinceNext(base: World, w: World, s: Step)
    requires |base.stored| <= |w.stored| && |base.replies| <= |w.replies|
    ensures |base.stored| <= |Next(w, s).stored| && |base.replies| <= |Next(w, s).replies|
    ensures Next(Since(base, w), s) == Since(base, Next(w, s))
  {
    var v := Next(w, s);
    hide Claimed, Completed, Swept;
    if w.stored < v.stored {
      assert v.stored[|base.stored|..] == w.stored[|base.stored|..] + v.stored[|w.stored|..];
    }
    if w.replies < v.replies {
      assert v.replies[|base.replies|..] == w.replies[|base.replies|..] + v.replies[|w.replies|..];
    }
  }

  // ---- one policy ----

  /** The claims of k all come with one policy, as a handler's do. */
  ghost predicate OnePolicy(steps: seq<Step>, k: Key, p: Policy) {
    forall i :: 0 <= i < |steps| && steps[i].Arrive? && steps[i].k == k ==> steps[i].policy == p
  }

  /** The record claimed at `start` is on attempt n at the earliest n - 1 leases later. */
  ghost predicate OnTime(m: Records, k: Key, p: Policy, start: Time) {
    && k in m && m[k].attempt > 0 && m[k].expiresAt == start + p.ttl && Reaches(p, m[k].attempt)
    && (p.lease >= 0 || m[k].attempt == 1 ==> m[k].leaseUntil >= start + m[k].attempt * p.lease)
  }

  lemma NextAttempt(p: Policy, n: nat, start: Time, leaseUntil: Time, now: Time)
    requires n > 0 && Reaches(p, n) && leaseUntil <= now < start + p.ttl
    requires p.lease >= 0 || n == 1 ==> leaseUntil >= start + n * p.lease
    ensures Reaches(p, n + 1) && (p.lease >= 0 ==> now + p.lease >= start + (n + 1) * p.lease)
  {
    Leases(n, p.lease);
  }

  lemma Leases(n: nat, lease: int)
    requires n > 0
    ensures (n + 1) * lease == n * lease + lease
    ensures if lease >= 0 then n * lease >= lease else n * lease <= lease
  {
    assert n * lease - lease == (n - 1) * lease;
    if lease >= 0 {
      Product(n - 1, lease);
    } else {
      Product(n - 1, -lease);
      assert (n - 1) * -lease == -((n - 1) * lease);
    }
  }

  lemma Product(a: nat, b: nat)
    ensures a * b >= 0
  {
  }

  lemma StaysOnTime(w: World, s: Step, k: Key, p: Policy, start: Time)
    requires OnTime(w.m, k, p, start) && InTime(w, s, k) && (s.Arrive? && s.k == k ==> s.policy == p)
    ensures OnTime(Next(w, s).m, k, p, start)
  {
    hide Reaches;
    var v := Next(w, s);
    assert k in v.m && v.m[k].expiresAt == w.m[k].expiresAt;
    if v.m[k].attempt != w.m[k].attempt {
      assert s.k == k && v.m[k].attempt == w.m[k].attempt + 1 && v.m[k].leaseUntil == s.now + p.lease;
      NextAttempt(p, w.m[k].attempt, start, w.m[k].leaseUntil, s.now);
    }
  }

  /** From a fit moment on, everything fits for as long as the record lasts. */
  lemma {:induction false} FitsFrom(base: World, w: World, steps: seq<Step>, k: Key, p: Policy, start: Time)
    requires |base.stored| <= |w.stored| && |base.replies| <= |w.replies|
    requires Fits(Since(base, w), k, Some(p)) && InTimeFrom(w, steps, k) && OnePolicy(steps, k, p) && OnTime(w.m, k, p, start)
    ensures var v := RunFrom(w, steps);
      |base.stored| <= |v.stored| && |base.replies| <= |v.replies| && Fits(Since(base, v), k, Some(p)) && OnTime(v.m, k, p, start)
  {
    if steps != [] {
      var before, s := steps[..|steps| - 1], steps[|steps| - 1];
      FitsFrom(base, w, before, k, p, start);
      var v := RunFrom(w, before);
      SinceNext(base, v, s);
      StaysOnTime(v, s, k, p, start);
      hide Fits, Next, Reaches;
      StepKeeps(Since(base, v), s, k, Some(p));
    }
  }

  /** Since `base`, at most one answer was stored for k, and all answers sent for it are equal. */
  ghost predicate OneSince(base: World, w: World, k: Key) {
    && |base.stored| <= |w.stored| && |base.replies| <= |w.replies|
    && |StoredFor(w.stored[|base.stored|..], k)| <= 1
    && forall i, j :: |base.replies| <= i < |w.replies| && |base.replies| <= j < |w.replies| && Answers(w.replies[i], k) && Answers(w.replies[j], k) ==>
      w.replies[i].resp == w.replies[j].resp
  }

  predicate Answers(r: Reply, k: Key) { r.Answered? && r.k == k }

  lemma FitIsOne(base: World, w: World, k: Key, pace: Option<Policy>)
    requires |base.stored| <= |w.stored| && |base.replies| <= |w.replies| && Fits(Since(base, w), k, pace)
    ensures OneSince(base, w, k)
  {
    var since := Since(base, w);
    hide Counts, StoredFor;
    forall i, j | |base.replies| <= i < |w.replies| && |base.replies| <= j < |w.replies| && Answers(w.replies[i], k) && Answers(w.replies[j], k)
      ensures w.replies[i].resp == w.replies[j].resp
    {
      assert since.replies[i - |base.replies|] == w.replies[i] && since.replies[j - |base.replies|] == w.replies[j];
    }
  }

  // ---- claiming anew ----

  /** The claim finds no record, or one that has expired. */
  predicate Anew(w: World, a: Step) {
    a.Arrive? && a.handler !in w.running && (a.k !in w.m || Expired(w.m, a.k, a.now))
  }

  /** Handler i is left over from an earlier record of k, and takeovers under p can bring its attempt up again. */
  predicate LeftOver(w: World, i: nat, k: Key, p: Policy) {
    i in w.running && w.running[i].k == k && Reaches(p, w.running[i].attempt)
  }

  ghost predicate Clashes(w: World, k: Key, p: Policy) {
    exists i :: LeftOver(w, i, k, p)
  }

  /** Attempts count from one. */
  ghost predicate Positive(w: World) {
    (forall k :: k in w.m ==> w.m[k].attempt > 0) && (forall i :: i in w.running ==> w.running[i].attempt > 0)
  }

  lemma {:induction false} RunIsPositive(steps: seq<Step>)
    ensures Positive(Run(steps))
  {
    if steps != [] {
      RunIsPositive(steps[..|steps| - 1]);
      NextIsPositive(Run(steps[..|steps| - 1]), steps[|steps| - 1]);
      hide Next, Positive;
    }
  }

  lemma NextIsPositive(w: World, s: Step)
    requires Positive(w)
    ensures Positive(Next(w, s))
  {
    hide Expired;
  }

  lemma AnewFits(w: World, a: Step)
    requires Anew(w, a) && Positive(w) && !Clashes(w, a.k, a.policy)
    ensures var v := Next(w, a);
      && |w.stored| <= |v.stored| && |w.replies| <= |v.replies| && Fits(Since(w, v), a.k, Some(a.policy))
      && OnTime(v.m, a.k, a.policy, a.now)
  {
    var v := Next(w, a);
    assert v.m[a.k] == Record(a.fp, 1, a.now, a.now + a.policy.lease, a.now + a.policy.ttl, None);
    assert v.running == w.running[a.handler := Running(a.k, 1)];
    assert Reaches(a.policy, 1);
    hide Reaches;
    var since := Since(w, v);
    forall i | Counts(since, i, a.k, Some(a.policy)) ensures i == a.handler {
      assert !LeftOver(w, i, a.k, a.policy);
    }
    assert since.stored == [] && since.replies == [];
  }

  /** Claimed anew with no such handler about, the key has one answer until that record expires. */
  lemma CleanReclaim(before: seq<Step>, a: Step, later: seq<Step>)
    requires Anew(Run(before), a) && !Clashes(Run(before), a.k, a.policy)
    requires InTimeFrom(Next(Run(before), a), later, a.k) && OnePolicy(later, a.k, a.policy)
    ensures OneSince(Run(before), RunFrom(Next(Run(before), a), later), a.k)
  {
    var w := Run(before);
    RunIsPositive(before);
    hide Run, Next, Clashes, Positive, Fits, OnTime;
    AnewFits(w, a);
    FitsFrom(w, Next(w, a), later, a.k, a.policy, a.now);
    FitIsOne(w, RunFrom(Next(w, a), later), a.k, Some(a.policy));
  }

  // ---- and otherwise two different answers leave ----

  lemma {:induction false} Unused(s: set<nat>) returns (i: nat)
    ensures forall x :: x in s ==> x < i
  {
    if s == {} {
      i := 0;
    } else {
      var x :| x in s;
      var j := Unused(s - {x});
      i := if j > x then j else x + 1;
      forall y | y in s ensures y < i {
        if y != x {
          assert y in s - {x};
        }
      }
    }
  }

  /** k's record is on attempt n, unanswered, handler i works on that attempt and j is still at work. */
  ghost predicate OnAttempt(base: World, w: World, k: Key, n: nat, i: nat, j: nat) {
    && k in w.m && w.m[k].attempt == n && w.m[k].response.None?
    && i in w.running && w.running[i] == Running(k, n)
    && j in base.running && j in w.running && w.running[j] == base.running[j] && i != j
    && w.stored == base.stored && w.replies == base.replies
  }

  lemma TakesOver(w: World, k: Key, p: Policy, t: Time, i: nat)
    requires k in w.m && w.m[k].response.None? && w.m[k].leaseUntil <= t < w.m[k].expiresAt && i !in w.running
    ensures var s := Arrive(i, k, w.m[k].fingerprint, t, p); var v := Next(w, s);
      && InTime(w, s, k) && v.stored == w.stored && v.replies == w.replies
      && v.m == w.m[k := w.m[k].(attempt := w.m[k].attempt + 1, claimedAt := t, leaseUntil := t + p.lease)]
      && v.running == w.running[i := Running(k, w.m[k].attempt + 1)]
  {
  }

  lemma Appended(w: World, k: Key, later: seq<Step>, s: Step)
    requires InTimeFrom(w, later, k) && InTime(RunFrom(w, later), s, k)
    ensures InTimeFrom(w, later + [s], k) && RunFrom(w, later + [s]) == Next(RunFrom(w, later), s)
  {
    assert (later + [s])[..|later|] == later;
  }

  lemma ReachesFewer(p: Policy, n: nat)
    requires Reaches(p, n + 1) && n > 0
    ensures Reaches(p, n) && n * p.lease < p.ttl
  {
    if n > 1 {
      Leases(n - 1, p.lease);
    }
  }

  /** The record claimed at `start` stands at the end of its n-th lease in a row. */
  ghost predicate Leased(m: Records, k: Key, p: Policy, start: Time, n: nat) {
    k in m && m[k].leaseUntil == start + n * p.lease && m[k].expiresAt == start + p.ttl
  }

  /** Takeover after takeover, each at the end of the lease before it, the record comes to any attempt the
      policy leaves room for. */
  lemma {:induction false} ReachAttempt(base: World, w: World, k: Key, p: Policy, start: Time, i: nat, j: nat, n: nat)
    returns (later: seq<Step>, last: nat)
    requires OnAttempt(base, w, k, 1, i, j) && Leased(w.m, k, p, start, 1) && n >= 1 && Reaches(p, n)
    ensures InTimeFrom(w, later, k) && OnePolicy(later, k, p)
    ensures OnAttempt(base, RunFrom(w, later), k, n, last, j) && Leased(RunFrom(w, later).m, k, p, start, n)
    ensures forall x :: 0 <= x < |later| ==> later[x].Arrive?
  {
    if n == 1 {
      return [], i;
    }
    ReachesFewer(p, n - 1);
    var some, before := ReachAttempt(base, w, k, p, start, i, j, n - 1);
    var v, t := RunFrom(w, some), start + (n - 1) * p.lease;
    last := Unused(v.running.Keys);
    var s := Arrive(last, k, v.m[k].fingerprint, t, p);
    later := some + [s];
    assert t + p.lease == start + n * p.lease by {
      Leases(n - 1, p.lease);
    }
    hide Reaches, InTime;
    TakesOver(v, k, p, t, last);
    Appended(w, k, some, s);
    hide Next;
  }

  /** The handler on the record's attempt stores its answer and sends it. */
  lemma Finishes(w: World, i: nat, k: Key, resp: Response)
    requires i in w.running && k in w.m && w.running[i] == Running(k, w.m[k].attempt) && w.m[k].response.None?
    ensures Next(w, Finish(i, resp)) == World(w.m[k := w.m[k].(response := Some(resp))], w.running - {i}, w.stored + [(k, resp)], w.replies + [Answered(k, resp, false)])
  {
    assert w.m[k := w.m[k].(response := Some(resp))][k] != w.m[k];
  }

  /** With an answer stored it sends its own all the same. */
  lemma FinishesLate(w: World, i: nat, k: Key, resp: Response)
    requires i in w.running && k in w.m && w.running[i] == Running(k, w.m[k].attempt) && w.m[k].response.Some?
    ensures Next(w, Finish(i, resp)) == World(w.m, w.running - {i}, w.stored, w.replies + [Answered(k, resp, false)])
  {
  }

  /** Two handlers on one attempt: both finish, and both their answers leave. */
  lemma TwoFinish(base: World, w: World, k: Key, n: nat, i: nat, j: nat, first: Response, second: Response)
    requires OnAttempt(base, w, k, n, i, j) && base.running[j] == Running(k, n)
    ensures Next(Next(w, Finish(j, first)), Finish(i, second)).replies == base.replies + [Answered(k, first, false), Answered(k, second, false)]
  {
    Finishes(w, j, k, first);
    FinishesLate(Next(w, Finish(j, first)), i, k, second);
    assert base.replies + [Answered(k, first, false)] + [Answered(k, second, false)] == base.replies + [Answered(k, first, false), Answered(k, second, false)];
  }

  /** Claimed anew with such a handler about, some continuation within the record's life sends two
      different answers. */
  lemma DirtyReclaim(before: seq<Step>, a: Step) returns (later: seq<Step>)
    requires Anew(Run(before), a) && Clashes(Run(before), a.k, a.policy)
    ensures InTimeFrom(Next(Run(before), a), later, a.k) && OnePolicy(later, a.k, a.policy)
    ensures !OneSince(Run(before), RunFrom(Next(Run(before), a), later), a.k)
  {
    var w, v := Run(before), Next(Run(before), a);
    RunIsPositive(before);
    var j :| LeftOver(w, j, a.k, a.policy);
    var n := w.running[j].attempt;
    assert OnAttempt(w, v, a.k, 1, a.handler, j) && Leased(v.m, a.k, a.policy, a.now, 1);
    var first, second := Response(200, map[], []), Response(500, map[], []);
    hide Run, Next, Clashes, OneSince, Reaches, Leased;
    var some, last := ReachAttempt(w, v, a.k, a.policy, a.now, a.handler, j, n);
    Appended(v, a.k, some, Finish(j, first));
    Appended(v, a.k, some + [Finish(j, first)], Finish(last, second));
    later := some + [Finish(j, first)] + [Finish(last, second)];
    TwoFinish(w, RunFrom(v, some), a.k, n, last, j, first, second);
    TwoIsNotOne(w, RunFrom(v, later), a.k, first, second);
  }

  lemma TwoIsNotOne(base: World, w: World, k: Key, first: Response, second: Response)
    requires first != second && w.replies == base.replies + [Answered(k, first, false), Answered(k, second, false)]
    ensures !OneSince(base, w, k)
  {
    var n := |base.replies|;
    assert Answers(w.replies[n], k) && Answers(w.replies[n + 1], k) && w.replies[n].resp != w.replies[n + 1].resp;
  }

  /** From every reached world: with one policy for the claims of a key, the key claimed anew has one
      answer, whatever follows within that record's life, exactly when no handler left over from an
      earlier record can come up again. */
  lemma ReclaimHasOneAnswer(before: seq<Step>, a: Step)
    requires Anew(Run(before), a)
    ensures (forall later :: InTimeFrom(Next(Run(before), a), later, a.k) && OnePolicy(later, a.k, a.policy) ==>
               OneSince(Run(before), RunFrom(Next(Run(before), a), later), a.k))
            <==> !Clashes(Run(before), a.k, a.policy)
  {
    hide Run, RunFrom, Next, Clashes, OneSince, InTimeFrom, OnePolicy;
    if Clashes(Run(before), a.k, a.policy) {
      var later := DirtyReclaim(before, a);
    } else {
      forall later | InTimeFrom(Next(Run(before), a), later, a.k) && OnePolicy(later, a.k, a.policy)
        ensures OneSince(Run(before), RunFrom(Next(Run(before), a), later), a.k)
      {
        CleanReclaim(before, a, later);
      }
    }
  }

  /** For a lease and a lifetime above zero, left over are the handlers at work on the key whose attempt
      is so low that all the leases before it end within the record's life. */
  lemma LeasesThatFit(w: World, k: Key, p: Policy)
    requires p.lease > 0 && p.ttl > 0
    ensures Clashes(w, k, p) <==> exists i :: i in w.running && w.running[i].k == k && (w.running[i].attempt - 1) * p.lease < p.ttl
  {
    forall i | i in w.running && w.running[i].k == k
      ensures LeftOver(w, i, k, p) <==> (w.running[i].attempt - 1) * p.lease < p.ttl
    {
      FitsLeases(p, w.running[i].attempt);
    }
    hide LeftOver;
  }

  lemma FitsLeases(p: Policy, n: nat)
    requires p.lease > 0 && p.ttl > 0
    ensures Reaches(p, n) <==> (n - 1) * p.lease < p.ttl
  {
    if n > 1 {
      Leases(n - 1, p.lease);
    }
  }

  /** The shortest such run: the first handler outlives its record, and both answers leave. */
  lemma ExpiryForgets(k: Key, fp: Digest, old_: Response, new_: Response)
    ensures var p := Policy(10, 5);
      var steps := [Arrive(1, k, fp, 0, p), Arrive(2, k, fp, 10, p), Finish(1, old_), Finish(2, new_)];
      Run(steps).replies == [Answered(k, old_, false), Answered(k, new_, false)] && StoredFor(Run(steps).stored, k) == [old_]
  {
    var p := Policy(10, 5);
    var a, b, c, d := Arrive(1, k, fp, 0, p), Arrive(2, k, fp, 10, p), Finish(1, old_), Finish(2, new_);
    FourSteps(a, b, c, d);
    TwoArrive(k, fp);
    BothFinish(k, fp, old_, new_);
    hide Next, Run, RunFrom;
  }

  lemma FourSteps(a: Step, b: Step, c: Step, d: Step)
    ensures Run([a, b, c, d]) == Next(Next(Next(Next(START, a), b), c), d)
  {
    RunOn([], a);
    RunOn([a], b);
    RunOn([a, b], c);
    RunOn([a, b, c], d);
    assert [] + [a] == [a] && [a] + [b] == [a, b] && [a, b] + [c] == [a, b, c] && [a, b, c] + [d] == [a, b, c, d];
    hide Next;
  }

  lemma RunOn(steps: seq<Step>, s: Step)
    ensures Run(steps + [s]) == Next(Run(steps), s)
  {
    assert (steps + [s])[..|steps|] == steps;
  }

  /** The second arrival finds the first one's record expired, and starts the count over. */
  lemma TwoArrive(k: Key, fp: Digest)
    ensures var p := Policy(10, 5);
      Next(Next(START, Arrive(1, k, fp, 0, p)), Arrive(2, k, fp, 10, p)) == Overlap(k, fp)
  {
  }

  /** Two handlers at work, both of them the first attempt of a record for this key. */
  function Overlap(k: Key, fp: Digest): World {
    World(map[k := Record(fp, 1, 10, 15, 20, None)], map[1 := Running(k, 1), 2 := Running(k, 1)], [], [])
  }

  lemma BothFinish(k: Key, fp: Digest, old_: Response, new_: Response)
    ensures var w := Next(Next(Overlap(k, fp), Finish(1, old_)), Finish(2, new_));
      w.replies == [Answered(k, old_, false), Answered(k, new_, false)] && StoredFor(w.stored, k) == [old_]
  {
    var rec := Record(fp, 1, 10, 15, 20, None);
    var w := World(map[k := rec.(response := Some(old_))], map[2 := Running(k, 1)], [(k, old_)], [Answered(k, old_, false)]);
    Finishes(Overlap(k, fp), 1, k, old_);
    assert map[k := rec][k := rec.(response := Some(old_))] == w.m;
    assert map[1 := Running(k, 1), 2 := Running(k, 1)] - {1} == w.running;
    assert [] + [(k, old_)] == w.stored && [] + [Answered(k, old_, false)] == w.replies;
    FinishesLate(w, 2, k, new_);
    assert w.replies + [Answered(k, new_, false)] == [Answered(k, old_, false), Answered(k, new_, false)];
    StoredOne(k, old_);
    hide *;
  }

  lemma StoredOne(k: Key, resp: Response)
    ensures StoredFor([(k, resp)], k) == [resp]
  {
    assert [(k, resp)][..0] == [];
  }
}
