/** Whose answer a key gives: only the request that opened its record is ever answered under it. */
module IdempotencyRequests {
  import opened Bytes
  import opened Idempotency
  import opened IdempotencyReclaim

  // ---- which request each reply went to ----

  /** The world, with the fingerprint of the request each handler at work serves, and of the request each
      reply went to. */
  datatype Log = Log(w: World, serving: map<nat, Digest>, asked: seq<Digest>)

  function LogNext(l: Log, s: Step): Log {
    var v := Next(l.w, s);
    match s
    case Arrive(i, _, fp, _, _) =>
      if i in l.w.running then l
      else if i in v.running then Log(v, l.serving[i := fp], l.asked)
      else Log(v, l.serving, l.asked + [fp])
    case Finish(i, _) =>
      if i in l.w.running && i in l.serving then Log(v, l.serving - {i}, l.asked + [l.serving[i]]) else Log(v, l.serving, l.asked)
    case Sweep(_) => Log(v, l.serving, l.asked)
  }

  function LogFrom(l: Log, steps: seq<Step>): Log {
    if steps == [] then l else LogNext(LogFrom(l, steps[..|steps| - 1]), steps[|steps| - 1])
  }

  const NOTHING_ASKED := Log(START, map[], [])

  function LogOf(steps: seq<Step>): Log { LogFrom(NOTHING_ASKED, steps) }

  /** Every handler at work serves a request, and every reply went to one. */
  ghost predicate Kept(l: Log) {
    l.serving.Keys == l.w.running.Keys && |l.asked| == |l.w.replies|
  }

  lemma NextKept(l: Log, s: Step)
    requires Kept(l)
    ensures Kept(LogNext(l, s)) && LogNext(l, s).w == Next(l.w, s)
  {
    hide Expired;
  }

  lemma {:induction false} FromKept(l: Log, steps: seq<Step>)
    requires Kept(l)
    ensures Kept(LogFrom(l, steps)) && LogFrom(l, steps).w == RunFrom(l.w, steps)
  {
    hide LogNext, Next, Kept;
    if steps != [] {
      FromKept(l, steps[..|steps| - 1]);
      NextKept(LogFrom(l, steps[..|steps| - 1]), steps[|steps| - 1]);
    }
  }

  // ---- one request per record ----

  /** A different request under a key in use is refused, and the records stay as they are. */
  lemma OthersAreRefused(w: World, s: Step)
    requires s.Arrive? && s.handler !in w.running && s.k in w.m && !Expired(w.m, s.k, s.now) && s.fp != w.m[s.k].fingerprint
    ensures Next(w, s) == w.(replies := w.replies + [Refused(s.k)])
  {
  }

  /** From reply n on, every answer under k went to this request. */
  ghost predicate AnsweredOnly(l: Log, n: nat, k: Key, fp: Digest) {
    |l.asked| == |l.w.replies|
    && forall i :: n <= i < |l.w.replies| && Answers(l.w.replies[i], k) ==> l.asked[i] == fp
  }

  /** The record of k is this request's, and so is every handler that may still decide its answer. */
  ghost predicate Loyal(l: Log, n: nat, k: Key, fp: Digest, pace: Option<Policy>) {
    && Kept(l) && n <= |l.w.replies|
    && (k in l.w.m ==> l.w.m[k].fingerprint == fp)
    && (forall i :: Counts(l.w, i, k, pace) ==> l.serving[i] == fp)
    && AnsweredOnly(l, n, k, fp)
  }

  lemma ArriveLoyal(l: Log, s: Step, n: nat, k: Key, fp: Digest, pace: Option<Policy>)
    requires Loyal(l, n, k, fp, pace) && k in l.w.m && InTime(l.w, s, k) && s.Arrive?
    ensures Loyal(LogNext(l, s), n, k, fp, pace)
  {
    NextKept(l, s);
    hide Within;
    var v := LogNext(l, s);
    assert forall i :: Counts(v.w, i, k, pace) && i in l.w.running ==> Counts(l.w, i, k, pace);
  }

  lemma FinishLoyal(l: Log, s: Step, n: nat, k: Key, fp: Digest, pace: Option<Policy>)
    requires Loyal(l, n, k, fp, pace) && k in l.w.m && Within(l.w.m[k].attempt, pace) && s.Finish?
    ensures Loyal(LogNext(l, s), n, k, fp, pace)
  {
    NextKept(l, s);
    hide Within;
    var v := LogNext(l, s);
    assert forall i :: Counts(v.w, i, k, pace) ==> Counts(l.w, i, k, pace);
  }

  lemma SweepLoyal(l: Log, s: Step, n: nat, k: Key, fp: Digest, pace: Option<Policy>)
    requires Loyal(l, n, k, fp, pace) && k in l.w.m && InTime(l.w, s, k) && s.Sweep?
    ensures Loyal(LogNext(l, s), n, k, fp, pace)
  {
    NextKept(l, s);
    hide Within;
    var v := LogNext(l, s);
    assert forall i :: Counts(v.w, i, k, pace) ==> Counts(l.w, i, k, pace);
  }

  lemma StepLoyal(l: Log, s: Step, n: nat, k: Key, fp: Digest, pace: Option<Policy>)
    requires Loyal(l, n, k, fp, pace) && k in l.w.m && Within(l.w.m[k].attempt, pace) && InTime(l.w, s, k)
    ensures Loyal(LogNext(l, s), n, k, fp, pace) && k in LogNext(l, s).w.m
  {
    StaysOpen(l, s, k);
    hide Loyal, LogNext, InTime, Within;
    match s {
      case Arrive(_, _, _, _, _) => ArriveLoyal(l, s, n, k, fp, pace);
      case Finish(_, _) => FinishLoyal(l, s, n, k, fp, pace);
      case Sweep(_) => SweepLoyal(l, s, n, k, fp, pace);
    }
  }

  lemma StaysOpen(l: Log, s: Step, k: Key)
    requires k in l.w.m && InTime(l.w, s, k)
    ensures k in LogNext(l, s).w.m
  {
  }

  // ---- the first record of a key ----

  /** The request that opened k's record: of the first arrival under k that found its handler free. */
  function Opener(steps: seq<Step>, k: Key): Option<Digest> {
    if steps == [] then None
    else
      var before, s := Opener(steps[..|steps| - 1], k), steps[|steps| - 1];
      if before.Some? then before
      else if s.Arrive? && s.k == k && s.handler !in Run(steps[..|steps| - 1]).running then Some(s.fp)
      else None
  }

  /** Nothing was claimed or answered under k. */
  ghost predicate Untouched(l: Log, k: Key) {
    && Kept(l) && k !in l.w.m && (forall i :: i in l.w.running ==> l.w.running[i].k != k)
    && forall i :: 0 <= i < |l.w.replies| ==> !Answers(l.w.replies[i], k)
  }

  lemma FirstArrival(l: Log, s: Step, k: Key)
    requires Untouched(l, k)
    ensures if s.Arrive? && s.k == k && s.handler !in l.w.running then
              Loyal(LogNext(l, s), 0, k, s.fp, None) && k in LogNext(l, s).w.m
            else Untouched(LogNext(l, s), k)
  {
    NextKept(l, s);
    hide Kept;
  }

  ghost predicate OpenedBy(l: Log, k: Key, opener: Option<Digest>) {
    if opener.None? then Untouched(l, k) else Loyal(l, 0, k, opener.value, None) && k in l.w.m
  }

  lemma {:induction false} Opens(steps: seq<Step>, k: Key)
    requires NeverExpired(steps, k)
    ensures OpenedBy(LogOf(steps), k, Opener(steps, k)) && LogOf(steps).w == Run(steps)
  {
    FromKept(NOTHING_ASKED, steps);
    if steps != [] {
      var before, s := steps[..|steps| - 1], steps[|steps| - 1];
      Opens(before, k);
      hide LogNext, Untouched, Loyal, InTime, Run;
      if Opener(before, k).Some? {
        StepLoyal(LogOf(before), s, 0, k, Opener(before, k).value, None);
      } else {
        FirstArrival(LogOf(before), s, k);
      }
    }
  }

  /** Over every interleaving until k's record expires: every answer that leaves under k, run or replayed,
      goes to a request with the fingerprint of the one that opened the record. */
  lemma OneRequest(steps: seq<Step>, k: Key, i: nat)
    requires NeverExpired(steps, k) && i < |Run(steps).replies| && Answers(Run(steps).replies[i], k)
    ensures i < |LogOf(steps).asked| && Opener(steps, k) == Some(LogOf(steps).asked[i])
  {
    Opens(steps, k);
    hide LogOf, Run;
  }

  /** And whoever else arrives under k is refused, leaving the records as they are. */
  lemma OthersGetNothing(steps: seq<Step>, s: Step)
    requires s.Arrive? && NeverExpired(steps, s.k) && InTime(Run(steps), s, s.k) && s.handler !in Run(steps).running
    requires Opener(steps, s.k).Some? && s.fp != Opener(steps, s.k).value
    ensures Run(steps + [s]) == Run(steps).(replies := Run(steps).replies + [Refused(s.k)])
  {
    Opens(steps, s.k);
    RunOn(steps, s);
    hide LogOf, Run, Opener;
    OthersAreRefused(Run(steps), s);
  }

  // ---- a key claimed anew ----

  /** Handler i is left over from an earlier record of k, can come up again, and serves another request. */
  ghost predicate Stranger(l: Log, i: nat, k: Key, p: Policy, fp: Digest) {
    LeftOver(l.w, i, k, p) && i in l.serving && l.serving[i] != fp
  }

  lemma {:induction false} LoyalFrom(l: Log, steps: seq<Step>, n: nat, k: Key, fp: Digest, p: Policy, start: Time)
    requires Loyal(l, n, k, fp, Some(p)) && OnTime(l.w.m, k, p, start) && InTimeFrom(l.w, steps, k) && OnePolicy(steps, k, p)
    ensures Loyal(LogFrom(l, steps), n, k, fp, Some(p)) && OnTime(LogFrom(l, steps).w.m, k, p, start)
  {
    hide Loyal, OnTime, Reaches;
    if steps != [] {
      var before, s := steps[..|steps| - 1], steps[|steps| - 1];
      LoyalFrom(l, before, n, k, fp, p, start);
      LoyalIsKept(l, n, k, fp, Some(p));
      FromKept(l, before);
      var v := LogFrom(l, before);
      OnTimeIsWithin(v.w.m, k, p, start);
      StepLoyal(v, s, n, k, fp, Some(p));
      StaysOnTime(v.w, s, k, p, start);
      NextKept(v, s);
      hide LogNext, Next, InTime;
    }
  }

  lemma LoyalIsKept(l: Log, n: nat, k: Key, fp: Digest, pace: Option<Policy>)
    requires Loyal(l, n, k, fp, pace)
    ensures Kept(l)
  {
  }

  lemma OnTimeIsWithin(m: Records, k: Key, p: Policy, start: Time)
    requires OnTime(m, k, p, start)
    ensures k in m && Within(m[k].attempt, Some(p))
  {
  }

  lemma AnewIsLoyal(l: Log, a: Step)
    requires Kept(l) && Positive(l.w) && Anew(l.w, a) && forall i :: !Stranger(l, i, a.k, a.policy, a.fp)
    ensures Loyal(LogNext(l, a), |l.w.replies|, a.k, a.fp, Some(a.policy)) && OnTime(LogNext(l, a).w.m, a.k, a.policy, a.now)
  {
    NextKept(l, a);
    var v := LogNext(l, a);
    assert v.w.m[a.k] == Record(a.fp, 1, a.now, a.now + a.policy.lease, a.now + a.policy.ttl, None);
    assert v.w.running == l.w.running[a.handler := Running(a.k, 1)];
    forall i | Counts(v.w, i, a.k, Some(a.policy)) ensures v.serving[i] == a.fp {
      assert !Stranger(l, i, a.k, a.policy, a.fp);
    }
  }

  lemma {:induction false} ArrivalsServe(l: Log, later: seq<Step>, j: nat)
    requires Kept(l) && j in l.serving && forall x :: 0 <= x < |later| ==> later[x].Arrive?
    ensures j in LogFrom(l, later).serving && LogFrom(l, later).serving[j] == l.serving[j]
  {
    if later != [] {
      var before, s := later[..|later| - 1], later[|later| - 1];
      ArrivalsServe(l, before, j);
      FromKept(l, before);
      ArrivalServes(LogFrom(l, before), s, j);
      hide LogNext;
    }
  }

  lemma ArrivalServes(l: Log, s: Step, j: nat)
    requires Kept(l) && j in l.serving && s.Arrive?
    ensures j in LogNext(l, s).serving && LogNext(l, s).serving[j] == l.serving[j]
  {
    hide Expired;
  }

  /** With a stranger about, some continuation within the record's life sends the stranger's request an answer
      under the key. */
  lemma StrangerIsAnswered(before: seq<Step>, a: Step, j: nat) returns (later: seq<Step>)
    requires Anew(Run(before), a) && Stranger(LogOf(before), j, a.k, a.policy, a.fp) && LogOf(before).w == Run(before) && Kept(LogOf(before))
    ensures InTimeFrom(Next(Run(before), a), later, a.k) && OnePolicy(later, a.k, a.policy)
    ensures !AnsweredOnly(LogFrom(LogNext(LogOf(before), a), later), |Run(before).replies|, a.k, a.fp)
  {
    var l, w, v := LogOf(before), Run(before), Next(Run(before), a);
    RunIsPositive(before);
    var n := w.running[j].attempt;
    assert OnAttempt(w, v, a.k, 1, a.handler, j) && Leased(v.m, a.k, a.policy, a.now, 1);
    NextKept(l, a);
    ArrivalServes(l, a, j);
    var resp := Response(200, map[], []);
    hide Run, Next, Reaches, Leased, LogOf, Anew, Positive, Kept;
    var some, last := ReachAttempt(w, v, a.k, a.policy, a.now, a.handler, j, n);
    Appended(v, a.k, some, Finish(j, resp));
    later := some + [Finish(j, resp)];
    FromKept(LogNext(l, a), some);
    ArrivalsServe(LogNext(l, a), some, j);
    LateAnswer(w, LogFrom(LogNext(l, a), some), a.k, n, last, j, resp);
    assert later[..|some|] == some;
    hide LogNext, OnAttempt;
  }

  lemma LateAnswer(base: World, l: Log, k: Key, n: nat, i: nat, j: nat, resp: Response)
    requires Kept(l) && OnAttempt(base, l.w, k, n, i, j) && base.running[j] == Running(k, n)
    ensures var v := LogNext(l, Finish(j, resp));
      |v.asked| == |v.w.replies| == |base.replies| + 1 && Answers(v.w.replies[|base.replies|], k) && v.asked[|base.replies|] == l.serving[j]
  {
    Finishes(l.w, j, k, resp);
    hide Next;
  }

  /** From every reached world: a key claimed anew answers, within that record's life and under one policy,
      only the request that claimed it exactly when no handler left over from an earlier record that can come
      up again serves another request. */
  lemma ReclaimHasOneRequest(before: seq<Step>, a: Step)
    requires Anew(Run(before), a)
    ensures (forall later :: InTimeFrom(Next(Run(before), a), later, a.k) && OnePolicy(later, a.k, a.policy) ==>
               AnsweredOnly(LogFrom(LogNext(LogOf(before), a), later), |Run(before).replies|, a.k, a.fp))
            <==> forall j :: !Stranger(LogOf(before), j, a.k, a.policy, a.fp)
  {
    FromKept(NOTHING_ASKED, before);
    var l := LogOf(before);
    if j :| Stranger(l, j, a.k, a.policy, a.fp) {
      var later := StrangerIsAnswered(before, a, j);
    } else {
      RunIsPositive(before);
      hide Run, Next, Anew, LogNext, LogOf, AnsweredOnly, OnTime, Positive, Stranger;
      AnewIsLoyal(l, a);
      NextKept(l, a);
      forall later | InTimeFrom(Next(Run(before), a), later, a.k) && OnePolicy(later, a.k, a.policy)
        ensures AnsweredOnly(LogFrom(LogNext(l, a), later), |Run(before).replies|, a.k, a.fp)
      {
        LoyalFrom(LogNext(l, a), later, |l.w.replies|, a.k, a.fp, a.policy, a.now);
      }
    }
  }
}
