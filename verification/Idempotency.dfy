/** One answer per key: claiming a key, storing its answer, replaying it. */
module Idempotency {
  import opened Bytes

  type Time = int

  datatype Response = Response(status: int, header: map<Str, seq<Str>>, body: Str)

  datatype Key = Key(owner: Str, key: Str)

  datatype Record = Record(fingerprint: Digest, attempt: nat, claimedAt: Time, leaseUntil: Time, expiresAt: Time, response: Option<Response>)

  datatype Policy = Policy(ttl: int, lease: int)

  datatype Outcome = Fresh | Replay | InFlight | Mismatch

  datatype Error = NotFound | StaleClaim

  type Records = map<Key, Record>

  // ---- what each call does to the records ----

  predicate Expired(m: Records, k: Key, now: Time) { k in m && m[k].expiresAt <= now }

  function Claimed(m: Records, k: Key, fp: Digest, now: Time, p: Policy): (Records, Record, Outcome) {
    if k !in m || Expired(m, k, now) then
      var rec := Record(fp, 1, now, now + p.lease, now + p.ttl, None);
      (m[k := rec], rec, Fresh)
    else
      var cur := m[k];
      if cur.fingerprint != fp then (m, cur, Mismatch)
      else if cur.response.Some? then (m, cur, Replay)
      else if cur.leaseUntil > now then (m, cur, InFlight)
      else
        var taken := cur.(attempt := cur.attempt + 1, claimedAt := now, leaseUntil := now + p.lease);
        (m[k := taken], taken, Fresh)
  }

  function Completed(m: Records, k: Key, attempt: nat, resp: Response): (Records, Option<Error>) {
    if k !in m then (m, Some(NotFound))
    else if m[k].attempt != attempt then (m, Some(StaleClaim))
    else if m[k].response.Some? then (m, None)
    else (m[k := m[k].(response := Some(resp))], None)
  }

  function Swept(m: Records, now: Time): Records {
    map k | k in m && m[k].expiresAt > now :: m[k]
  }

  // ---- the store ----

  class MemoryStore {
    var m: Records

    constructor ()
      ensures m == map[]
    {
      m := map[];
    }

    method Claim(k: Key, fp: Digest, now: Time, p: Policy) returns (rec: Record, outcome: Outcome)
      modifies this
      ensures (m, rec, outcome) == Claimed(old(m), k, fp, now, p)
    {
      var exists_ := k in m;
      if exists_ && m[k].expiresAt <= now {
        m := m - {k};
        exists_ := false;
      }
      if !exists_ {
        rec := Record(fp, 1, now, now + p.lease, now + p.ttl, None);
        m := m[k := rec];
        assert m == old(m)[k := rec];
        return rec, Fresh;
      }
      if m[k].fingerprint != fp {
        return m[k], Mismatch;
      }
      if m[k].response.Some? {
        return m[k], Replay;
      }
      if m[k].leaseUntil > now {
        return m[k], InFlight;
      }
      m := m[k := m[k].(attempt := m[k].attempt + 1, claimedAt := now, leaseUntil := now + p.lease)];
      return m[k], Fresh;
    }

    method Complete(k: Key, attempt: nat, resp: Response) returns (err: Option<Error>)
      modifies this
      ensures (m, err) == Completed(old(m), k, attempt, resp)
    {
      if k !in m {
        return Some(NotFound);
      }
      if m[k].attempt != attempt {
        return Some(StaleClaim);
      }
      if m[k].response.Some? {
        return None;
      }
      m := m[k := m[k].(response := Some(resp))];
      return None;
    }

    method Sweep(now: Time) returns (n: nat)
      modifies this
      ensures m == Swept(old(m), now) && n == |old(m)| - |m|
    {
      n := 0;
      ghost var was := m;
      var rest := m.Keys;
      while rest != {}
        invariant rest <= m.Keys && m.Keys <= was.Keys && |m| + n == |was|
        invariant forall k :: k in was ==> (k in m <==> k in rest || was[k].expiresAt > now)
        invariant forall k :: k in m ==> m[k] == was[k]
        decreases |rest|
      {
        var k :| k in rest;
        if m[k].expiresAt <= now {
          RemoveOne(m, k);
          m := m - {k};
          n := n + 1;
        }
        rest := rest - {k};
      }
      assert m == Swept(was, now);
    }
  }

  lemma RemoveOne(m: Records, k: Key)
    requires k in m
    ensures |m - {k}| + 1 == |m|
  {
    assert m == (m - {k})[k := m[k]];
  }

  // ---- the handler ----

  datatype Reply = Answered(k: Key, resp: Response, replayed: bool) | Refused(k: Key)

  /** What the wrapped handler writes is kept back until it is stored: the first status wins. */
  class Recorder {
    var status: int
    var wroteHeader: bool
    var body: Str

    constructor ()
      ensures status == 200 && !wroteHeader && body == []
    {
      status, wroteHeader, body := 200, false, [];
    }

    method WriteHeader(s: int)
      modifies this
      ensures wroteHeader && body == old(body) && status == if old(wroteHeader) then old(status) else s
    {
      if wroteHeader {
        return;
      }
      wroteHeader, status := true, s;
    }

    method Write(p: Str)
      modifies this
      ensures wroteHeader && body == old(body) + p && status == if old(wroteHeader) then old(status) else 200
    {
      if !wroteHeader {
        WriteHeader(200);
      }
      body := body + p;
    }
  }

  /** What the wrapped handler does with its response writer. */
  datatype Call = SetStatus(status: int) | Put(bytes: Str)

  /** The first call decides the status. */
  function StatusOf(calls: seq<Call>): int {
    if calls != [] && calls[0].SetStatus? then calls[0].status else 200
  }

  function BodyOf(calls: seq<Call>): Str {
    if calls == [] then []
    else
      var last := calls[|calls| - 1];
      BodyOf(calls[..|calls| - 1]) + if last.Put? then last.bytes else []
  }

  /** Everything the wrapped handler writes is recorded before any of it goes out. */
  method RunWrapped(calls: seq<Call>, header: map<Str, seq<Str>>) returns (resp: Response)
    ensures resp == Response(StatusOf(calls), header, BodyOf(calls))
  {
    var rec := new Recorder();
    for i := 0 to |calls|
      invariant rec.body == BodyOf(calls[..i]) && rec.wroteHeader == (i > 0)
      invariant rec.status == StatusOf(calls[..i])
    {
      assert calls[..i + 1][..i] == calls[..i];
      match calls[i] {
        case SetStatus(s) => rec.WriteHeader(s);
        case Put(p) => rec.Write(p);
      }
    }
    assert calls[..|calls|] == calls;
    return Response(rec.status, header, rec.body);
  }

  /** Only the first call sets the status, plain writing counting as 200; every write adds to the body. */
  lemma CallsCount(calls: seq<Call>, c: Call)
    ensures StatusOf([]) == 200 && StatusOf(calls + [c]) == if calls == [] && c.SetStatus? then c.status else StatusOf(calls)
    ensures BodyOf([]) == [] && BodyOf(calls + [c]) == if c.Put? then BodyOf(calls) + c.bytes else BodyOf(calls)
  {
    assert (calls + [c])[..|calls|] == calls;
  }

  /** One request with nobody else about: claim the key, run the wrapped handler, store its answer
      and only then send it.  The calls are an arrival and, when the claim is fresh, a finish. */
  method Serve(store: MemoryStore, k: Key, fp: Digest, now: Time, p: Policy, calls: seq<Call>, header: map<Str, seq<Str>>) returns (reply: Reply)
    modifies store
    ensures var answer := Response(StatusOf(calls), header, BodyOf(calls));
      var w := Next(Next(World(old(store.m), map[], [], []), Arrive(0, k, fp, now, p)), Finish(0, answer));
      store.m == w.m && w.replies == [reply]
  {
    var rec, outcome := store.Claim(k, fp, now, p);
    if outcome == Mismatch || outcome == InFlight {
      return Refused(k);
    }
    if outcome == Replay {
      return Answered(k, rec.response.value, true);
    }
    var resp := RunWrapped(calls, header);
    var err := store.Complete(k, rec.attempt, resp);
    if err == Some(StaleClaim) {
      return Refused(k);
    }
    return Answered(k, resp, false);
  }

  // ---- handlers at work ----

  /** A handler between its claim and its completion. */
  datatype Running = Running(k: Key, attempt: nat)

  /** stored: every answer ever written into a record; replies: everything sent to a client. */
  datatype World = World(m: Records, running: map<nat, Running>, stored: seq<(Key, Response)>, replies: seq<Reply>)

  datatype Step =
    | Arrive(handler: nat, k: Key, fp: Digest, now: Time, policy: Policy)
    | Finish(handler: nat, resp: Response)
    | Sweep(now: Time)

  function Next(w: World, s: Step): World {
    match s
    case Arrive(i, k, fp, now, p) =>
      if i in w.running then w
      else
        var (m, rec, outcome) := Claimed(w.m, k, fp, now, p);
        (match outcome
         case Fresh => w.(m := m, running := w.running[i := Running(k, rec.attempt)])
         case Replay => w.(m := m, replies := w.replies + [Answered(k, rec.response.value, true)])
         case _ => w.(m := m, replies := w.replies + [Refused(k)]))
    case Finish(i, resp) =>
      if i !in w.running then w
      else
        var r := w.running[i];
        var (m, err) := Completed(w.m, r.k, r.attempt, resp);
        World(m, w.running - {i},
              if m != w.m then w.stored + [(r.k, resp)] else w.stored,
              w.replies + [if err == Some(StaleClaim) then Refused(r.k) else Answered(r.k, resp, false)])
    case Sweep(now) => w.(m := Swept(w.m, now))
  }

  const START := World(map[], map[], [], [])

  function RunFrom(w: World, steps: seq<Step>): World {
    if steps == [] then w else Next(RunFrom(w, steps[..|steps| - 1]), steps[|steps| - 1])
  }

  function Run(steps: seq<Step>): World { RunFrom(START, steps) }

  /** No claim of k and no sweep comes once k's record has expired. */
  ghost predicate InTime(w: World, s: Step, k: Key) {
    match s
    case Arrive(_, j, _, now, _) => j == k ==> !Expired(w.m, k, now)
    case Sweep(now) => !Expired(w.m, k, now)
    case Finish(_, _) => true
  }

  ghost predicate InTimeFrom(w: World, steps: seq<Step>, k: Key) {
    steps == [] || (InTimeFrom(w, steps[..|steps| - 1], k) && InTime(RunFrom(w, steps[..|steps| - 1]), steps[|steps| - 1], k))
  }

  ghost predicate NeverExpired(steps: seq<Step>, k: Key) { InTimeFrom(START, steps, k) }

  /** The answers stored for k. */
  function StoredFor(stored: seq<(Key, Response)>, k: Key): seq<Response> {
    if stored == [] then []
    else
      var before := StoredFor(stored[..|stored| - 1], k);
      if stored[|stored| - 1].0 == k then before + [stored[|stored| - 1].1] else before
  }

  /** Every answer for k among the replies is this one. */
  ghost predicate AllAnswers(replies: seq<Reply>, k: Key, resp: Option<Response>) {
    forall i :: 0 <= i < |replies| && replies[i].Answered? && replies[i].k == k ==> resp == Some(replies[i].resp)
  }

  /** How many takeovers one policy leaves room for: attempt n comes up at the earliest n - 1 leases after
      the claim, and only while the record lasts. */
  predicate Reaches(p: Policy, n: nat) {
    n <= 1 || (p.lease < p.ttl && (n - 1) * p.lease < p.ttl)
  }

  /** With the policy of all claims of the key known, only the attempts it leaves room for come up. */
  predicate Within(n: nat, pace: Option<Policy>) {
    pace.Some? ==> Reaches(pace.value, n)
  }

  /** Handler i may still decide k's answer: it is at work on k, and its attempt can come up. */
  predicate Counts(w: World, i: nat, k: Key, pace: Option<Policy>) {
    i in w.running && w.running[i].k == k && Within(w.running[i].attempt, pace)
  }

  /** No two handlers that count are on one attempt, and none is on the record's once it has its answer. */
  ghost predicate Apart(w: World, k: Key, pace: Option<Policy>) {
    && (forall i :: Counts(w, i, k, pace) ==>
          k in w.m && w.running[i].attempt <= w.m[k].attempt && (w.m[k].response.Some? ==> w.running[i].attempt < w.m[k].attempt))
    && (forall i, j :: Counts(w, i, k, pace) && Counts(w, j, k, pace) && w.running[i] == w.running[j] ==> i == j)
    && (if k in w.m then w.m[k].attempt > 0 && Within(w.m[k].attempt, pace) else pace.None?)
  }

  function AnswerOf(m: Records, k: Key): Option<Response> {
    if k in m then m[k].response else None
  }

  /** The record's answer is all that was stored for k and all that was answered. */
  ghost predicate Decided(w: World, k: Key) {
    && StoredFor(w.stored, k) == (if AnswerOf(w.m, k).Some? then [AnswerOf(w.m, k).value] else [])
    && AllAnswers(w.replies, k, AnswerOf(w.m, k))
  }

  /** The record of k, the handlers at work on it, and what was stored and answered, fit. */
  ghost predicate Fits(w: World, k: Key, pace: Option<Policy>) {
    Apart(w, k, pace) && Decided(w, k)
  }

  lemma AnswersAfter(replies: seq<Reply>, r: Reply, k: Key, was: Option<Response>, now: Option<Response>)
    requires AllAnswers(replies, k, was) && (was.Some? ==> now == was)
    requires r.Answered? && r.k == k ==> now == Some(r.resp)
    ensures AllAnswers(replies + [r], k, now)
  {
  }

  /** The record of k after the step, if there is one, is on an attempt the policy leaves room for. */
  predicate Paced(w: World, s: Step, k: Key, pace: Option<Policy>) {
    k in Next(w, s).m ==> Within(Next(w, s).m[k].attempt, pace)
  }

  /** What an arrival for k that no record refuses does: attempt n is on, and its handler at work on it. */
  lemma ArrivalIs(w: World, s: Step, k: Key)
    requires s.Arrive? && InTime(w, s, k)
    ensures var v := Next(w, s);
      || (v.m == w.m && v.running == w.running)
      || (s.handler !in w.running && s.k in v.m && v.running == w.running[s.handler := Running(s.k, v.m[s.k].attempt)] && v.m == w.m[s.k := v.m[s.k]])
    ensures s.k == k && Next(w, s).running != w.running ==>
      && k in Next(w, s).m && Next(w, s).m[k].response.None?
      && if k in w.m then w.m[k].response.None? && Next(w, s).m[k].attempt == w.m[k].attempt + 1 else Next(w, s).m[k].attempt == 1
  {
  }

  /** The record unchanged and no more handlers that count. */
  lemma FewerApart(w: World, v: World, k: Key, pace: Option<Policy>)
    requires Apart(w, k, pace) && (k in v.m) == (k in w.m) && (k in w.m ==> v.m[k] == w.m[k])
    requires forall i :: Counts(v, i, k, pace) ==> Counts(w, i, k, pace) && v.running[i] == w.running[i]
    ensures Apart(v, k, pace)
  {
    hide Counts, Within;
  }

  /** One more handler, on a new attempt. */
  lemma OneMoreApart(w: World, v: World, k: Key, pace: Option<Policy>, h: nat)
    requires Apart(w, k, pace) && k in v.m && v.m[k].response.None? && Within(v.m[k].attempt, pace)
    requires k in w.m ==> v.m[k].attempt == w.m[k].attempt + 1
    requires k !in w.m ==> v.m[k].attempt == 1
    requires h !in w.running && v.running == w.running[h := Running(k, v.m[k].attempt)]
    ensures Apart(v, k, pace)
  {
    assert forall i :: Counts(v, i, k, pace) && i != h ==> Counts(w, i, k, pace) && v.running[i] == w.running[i];
    assert v.running[h].attempt == v.m[k].attempt;
    hide Counts, Within;
  }

  lemma ArriveApart(w: World, s: Step, k: Key, pace: Option<Policy>)
    requires Apart(w, k, pace) && InTime(w, s, k) && s.Arrive? && Paced(w, s, k, pace)
    ensures Apart(Next(w, s), k, pace)
  {
    ArrivalIs(w, s, k);
    hide Next, Within, InTime, Apart;
    var v := Next(w, s);
    if s.k == k && v.running != w.running {
      OneMoreApart(w, v, k, pace, s.handler);
    } else {
      assert (k in v.m) == (k in w.m) && (k in w.m ==> v.m[k] == w.m[k]);
      FewerApart(w, v, k, pace);
    }
  }

  lemma ArriveDecided(w: World, s: Step, k: Key)
    requires Decided(w, k) && InTime(w, s, k) && s.Arrive?
    ensures Decided(Next(w, s), k)
  {
    hide AllAnswers, StoredFor;
    var (m, rec, outcome) := Claimed(w.m, s.k, s.fp, s.now, s.policy);
    var answer := AnswerOf(w.m, k);
    assert AnswerOf(m, k) == answer;
    if s.handler !in w.running && outcome != Fresh {
      AnswersAfter(w.replies, if outcome == Replay then Answered(s.k, rec.response.value, true) else Refused(s.k), k, answer, answer);
    }
  }

  lemma FinishApart(w: World, s: Step, k: Key, pace: Option<Policy>)
    requires Apart(w, k, pace) && s.Finish? && s.handler in w.running
    ensures Apart(Next(w, s), k, pace)
  {
    hide Within;
    var r, v := w.running[s.handler], Next(w, s);
    assert forall i :: Counts(v, i, k, pace) ==> Counts(w, i, k, pace) && v.running[i] == w.running[i] && i != s.handler;
    assert (k in v.m) == (k in w.m) && (k in w.m ==> v.m[k].attempt == w.m[k].attempt);
    if k in w.m && v.m[k].response != w.m[k].response {
      assert r == Running(k, w.m[k].attempt) && Counts(w, s.handler, k, pace);
    }
  }

  lemma StoredAppends(stored: seq<(Key, Response)>, x: (Key, Response), k: Key)
    ensures StoredFor(stored + [x], k) == if x.0 == k then StoredFor(stored, k) + [x.1] else StoredFor(stored, k)
  {
    assert (stored + [x])[..|stored|] == stored;
  }

  /** Of a handler that counts, the completion stores its answer unless the attempt is over. */
  lemma FinishAnswers(w: World, s: Step, k: Key, pace: Option<Policy>)
    requires Fits(w, k, pace) && s.Finish? && s.handler in w.running
    ensures var r, v := w.running[s.handler], Next(w, s);
      && (v.m != w.m && r.k == k ==> AnswerOf(w.m, k).None? && AnswerOf(v.m, k) == Some(s.resp))
      && (v.m == w.m || r.k != k ==> AnswerOf(v.m, k) == AnswerOf(w.m, k))
      && |v.replies| == |w.replies| + 1 && v.replies[..|w.replies|] == w.replies
      && (v.replies[|w.replies|].Answered? && v.replies[|w.replies|].k == k ==> AnswerOf(v.m, k) == Some(v.replies[|w.replies|].resp))
  {
    hide AllAnswers, StoredFor, Reaches;
    var r := w.running[s.handler];
    assert r.k == k && (k in w.m ==> w.m[k].attempt == r.attempt) ==> Counts(w, s.handler, k, pace);
  }

  lemma FinishDecided(w: World, s: Step, k: Key, pace: Option<Policy>)
    requires Fits(w, k, pace) && s.Finish? && s.handler in w.running
    ensures Decided(Next(w, s), k)
  {
    FinishAnswers(w, s, k, pace);
    StoredAppends(w.stored, (w.running[s.handler].k, s.resp), k);
    var v := Next(w, s);
    assert v.stored == if v.m != w.m then w.stored + [(w.running[s.handler].k, s.resp)] else w.stored;
    hide Next, Apart, StoredFor, AnswerOf, AllAnswers;
    assert v.replies == w.replies + [v.replies[|w.replies|]];
    AnswersAfter(w.replies, v.replies[|w.replies|], k, AnswerOf(w.m, k), AnswerOf(v.m, k));
  }

  lemma SweepKeeps(w: World, s: Step, k: Key, pace: Option<Policy>)
    requires Fits(w, k, pace) && InTime(w, s, k) && s.Sweep?
    ensures Fits(Next(w, s), k, pace)
  {
    hide Within, AllAnswers, StoredFor;
    var v := Next(w, s);
    assert forall i :: Counts(v, i, k, pace) ==> Counts(w, i, k, pace);
  }

  lemma StepKeeps(w: World, s: Step, k: Key, pace: Option<Policy>)
    requires Fits(w, k, pace) && InTime(w, s, k) && Paced(w, s, k, pace)
    ensures Fits(Next(w, s), k, pace)
  {
    hide Apart, Decided, Paced, InTime;
    if s.Arrive? {
      ArriveApart(w, s, k, pace);
      ArriveDecided(w, s, k);
    } else if s.Sweep? {
      SweepKeeps(w, s, k, pace);
    } else if s.handler in w.running {
      FinishApart(w, s, k, pace);
      FinishDecided(w, s, k, pace);
    }
  }

  /** Over every interleaving of handlers, lease takeovers and sweeps, until k's record expires:
      at most one answer is ever stored for k, and every answer for k that a handler sends out,
      produced or replayed, is that one. */
  lemma {:induction false} OneAnswer(steps: seq<Step>, k: Key)
    requires NeverExpired(steps, k)
    ensures Fits(Run(steps), k, None)
  {
    if steps != [] {
      var before, s := steps[..|steps| - 1], steps[|steps| - 1];
      OneAnswer(before, k);
      var w := Run(before);
      hide RunFrom, Fits, Next;
      StepKeeps(w, s, k, None);
    }
  }

  /** So no two different answers for one key ever leave. */
  lemma AnswersAgree(steps: seq<Step>, k: Key, i: nat, j: nat)
    requires NeverExpired(steps, k) && i < |Run(steps).replies| && j < |Run(steps).replies|
    requires var r := Run(steps).replies; r[i].Answered? && r[j].Answered? && r[i].k == k && r[j].k == k
    ensures Run(steps).replies[i].resp == Run(steps).replies[j].resp
    ensures |StoredFor(Run(steps).stored, k)| == 1
  {
    OneAnswer(steps, k);
  }
}
