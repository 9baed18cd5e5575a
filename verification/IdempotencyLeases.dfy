/** When a request is let in, replayed or refused, said in the arrivals and sweeps that came before it. */
module IdempotencyLeases {
  import opened Bytes
  import opened Idempotency

  /** This arrival is handed to its handler. */
  predicate Granted(w: World, s: Step) {
    s.Arrive? && s.handler !in w.running && s.handler in Next(w, s).running
  }

  /** ... under a record of its own. */
  predicate Opens(w: World, s: Step) {
    Granted(w, s) && s.k in Next(w, s).m && Next(w, s).m[s.k].attempt == 1
  }

  /** The arrival that the key's record was last handed out to. */
  function LastGrant(steps: seq<Step>, k: Key): Option<Step> {
    if steps == [] then None
    else
      var before, s := steps[..|steps| - 1], steps[|steps| - 1];
      if s.Arrive? && s.k == k && Granted(Run(before), s) then Some(s) else LastGrant(before, k)
  }

  /** The arrival that opened the key's record, unless a sweep took it away since. */
  function OpenedBy(steps: seq<Step>, k: Key): Option<Step> {
    if steps == [] then None
    else
      var before, s := steps[..|steps| - 1], steps[|steps| - 1];
      if s.Arrive? && s.k == k && Opens(Run(before), s) then Some(s)
      else
        var o := OpenedBy(before, k);
        if s.Sweep? && o.Some? && o.value.Arrive? && o.value.now + o.value.policy.ttl <= s.now then None else o
  }

  /** The record is its opener's, and leased to whom it was last handed out to. */
  predicate RecordSays(steps: seq<Step>, k: Key) {
    var m, o, g := Run(steps).m, OpenedBy(steps, k), LastGrant(steps, k);
    && (k in m <==> o.Some?)
    && (o.Some? ==>
      && g.Some? && o.value.Arrive? && g.value.Arrive? && m[k].attempt > 0
      && m[k].fingerprint == o.value.fp && m[k].expiresAt == o.value.now + o.value.policy.ttl
      && m[k].leaseUntil == g.value.now + g.value.policy.lease)
  }

  lemma StepSays(steps: seq<Step>, k: Key)
    requires steps != [] && RecordSays(steps[..|steps| - 1], k)
    ensures RecordSays(steps, k)
  {
    var before, s := steps[..|steps| - 1], steps[|steps| - 1];
    assert Run(steps) == Next(Run(before), s);
    var w := Run(before);
    hide RunFrom;
  }

  lemma {:induction false} RecordsSay(steps: seq<Step>, k: Key)
    ensures RecordSays(steps, k)
  {
    if steps != [] {
      RecordsSay(steps[..|steps| - 1], k);
      hide RecordSays;
      StepSays(steps, k);
    }
  }

  /** A record of this key was opened, and has not run out by then. */
  predicate Live(steps: seq<Step>, k: Key, now: Time) {
    var o := OpenedBy(steps, k);
    o.Some? && o.value.Arrive? && now < o.value.now + o.value.policy.ttl
  }

  /** The attempt last let in may still be at work. */
  predicate Leased(steps: seq<Step>, k: Key, now: Time) {
    var g := LastGrant(steps, k);
    g.Some? && g.value.Arrive? && now < g.value.now + g.value.policy.lease
  }

  /** The request is the one that opened the record. */
  predicate Same(steps: seq<Step>, k: Key, fp: Digest) {
    var o := OpenedBy(steps, k);
    o.Some? && o.value.Arrive? && o.value.fp == fp
  }

  /** Over every interleaving, an arrival at a free handler is let in exactly when no record of its key is
      live, or when it is the live one's request again, unanswered, and nobody's lease is running. It gets
      the stored answer exactly when it is that request and there is one. Every other is refused. */
  lemma ArrivalsAre(steps: seq<Step>, s: Step)
    requires s.Arrive? && s.handler !in Run(steps).running
    ensures var w, w' := Run(steps), Next(Run(steps), s);
      var again, answer := Live(steps, s.k, s.now) && Same(steps, s.k, s.fp), AnswerOf(w.m, s.k);
      && (Granted(w, s) <==> !Live(steps, s.k, s.now) || (again && answer.None? && !Leased(steps, s.k, s.now)))
      && w'.replies == w.replies + (if Granted(w, s) then [] else if again && answer.Some? then [Answered(s.k, answer.value, true)] else [Refused(s.k)])
      && (!Granted(w, s) ==> w'.m == w.m && w'.running == w.running)
      && w'.stored == w.stored
  {
    RecordsSay(steps, s.k);
    hide RunFrom, OpenedBy, LastGrant;
  }

  /** A handler that ends while the record is still at its attempt and unanswered stores its answer; its
      request gets that answer unless a later attempt has taken the record over, and nothing else moves. */
  lemma FinishesAre(w: World, i: nat, resp: Response)
    requires i in w.running
    ensures var w', r := Next(w, Finish(i, resp)), w.running[i];
      var own, taken := r.k in w.m && w.m[r.k].attempt == r.attempt, r.k in w.m && w.m[r.k].attempt != r.attempt;
      && w'.running == w.running - {i}
      && w'.replies == w.replies + [if taken then Refused(r.k) else Answered(r.k, resp, false)]
      && (if own && w.m[r.k].response.None?
          then w'.m == w.m[r.k := w.m[r.k].(response := Some(resp))] && w'.stored == w.stored + [(r.k, resp)]
          else w'.m == w.m && w'.stored == w.stored)
  {
    var r := w.running[i];
    if r.k in w.m && w.m[r.k].attempt == r.attempt && w.m[r.k].response.None? {
      assert w.m[r.k := w.m[r.k].(response := Some(resp))][r.k].response.Some?;
    }
  }
}
