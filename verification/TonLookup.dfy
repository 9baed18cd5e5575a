/** What the listener is told about a payment on TON, and why it may be believed. */
module TonLookup {
  import opened Bytes
  import opened CellBuilder
  import opened TonReader
  import opened TonTrace
  import opened Finality

  datatype Sighting = Sighting(seen: Observation, received: Option<nat>)

  /** The highest block that references a step seen so far. */
  function HighestOf(steps: seq<Step>): nat {
    if steps == [] then 0
    else
      var rest, last := HighestOf(steps[..|steps| - 1]), steps[|steps| - 1].tx;
      if last.Some? && last.value.masterchain > rest then last.value.masterchain else rest
  }

  /** A trace as an observation: included once the wallet accepted, placed where its last step
      was referenced, final with its terminal, succeeded when delivered. */
  function Seen(head: nat, tr: Trace): Sighting {
    if tr.outcome == NotAccepted then Sighting(Observation(false, 0, head, false, false), None)
    else if tr.terminal.None? then Sighting(Observation(true, HighestOf(tr.steps), head, false, false), None)
    else
      var at := tr.terminal.value.masterchain;
      Sighting(Observation(true, at, head, at != 0, tr.outcome == Delivered), if tr.outcome == Delivered then tr.received else None)
  }

  /** external is the request's hash as the intent's text gives it, if it does. */
  method Lookup(head: nat, v: seq<View>, external: Option<Digest>, ref: Digest) returns (r: Result<Sighting, TraceError>)
    requires |v| == 4
    ensures external.None? ==> r == Err(BadHash)
    ensures external.Some? ==> r == match TraceOf(v, external.value, ref) case Ok(tr) => Ok(Seen(head, tr)) case Err(e) => Err(e)
  {
    if external.None? {
      return Err(BadHash);
    }
    var followed := Follow(v, external.value, ref);
    hide TraceOf;
    if followed.Err? {
      return Err(followed.error);
    }
    var tr := followed.value;
    var s := Sighting(Observation(false, 0, head, false, false), None);
    if tr.outcome == NotAccepted {
      return Ok(s);
    }
    var height := 0;
    for i := 0 to |tr.steps|
      invariant height == HighestOf(tr.steps[..i])
    {
      assert tr.steps[..i + 1][..i] == tr.steps[..i];
      var tx := tr.steps[i].tx;
      if tx.Some? && tx.value.masterchain > height {
        height := tx.value.masterchain;
      }
    }
    assert tr.steps[..|tr.steps|] == tr.steps;
    if tr.terminal.None? {
      return Ok(Sighting(Observation(true, height, head, false, false), None));
    }
    height := tr.terminal.value.masterchain;
    var succeeded := tr.outcome == Delivered;
    return Ok(Sighting(Observation(true, height, head, height != 0, succeeded), if succeeded then tr.received else None));
  }

  /** Step i has been handled, at this height. */
  predicate HandledAt(steps: seq<Step>, i: int, height: int) {
    0 <= i < |steps| && steps[i].tx.Some? && steps[i].tx.value.masterchain == height
  }

  /** The height told of a payment in flight is that of a step handled so far, 0 if there is none, and no
      step handled so far is higher. */
  lemma {:induction false} HighestOfSteps(steps: seq<Step>)
    ensures forall i, height :: HandledAt(steps, i, height) ==> height <= HighestOf(steps)
    ensures if forall i :: 0 <= i < |steps| ==> steps[i].tx.None? then HighestOf(steps) == 0
            else exists i :: HandledAt(steps, i, HighestOf(steps))
  {
    if steps != [] {
      var before, last := steps[..|steps| - 1], steps[|steps| - 1];
      HighestOfSteps(before);
      forall i, height | HandledAt(steps, i, height) ensures height <= HighestOf(steps) {
        assert i < |before| ==> HandledAt(before, i, height);
      }
      if i :| HandledAt(before, i, HighestOf(before)) {
        assert HandledAt(steps, i, HighestOf(before));
      }
      assert last.tx.Some? ==> HandledAt(steps, |steps| - 1, last.tx.value.masterchain);
    }
  }

  /** A payment once included is never reported missing again, and what was reported
      irreversible is reported the same ever after. */
  lemma LookupsAgree(head: nat, v: seq<View>, later: nat, w: seq<View>, external: Digest, ref: Digest)
    requires head <= later && GrowsTo(v, w) && TraceOf(v, external, ref).Ok? && TraceOf(w, external, ref).Ok?
    ensures var a, b := Seen(head, TraceOf(v, external, ref).value), Seen(later, TraceOf(w, external, ref).value);
      && (a.seen.included ==> b.seen.included) && Settled(a.seen, b.seen) && (a.seen.final ==> b.received == a.received)
  {
    TraceOnlyMovesOn(v, w, external, ref);
    hide TraceOf;
  }

  /** So once the policy called a payment final or failed, no later look overturns it. */
  lemma VerdictStands(p: Policy, head: nat, v: seq<View>, age: int, later: nat, w: seq<View>, older: int, external: Digest, ref: Digest)
    requires p.requireMarker && head <= later && GrowsTo(v, w) && TraceOf(v, external, ref).Ok? && TraceOf(w, external, ref).Ok?
    requires var verdict := Judge(p, Seen(head, TraceOf(v, external, ref).value).seen, age); verdict == Final || verdict == Failed
    ensures Judge(p, Seen(later, TraceOf(w, external, ref).value).seen, older) == Judge(p, Seen(head, TraceOf(v, external, ref).value).seen, age)
  {
    LookupsAgree(head, v, later, w, external, ref);
    hide TraceOf, Seen;
    VerdictsLast(p, Seen(head, TraceOf(v, external, ref).value).seen, age, Seen(later, TraceOf(w, external, ref).value).seen, older);
  }

  /** What was passed as final or failed on a trace stands on every later one. */
  ghost predicate Stands(p: Policy) {
    forall tr: Trace, later: Trace, head: nat, higher: nat, age: int, older: int ::
      Progress(tr, later) && head <= higher ==> StandsAt(p, tr, later, head, higher, age, older)
  }

  ghost predicate StandsAt(p: Policy, tr: Trace, later: Trace, head: nat, higher: nat, age: int, older: int) {
    var verdict := Judge(p, Seen(head, tr).seen, age);
    verdict == Final || verdict == Failed ==> Judge(p, Seen(higher, later).seen, older) == verdict
  }

  /** Without the marker a payment still in flight is judged failed, and final later on, however many
      confirmations are asked for. */
  lemma WithoutMarkerVerdictsChange(p: Policy, wallet: Tx, theirs: Tx)
    requires !p.requireMarker && wallet.masterchain == 7 && theirs.masterchain == 9
    ensures var early := Trace([Step("wallet", "external", Some(wallet))], InFlight, None, None);
      var late := Trace(early.steps, Delivered, Some(theirs), Some(5));
      && Progress(early, late) && Judge(p, Seen(7 + p.confirmations, early).seen, 0) == Failed
      && Judge(p, Seen(9 + p.confirmations, late).seen, 0) == Final
  {
    var steps := [Step("wallet", "external", Some(wallet))];
    assert steps[..0] == [] && HighestOf(steps) == 7;
  }

  /** Of all policies, those that ask for the chain's marker, as TON's does, are the ones whose verdicts stand. */
  lemma MarkerDecides(p: Policy)
    ensures Stands(p) <==> p.requireMarker
    ensures p == TON ==> Stands(p)
  {
    if p.requireMarker {
      forall tr: Trace, later: Trace, head: nat, higher: nat, age: int, older: int | Progress(tr, later) && head <= higher
        ensures StandsAt(p, tr, later, head, higher, age, older)
      {
        var a, b := Seen(head, tr).seen, Seen(higher, later).seen;
        assert Settled(a, b);
        if Judge(p, a, age) == Final || Judge(p, a, age) == Failed {
          VerdictsLast(p, a, age, b, older);
        }
      }
    } else {
      var wallet := Tx(NOWHERE, ZERO, Message(ZERO, NOWHERE, NOWHERE, 0, false, false, None), [], false, 0, 7);
      var theirs := wallet.(masterchain := 9);
      WithoutMarkerVerdictsChange(p, wallet, theirs);
      var early := Trace([Step("wallet", "external", Some(wallet))], InFlight, None, None);
      var late := Trace(early.steps, Delivered, Some(theirs), Some(5));
      assert !StandsAt(p, early, late, 7 + p.confirmations, 9 + p.confirmations, 0, 0);
    }
  }
}
