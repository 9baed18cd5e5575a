/** When what the chain said about a transaction counts as irreversible. */
module Finality {

  datatype Observation = Observation(included: bool, height: nat, head: nat, final: bool, succeeded: bool)

  /** Durations in any unit; a lostAfter of zero waits forever. */
  datatype Policy = Policy(requireMarker: bool, confirmations: nat, lostAfter: int)

  datatype Verdict = Pending | Final | Failed | Lost

  function Depth(o: Observation): nat {
    if !o.included || o.head < o.height then 0 else o.head - o.height + 1
  }

  function Judge(p: Policy, o: Observation, age: int): Verdict {
    if !o.included then
      if p.lostAfter > 0 && age >= p.lostAfter then Lost else Pending
    else if p.confirmations > 0 && Depth(o) < p.confirmations then Pending
    else if p.requireMarker && !o.final then Pending
    else if !o.succeeded then Failed
    else Final
  }

  const TON := Policy(true, 0, 120)

  // ---- what the verdicts mean ----

  /** The heights from the transaction's own to the head, both included. */
  ghost function Heights(o: Observation): set<nat> {
    set h: nat | h <= o.head && Spans(o, h)
  }

  predicate Spans(o: Observation, h: nat) { o.height <= h <= o.head }

  /** In a block, under the chain's own marker if that is asked for, and at the height asked for. */
  ghost predicate Irreversible(p: Policy, o: Observation) {
    o.included && (p.requireMarker ==> o.final) && |Heights(o)| >= p.confirmations
  }

  /** In no block for as long as the policy waits, if it does not wait forever. */
  predicate Missing(p: Policy, o: Observation, age: int) {
    !o.included && 0 < p.lostAfter <= age
  }

  /** An included transaction is as deep as there are heights on it, its own counted. */
  lemma {:induction false} DepthCounts(o: Observation)
    requires o.included
    ensures Depth(o) == |Heights(o)|
    decreases o.head
  {
    if o.head < o.height {
      assert Heights(o) == {};
    } else if o.head == o.height {
      assert Heights(o) == {o.height};
    } else {
      var lower := o.(head := o.head - 1);
      DepthCounts(lower);
      assert Heights(o) == Heights(lower) + {o.head};
    }
  }

  /** Lost is missing for too long; failed and final are irreversible, told apart by how it ended. */
  lemma JudgeSays(p: Policy, o: Observation, age: int)
    ensures Judge(p, o, age) == Lost <==> Missing(p, o, age)
    ensures Judge(p, o, age) == Failed <==> Irreversible(p, o) && !o.succeeded
    ensures Judge(p, o, age) == Final <==> Irreversible(p, o) && o.succeeded
  {
    if o.included {
      DepthCounts(o);
    }
  }

  /** A later sighting of something irreversible: same place, same end, a head no lower. */
  predicate Settled(a: Observation, b: Observation) {
    a.included && a.final ==>
      b.included && b.final && b.height == a.height && b.succeeded == a.succeeded && b.head >= a.head
  }

  /** With the chain's own marker required, a final or failed verdict is passed only on what is
      irreversible, so no later sighting at any age changes it. */
  lemma VerdictsLast(p: Policy, a: Observation, age: int, b: Observation, later: int)
    requires p.requireMarker && Settled(a, b)
    requires Judge(p, a, age) == Final || Judge(p, a, age) == Failed
    ensures Judge(p, b, later) == Judge(p, a, age)
  {
  }
}
