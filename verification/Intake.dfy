/** Tracing a batch back to the lines of the file it came from. */
module Intake {
  import opened Bytes
  import opened Bulk

  /** lines[i] is the line that accepted payout i was read from. */
  datatype Run = Run(accepted: seq<Payout>, lines: seq<nat>)

  datatype Error = PlanMismatch | NoSuchBatch | Panicked

  function SameMerchants(batch: seq<Payout>, accepted: seq<Payout>): bool {
    |batch| == |accepted| && forall i :: 0 <= i < |batch| ==> batch[i].merchant == accepted[i].merchant
  }

  /** How many of n payouts from a place on the run accepted at all: all, of a run as it is read. */
  function Known(r: Run, at: nat, n: nat): (m: nat)
    ensures m <= n && (m > 0 ==> at + m <= |r.accepted|) && (m < n ==> at + m >= |r.accepted|)
  {
    if at >= |r.accepted| then 0 else if at + n > |r.accepted| then |r.accepted| - at else n
  }

  /** The lines of the payouts from a place on, if they are the batch's; past the accepted payouts there is
      nothing to compare with. */
  function TracedAt(r: Run, at: nat, batch: seq<Payout>): Result<seq<nat>, Error> {
    var known := Known(r, at, |batch|);
    if at + |batch| > |r.lines| then Err(PlanMismatch)
    else if known > 0 && !SameMerchants(batch[..known], r.accepted[at..at + known]) then Err(PlanMismatch)
    else if known < |batch| then Err(Panicked)
    else Ok(r.lines[at..at + |batch|])
  }

  /** What tracing the batch at this place answers. */
  function Traced(r: Run, batches: seq<Batch>, k: nat): Result<seq<nat>, Error>
    requires k < |batches|
  {
    TracedAt(r, |Items(batches[..k])|, batches[k].items)
  }

  /** Payout i of a batch that starts at this place went to the merchant of the payout accepted there. */
  predicate Fits(r: Run, at: nat, batch: seq<Payout>, i: nat) {
    i < |batch| && at + i < |r.accepted| && batch[i].merchant == r.accepted[at + i].merchant
  }

  /** A batch traces to its lines exactly when the run has a line for each of its payouts and accepted each
      for the same merchant. Where the run has the lines but stops accepting inside the batch, and all it
      accepted fits, there is nothing left to compare with; everything else is another run's plan. */
  lemma TraceSays(r: Run, at: nat, batch: seq<Payout>)
    ensures var t, end := TracedAt(r, at, batch), at + |batch|;
      && (t.Ok? <==> end <= |r.lines| && forall i :: 0 <= i < |batch| ==> Fits(r, at, batch, i))
      && (t == Err(Panicked) <==> end <= |r.lines| && end > |r.accepted| && batch != [] && forall i :: 0 <= i < |batch| && at + i < |r.accepted| ==> Fits(r, at, batch, i))
      && (t.Ok? ==> |t.value| == |batch| && forall i :: 0 <= i < |batch| ==> t.value[i] == r.lines[at + i])
      && (t.Err? ==> t.error == Panicked || t.error == PlanMismatch)
  {
    var known := Known(r, at, |batch|);
    if known > 0 {
      var ours, theirs := batch[..known], r.accepted[at..at + known];
      forall i | 0 <= i < known ensures Fits(r, at, batch, i) <==> ours[i].merchant == theirs[i].merchant {
        assert ours[i] == batch[i] && theirs[i] == r.accepted[at + i];
      }
      assert SameMerchants(ours, theirs) ==> forall i :: 0 <= i < known ==> Fits(r, at, batch, i);
    }
    if known < |batch| {
      assert !Fits(r, at, batch, known);
    }
  }

  method LinesOf(r: Run, at: nat, batch: seq<Payout>) returns (t: Result<seq<nat>, Error>)
    ensures t == TracedAt(r, at, batch)
  {
    if at + |batch| > |r.lines| {
      return Err(PlanMismatch);
    }
    var lines: seq<nat> := [];
    ghost var known := Known(r, at, |batch|);
    for i := 0 to |batch|
      invariant i <= known && lines == r.lines[at..at + i]
      invariant forall k :: 0 <= k < i ==> batch[k].merchant == r.accepted[at + k].merchant
    {
      if at + i >= |r.accepted| {
        return Err(Panicked);
      }
      if batch[i].merchant != r.accepted[at + i].merchant {
        assert batch[..known][i] == batch[i] && r.accepted[at..at + known][i] == r.accepted[at + i];
        return Err(PlanMismatch);
      }
      lines := lines + [r.lines[at + i]];
    }
    return Ok(lines);
  }

  /** Batches count from one. */
  method Trace(r: Run, p: Plan, index: int) returns (t: Result<seq<nat>, Error>)
    ensures p.payouts != |r.accepted| ==> t == Err(PlanMismatch)
    ensures p.payouts == |r.accepted| && (index < 1 || index > |p.batches|) ==> t == Err(NoSuchBatch)
    ensures p.payouts == |r.accepted| && 1 <= index <= |p.batches| ==> t == Traced(r, p.batches, index - 1)
  {
    hide TracedAt;
    if p.payouts != |r.accepted| {
      return Err(PlanMismatch);
    }
    if index < 1 || index > |p.batches| {
      return Err(NoSuchBatch);
    }
    var at := 0;
    for i := 0 to index - 1
      invariant at == |Items(p.batches[..i])|
    {
      assert p.batches[..i + 1][..i] == p.batches[..i];
      at := at + |p.batches[i].items|;
    }
    t := LinesOf(r, at, p.batches[index - 1].items);
  }

  lemma {:induction false} ItemsPrefix(batches: seq<Batch>, k: nat)
    requires k <= |batches|
    ensures Items(batches[..k]) <= Items(batches)
    decreases |batches| - k
  {
    if k < |batches| {
      assert batches[..k + 1][..k] == batches[..k];
      ItemsPrefix(batches, k + 1);
    } else {
      assert batches[..k] == batches;
    }
  }

  /** Payouts that are the run's own trace to their own lines. */
  lemma OwnLines(r: Run, at: nat, batch: seq<Payout>)
    requires |r.lines| == |r.accepted| && at + |batch| <= |r.accepted| && r.accepted[at..at + |batch|] == batch
    ensures TracedAt(r, at, batch) == Ok(r.lines[at..at + |batch|])
  {
    assert batch[..|batch|] == batch;
  }

  /** Every batch of a plan made of the run's own payouts traces to its own lines. */
  lemma TracesItself(r: Run, batches: seq<Batch>, k: nat)
    requires |r.lines| == |r.accepted| && Items(batches) == r.accepted && k < |batches|
    ensures |Items(batches[..k])| <= |Items(batches[..k + 1])| <= |r.lines|
    ensures Traced(r, batches, k) == Ok(r.lines[|Items(batches[..k])|..|Items(batches[..k + 1])|])
  {
    hide TracedAt;
    assert batches[..k + 1][..k] == batches[..k];
    ItemsPrefix(batches, k + 1);
    var at, n := |Items(batches[..k])|, |batches[k].items|;
    assert Items(batches[..k + 1]) == r.accepted[..at + n];
    assert r.accepted[at..at + n] == batches[k].items;
    OwnLines(r, at, batches[k].items);
  }

  /** The lines of the first k batches' traces, end to end. */
  function AllLines(r: Run, batches: seq<Batch>, k: nat): seq<nat>
    requires |r.lines| == |r.accepted| && k <= |batches|
  {
    if k == 0 then []
    else AllLines(r, batches, k - 1) + (if Traced(r, batches, k - 1).Ok? then Traced(r, batches, k - 1).value else [])
  }

  lemma {:induction false} FirstLines(r: Run, batches: seq<Batch>, k: nat)
    requires |r.lines| == |r.accepted| && Items(batches) == r.accepted && k <= |batches|
    ensures |Items(batches[..k])| <= |r.lines| && AllLines(r, batches, k) == r.lines[..|Items(batches[..k])|]
  {
    if k > 0 {
      FirstLines(r, batches, k - 1);
      TracesItself(r, batches, k - 1);
      assert batches[..k][..k - 1] == batches[..k - 1];
      hide Traced;
    }
  }

  /** However the run was packed, the lines of all its batches are the run's lines, each once
      and in order. */
  lemma TracesCoverTheRun(r: Run, l: Limits, p: Plan)
    requires |r.lines| == |r.accepted| && IsPlan(l, r.accepted, p)
    ensures p.payouts == |r.accepted| && forall k :: 0 <= k < |p.batches| ==> Traced(r, p.batches, k).Ok?
    ensures AllLines(r, p.batches, |p.batches|) == r.lines
  {
    forall k | 0 <= k < |p.batches| ensures Traced(r, p.batches, k).Ok? {
      TracesItself(r, p.batches, k);
    }
    FirstLines(r, p.batches, |p.batches|);
    assert p.batches[..|p.batches|] == p.batches;
  }
}
