/** Following one payment hop by hop, and what a reader of the chain may conclude from it. */
module TonTrace {
  import opened Bytes
  import opened Cells
  import opened CellBuilder
  import opened CellReader
  import opened TonReader

  const OP_INTERNAL := 0x178d4519

  /** One account's handling of one message; masterchain 0 means no block references it yet. */
  datatype Tx = Tx(account: Address, hash: Digest, incoming: Message, out: seq<Message>, aborted: bool, exitCode: int, masterchain: nat)

  /** The transactions a node knows, by the message each handled. */
  type View = map<Digest, Tx>

  datatype Outcome = NotAccepted | InFlight | Delivered | Bounced | Rejected

  datatype Step = Step(role: string, op: string, tx: Option<Tx>)

  datatype Trace = Trace(steps: seq<Step>, outcome: Outcome, terminal: Option<Tx>, received: Option<nat>)

  datatype TraceError = NotOurRequest | BadBody | BadHash

  // ---- bodies and messages ----

  datatype Internal = Internal(amount: nat, from: Address, ref: Option<Digest>)

  function ReadInternal(body: Cell): Option<Internal> {
    var (op, r0) := ReadUint(Begun(body), 32, 0);
    if op != OP_INTERNAL then None
    else
      var r1 := ReadUint(r0, 64, 0).1;
      var (amount, r2) := ReadCoins(r1);
      var (from, r3) := ReadAddress(r2);
      var r4 := ReadAddress(r3).1;
      var r5 := ReadCoins(r4).1;
      if PastForward(r5).short then None else Some(Internal(amount, from, ForwardRef(r5)))
  }

  method InternalOf(body: Cell) returns (t: Option<Internal>)
    ensures t == ReadInternal(body)
  {
    hide ReadUint, ReadCoins, ReadAddress, ForwardRef, PastForward, Content;
    var s := new Slice(body);
    var op := s.Uint(32);
    if op != OP_INTERNAL {
      return None;
    }
    var queryId := s.Uint(64);
    var amount := s.Coins();
    var from := s.Address();
    var response := s.Address();
    var forward := s.Coins();
    var ref := ReadForwardRef(s);
    if s.err {
      return None;
    }
    return Some(Internal(amount, from, ref));
  }

  function OpOf(body: Cell): nat { ReadUint(Begun(body), 32, 0).0 }

  predicate HasOp(m: Message, op: nat) {
    m.body.Some? && !m.bounced && OpOf(m.body.value) == op
  }

  /** The first message of a list with a property, or the list's length. */
  function First(out: seq<Message>, p: Message -> bool): (i: nat)
    ensures i <= |out| && (i < |out| ==> p(out[i])) && forall k :: 0 <= k < i ==> !p(out[k])
  {
    if out == [] || p(out[0]) then 0 else 1 + First(out[1..], p)
  }

  function Bearing(ref: Digest): Message -> bool { (m: Message) => CarriesRef(m, ref) }

  function WithOp(op: nat): Message -> bool { (m: Message) => HasOp(m, op) }

  /** The last bounced message, -1 when there is none. */
  function LastBounced(out: seq<Message>): (i: int)
    ensures -1 <= i < |out| && (i >= 0 ==> out[i].bounced) && forall k :: i < k < |out| ==> !out[k].bounced
  {
    if out == [] then -1
    else if out[|out| - 1].bounced then |out| - 1
    else LastBounced(out[..|out| - 1])
  }

  lemma FirstIs(out: seq<Message>, p: Message -> bool, i: nat)
    requires i <= |out| && (i < |out| ==> p(out[i])) && forall k :: 0 <= k < i ==> !p(out[k])
    ensures First(out, p) == i
  {
    hide First;
  }

  /** What reading a body's first 32 bits tells. */
  lemma OpTells(m: Message, op: nat)
    ensures WithOp(op)(m) <==> m.body.Some? && !m.bounced && ReadUint(Begun(m.body.value), 32, 0).0 == op
  {
    hide ReadUint, Content;
  }

  method FindOp(out: seq<Message>, op: nat) returns (i: nat)
    ensures i == First(out, WithOp(op))
  {
    hide ReadUint, Content, WithOp, First;
    for k := 0 to |out|
      invariant forall j :: 0 <= j < k ==> !WithOp(op)(out[j])
    {
      OpTells(out[k], op);
      if out[k].body.Some? && !out[k].bounced {
        var s := new Slice(out[k].body.value);
        var got := s.Uint(32);
        if got == op {
          FirstIs(out, WithOp(op), k);
          return k;
        }
      }
    }
    FirstIs(out, WithOp(op), |out|);
    return |out|;
  }

  // ---- the trace ----

  function Looked(v: View, hash: Digest): Option<Tx> {
    if hash in v then Some(v[hash]) else None
  }

  /** Where a failed message's trace ends: where its bounce lands, or with the failure itself
      when nothing was sent back. */
  function BouncedBack(v: View, steps: seq<Step>, failed: Tx, role: string, outcome: Outcome): Trace {
    var i := LastBounced(failed.out);
    if i < 0 then Trace(steps, outcome, Some(failed), None)
    else
      var landed := Looked(v, failed.out[i].hash);
      var more := steps + [Step(role, "bounced", landed)];
      if landed.None? then Trace(more, InFlight, None, None) else Trace(more, outcome, landed, None)
  }

  /** The trace read off four looks at the chain, one for each question asked. */
  function TraceOf(v: seq<View>, external: Digest, ref: Digest): Result<Trace, TraceError>
    requires |v| == 4
  {
    var wallet := Looked(v[0], external);
    if wallet.None? then Ok(Trace([], NotAccepted, None, None))
    else
      var t := First(wallet.value.out, Bearing(ref));
      if t == |wallet.value.out| then Err(NotOurRequest)
      else FromTransfer(v, [Step("wallet", "external", wallet)], wallet.value.out[t])
  }

  function FromTransfer(v: seq<View>, s: seq<Step>, transfer: Message): Result<Trace, TraceError>
    requires |v| == 4
  {
    var ours := Looked(v[1], transfer.hash);
    var s2 := s + [Step("our jetton wallet", "transfer", ours)];
    if ours.None? then Ok(Trace(s2, InFlight, None, None))
    else if ours.value.aborted then Ok(BouncedBack(v[2], s2, ours.value, "wallet", Rejected))
    else
      var k := First(ours.value.out, WithOp(OP_INTERNAL));
      if k == |ours.value.out| then Err(NotOurRequest)
      else FromInternal(v, s2, ours.value.out[k])
  }

  function FromInternal(v: seq<View>, s: seq<Step>, internal: Message): Result<Trace, TraceError>
    requires |v| == 4 && internal.body.Some?
  {
    var theirs := Looked(v[2], internal.hash);
    var s3 := s + [Step("merchant's jetton wallet", "internal_transfer", theirs)];
    if theirs.None? then Ok(Trace(s3, InFlight, None, None))
    else if theirs.value.aborted then Ok(BouncedBack(v[3], s3, theirs.value, "our jetton wallet", Bounced))
    else
      var body := ReadInternal(internal.body.value);
      if body.None? then Err(BadBody)
      else Ok(Trace(s3, Delivered, theirs, Some(body.value.amount)))
  }

  method BounceBack(v: View, tr: Trace, failed: Tx, role: string, outcome: Outcome) returns (r: Trace)
    requires tr.outcome == InFlight && tr.terminal.None? && tr.received.None?
    ensures r == BouncedBack(v, tr.steps, failed, role, outcome)
  {
    r := tr;
    var bounced := -1;
    for i := 0 to |failed.out|
      invariant bounced == LastBounced(failed.out[..i])
    {
      assert failed.out[..i + 1][..i] == failed.out[..i];
      if failed.out[i].bounced {
        bounced := i;
      }
    }
    assert failed.out[..|failed.out|] == failed.out;
    if bounced < 0 {
      return r.(outcome := outcome, terminal := Some(failed));
    }
    var landed := Looked(v, failed.out[bounced].hash);
    r := r.(steps := r.steps + [Step(role, "bounced", landed)]);
    if landed.None? {
      return;
    }
    r := r.(outcome := outcome, terminal := landed);
  }

  method Follow(v: seq<View>, external: Digest, ref: Digest) returns (r: Result<Trace, TraceError>)
    requires |v| == 4
    ensures r == TraceOf(v, external, ref)
  {
    hide First, CarriesRef, OpOf, ReadInternal, BouncedBack;
    var tr := Trace([], NotAccepted, None, None);
    var wallet := Looked(v[0], external);
    if wallet.None? {
      return Ok(tr);
    }
    tr := tr.(steps := [Step("wallet", "external", wallet)]);
    var found := FindTransfer(wallet.value.out, ref);
    FoundIsFirst(wallet.value.out, ref, found);
    if found.None? {
      return Err(NotOurRequest);
    }
    tr := tr.(outcome := InFlight);
    r := FollowTransfer(v, tr, wallet.value.out[found.value]);
  }

  method FollowTransfer(v: seq<View>, before: Trace, transfer: Message) returns (r: Result<Trace, TraceError>)
    requires |v| == 4 && before.outcome == InFlight && before.terminal.None? && before.received.None?
    ensures r == FromTransfer(v, before.steps, transfer)
  {
    hide First, OpOf, ReadInternal, BouncedBack;
    var ours := Looked(v[1], transfer.hash);
    var tr := before.(steps := before.steps + [Step("our jetton wallet", "transfer", ours)]);
    if ours.None? {
      return Ok(tr);
    }
    if ours.value.aborted {
      tr := BounceBack(v[2], tr, ours.value, "wallet", Rejected);
      return Ok(tr);
    }
    var k := FindOp(ours.value.out, OP_INTERNAL);
    if k == |ours.value.out| {
      return Err(NotOurRequest);
    }
    r := FollowInternal(v, tr, ours.value.out[k]);
  }

  method FollowInternal(v: seq<View>, before: Trace, internal: Message) returns (r: Result<Trace, TraceError>)
    requires |v| == 4 && before.outcome == InFlight && before.terminal.None? && before.received.None? && internal.body.Some?
    ensures r == FromInternal(v, before.steps, internal)
  {
    hide ReadInternal, BouncedBack;
    var theirs := Looked(v[2], internal.hash);
    var tr := before.(steps := before.steps + [Step("merchant's jetton wallet", "internal_transfer", theirs)]);
    if theirs.None? {
      return Ok(tr);
    }
    if theirs.value.aborted {
      tr := BounceBack(v[3], tr, theirs.value, "our jetton wallet", Bounced);
      return Ok(tr);
    }
    var body := InternalOf(internal.body.value);
    if body.None? {
      return Err(BadBody);
    }
    return Ok(tr.(outcome := Delivered, terminal := theirs, received := Some(body.value.amount)));
  }

  lemma FoundIsFirst(out: seq<Message>, ref: Digest, found: Option<nat>)
    requires IsFound(out, ref, found)
    ensures First(out, Bearing(ref)) == if found.Some? then found.value else |out|
  {
    hide CarriesRef;
  }

  // ---- a chain that only grows ----

  /** The same transaction, perhaps since referenced by a block. */
  predicate SameTx(a: Tx, b: Tx) {
    b == a.(masterchain := b.masterchain) && (a.masterchain != 0 ==> b.masterchain == a.masterchain)
  }

  ghost predicate Grows(v: View, w: View) {
    forall k :: k in v ==> k in w && SameTx(v[k], w[k])
  }

  ghost predicate GrowsTo(v: seq<View>, w: seq<View>) {
    |v| == 4 && |w| == 4 && forall i, j :: 0 <= i < 4 && 0 <= j < 4 ==> Grows(v[i], w[j])
  }

  predicate Ended(t: Trace) { t.outcome != NotAccepted && t.outcome != InFlight }

  /** From not accepted, to in flight, to one end that stays. */
  predicate Progress(t: Trace, u: Trace) {
    && (t.outcome != NotAccepted ==> u.outcome != NotAccepted)
    && (Ended(t) ==>
         && u.outcome == t.outcome && u.received == t.received
         && t.terminal.Some? && u.terminal.Some? && SameTx(t.terminal.value, u.terminal.value))
    && (Ended(t) <==> t.terminal.Some?) && (Ended(u) <==> u.terminal.Some?)
  }

  lemma BounceProgress(v: View, s: seq<Step>, w: View, z: seq<Step>, failed: Tx, still: Tx, role: string, outcome: Outcome)
    requires Grows(v, w) && SameTx(failed, still) && (outcome == Bounced || outcome == Rejected)
    ensures Progress(BouncedBack(v, s, failed, role, outcome), BouncedBack(w, z, still, role, outcome))
  {
  }

  lemma InternalProgress(v: seq<View>, s: seq<Step>, w: seq<View>, z: seq<Step>, internal: Message)
    requires GrowsTo(v, w) && internal.body.Some? && FromInternal(v, s, internal).Ok? && FromInternal(w, z, internal).Ok?
    ensures Progress(FromInternal(v, s, internal).value, FromInternal(w, z, internal).value)
    ensures FromInternal(w, z, internal).value.outcome != NotAccepted && FromInternal(v, s, internal).value.outcome != NotAccepted
  {
    hide ReadInternal;
    var theirs := Looked(v[2], internal.hash);
    if theirs.Some? {
      var still := w[2][internal.hash];
      assert Grows(v[2], w[2]) && Grows(v[3], w[3]);
      BounceProgress(v[3], s + [Step("merchant's jetton wallet", "internal_transfer", theirs)],
                     w[3], z + [Step("merchant's jetton wallet", "internal_transfer", Some(still))], theirs.value, still, "our jetton wallet", Bounced);
    }
  }

  lemma TransferProgress(v: seq<View>, s: seq<Step>, w: seq<View>, z: seq<Step>, transfer: Message)
    requires GrowsTo(v, w) && FromTransfer(v, s, transfer).Ok? && FromTransfer(w, z, transfer).Ok?
    ensures Progress(FromTransfer(v, s, transfer).value, FromTransfer(w, z, transfer).value)
    ensures FromTransfer(w, z, transfer).value.outcome != NotAccepted && FromTransfer(v, s, transfer).value.outcome != NotAccepted
  {
    hide OpOf, First;
    var ours := Looked(v[1], transfer.hash);
    if ours.Some? {
      assert Grows(v[1], w[1]) && Grows(v[2], w[2]);
      var still := w[1][transfer.hash];
      var s2 := s + [Step("our jetton wallet", "transfer", ours)];
      var z2 := z + [Step("our jetton wallet", "transfer", Some(still))];
      if ours.value.aborted {
        BounceProgress(v[2], s2, w[2], z2, ours.value, still, "wallet", Rejected);
      } else {
        hide FromInternal, BouncedBack;
        InternalProgress(v, s2, w, z2, ours.value.out[First(ours.value.out, WithOp(OP_INTERNAL))]);
      }
    } else {
      LaterStarted(w, z, transfer);
    }
  }

  /** Once accepted, a trace is never less than in flight, and ends exactly with its terminal. */
  lemma LaterStarted(w: seq<View>, z: seq<Step>, transfer: Message)
    requires |w| == 4 && FromTransfer(w, z, transfer).Ok?
    ensures var u := FromTransfer(w, z, transfer).value; u.outcome != NotAccepted && (Ended(u) <==> u.terminal.Some?)
  {
    hide OpOf, First, ReadInternal;
  }

  /** However the chain grows between two traces of one payment, and between the looks each of
      them takes, the later one is never behind: in flight does not become not accepted, and an
      end, its transaction and its amount never change. */
  lemma TraceOnlyMovesOn(v: seq<View>, w: seq<View>, external: Digest, ref: Digest)
    requires GrowsTo(v, w) && TraceOf(v, external, ref).Ok? && TraceOf(w, external, ref).Ok?
    ensures Progress(TraceOf(v, external, ref).value, TraceOf(w, external, ref).value)
  {
    hide CarriesRef, First, FromTransfer;
    var wallet := Looked(v[0], external);
    var still := Looked(w[0], external);
    if wallet.Some? {
      assert Grows(v[0], w[0]);
      TransferProgress(v, [Step("wallet", "external", wallet)], w, [Step("wallet", "external", still)],
                       wallet.value.out[First(wallet.value.out, Bearing(ref))]);
    } else if still.Some? {
      LaterStarted(w, [Step("wallet", "external", still)], still.value.out[First(still.value.out, Bearing(ref))]);
    }
  }
}
