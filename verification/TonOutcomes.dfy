/** What the end of a trace says happened to the money, over every run of the network. */
module TonOutcomes {
  import opened Bits
  import opened Bytes
  import opened Cells
  import opened CellBuilder
  import opened TonMessage
  import opened TonReader
  import opened TonTrace
  import opened TonNetwork
  import opened TonBalances

  /** The account a message went to handled it and failed. */
  predicate Refused(v: View, m: Message) { m.hash in v && v[m.hash].aborted }

  /** Whatever a handling sent has been handled too. */
  predicate Landed(v: View, tx: Tx) {
    forall i :: 0 <= i < |tx.out| ==> tx.out[i].hash in v
  }

  /** Our jetton wallet carried the transfer out, and this is what it sent on. */
  predicate SentOnAs(v: View, transfer: Message, onward: Message) {
    transfer.hash in v && !v[transfer.hash].aborted && v[transfer.hash].out == [onward]
  }

  // ---- the trace, hop by hop ----

  /** All that came back of a failure is one bounced message at most. */
  predicate OneBack(tx: Tx) { |tx.out| <= 1 && forall i :: 0 <= i < |tx.out| ==> tx.out[i].bounced }

  lemma BackOutcome(v: View, s: seq<Step>, failed: Tx, role: string, outcome: Outcome)
    requires OneBack(failed)
    ensures BouncedBack(v, s, failed, role, outcome).outcome == if Landed(v, failed) then outcome else InFlight
  {
    assert LastBounced(failed.out) == |failed.out| - 1;
  }

  lemma InternalFailure(v: seq<View>, s: seq<Step>, m: Message)
    requires |v| == 4 && m.body.Some? && ReadInternal(m.body.value).Some? && (Refused(v[2], m) ==> OneBack(v[2][m.hash]))
    ensures FromInternal(v, s, m).Ok?
    ensures var o := FromInternal(v, s, m).value.outcome;
      o == if m.hash !in v[2] then InFlight
           else if !v[2][m.hash].aborted then Delivered
           else if Landed(v[3], v[2][m.hash]) then Bounced
           else InFlight
  {
    hide ReadInternal, BouncedBack, Landed;
    if Refused(v[2], m) {
      BackOutcome(v[3], s + [Step("merchant's jetton wallet", "internal_transfer", Some(v[2][m.hash]))], v[2][m.hash], "our jetton wallet", Bounced);
    }
  }

  lemma TransferFailure(v: seq<View>, s: seq<Step>, transfer: Message)
    requires |v| == 4 && (Refused(v[1], transfer) ==> OneBack(v[1][transfer.hash]))
    requires transfer.hash in v[1] && !v[1][transfer.hash].aborted ==>
      |v[1][transfer.hash].out| == 1 && WithOp(OP_INTERNAL)(v[1][transfer.hash].out[0])
    ensures var r := FromTransfer(v, s, transfer);
      if transfer.hash !in v[1] then r.Ok? && r.value.outcome == InFlight
      else if v[1][transfer.hash].aborted then
        r.Ok? && r.value.outcome == if Landed(v[2], v[1][transfer.hash]) then Rejected else InFlight
      else
        r == FromInternal(v, s + [Step("our jetton wallet", "transfer", Some(v[1][transfer.hash]))], v[1][transfer.hash].out[0])
  {
    hide BouncedBack, FromInternal, Landed, OpOf;
    if Refused(v[1], transfer) {
      BackOutcome(v[2], s + [Step("our jetton wallet", "transfer", Some(v[1][transfer.hash]))], v[1][transfer.hash], "wallet", Rejected);
    }
  }

  // ---- the hops, in a network of a run ----

  ghost predicate Kept(acc: Accounts, home: Home, n: Net, start: nat) {
    Lawful(acc, home, n) && Accounted(acc, n, start)
  }

  /** One of our transfers, as the wallet sent it. */
  ghost predicate Sent(acc: Accounts, n: Net, external: Digest, k: nat, transfer: Message) {
    && external in n.byIn && n.byIn[external].incoming.body.None? && k < |n.byIn[external].out| && n.byIn[external].out[k] == transfer
    && HasOp(transfer, OP_TRANSFER) && ReadTransfer(transfer.body.value).Some?
  }

  lemma SentIsOurs(acc: Accounts, home: Home, n: Net, start: nat, external: Digest, k: nat, transfer: Message)
    requires Kept(acc, home, n, start) && Sent(acc, n, external, k, transfer)
    ensures transfer.dst == acc.jettonWallet && ReadTransfer(transfer.body.value).value.amount < COINS_LIMIT
    ensures transfer.hash in n.byIn ==>
      n.byIn[transfer.hash].incoming == transfer && TxTrue(acc, home, n.byIn[transfer.hash]) && SentTrue(acc, n.byIn[transfer.hash])
  {
    hide QueueTrue, LogTrue, Balanced, HasOp, ReadTransfer, SentTrue, Booked, OurTransfer;
    assert TxTrue(acc, home, n.byIn[external]);
    assert OurTransfer(acc, transfer);
    FateOf(acc, home, n, external, k);
    OurBody(acc, transfer);
    OurDst(acc, transfer);
    hide TxTrue;
  }

  lemma OurDst(acc: Accounts, m: Message)
    requires OurTransfer(acc, m)
    ensures m.dst == acc.jettonWallet
  {
  }

  /** Either the transfer failed, and nothing was debited, or it was carried out and debited its amount. */
  lemma TransferHop(acc: Accounts, home: Home, n: Net, start: nat, external: Digest, k: nat, transfer: Message)
    requires Kept(acc, home, n, start) && Sent(acc, n, external, k, transfer) && transfer.hash in n.byIn
    ensures var tx, t := n.byIn[transfer.hash], ReadTransfer(transfer.body.value).value;
      if tx.aborted then OneBack(tx) && DebitOf(acc, tx) == None
      else
        && |tx.out| == 1 && WithOp(OP_INTERNAL)(tx.out[0]) && SentOn(home, t, tx.out[0]) && tx.out[0].src == acc.jettonWallet
        && DebitOf(acc, tx) == Some(t.amount)
  {
    hide Kept, OpOf, ReadTransfer, ReadInternal, BounceCell;
    SentIsOurs(acc, home, n, start, external, k, transfer);
  }

  /** An internal_transfer of ours that failed: what comes back goes to our jetton wallet and carries its amount. */
  lemma InternalHop(acc: Accounts, home: Home, n: Net, start: nat, key: Digest, m: Message, t: Transfer)
    requires Kept(acc, home, n, start) && key in n.byIn && n.byIn[key].out == [m] && SentOn(home, t, m) && t.amount < COINS_LIMIT
    requires Refused(n.byIn, m) && m.src == acc.jettonWallet
    ensures var tx := n.byIn[m.hash];
      && tx.incoming == m && OneBack(tx)
      && forall i :: 0 <= i < |tx.out| && tx.out[i].hash in n.byIn ==>
        RefundOf(acc, n.byIn[tx.out[i].hash]) == Some(t.amount)
  {
    hide ReadTransfer, ReadInternal, OpOf, Booked, TxTrue, BounceCell, ReadBounce;
    FateOf(acc, home, n, key, 0);
    var tx := n.byIn[m.hash];
    assert SentTrue(acc, tx);
    hide Lawful;
    BounceReads(m.body.value);
    forall i | 0 <= i < |tx.out| && tx.out[i].hash in n.byIn ensures RefundOf(acc, n.byIn[tx.out[i].hash]) == Some(t.amount) {
      FateOf(acc, home, n, m.hash, i);
    }
  }

  lemma EntryOf(v: View, log: seq<Credit>, account: Address, f: Tx -> Option<nat>, k: Digest)
    requires Booked(v, log, account, f) && k in v
    ensures if f(v[k]).Some? then Entered(log, Credit(k, account, f(v[k]).value)) else !Logged(log, k)
  {
    if f(v[k]).Some? {
      var j :| 0 <= j < |log| && log[j].msg == k;
      assert log[j] == Credit(k, account, f(v[k]).value);
    }
  }

  // ---- over a run ----

  lemma RunKept(h: Hasher, parse: AddressParser, acc: Accounts, home: Home, ns: seq<Net>, i: nat)
    requires Run(h, parse, acc, home, ns) && i < |ns|
    ensures Kept(acc, home, ns[i], ns[0].ours)
  {
    hide Run, Lawful, Accounted;
    RunIsLawful(h, parse, acc, home, ns, i);
    RunIsAccounted(h, parse, acc, home, ns, i);
  }

  /** A transaction is the same wherever a run has it. */
  lemma SameEver(h: Hasher, parse: AddressParser, acc: Accounts, home: Home, ns: seq<Net>, i: nat, j: nat, k: Digest)
    requires Run(h, parse, acc, home, ns) && i < |ns| && j < |ns| && k in ns[i].byIn && k in ns[j].byIn
    ensures ns[j].byIn[k] == ns[i].byIn[k].(masterchain := ns[j].byIn[k].masterchain)
  {
    hide Run;
    if i <= j {
      RunGrows(h, parse, acc, home, ns, i, j);
      assert SameTx(ns[i].byIn[k], ns[j].byIn[k]);
    } else {
      RunGrows(h, parse, acc, home, ns, j, i);
      assert SameTx(ns[j].byIn[k], ns[i].byIn[k]);
    }
  }

  /** The payment under trace, as one of the transfers the wallet sent, wherever the request is known. */
  lemma PaymentSent(h: Hasher, parse: AddressParser, acc: Accounts, home: Home, ns: seq<Net>, i: nat, j: nat, external: Digest, ref: Digest)
    requires Run(h, parse, acc, home, ns) && i < |ns| && j < |ns| && external in ns[i].byIn && external in ns[j].byIn && OurPayment(ns[j], external, ref)
    ensures var out := ns[i].byIn[external].out;
      var k := First(out, Bearing(ref));
      k < |out| && out[k] == PaymentOf(ns[j], external, ref) && Sent(acc, ns[i], external, k, PaymentOf(ns[j], external, ref))
  {
    hide Run, First, CarriesRef, HasOp, ReadTransfer;
    SameEver(h, parse, acc, home, ns, j, i, external);
    CarriedIsTransfer(PaymentOf(ns[j], external, ref), ref);
  }

  /** What the outcome of a trace says, in terms of what its four looks saw. */
  ghost predicate SaysWhatWas(v: seq<View>, external: Digest, ref: Digest, transfer: Message)
    requires |v| == 4
  {
    && TraceOf(v, external, ref).Ok?
    && var tr := TraceOf(v, external, ref).value;
      && (tr.outcome == Rejected <==> external in v[0] && Refused(v[1], transfer) && Landed(v[2], v[1][transfer.hash]))
      && (tr.outcome == Bounced <==> external in v[0] && exists m :: SentOnAs(v[1], transfer, m) && Refused(v[2], m) && Landed(v[3], v[2][m.hash]))
      && (Ended(tr) ==>
           && (tr.outcome == Rejected <==> Refused(v[1], transfer))
           && (tr.outcome == Bounced <==> exists m :: SentOnAs(v[1], transfer, m) && Refused(v[2], m)))
  }

  /** What the two hops must have been for the outcome to say it. */
  ghost predicate HopsFit(v: seq<View>, transfer: Message)
    requires |v| == 4
  {
    transfer.hash in v[1] ==>
      var ours := v[1][transfer.hash];
      if ours.aborted then OneBack(ours)
      else
        && |ours.out| == 1 && WithOp(OP_INTERNAL)(ours.out[0])
        && ours.out[0].body.Some? && ReadInternal(ours.out[0].body.value).Some?
        && (Refused(v[2], ours.out[0]) ==> OneBack(v[2][ours.out[0].hash]))
  }

  lemma OutcomeSays(v: seq<View>, external: Digest, ref: Digest, transfer: Message)
    requires |v| == 4 && HopsFit(v, transfer)
    requires external in v[0] ==>
      var k := First(v[0][external].out, Bearing(ref)); k < |v[0][external].out| && v[0][external].out[k] == transfer
    ensures SaysWhatWas(v, external, ref, transfer)
  {
    hide First, CarriesRef, FromTransfer, FromInternal, TraceOf, ReadInternal, OpOf, Landed, OneBack;
    if external !in v[0] {
      NotSeenIsNotAccepted(v, external, ref);
    } else {
      TraceSteps(v, external, ref);
      var s := [Step("wallet", "external", Some(v[0][external]))];
      TransferFailure(v, s, transfer);
      if transfer.hash in v[1] && !v[1][transfer.hash].aborted {
        var onward := v[1][transfer.hash].out[0];
        InternalFailure(v, s + [Step("our jetton wallet", "transfer", Some(v[1][transfer.hash]))], onward);
        assert SentOnAs(v[1], transfer, onward);
      }
    }
  }

  /** The payment's hops in two networks of a run, the second no earlier. */
  lemma HopsOfRun(acc: Accounts, home: Home, n: Net, w: Net, v: seq<View>, start: nat, external: Digest, k: nat, transfer: Message)
    requires |v| == 4 && v[1] == n.byIn && v[2] == w.byIn && Grows(n.byIn, w.byIn)
    requires Kept(acc, home, n, start) && Kept(acc, home, w, start) && Sent(acc, n, external, k, transfer)
    ensures HopsFit(v, transfer)
  {
    hide Kept, Sent, OpOf, ReadTransfer, ReadInternal, OneBack, DebitOf;
    if transfer.hash in n.byIn {
      TransferHop(acc, home, n, start, external, k, transfer);
      var ours := n.byIn[transfer.hash];
      if !ours.aborted && Refused(w.byIn, ours.out[0]) {
        assert SameTx(ours, w.byIn[transfer.hash]);
        FailedIsOneBack(acc, home, w, start, transfer.hash, 0);
      }
    }
  }

  lemma FailedIsOneBack(acc: Accounts, home: Home, w: Net, start: nat, key: Digest, i: nat)
    requires Kept(acc, home, w, start) && key in w.byIn && i < |w.byIn[key].out| && Refused(w.byIn, w.byIn[key].out[i])
    ensures OneBack(w.byIn[w.byIn[key].out[i].hash])
  {
    hide Lawful, Booked, DebitOf, BounceCell;
    assert SentTrue(acc, w.byIn[w.byIn[key].out[i].hash]);
  }

  /** Over every run and whenever its looks are taken: tracing a payment of an accepted request says
      rejected exactly when our jetton wallet failed to handle the transfer, and bounced exactly when it
      carried the transfer out and the merchant's failed to handle what it sent on, once whatever came back
      has landed; a trace that has ended is the one or the other exactly then. */
  lemma OutcomeIsWhatWas(h: Hasher, parse: AddressParser, acc: Accounts, home: Home, ns: seq<Net>, at: seq<nat>, external: Digest, ref: Digest)
    requires Run(h, parse, acc, home, ns) && Rising(at, ns)
    requires external in ns[at[3]].byIn && OurPayment(ns[at[3]], external, ref)
    ensures SaysWhatWas(Looks(ns, at), external, ref, PaymentOf(ns[at[3]], external, ref))
  {
    hide *;
    LooksAre(ns, at);
    var transfer, v := PaymentOf(ns[at[3]], external, ref), Looks(ns, at);
    if external in v[0] {
      RunGrows(h, parse, acc, home, ns, at[0], at[1]);
      SameOut(h, parse, acc, home, ns, at[0], at[1], external);
      PaymentSent(h, parse, acc, home, ns, at[0], at[3], external, ref);
      PaymentSent(h, parse, acc, home, ns, at[1], at[3], external, ref);
      RunGrows(h, parse, acc, home, ns, at[1], at[2]);
      RunKept(h, parse, acc, home, ns, at[1]);
      RunKept(h, parse, acc, home, ns, at[2]);
      HopsOfRun(acc, home, ns[at[1]], ns[at[2]], v, ns[0].ours, external, First(ns[at[1]].byIn[external].out, Bearing(ref)), transfer);
      OutcomeSays(v, external, ref, transfer);
    } else {
      UnseenSays(v, external, ref, transfer);
    }
  }

  lemma LooksAre(ns: seq<Net>, at: seq<nat>)
    requires Rising(at, ns)
    ensures |at| == 4 && at[0] <= at[1] <= at[2] <= at[3] < |ns|
    ensures Looks(ns, at) == [ns[at[0]].byIn, ns[at[1]].byIn, ns[at[2]].byIn, ns[at[3]].byIn]
  {
  }

  lemma UnseenSays(v: seq<View>, external: Digest, ref: Digest, transfer: Message)
    requires |v| == 4 && external !in v[0]
    ensures SaysWhatWas(v, external, ref, transfer)
  {
    hide TraceOf, Landed;
    NotSeenIsNotAccepted(v, external, ref);
  }

  // ---- and what it cost ----

  /** A message that failed never put anything on anybody's wallet. */
  lemma FailedPaidNobody(h: Hasher, parse: AddressParser, acc: Accounts, home: Home, ns: seq<Net>, i: nat, j: nat, key: Digest, k: nat)
    requires Run(h, parse, acc, home, ns) && i < |ns| && j < |ns| && key in ns[i].byIn && key in ns[j].byIn && k < |ns[i].byIn[key].out|
    requires Refused(ns[j].byIn, ns[i].byIn[key].out[k])
    ensures !Logged(ns[i].log, ns[i].byIn[key].out[k].hash)
  {
    hide Run, Lawful, HasOp, ReadInternal, Logged, Entered;
    RunIsLawful(h, parse, acc, home, ns, i);
    FateOf(acc, home, ns[i], key, k);
    var m := ns[i].byIn[key].out[k];
    if m.hash in ns[i].byIn {
      SameEver(h, parse, acc, home, ns, j, i, m.hash);
    }
  }

  /** What failed is not debited, at any moment of a run. */
  lemma FailedIsNotDebited(h: Hasher, parse: AddressParser, acc: Accounts, home: Home, ns: seq<Net>, i: nat, j: nat, transfer: Message)
    requires Run(h, parse, acc, home, ns) && i < |ns| && j < |ns| && Refused(ns[j].byIn, transfer)
    ensures !Logged(ns[i].debits, transfer.hash)
  {
    hide Run, Lawful, HasOp, ReadTransfer, SentTrue, Adds, Total;
    RunIsAccounted(h, parse, acc, home, ns, i);
    if transfer.hash in ns[i].byIn {
      SameEver(h, parse, acc, home, ns, j, i, transfer.hash);
      EntryOf(ns[i].byIn, ns[i].debits, acc.jettonWallet, Debits(acc), transfer.hash);
    }
  }

  /** Where the request is known, the payment and its handling are as one transfer's. */
  lemma PaymentHop(h: Hasher, parse: AddressParser, acc: Accounts, home: Home, ns: seq<Net>, j: nat, external: Digest, ref: Digest) returns (k: nat)
    requires Run(h, parse, acc, home, ns) && j < |ns| && external in ns[j].byIn && OurPayment(ns[j], external, ref)
    ensures Kept(acc, home, ns[j], ns[0].ours) && Sent(acc, ns[j], external, k, PaymentOf(ns[j], external, ref))
  {
    hide *;
    RunKept(h, parse, acc, home, ns, j);
    PaymentSent(h, parse, acc, home, ns, j, j, external, ref);
    k := First(ns[j].byIn[external].out, Bearing(ref));
  }

  lemma NotCredited(n: Net, transfer: Message)
    requires transfer.hash in n.byIn ==> forall k :: 0 <= k < |n.byIn[transfer.hash].out| ==> !Logged(n.log, n.byIn[transfer.hash].out[k].hash)
    ensures !CreditedFor(n, transfer)
  {
    hide Logged;
  }

  lemma FailedTransferPaysNobody(acc: Accounts, home: Home, n: Net, start: nat, transfer: Message)
    requires Kept(acc, home, n, start) && Refused(n.byIn, transfer) && n.byIn[transfer.hash].incoming == transfer && HasOp(transfer, OP_TRANSFER)
    ensures !CreditedFor(n, transfer)
  {
    hide QueueTrue, AllTracked, LogTrue, Balanced, Accounted, HasOp, OpOf, ReadTransfer, CreditedFor;
    assert TxTrue(acc, home, n.byIn[transfer.hash]);
    hide TxTrue;
    FailedCreditsNothing(acc, home, n, transfer);
  }

  /** A rejected payment cost no jettons: at no moment of the run is anything debited for it or credited. */
  lemma RejectedCostsNothing(h: Hasher, parse: AddressParser, acc: Accounts, home: Home, ns: seq<Net>, at: seq<nat>, external: Digest, ref: Digest, i: nat)
    requires Run(h, parse, acc, home, ns) && Rising(at, ns) && i < |ns|
    requires external in ns[at[3]].byIn && OurPayment(ns[at[3]], external, ref)
    requires TraceOf(Looks(ns, at), external, ref).Ok? && TraceOf(Looks(ns, at), external, ref).value.outcome == Rejected
    ensures var transfer := PaymentOf(ns[at[3]], external, ref); !Logged(ns[i].debits, transfer.hash) && !CreditedFor(ns[i], transfer)
  {
    hide *;
    LooksAre(ns, at);
    var transfer := PaymentOf(ns[at[3]], external, ref);
    OutcomeIsWhatWas(h, parse, acc, home, ns, at, external, ref);
    SaysRejected(Looks(ns, at), external, ref, transfer);
    FailedIsNotDebited(h, parse, acc, home, ns, i, at[1], transfer);
    if transfer.hash in ns[i].byIn {
      SameEver(h, parse, acc, home, ns, at[1], i, transfer.hash);
      TransferIn(h, parse, acc, home, ns, at[3], i, external, ref);
      RunKept(h, parse, acc, home, ns, i);
      assert Refused(ns[i].byIn, transfer) by { FailedThere(ns[i].byIn, transfer); }
      FailedTransferPaysNobody(acc, home, ns[i], ns[0].ours, transfer);
    } else {
      NotCredited(ns[i], transfer);
    }
  }

  lemma FailedThere(v: View, m: Message)
    requires m.hash in v && v[m.hash].aborted
    ensures Refused(v, m)
  {
  }

  lemma SaysRejected(v: seq<View>, external: Digest, ref: Digest, transfer: Message)
    requires |v| == 4 && SaysWhatWas(v, external, ref, transfer) && TraceOf(v, external, ref).value.outcome == Rejected
    ensures transfer.hash in v[1] && v[1][transfer.hash].aborted && Refused(v[1], transfer)
  {
    hide TraceOf, Landed;
  }

  lemma SaysBounced(v: seq<View>, external: Digest, ref: Digest, transfer: Message) returns (m: Message)
    requires |v| == 4 && SaysWhatWas(v, external, ref, transfer) && TraceOf(v, external, ref).value.outcome == Bounced
    ensures SentOnAs(v[1], transfer, m) && Refused(v[2], m) && Landed(v[3], v[2][m.hash])
  {
    hide TraceOf, Landed, SentOnAs;
    m :| SentOnAs(v[1], transfer, m) && Refused(v[2], m) && Landed(v[3], v[2][m.hash]);
  }

  /** Whatever handled the payment anywhere in the run handled that very transfer. */
  lemma TransferIn(h: Hasher, parse: AddressParser, acc: Accounts, home: Home, ns: seq<Net>, j: nat, i: nat, external: Digest, ref: Digest)
    requires Run(h, parse, acc, home, ns) && i < |ns| && j < |ns| && external in ns[j].byIn && OurPayment(ns[j], external, ref)
    requires PaymentOf(ns[j], external, ref).hash in ns[i].byIn
    ensures var transfer := PaymentOf(ns[j], external, ref);
      ns[i].byIn[transfer.hash].incoming == transfer && HasOp(transfer, OP_TRANSFER)
  {
    hide *;
    var top := if i <= j then j else i;
    RunGrows(h, parse, acc, home, ns, j, top);
    RunGrows(h, parse, acc, home, ns, i, top);
    StillThere(ns[j].byIn, ns[top].byIn, external);
    StillThere(ns[i].byIn, ns[top].byIn, PaymentOf(ns[j], external, ref).hash);
    PaymentSent(h, parse, acc, home, ns, top, j, external, ref);
    RunKept(h, parse, acc, home, ns, top);
    var transfer := PaymentOf(ns[j], external, ref);
    SentIsOurs(acc, home, ns[top], ns[0].ours, external, First(ns[top].byIn[external].out, Bearing(ref)), transfer);
    SentHasOp(acc, ns[top], external, First(ns[top].byIn[external].out, Bearing(ref)), transfer);
    SameEver(h, parse, acc, home, ns, top, i, transfer.hash);
  }

  lemma StillThere(v: View, w: View, k: Digest)
    requires Grows(v, w) && k in v
    ensures k in w
  {
  }

  lemma SentHasOp(acc: Accounts, n: Net, external: Digest, k: nat, transfer: Message)
    requires Sent(acc, n, external, k, transfer)
    ensures HasOp(transfer, OP_TRANSFER) && transfer.body.Some? && ReadTransfer(transfer.body.value).Some?
  {
    hide OpOf, ReadTransfer;
  }

  // ---- bounced ----

  /** The transfer was debited, what it sent on failed, and every message that came back was refunded in full. */
  ghost predicate CameBack(acc: Accounts, n: Net, transfer: Message, m: Message, amount: nat) {
    && SentOnAs(n.byIn, transfer, m) && Refused(n.byIn, m)
    && Entered(n.debits, Credit(transfer.hash, acc.jettonWallet, amount))
    && forall i :: 0 <= i < |n.byIn[m.hash].out| ==>
      n.byIn[m.hash].out[i].hash in n.byIn && Entered(n.refunds, Credit(n.byIn[m.hash].out[i].hash, acc.jettonWallet, amount))
  }

  lemma BouncedIn(acc: Accounts, home: Home, n: Net, start: nat, external: Digest, k: nat, transfer: Message, m: Message)
    requires Kept(acc, home, n, start) && Sent(acc, n, external, k, transfer)
    requires SentOnAs(n.byIn, transfer, m) && Refused(n.byIn, m) && Landed(n.byIn, n.byIn[m.hash])
    ensures transfer.body.Some? && ReadTransfer(transfer.body.value).Some? && CameBack(acc, n, transfer, m, ReadTransfer(transfer.body.value).value.amount)
  {
    hide Lawful, SentTrue, Adds, DebitOf, RefundOf, SentOn, HasOp, OpOf, ReadTransfer, Entered, Logged, Booked, Sent, OneBack;
    SentHasOp(acc, n, external, k, transfer);
    SentIsOurs(acc, home, n, start, external, k, transfer);
    TransferHop(acc, home, n, start, external, k, transfer);
    var t := ReadTransfer(transfer.body.value).value;
    InternalHop(acc, home, n, start, transfer.hash, m, t);
    EntryOf(n.byIn, n.debits, acc.jettonWallet, Debits(acc), transfer.hash);
    forall i | 0 <= i < |n.byIn[m.hash].out| ensures Entered(n.refunds, Credit(n.byIn[m.hash].out[i].hash, acc.jettonWallet, t.amount)) {
      EntryOf(n.byIn, n.refunds, acc.jettonWallet, Refunds(acc), n.byIn[m.hash].out[i].hash);
    }
  }

  /** A bounced payment credited nobody, at any moment of the run; our jetton wallet was debited its amount
      once, and by the last look whatever came back was refunded it in full. */
  lemma BouncedComesBack(h: Hasher, parse: AddressParser, acc: Accounts, home: Home, ns: seq<Net>, at: seq<nat>, external: Digest, ref: Digest, i: nat)
    requires Run(h, parse, acc, home, ns) && Rising(at, ns) && i < |ns|
    requires external in ns[at[3]].byIn && OurPayment(ns[at[3]], external, ref)
    requires TraceOf(Looks(ns, at), external, ref).Ok? && TraceOf(Looks(ns, at), external, ref).value.outcome == Bounced
    ensures var transfer := PaymentOf(ns[at[3]], external, ref);
      && transfer.body.Some? && ReadTransfer(transfer.body.value).Some? && !CreditedFor(ns[i], transfer)
      && exists m :: CameBack(acc, ns[at[3]], transfer, m, ReadTransfer(transfer.body.value).value.amount)
  {
    hide *;
    LooksAre(ns, at);
    var transfer, v := PaymentOf(ns[at[3]], external, ref), Looks(ns, at);
    OutcomeIsWhatWas(h, parse, acc, home, ns, at, external, ref);
    var m := SaysBounced(v, external, ref, transfer);
    OnTo(h, parse, acc, home, ns, at[1], at[2], at[3], transfer, m);
    var k := PaymentHop(h, parse, acc, home, ns, at[3], external, ref);
    BouncedIn(acc, home, ns[at[3]], ns[0].ours, external, k, transfer, m);
    BouncedPaidNobody(h, parse, acc, home, ns, at[3], i, transfer, m);
  }

  /** What two looks saw is still so at a third. */
  lemma OnTo(h: Hasher, parse: AddressParser, acc: Accounts, home: Home, ns: seq<Net>, a: nat, b: nat, c: nat, transfer: Message, m: Message)
    requires Run(h, parse, acc, home, ns) && a <= b <= c < |ns|
    requires SentOnAs(ns[a].byIn, transfer, m) && Refused(ns[b].byIn, m) && Landed(ns[c].byIn, ns[b].byIn[m.hash])
    ensures SentOnAs(ns[c].byIn, transfer, m) && Refused(ns[c].byIn, m) && Landed(ns[c].byIn, ns[c].byIn[m.hash])
  {
    hide Run, Grows;
    RunGrows(h, parse, acc, home, ns, a, c);
    RunGrows(h, parse, acc, home, ns, b, c);
    StillThere(ns[a].byIn, ns[c].byIn, transfer.hash);
    StillThere(ns[b].byIn, ns[c].byIn, m.hash);
    SameEver(h, parse, acc, home, ns, a, c, transfer.hash);
    SameEver(h, parse, acc, home, ns, b, c, m.hash);
  }

  lemma BouncedPaidNobody(h: Hasher, parse: AddressParser, acc: Accounts, home: Home, ns: seq<Net>, j: nat, i: nat, transfer: Message, m: Message)
    requires Run(h, parse, acc, home, ns) && i < |ns| && j < |ns| && SentOnAs(ns[j].byIn, transfer, m) && Refused(ns[j].byIn, m)
    ensures !CreditedFor(ns[i], transfer)
  {
    hide Run, Refused, Logged, CreditedFor;
    if transfer.hash in ns[i].byIn {
      SameEver(h, parse, acc, home, ns, j, i, transfer.hash);
      FailedPaidNobody(h, parse, acc, home, ns, i, j, transfer.hash, 0);
    }
    NotCredited(ns[i], transfer);
  }
}
