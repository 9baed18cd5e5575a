/** What a payment that ended did to our jetton wallet: rejected, delivered or bounced, and what each cost. */
module TonBalances {
  import opened Bits
  import opened Bytes
  import opened Cells
  import opened CellBuilder
  import opened CellReader
  import opened TonMessage
  import opened TonReader
  import opened TonTrace
  import opened TonNetwork

  // ---- what a transaction books ----

  /** A transfer our jetton wallet carried out takes its amount from it. */
  function DebitOf(acc: Accounts, tx: Tx): Option<nat> {
    var m := tx.incoming;
    if m.dst == acc.jettonWallet && HasOp(m, OP_TRANSFER) && ReadTransfer(m.body.value).Some? && !tx.aborted then
      Some(ReadTransfer(m.body.value).value.amount)
    else None
  }

  /** An internal_transfer that came back gives its amount back. */
  function RefundOf(acc: Accounts, tx: Tx): Option<nat> {
    var m := tx.incoming;
    if m.dst == acc.jettonWallet && m.bounced && m.body.Some? then ReadBounce(m.body.value) else None
  }

  /** A list of entries is exactly what these transactions book, each once. */
  ghost predicate Booked(v: View, log: seq<Credit>, account: Address, f: Tx -> Option<nat>) {
    && (forall k :: k in v ==> (f(v[k]).Some? <==> Logged(log, k)))
    && (forall j :: 0 <= j < |log| ==> log[j].msg in v && f(v[log[j].msg]) == Some(log[j].amount) && log[j].account == account)
    && (forall i, j :: 0 <= i < j < |log| ==> log[i].msg != log[j].msg)
  }

  lemma BookedOn(v: View, log: seq<Credit>, account: Address, f: Tx -> Option<nat>, k: Digest, tx: Tx)
    requires Booked(v, log, account, f) && k !in v && tx.incoming.hash == k && (f(tx).Some? ==> tx.incoming.dst == account)
    ensures Booked(v[k := tx], Entry(log, tx.incoming, f(tx)), account, f)
  {
    var w, more := v[k := tx], Entry(log, tx.incoming, f(tx));
    if f(tx).Some? {
      forall x | x in w ensures f(w[x]).Some? <==> Logged(more, x) {
        LoggedAfter(log, Credit(k, account, f(tx).value), x);
      }
    }
  }

  lemma BookedSealed(v: View, w: View, log: seq<Credit>, account: Address, f: Tx -> Option<nat>)
    requires Booked(v, log, account, f) && w.Keys == v.Keys && forall k :: k in v ==> f(w[k]) == f(v[k])
    ensures Booked(w, log, account, f)
  {
    hide Logged;
  }

  // ---- what every network of a run keeps ----

  /** What a transaction sent: one message on, or at most one back. */
  ghost predicate SentTrue(acc: Accounts, tx: Tx) {
    var m := tx.incoming;
    && (DebitOf(acc, tx).Some? ==> |tx.out| == 1 && tx.out[0].src == acc.jettonWallet)
    && (tx.aborted ==>
         m.body.Some? && |tx.out| <= 1 && forall i :: 0 <= i < |tx.out| ==>
           tx.out[i].bounced && tx.out[i].dst == m.src && tx.out[i].body == Some(BounceCell(m.body.value)))
  }

  function Debits(acc: Accounts): Tx -> Option<nat> { (tx: Tx) => DebitOf(acc, tx) }

  function Refunds(acc: Accounts): Tx -> Option<nat> { (tx: Tx) => RefundOf(acc, tx) }

  /** Our jetton wallet has what it started with, less every debit, plus every refund. */
  ghost predicate Adds(acc: Accounts, n: Net, start: nat) {
    n.ours + Total(n.debits, acc.jettonWallet) == start + Total(n.refunds, acc.jettonWallet)
  }

  ghost predicate Accounted(acc: Accounts, n: Net, start: nat) {
    && Booked(n.byIn, n.debits, acc.jettonWallet, Debits(acc))
    && Booked(n.byIn, n.refunds, acc.jettonWallet, Refunds(acc))
    && (forall k :: k in n.byIn ==> SentTrue(acc, n.byIn[k]))
    && Adds(acc, n, start)
  }

  /** What the handling of a message moved is what its transaction books. */
  lemma HandlingBooks(acc: Accounts, home: Home, n: Net, m: Message, e: Effect, tx: Tx)
    requires Handles(acc, home, n, m, e) && tx == Tx(m.dst, tx.hash, m, e.out, e.aborted, tx.exitCode, 0)
    ensures DebitOf(acc, tx) == e.paid && RefundOf(acc, tx) == e.refund && SentTrue(acc, tx)
  {
    hide OpOf, ReadTransfer, ReadInternal, ReadBounce, BounceCell, InternalCell, TransferRest, ReadRef;
  }

  lemma EntryAdds(log: seq<Credit>, m: Message, moved: Option<nat>, a: Address)
    requires moved.Some? ==> m.dst == a
    ensures Total(Entry(log, m, moved), a) == Total(log, a) + Amount(moved)
  {
    var more := Entry(log, m, moved);
    assert moved.Some? ==> more[..|more| - 1] == log;
  }

  lemma DeliverAccounts(acc: Accounts, home: Home, n: Net, w: Net, m: Message, e: Effect, tx: Tx, start: nat)
    requires Accounted(acc, n, start) && QueueTrue(acc, n) && Delivers(acc, home, n, w, m, e, tx)
    ensures Accounted(acc, w, start)
  {
    hide Handles, DebitOf, RefundOf, SentTrue, Booked, Honest, Fresh, Queued;
    HandlingBooks(acc, home, n, m, e, tx);
    OursOnly(acc, tx);
    BookedOn(n.byIn, n.debits, acc.jettonWallet, Debits(acc), m.hash, tx);
    BookedOn(n.byIn, n.refunds, acc.jettonWallet, Refunds(acc), m.hash, tx);
    EntryAdds(n.debits, m, e.paid, acc.jettonWallet);
    EntryAdds(n.refunds, m, e.refund, acc.jettonWallet);
    hide Total, Entry;
  }

  lemma OursOnly(acc: Accounts, tx: Tx)
    ensures DebitOf(acc, tx).Some? || RefundOf(acc, tx).Some? ==> tx.incoming.dst == acc.jettonWallet
  {
    hide HasOp, ReadTransfer, ReadBounce;
  }

  lemma AcceptAccounts(h: Hasher, parse: AddressParser, acc: Accounts, n: Net, w: Net, external: Digest, req: Request, tx: Tx, start: nat)
    requires Accounted(acc, n, start) && Accepts(h, parse, acc, n, w, external, req, tx)
    ensures Accounted(acc, w, start)
  {
    hide Booked, IsRequest, Outbox, Fresh, Queued, ReadTransfer, ReadBounce, OpOf, BounceCell, Total;
    BookedOn(n.byIn, n.debits, acc.jettonWallet, Debits(acc), external, tx);
    BookedOn(n.byIn, n.refunds, acc.jettonWallet, Refunds(acc), external, tx);
  }

  lemma SealAccounts(acc: Accounts, n: Net, w: Net, start: nat)
    requires Accounted(acc, n, start) && Seal(n, w)
    ensures Accounted(acc, w, start)
  {
    hide Booked, ReadTransfer, ReadBounce, OpOf, BounceCell, Total;
    forall k | k in n.byIn ensures DebitOf(acc, w.byIn[k]) == DebitOf(acc, n.byIn[k]) && RefundOf(acc, w.byIn[k]) == RefundOf(acc, n.byIn[k])
                                   && SentTrue(acc, w.byIn[k]) {
      assert SameTx(n.byIn[k], w.byIn[k]);
    }
    BookedSealed(n.byIn, w.byIn, n.debits, acc.jettonWallet, Debits(acc));
    BookedSealed(n.byIn, w.byIn, n.refunds, acc.jettonWallet, Refunds(acc));
  }

  lemma NextAccounts(h: Hasher, parse: AddressParser, acc: Accounts, home: Home, n: Net, w: Net, start: nat)
    requires Accounted(acc, n, start) && QueueTrue(acc, n) && Next(h, parse, acc, home, n, w)
    ensures Accounted(acc, w, start)
  {
    hide Accounted, QueueTrue, Seal, Accepts, Delivers;
    if Accept(h, parse, acc, n, w) {
      var external: Digest, req: Request, tx: Tx :| Accepts(h, parse, acc, n, w, external, req, tx);
      AcceptAccounts(h, parse, acc, n, w, external, req, tx, start);
    } else if Deliver(acc, home, n, w) {
      var m: Message, e: Effect, tx: Tx :| Delivers(acc, home, n, w, m, e, tx);
      DeliverAccounts(acc, home, n, w, m, e, tx, start);
    } else {
      SealAccounts(acc, n, w, start);
    }
  }

  /** Over every run our jetton wallet's balance is what it started with, less one debit for every transfer
      it carried out and plus one refund for every internal_transfer that came back, and nothing else. */
  lemma {:induction false} RunIsAccounted(h: Hasher, parse: AddressParser, acc: Accounts, home: Home, ns: seq<Net>, i: nat)
    requires Run(h, parse, acc, home, ns) && i < |ns|
    ensures Accounted(acc, ns[i], ns[0].ours)
  {
    hide Accounted;
    if i == 0 {
      NothingYet(acc, ns[0]);
    } else {
      RunIsAccounted(h, parse, acc, home, ns, i - 1);
      RunIsLawful(h, parse, acc, home, ns, i - 1);
      hide Accounted, Next, TxsTrue, QueueTrue, AllTracked, LogTrue, Balanced;
      NextAccounts(h, parse, acc, home, ns[i - 1], ns[i], ns[0].ours);
    }
  }

  lemma NothingYet(acc: Accounts, n: Net)
    requires n == EMPTY.(ours := n.ours)
    ensures Accounted(acc, n, n.ours)
  {
    hide DebitOf, RefundOf, SentTrue;
  }

  // ---- a bounce gives back what failed ----

  lemma OpeningOf(body: Cell)
    requires ReadInternal(body).Some?
    ensures Opening(body).0 == OP_INTERNAL && Opening(body).2 == ReadInternal(body).value.amount
  {
    hide ReadUint, ReadCoins, ReadAddress, ForwardRef, PastForward, Begun;
  }

  lemma QueryFits(body: Cell)
    ensures Opening(body).1 < Pow2(64)
  {
    hide ReadUint, ReadCoins, Pow2, Begun;
    UintBound(ReadUint(Begun(body), 32, 0).1, 64, 0);
  }

  /** What a bounced internal_transfer says came back is what the internal_transfer carried. */
  lemma BounceReads(body: Cell)
    requires ReadInternal(body).Some? && ReadInternal(body).value.amount < COINS_LIMIT
    ensures ReadBounce(BounceCell(body)) == Some(ReadInternal(body).value.amount)
  {
    OpeningOf(body);
    QueryFits(body);
    var (op, q, amount) := Opening(body);
    var b := BounceBits(op, q, amount);
    Filled(b, []);
    Widths();
    hide ReadUint, ReadCoins, UintBits, CoinsBits, Packed, Pow2, Opening, ReadInternal;
    var t2 := CoinsBits(amount) + [];
    var t1 := UintBits(q, 64) + t2;
    var t0 := UintBits(op, 32) + t1;
    UintRoundTrip(OP_BOUNCED, 32, t0, []);
    UintRoundTrip(op, 32, t1, []);
    UintRoundTrip(q, 64, t2, []);
    CoinsRoundTrip(amount, [], []);
  }
}
