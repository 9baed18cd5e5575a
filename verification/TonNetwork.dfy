/** The network a payment crosses: wallets and jetton wallets handling messages one at a time, in
    any order, any of them failing, bounces sent or not, blocks referencing what they like. */
module TonNetwork {
  import opened Bits
  import opened Bytes
  import opened Cells
  import opened CellBuilder
  import opened CellReader
  import opened TonMessage
  import opened TonReader
  import opened TonTrace

  /** One message whose handling changed a jetton wallet's balance. */
  datatype Credit = Credit(msg: Digest, account: Address, amount: nat)

  /** ours is our jetton wallet's balance, debits is what left it and refunds what came back to it;
      balances are the merchants', and log is what they were credited. */
  datatype Net = Net(byIn: View, queue: map<Digest, Message>, ours: nat, balances: map<Address, nat>, log: seq<Credit>,
                     debits: seq<Credit>, refunds: seq<Credit>)

  /** Whose jetton wallet is whose, as the jetton's master computes it. */
  type Home = Address -> Address

  function Balance(n: Net, a: Address): nat {
    if a in n.balances then n.balances[a] else 0
  }

  // ---- what a jetton wallet sends on ----

  function InternalBits(q: nat, amount: nat, from: Address, response: Address, forward: nat): seq<bool> {
    UintBits(OP_INTERNAL, 32) + (UintBits(q, 64) + (CoinsBits(amount) + (AddressBits(from) + (AddressBits(response) + (CoinsBits(forward) + [true])))))
  }

  function InternalCell(q: nat, amount: nat, from: Address, response: Address, forward: nat, payload: Cell): Cell {
    var b := InternalBits(q, amount, from, response, forward);
    Cell(Packed(b), |b|, [payload])
  }

  /** An internal_transfer carries the transfer's amount, sender and reference on. */
  lemma InternalReads(q: nat, amount: nat, from: Address, response: Address, forward: nat, ref: Digest)
    requires q < Pow2(64) && amount < COINS_LIMIT && forward < COINS_LIMIT
    ensures ReadInternal(InternalCell(q, amount, from, response, forward, PayloadCell(ref))) == Some(Internal(amount, from, Some(ref)))
    ensures OpOf(InternalCell(q, amount, from, response, forward, PayloadCell(ref))) == OP_INTERNAL
  {
    var b, refs := InternalBits(q, amount, from, response, forward), [PayloadCell(ref)];
    Filled(b, refs);
    Widths();
    PayloadReads(ref);
    hide ReadUint, ReadCoins, ReadAddress, UintBits, CoinsBits, AddressBits, PayloadCell, PayloadRef, Packed, Pow2;
    var t5 := CoinsBits(forward) + [true];
    var t4 := AddressBits(response) + t5;
    var t3 := AddressBits(from) + t4;
    var t2 := CoinsBits(amount) + t3;
    var t1 := UintBits(q, 64) + t2;
    UintRoundTrip(OP_INTERNAL, 32, t1, refs);
    UintRoundTrip(q, 64, t2, refs);
    CoinsRoundTrip(amount, t3, refs);
    AddressRoundTrip(from, t4, refs);
    AddressRoundTrip(response, t5, refs);
    CoinsRoundTrip(forward, [true], refs);
    assert refs[0] == PayloadCell(ref);
  }

  /** A message that moves no jettons by itself: a notification, an excess, somebody's note. */
  predicate Idle(m: Message) {
    !m.bounced && (m.body.Some? ==> OpOf(m.body.value) != OP_TRANSFER && OpOf(m.body.value) != OP_INTERNAL)
  }

  // ---- what comes back of a message that failed ----

  const OP_BOUNCED := 0xffffffff

  /** A body's first fields: op, query and amount. */
  function Opening(body: Cell): (nat, nat, nat) {
    var (op, r0) := ReadUint(Begun(body), 32, 0);
    var (q, r1) := ReadUint(r0, 64, 0);
    (op, q, ReadCoins(r1).0)
  }

  function BounceBits(op: nat, q: nat, amount: nat): seq<bool> {
    UintBits(OP_BOUNCED, 32) + (UintBits(op, 32) + (UintBits(q, 64) + (CoinsBits(amount) + [])))
  }

  /** A bounce repeats the opening of the body that failed. */
  function BounceCell(body: Cell): Cell {
    var (op, q, amount) := Opening(body);
    var b := BounceBits(op, q, amount);
    Cell(Packed(b), |b|, [])
  }

  /** What a returning internal_transfer gives back. */
  function ReadBounce(body: Cell): Option<nat> {
    var (mark, r0) := ReadUint(Begun(body), 32, 0);
    var (op, r1) := ReadUint(r0, 32, 0);
    if mark != OP_BOUNCED || op != OP_INTERNAL then None else Some(ReadCoins(ReadUint(r1, 64, 0).1).0)
  }

  // ---- steps ----

  /** What handling a message did. */
  datatype Effect = Effect(out: seq<Message>, aborted: bool, paid: Option<nat>, refund: Option<nat>, credited: Option<nat>)

  const NOTHING := Effect([], false, None, None, None)

  function Amount(moved: Option<nat>): nat {
    if moved.Some? then moved.value else 0
  }

  /** A failed handling moves nothing and sends at most one bounce, back where the message came from. */
  ghost predicate FailsWith(m: Message, e: Effect)
    requires m.body.Some?
  {
    && e == Effect(e.out, true, None, None, None) && |e.out| <= 1
    && forall i :: 0 <= i < |e.out| ==>
      m.bounce && e.out[i].bounced && e.out[i].dst == m.src && e.out[i].src == m.dst && e.out[i].body == Some(BounceCell(m.body.value))
  }

  /** The reference jetton wallet's handling of a message, failing whenever the network says. */
  ghost predicate Handles(acc: Accounts, home: Home, n: Net, m: Message, e: Effect) {
    if m.body.None? then e == NOTHING
    else if m.bounced then e == NOTHING.(refund := if m.dst == acc.jettonWallet then ReadBounce(m.body.value) else None)
    else if OpOf(m.body.value) == OP_TRANSFER && m.dst == acc.jettonWallet && ReadTransfer(m.body.value).Some? then
      var t, payload := ReadTransfer(m.body.value).value, ReadRef(TransferRest(m.body.value)).0;
      FailsWith(m, e) || (payload.Some? && n.ours >= t.amount && SendsOn(acc, home, m, t, payload.value, e))
    else if OpOf(m.body.value) == OP_INTERNAL then
      FailsWith(m, e) || (ReadInternal(m.body.value).Some? && Credits(m, ReadInternal(m.body.value).value, e))
    else e == NOTHING
  }

  ghost predicate SendsOn(acc: Accounts, home: Home, m: Message, t: Transfer, payload: Cell, e: Effect) {
    && e == Effect(e.out, false, Some(t.amount), None, None) && |e.out| == 1
    && var o := e.out[0];
      o == Message(o.hash, m.dst, home(t.to), m.value, true, false, Some(InternalCell(t.queryId, t.amount, acc.wallet, t.response, t.forward, payload)))
  }

  ghost predicate Credits(m: Message, t: Internal, e: Effect) {
    e == Effect(e.out, false, None, None, Some(t.amount)) && forall i :: 0 <= i < |e.out| ==> Idle(e.out[i])
  }

  /** New messages are told apart from each other and from every one seen so far. */
  ghost predicate Fresh(n: Net, out: seq<Message>, also: Digest) {
    && (forall i :: 0 <= i < |out| ==> out[i].hash !in n.byIn && out[i].hash !in n.queue && out[i].hash != also)
    && forall i, j :: 0 <= i < j < |out| ==> out[i].hash != out[j].hash
  }

  function Queued(q: map<Digest, Message>, out: seq<Message>): map<Digest, Message> {
    if out == [] then q else Queued(q, out[..|out| - 1])[out[|out| - 1].hash := out[|out| - 1]]
  }

  /** The wallet accepts a signed request and sends its messages. */
  ghost predicate Accept(h: Hasher, parse: AddressParser, acc: Accounts, n: Net, w: Net) {
    exists external: Digest, req: Request, tx: Tx :: Accepts(h, parse, acc, n, w, external, req, tx)
  }

  ghost predicate Accepts(h: Hasher, parse: AddressParser, acc: Accounts, n: Net, w: Net, external: Digest, req: Request, tx: Tx) {
    && external !in n.byIn && external !in n.queue && IsRequest(parse, acc, req) && |req.items| == |req.messages|
    && Fresh(n, Outbox(h, acc, req), external)
    && tx == Tx(acc.wallet, tx.hash, Message(external, NOWHERE, acc.wallet, 0, false, false, None), Outbox(h, acc, req), false, 0, 0)
    && w == n.(byIn := n.byIn[external := tx], queue := Queued(n.queue, Outbox(h, acc, req)))
  }

  function Entry(log: seq<Credit>, m: Message, moved: Option<nat>): seq<Credit> {
    if moved.Some? then log + [Credit(m.hash, m.dst, moved.value)] else log
  }

  /** An account handles one of the messages on their way. */
  ghost predicate Deliver(acc: Accounts, home: Home, n: Net, w: Net) {
    exists m: Message, e: Effect, tx: Tx :: Delivers(acc, home, n, w, m, e, tx)
  }

  ghost predicate Delivers(acc: Accounts, home: Home, n: Net, w: Net, m: Message, e: Effect, tx: Tx) {
    && m.hash in n.queue && n.queue[m.hash] == m && Handles(acc, home, n, m, e) && Fresh(n, e.out, m.hash) && n.ours + Amount(e.refund) >= Amount(e.paid)
    && tx == Tx(m.dst, tx.hash, m, e.out, e.aborted, tx.exitCode, 0)
    && w == Net(n.byIn[m.hash := tx], Queued(n.queue - {m.hash}, e.out), n.ours + Amount(e.refund) - Amount(e.paid),
                if e.credited.Some? then n.balances[m.dst := Balance(n, m.dst) + e.credited.value] else n.balances,
                Entry(n.log, m, e.credited), Entry(n.debits, m, e.paid), Entry(n.refunds, m, e.refund))
  }

  /** A masterchain block references any transactions none referenced before. */
  ghost predicate Seal(n: Net, w: Net) {
    && w == n.(byIn := w.byIn) && w.byIn.Keys == n.byIn.Keys
    && forall k :: k in n.byIn ==> SameTx(n.byIn[k], w.byIn[k])
  }

  ghost predicate Next(h: Hasher, parse: AddressParser, acc: Accounts, home: Home, n: Net, w: Net) {
    Accept(h, parse, acc, n, w) || Deliver(acc, home, n, w) || Seal(n, w)
  }

  const EMPTY := Net(map[], map[], 0, map[], [], [], [])

  ghost predicate Run(h: Hasher, parse: AddressParser, acc: Accounts, home: Home, ns: seq<Net>) {
    && ns != [] && ns[0] == EMPTY.(ours := ns[0].ours)
    && forall i :: 0 <= i < |ns| - 1 ==> Next(h, parse, acc, home, ns[i], ns[i + 1])
  }

  // ---- the invariant ----

  ghost predicate OurTransfer(acc: Accounts, m: Message) {
    m.dst == acc.jettonWallet && m.body.Some? && exists ref: Digest, amount: nat, to: Address :: IsBody(acc, m.body.value, ref, amount, to)
  }

  ghost predicate IsBody(acc: Accounts, body: Cell, ref: Digest, amount: nat, to: Address) {
    amount < COINS_LIMIT && body == BodyCell(ref, amount, to, acc.wallet)
  }

  /** Every transfer on its way to or handled by an account is one of ours. */
  ghost predicate Honest(acc: Accounts, m: Message) {
    && (HasOp(m, OP_TRANSFER) ==> OurTransfer(acc, m))
    && (HasOp(m, OP_INTERNAL) ==> ReadInternal(m.body.value).Some?)
  }

  /** A message sent is on its way until it is what some account handled. */
  ghost predicate Tracked(n: Net, m: Message) {
    if m.hash in n.byIn then n.byIn[m.hash].incoming == m && m.hash !in n.queue else m.hash in n.queue && n.queue[m.hash] == m
  }

  ghost predicate Paid(tx: Tx) { HasOp(tx.incoming, OP_INTERNAL) && !tx.aborted }

  ghost predicate Logged(log: seq<Credit>, msg: Digest) {
    exists j :: 0 <= j < |log| && log[j].msg == msg
  }

  ghost predicate LogTrue(n: Net) {
    && (forall k :: k in n.byIn ==> (Paid(n.byIn[k]) <==> Logged(n.log, k)))
    && (forall j :: 0 <= j < |n.log| ==> EntryTrue(n, n.log[j]))
    && (forall i, j :: 0 <= i < j < |n.log| ==> n.log[i].msg != n.log[j].msg)
  }

  ghost predicate EntryTrue(n: Net, c: Credit) {
    && c.msg in n.byIn && Paid(n.byIn[c.msg]) && c.account == n.byIn[c.msg].incoming.dst
    && ReadInternal(n.byIn[c.msg].incoming.body.value).Some? && c.amount == ReadInternal(n.byIn[c.msg].incoming.body.value).value.amount
  }

  /** A transaction does what its incoming message asks for. */
  ghost predicate TxTrue(acc: Accounts, home: Home, tx: Tx) {
    && Honest(acc, tx.incoming)
    && (tx.incoming.body.None? ==> forall i :: 0 <= i < |tx.out| ==> OurTransfer(acc, tx.out[i]))
    && (HasOp(tx.incoming, OP_TRANSFER) && !tx.aborted ==>
         |tx.out| == 1 && SentOn(home, ReadTransfer(tx.incoming.body.value).value, tx.out[0]))
    && (HasOp(tx.incoming, OP_TRANSFER) && tx.aborted ==> forall i :: 0 <= i < |tx.out| ==> tx.out[i].bounced)
  }

  ghost predicate SentOn(home: Home, t: Transfer, m: Message) {
    && HasOp(m, OP_INTERNAL) && m.dst == home(t.to) && t.ref.Some?
    && ReadInternal(m.body.value).Some? && ReadInternal(m.body.value).value.amount == t.amount && ReadInternal(m.body.value).value.ref == t.ref
  }

  function Total(log: seq<Credit>, a: Address): nat {
    if log == [] then 0
    else Total(log[..|log| - 1], a) + if log[|log| - 1].account == a then log[|log| - 1].amount else 0
  }

  ghost predicate TxsTrue(acc: Accounts, home: Home, n: Net) {
    forall k :: k in n.byIn ==> TxTrue(acc, home, n.byIn[k]) && n.byIn[k].incoming.hash == k
  }

  ghost predicate QueueTrue(acc: Accounts, n: Net) {
    forall k :: k in n.queue ==> n.queue[k].hash == k && Honest(acc, n.queue[k]) && k !in n.byIn
  }

  ghost predicate AllTracked(n: Net) {
    forall k :: k in n.byIn ==> OutTracked(n, n.byIn[k].out)
  }

  ghost predicate OutTracked(n: Net, out: seq<Message>) {
    forall i :: 0 <= i < |out| ==> Tracked(n, out[i])
  }

  ghost predicate Balanced(n: Net) {
    forall a :: Balance(n, a) == Total(n.log, a)
  }

  ghost predicate Lawful(acc: Accounts, home: Home, n: Net) {
    TxsTrue(acc, home, n) && QueueTrue(acc, n) && AllTracked(n) && LogTrue(n) && Balanced(n)
  }

  // ---- every step keeps it ----

  ghost predicate HasHash(out: seq<Message>, k: Digest) {
    exists i :: 0 <= i < |out| && out[i].hash == k
  }

  lemma {:induction false} QueuedHolds(q: map<Digest, Message>, out: seq<Message>)
    requires forall i :: 0 <= i < |out| ==> out[i].hash !in q
    requires forall i, j :: 0 <= i < j < |out| ==> out[i].hash != out[j].hash
    ensures forall k :: k in q ==> k in Queued(q, out) && Queued(q, out)[k] == q[k]
    ensures forall i :: 0 <= i < |out| ==> out[i].hash in Queued(q, out) && Queued(q, out)[out[i].hash] == out[i]
    ensures forall k :: k in Queued(q, out) && k !in q ==> HasHash(out, k)
  {
    if out != [] {
      var init, last := out[..|out| - 1], out[|out| - 1];
      QueuedHolds(q, init);
      assert Queued(q, out) == Queued(q, init)[last.hash := last];
      hide Queued;
      forall i | 0 <= i < |out| ensures out[i].hash in Queued(q, out) && Queued(q, out)[out[i].hash] == out[i] {
        assert i < |init| ==> init[i] == out[i];
      }
      forall k | k in Queued(q, out) && k !in q ensures HasHash(out, k) {
        if k == last.hash {
          assert out[|out| - 1].hash == k;
        } else {
          var i :| 0 <= i < |init| && init[i].hash == k;
          assert out[i].hash == k;
        }
      }
    }
  }

  lemma SealKeeps(acc: Accounts, home: Home, n: Net, w: Net)
    requires Lawful(acc, home, n) && Seal(n, w)
    ensures Lawful(acc, home, w)
  {
    hide OpOf, ReadInternal, ReadTransfer, IsBody;
    forall k | k in w.byIn ensures TxTrue(acc, home, w.byIn[k]) && w.byIn[k].incoming.hash == k && Paid(w.byIn[k]) == Paid(n.byIn[k]) {
      assert SameTx(n.byIn[k], w.byIn[k]);
    }
    forall k | k in w.byIn ensures OutTracked(w, w.byIn[k].out) {
      assert OutTracked(n, n.byIn[k].out) && SameTx(n.byIn[k], w.byIn[k]);
      forall i | 0 <= i < |w.byIn[k].out| ensures Tracked(w, w.byIn[k].out[i]) {
        assert Tracked(n, n.byIn[k].out[i]);
      }
    }
    forall j | 0 <= j < |w.log| ensures EntryTrue(w, w.log[j]) {
      assert EntryTrue(n, n.log[j]);
    }
  }

  lemma OurBody(acc: Accounts, m: Message)
    requires OurTransfer(acc, m)
    ensures ReadTransfer(m.body.value).Some? && OpOf(m.body.value) == OP_TRANSFER && Honest(acc, m)
    ensures var t := ReadTransfer(m.body.value).value;
      t.ref.Some? && t.amount < COINS_LIMIT && t.forward == FORWARD && t.queryId < Pow2(64)
      && ReadRef(TransferRest(m.body.value)).0 == Some(PayloadCell(t.ref.value))
  {
    var ref, amount, to :| IsBody(acc, m.body.value, ref, amount, to);
    BodyReads(ref, amount, to, acc.wallet);
    assert OpOf(m.body.value) == OP_TRANSFER by {
      hide ReadCoins, ReadAddress, ReadMaybeRef, ForwardRef, TransferRest, BodyCell;
    }
    hide *;
  }

  /** The new transaction and its messages, whichever step made them, fit the rest. */
  lemma Records(acc: Accounts, home: Home, n: Net, w: Net, key: Digest, tx: Tx)
    requires TxsTrue(acc, home, n) && QueueTrue(acc, n) && AllTracked(n)
    requires key !in n.byIn && tx.incoming.hash == key && TxTrue(acc, home, tx)
    requires key in n.queue ==> n.queue[key] == tx.incoming
    requires forall i :: 0 <= i < |tx.out| ==> Honest(acc, tx.out[i])
    requires Fresh(n, tx.out, key)
    requires w.byIn == n.byIn[key := tx] && w.queue == Queued(n.queue - {key}, tx.out)
    ensures TxsTrue(acc, home, w) && QueueTrue(acc, w) && AllTracked(w)
  {
    hide TxTrue, Honest, Queued;
    QueuedHolds(n.queue - {key}, tx.out);
    forall k | k in w.byIn ensures OutTracked(w, w.byIn[k].out) {
      if k == key {
        forall i | 0 <= i < |tx.out| ensures Tracked(w, tx.out[i]) {
        }
      } else {
        assert OutTracked(n, n.byIn[k].out);
        forall i | 0 <= i < |n.byIn[k].out| ensures Tracked(w, n.byIn[k].out[i]) {
          assert Tracked(n, n.byIn[k].out[i]);
        }
      }
    }
  }

  lemma AcceptKeeps(h: Hasher, parse: AddressParser, acc: Accounts, home: Home, n: Net, w: Net, external: Digest, req: Request, tx: Tx)
    requires Lawful(acc, home, n) && Accepts(h, parse, acc, n, w, external, req, tx)
    ensures Lawful(acc, home, w)
  {
    hide TxTrue, Honest, OurTransfer, Paid, LogTrue, Balanced, AllTracked, IsRequest, Outbox;
    OutboxHonest(h, parse, acc, req);
    AcceptedTx(acc, home, tx);
    assert n.queue - {external} == n.queue;
    Records(acc, home, n, w, external, tx);
    LogUnmoved(n, w, external, tx);
  }

  lemma OutboxHonest(h: Hasher, parse: AddressParser, acc: Accounts, req: Request)
    requires IsRequest(parse, acc, req) && |req.items| == |req.messages|
    ensures forall i :: 0 <= i < |Outbox(h, acc, req)| ==> OurTransfer(acc, Outbox(h, acc, req)[i]) && Honest(acc, Outbox(h, acc, req)[i])
  {
    hide IsRequest, Outbox, ReadTransfer, ReadInternal, OpOf, OurTransfer, Honest;
    forall i | 0 <= i < |Outbox(h, acc, req)| ensures OurTransfer(acc, Outbox(h, acc, req)[i]) && Honest(acc, Outbox(h, acc, req)[i]) {
      OutboxIsOurs(h, parse, acc, req, i);
      OurBody(acc, Outbox(h, acc, req)[i]);
    }
  }

  lemma AcceptedTx(acc: Accounts, home: Home, tx: Tx)
    requires tx.incoming.body.None? && forall i :: 0 <= i < |tx.out| ==> OurTransfer(acc, tx.out[i])
    ensures TxTrue(acc, home, tx) && !Paid(tx)
  {
    hide OurTransfer;
  }

  lemma OutboxIsOurs(h: Hasher, parse: AddressParser, acc: Accounts, req: Request, i: nat)
    requires IsRequest(parse, acc, req) && i < |req.messages| == |req.items|
    ensures OurTransfer(acc, Outbox(h, acc, req)[i]) && !Outbox(h, acc, req)[i].bounced
  {
    hide ReadTransfer, BodyCell, MessageCell, IsRequest, Outbox, QueryId, COINS_LIMIT;
    ItemReads(h, parse, acc, req, i);
    ItemCarried(parse, acc, req, i);
    assert IsBody(acc, req.bodies[i], req.items[i].ref, req.items[i].amount, parse(req.items[i].merchant).value);
  }

  /** A transaction that credits nothing leaves log and balances true. */
  lemma LogUnmoved(n: Net, w: Net, key: Digest, tx: Tx)
    requires LogTrue(n) && Balanced(n) && key !in n.byIn && !Paid(tx)
    requires w.byIn == n.byIn[key := tx] && w.log == n.log && w.balances == n.balances
    ensures LogTrue(w) && Balanced(w)
  {
    hide ReadInternal, Paid;
    forall j | 0 <= j < |w.log| ensures EntryTrue(w, w.log[j]) && w.log[j].msg != key {
      assert EntryTrue(n, n.log[j]);
    }
    forall a ensures Balance(w, a) == Total(w.log, a) {
      assert Balance(n, a) == Total(n.log, a);
    }
  }

  lemma EntriesStay(n: Net, w: Net, key: Digest, tx: Tx)
    requires LogTrue(n) && key !in n.byIn && w.byIn == n.byIn[key := tx]
    ensures forall j :: 0 <= j < |n.log| ==> EntryTrue(w, n.log[j]) && n.log[j].msg != key
  {
    hide ReadInternal, Paid;
    forall j | 0 <= j < |n.log| ensures EntryTrue(w, n.log[j]) && n.log[j].msg != key {
      assert EntryTrue(n, n.log[j]);
    }
  }

  lemma LoggedAfter(log: seq<Credit>, c: Credit, k: Digest)
    ensures Logged(log + [c], k) <==> Logged(log, k) || k == c.msg
  {
    var all := log + [c];
    if Logged(log, k) {
      var j :| 0 <= j < |log| && log[j].msg == k;
      assert all[j].msg == k;
    }
    assert all[|log|] == c;
  }

  /** A transaction that credits appends exactly its own entry. */
  lemma LogGrows(n: Net, w: Net, key: Digest, tx: Tx, amount: nat)
    requires LogTrue(n) && Balanced(n) && key !in n.byIn && Paid(tx)
    requires tx.incoming.body.Some? && ReadInternal(tx.incoming.body.value).Some? && ReadInternal(tx.incoming.body.value).value.amount == amount
    requires w.byIn == n.byIn[key := tx] && w.log == n.log + [Credit(key, tx.incoming.dst, amount)]
    requires w.balances == n.balances[tx.incoming.dst := Balance(n, tx.incoming.dst) + amount]
    ensures LogTrue(w) && Balanced(w)
  {
    var entry := Credit(key, tx.incoming.dst, amount);
    hide ReadInternal, Paid, EntryTrue, Logged, Balanced, Balance;
    EntriesStay(n, w, key, tx);
    EntryNew(w, key, tx, amount);
    PaidLogged(n, w, key, tx, entry);
    EntriesAll(n, w, entry);
    BalanceGrows(n, w, entry);
  }

  lemma EntryNew(w: Net, key: Digest, tx: Tx, amount: nat)
    requires Paid(tx) && key in w.byIn && w.byIn[key] == tx && tx.incoming.body.Some?
    requires ReadInternal(tx.incoming.body.value).Some? && ReadInternal(tx.incoming.body.value).value.amount == amount
    ensures EntryTrue(w, Credit(key, tx.incoming.dst, amount))
  {
    hide ReadInternal;
  }

  lemma EntriesAll(n: Net, w: Net, entry: Credit)
    requires LogTrue(n) && w.log == n.log + [entry] && EntryTrue(w, entry)
    requires forall j :: 0 <= j < |n.log| ==> EntryTrue(w, n.log[j]) && n.log[j].msg != entry.msg
    ensures forall j :: 0 <= j < |w.log| ==> EntryTrue(w, w.log[j])
    ensures forall i, j :: 0 <= i < j < |w.log| ==> w.log[i].msg != w.log[j].msg
  {
    hide EntryTrue, Paid, Logged;
  }

  lemma PaidLogged(n: Net, w: Net, key: Digest, tx: Tx, entry: Credit)
    requires LogTrue(n) && Paid(tx) && w.byIn == n.byIn[key := tx] && w.log == n.log + [entry] && entry.msg == key
    ensures forall k :: k in w.byIn ==> (Paid(w.byIn[k]) <==> Logged(w.log, k))
  {
    hide EntryTrue, Paid, Logged;
    forall k | k in w.byIn ensures Paid(w.byIn[k]) <==> Logged(w.log, k) {
      LoggedAfter(n.log, entry, k);
    }
  }

  lemma BalanceGrows(n: Net, w: Net, entry: Credit)
    requires Balanced(n) && w.log == n.log + [entry] && w.balances == n.balances[entry.account := Balance(n, entry.account) + entry.amount]
    ensures Balanced(w)
  {
    forall a ensures Balance(w, a) == Total(w.log, a) {
      assert w.log[..|w.log| - 1] == n.log;
      assert Balance(n, a) == Total(n.log, a);
    }
  }

  /** What an honest message's handling leaves behind is true to it, and honest again. */
  lemma HandlingIsTrue(acc: Accounts, home: Home, n: Net, m: Message, e: Effect, tx: Tx)
    requires Honest(acc, m) && Handles(acc, home, n, m, e) && tx == Tx(m.dst, tx.hash, m, e.out, e.aborted, tx.exitCode, 0)
    ensures TxTrue(acc, home, tx)
    ensures forall i :: 0 <= i < |e.out| ==> Honest(acc, e.out[i])
    ensures Paid(tx) <==> e.credited.Some?
    ensures e.credited.Some? ==> m.body.Some? && ReadInternal(m.body.value).Some? && ReadInternal(m.body.value).value.amount == e.credited.value
  {
    if m.body.None? || m.bounced {
      hide *;
      assert e.out == [] && e.credited.None? by { NothingHandled(acc, home, n, m, e); }
      QuietTx(acc, home, m, e, tx);
    } else if OpOf(m.body.value) == OP_TRANSFER {
      TransferHandled(acc, home, n, m, e, tx);
    } else if OpOf(m.body.value) == OP_INTERNAL {
      InternalHandled(acc, home, n, m, e, tx);
    } else {
      hide *;
      assert e.out == [] && e.credited.None? by { NothingHandled(acc, home, n, m, e); }
      QuietTx(acc, home, m, e, tx);
    }
  }

  lemma NothingHandled(acc: Accounts, home: Home, n: Net, m: Message, e: Effect)
    requires Handles(acc, home, n, m, e)
    requires m.body.None? || m.bounced || (OpOf(m.body.value) != OP_TRANSFER && OpOf(m.body.value) != OP_INTERNAL)
    ensures e.out == [] && e.credited.None? && !e.aborted
  {
    hide OpOf, ReadTransfer, ReadInternal, TransferRest;
  }

  lemma QuietTx(acc: Accounts, home: Home, m: Message, e: Effect, tx: Tx)
    requires Honest(acc, m) && tx.incoming == m && tx.out == e.out == [] && e.credited.None?
    requires m.body.None? || m.bounced || (OpOf(m.body.value) != OP_TRANSFER && OpOf(m.body.value) != OP_INTERNAL)
    ensures TxTrue(acc, home, tx) && !Paid(tx)
  {
    hide OpOf, ReadTransfer, ReadInternal, OurTransfer;
  }

  lemma TransferHandled(acc: Accounts, home: Home, n: Net, m: Message, e: Effect, tx: Tx)
    requires Honest(acc, m) && Handles(acc, home, n, m, e) && tx == Tx(m.dst, tx.hash, m, e.out, e.aborted, tx.exitCode, 0)
    requires m.body.Some? && !m.bounced && OpOf(m.body.value) == OP_TRANSFER
    ensures TxTrue(acc, home, tx) && !Paid(tx) && e.credited.None?
    ensures forall i :: 0 <= i < |e.out| ==> Honest(acc, e.out[i])
  {
    hide Honest, Handles, TxTrue, Paid, OpOf, ReadTransfer, TransferRest, ReadInternal, SendsOn, FailsWith, OurTransfer, SentOn, PayloadCell, HasOp;
    HonestIsOurs(acc, m);
    OurBody(acc, m);
    var t := ReadTransfer(m.body.value).value;
    TransferCases(acc, home, n, m, e);
    if !e.aborted {
      SentIsTrue(acc, home, m, t, t.ref.value, e);
    }
    TransferTx(acc, home, m, e, tx);
  }

  lemma HonestIsOurs(acc: Accounts, m: Message)
    requires Honest(acc, m) && m.body.Some? && !m.bounced && OpOf(m.body.value) == OP_TRANSFER
    ensures OurTransfer(acc, m)
  {
    hide OpOf, OurTransfer, ReadInternal;
  }

  lemma TransferTx(acc: Accounts, home: Home, m: Message, e: Effect, tx: Tx)
    requires Honest(acc, m) && tx == Tx(m.dst, tx.hash, m, e.out, e.aborted, tx.exitCode, 0)
    requires m.body.Some? && !m.bounced && OpOf(m.body.value) == OP_TRANSFER && ReadTransfer(m.body.value).Some?
    requires if e.aborted then FailsWith(m, e)
             else |e.out| == 1 && SentOn(home, ReadTransfer(m.body.value).value, e.out[0]) && Honest(acc, e.out[0]) && e.credited.None?
    ensures TxTrue(acc, home, tx) && !Paid(tx) && e.credited.None?
    ensures forall i :: 0 <= i < |e.out| ==> Honest(acc, e.out[i])
  {
    hide OpOf, ReadTransfer, ReadInternal, OurTransfer, SentOn;
  }

  lemma TransferCases(acc: Accounts, home: Home, n: Net, m: Message, e: Effect)
    requires OurTransfer(acc, m) && Handles(acc, home, n, m, e) && m.body.Some? && !m.bounced
    requires OpOf(m.body.value) == OP_TRANSFER && ReadTransfer(m.body.value).Some? && ReadTransfer(m.body.value).value.ref.Some?
    requires ReadRef(TransferRest(m.body.value)).0 == Some(PayloadCell(ReadTransfer(m.body.value).value.ref.value))
    ensures if e.aborted then FailsWith(m, e)
            else SendsOn(acc, home, m, ReadTransfer(m.body.value).value, PayloadCell(ReadTransfer(m.body.value).value.ref.value), e)
  {
    hide OpOf, ReadTransfer, TransferRest, ReadInternal, PayloadCell, IsBody, InternalCell;
  }

  lemma SentIsTrue(acc: Accounts, home: Home, m: Message, t: Transfer, ref: Digest, e: Effect)
    requires SendsOn(acc, home, m, t, PayloadCell(ref), e) && t.ref == Some(ref)
    requires t.amount < COINS_LIMIT && t.forward == FORWARD && t.queryId < Pow2(64)
    ensures |e.out| == 1 && SentOn(home, t, e.out[0]) && Honest(acc, e.out[0]) && e.credited.None? && !e.aborted
  {
    SmallForward();
    InternalReads(t.queryId, t.amount, acc.wallet, t.response, t.forward, ref);
    hide InternalCell, PayloadCell, ReadInternal, OpOf, COINS_LIMIT, Pow2;
  }

  lemma SmallForward()
    ensures FORWARD < COINS_LIMIT
  {
  }

  lemma InternalHandled(acc: Accounts, home: Home, n: Net, m: Message, e: Effect, tx: Tx)
    requires Honest(acc, m) && Handles(acc, home, n, m, e) && tx == Tx(m.dst, tx.hash, m, e.out, e.aborted, tx.exitCode, 0)
    requires m.body.Some? && !m.bounced && OpOf(m.body.value) == OP_INTERNAL
    ensures TxTrue(acc, home, tx) && (Paid(tx) <==> e.credited.Some?)
    ensures e.credited.Some? ==> ReadInternal(m.body.value).Some? && ReadInternal(m.body.value).value.amount == e.credited.value
    ensures forall i :: 0 <= i < |e.out| ==> Honest(acc, e.out[i])
  {
    hide OpOf, ReadTransfer, ReadInternal, TransferRest, OurTransfer;
  }

  lemma DeliverKeeps(acc: Accounts, home: Home, n: Net, w: Net, m: Message, e: Effect, tx: Tx)
    requires Lawful(acc, home, n) && Delivers(acc, home, n, w, m, e, tx)
    ensures Lawful(acc, home, w)
  {
    hide Handles, Honest, TxTrue, Paid, LogTrue, Balanced, ReadInternal, AllTracked;
    HandlingIsTrue(acc, home, n, m, e, tx);
    Records(acc, home, n, w, m.hash, tx);
    if e.credited.Some? {
      LogGrows(n, w, m.hash, tx, e.credited.value);
    } else {
      LogUnmoved(n, w, m.hash, tx);
    }
  }

  lemma NextKeeps(h: Hasher, parse: AddressParser, acc: Accounts, home: Home, n: Net, w: Net)
    requires Lawful(acc, home, n) && Next(h, parse, acc, home, n, w)
    ensures Lawful(acc, home, w)
  {
    hide Lawful, Seal, Accepts, Delivers;
    if Accept(h, parse, acc, n, w) {
      var external: Digest, req: Request, tx: Tx :| Accepts(h, parse, acc, n, w, external, req, tx);
      AcceptKeeps(h, parse, acc, home, n, w, external, req, tx);
    } else if Deliver(acc, home, n, w) {
      var m: Message, e: Effect, tx: Tx :| Delivers(acc, home, n, w, m, e, tx);
      DeliverKeeps(acc, home, n, w, m, e, tx);
    } else {
      SealKeeps(acc, home, n, w);
    }
  }

  lemma {:induction false} RunIsLawful(h: Hasher, parse: AddressParser, acc: Accounts, home: Home, ns: seq<Net>, i: nat)
    requires Run(h, parse, acc, home, ns) && i < |ns|
    ensures Lawful(acc, home, ns[i])
  {
    if i > 0 {
      RunIsLawful(h, parse, acc, home, ns, i - 1);
      hide Lawful, Next;
      NextKeeps(h, parse, acc, home, ns[i - 1], ns[i]);
    }
  }

  // ---- the chain only grows ----

  lemma NextGrows(h: Hasher, parse: AddressParser, acc: Accounts, home: Home, n: Net, w: Net)
    requires QueueTrue(acc, n) && Next(h, parse, acc, home, n, w)
    ensures Grows(n.byIn, w.byIn)
  {
    hide Handles, Honest, IsRequest, Outbox, Fresh, Queued;
  }

  lemma GrowsOn(u: View, v: View, w: View)
    requires Grows(u, v) && Grows(v, w)
    ensures Grows(u, w)
  {
    forall k | k in u ensures k in w && SameTx(u[k], w[k]) {
      assert SameTx(u[k], v[k]) && SameTx(v[k], w[k]);
    }
  }

  lemma StepGrows(h: Hasher, parse: AddressParser, acc: Accounts, home: Home, ns: seq<Net>, j: nat)
    requires Run(h, parse, acc, home, ns) && j < |ns| - 1
    ensures Grows(ns[j].byIn, ns[j + 1].byIn)
  {
    RunIsLawful(h, parse, acc, home, ns, j);
    hide Next, TxsTrue, QueueTrue, AllTracked, LogTrue, Balanced, Grows;
    NextGrows(h, parse, acc, home, ns[j], ns[j + 1]);
  }

  lemma GrowsSelf(v: View)
    ensures Grows(v, v)
  {
  }

  /** Over a whole run the chain only grows, so what is proved of growing chains holds of runs. */
  lemma {:induction false} RunGrows(h: Hasher, parse: AddressParser, acc: Accounts, home: Home, ns: seq<Net>, i: nat, j: nat)
    requires Run(h, parse, acc, home, ns) && i <= j < |ns|
    ensures Grows(ns[i].byIn, ns[j].byIn)
    decreases j
  {
    hide *;
    if i < j {
      RunGrows(h, parse, acc, home, ns, i, j - 1);
      StepGrows(h, parse, acc, home, ns, j - 1);
      GrowsOn(ns[i].byIn, ns[j - 1].byIn, ns[j].byIn);
    } else {
      GrowsSelf(ns[i].byIn);
    }
  }

  // ---- delivered is credited ----

  /** Something the transfer set off put jettons on a merchant's wallet. */
  ghost predicate CreditedFor(n: Net, transfer: Message) {
    transfer.hash in n.byIn && exists i :: 0 <= i < |n.byIn[transfer.hash].out| && Logged(n.log, n.byIn[transfer.hash].out[i].hash)
  }

  /** The log has this payment's own entry: its merchant's jetton wallet, its amount. */
  ghost predicate CreditedAs(n: Net, home: Home, transfer: Message, t: Transfer) {
    transfer.hash in n.byIn && |n.byIn[transfer.hash].out| == 1 && Entered(n.log, Credit(n.byIn[transfer.hash].out[0].hash, home(t.to), t.amount))
  }

  ghost predicate Entered(log: seq<Credit>, c: Credit) {
    exists j :: 0 <= j < |log| && log[j] == c
  }

  /** A message's fate is the transaction that handled it, credited exactly when that paid. */
  lemma FateOf(acc: Accounts, home: Home, n: Net, k: Digest, i: nat)
    requires Lawful(acc, home, n) && k in n.byIn && i < |n.byIn[k].out|
    ensures var m := n.byIn[k].out[i];
      && (m.hash in n.byIn ==> n.byIn[m.hash].incoming == m && TxTrue(acc, home, n.byIn[m.hash]))
      && (Logged(n.log, m.hash) <==> m.hash in n.byIn && HasOp(m, OP_INTERNAL) && !n.byIn[m.hash].aborted)
      && (Logged(n.log, m.hash) ==> m.body.Some? && ReadInternal(m.body.value).Some? && Entered(n.log, Credit(m.hash, m.dst, ReadInternal(m.body.value).value.amount)))
  {
    hide OpOf, ReadInternal, TxTrue, QueueTrue, Balanced;
    var m := n.byIn[k].out[i];
    assert OutTracked(n, n.byIn[k].out);
    assert Tracked(n, m);
    if Logged(n.log, m.hash) {
      var j :| 0 <= j < |n.log| && n.log[j].msg == m.hash;
      assert EntryTrue(n, n.log[j]);
      assert n.log[j] == Credit(m.hash, m.dst, ReadInternal(m.body.value).value.amount);
    }
  }

  lemma InternalIsFirst(home: Home, t: Transfer, out: seq<Message>)
    requires |out| == 1 && SentOn(home, t, out[0])
    ensures First(out, WithOp(OP_INTERNAL)) == 0
  {
    hide OpOf, ReadInternal;
    assert WithOp(OP_INTERNAL)(out[0]);
  }

  /** Following our jetton wallet's internal_transfer ends delivered exactly when it was credited. */
  lemma InternalEnds(acc: Accounts, home: Home, n: Net, v: seq<View>, transfer: Message, t: Transfer, s: seq<Step>)
    requires |v| == 4 && v[2] == n.byIn
    requires Lawful(acc, home, n) && transfer.hash in n.byIn && |n.byIn[transfer.hash].out| == 1
    requires SentOn(home, t, n.byIn[transfer.hash].out[0])
    ensures var m := n.byIn[transfer.hash].out[0];
      && m.body.Some? && FromInternal(v, s, m).Ok?
      && var tr := FromInternal(v, s, m).value;
        && (tr.outcome == Delivered <==> Logged(n.log, m.hash))
        && (tr.outcome == Delivered ==> tr.received == Some(t.amount) && CreditedAs(n, home, transfer, t))
  {
    FateOf(acc, home, n, transfer.hash, 0);
    hide OpOf, ReadInternal, Logged, Entered, Lawful, TxTrue, FromInternal;
    InternalOutcome(v, s, n.byIn[transfer.hash].out[0]);
  }

  lemma BounceIsNoDelivery(v: View, s: seq<Step>, failed: Tx, role: string, outcome: Outcome)
    requires outcome != Delivered
    ensures BouncedBack(v, s, failed, role, outcome).outcome != Delivered
  {
  }

  lemma InternalOutcome(v: seq<View>, s: seq<Step>, m: Message)
    requires |v| == 4 && m.body.Some? && ReadInternal(m.body.value).Some?
    ensures FromInternal(v, s, m).Ok?
    ensures var tr := FromInternal(v, s, m).value;
      && (tr.outcome == Delivered <==> m.hash in v[2] && !v[2][m.hash].aborted)
      && (tr.outcome == Delivered ==> tr.received == Some(ReadInternal(m.body.value).value.amount))
  {
    hide ReadInternal, BouncedBack;
    if m.hash in v[2] {
      BounceIsNoDelivery(v[3], s + [Step("merchant's jetton wallet", "internal_transfer", Some(v[2][m.hash]))], v[2][m.hash], "our jetton wallet", Bounced);
    }
  }

  lemma TransferOutcome(v: seq<View>, s: seq<Step>, transfer: Message)
    requires |v| == 4
    ensures var r := FromTransfer(v, s, transfer);
      if transfer.hash !in v[1] || v[1][transfer.hash].aborted then r.Ok? && r.value.outcome != Delivered
      else
        var ours := v[1][transfer.hash];
        var k := First(ours.out, WithOp(OP_INTERNAL));
        k < |ours.out| ==> r == FromInternal(v, s + [Step("our jetton wallet", "transfer", Some(ours))], ours.out[k])
  {
    hide BouncedBack, FromInternal, First, OpOf;
    if transfer.hash in v[1] {
      BounceIsNoDelivery(v[2], s + [Step("our jetton wallet", "transfer", Some(v[1][transfer.hash]))], v[1][transfer.hash], "wallet", Rejected);
    }
  }

  /** A transfer followed through two looks, the second later, ends delivered exactly when the first saw
      our jetton wallet's handling of it and the second the merchant credited. */
  lemma TransferEnds(acc: Accounts, home: Home, n: Net, w: Net, v: seq<View>, transfer: Message, s: seq<Step>)
    requires |v| == 4 && v[1] == n.byIn && v[2] == w.byIn && Grows(n.byIn, w.byIn)
    requires Lawful(acc, home, w) && transfer.body.Some? && HasOp(transfer, OP_TRANSFER) && ReadTransfer(transfer.body.value).Some?
    requires transfer.hash in w.byIn ==> w.byIn[transfer.hash].incoming == transfer && TxTrue(acc, home, w.byIn[transfer.hash])
    ensures FromTransfer(v, s, transfer).Ok?
    ensures var tr, t := FromTransfer(v, s, transfer).value, ReadTransfer(transfer.body.value).value;
      && (tr.outcome == Delivered <==> transfer.hash in n.byIn && CreditedFor(w, transfer))
      && (tr.outcome == Delivered ==> tr.received == Some(t.amount) && CreditedAs(w, home, transfer, t))
  {
    hide HasOp, ReadInternal, ReadTransfer, Logged, Entered, Lawful, First, FromInternal, FromTransfer, TxTrue, SentOn, CreditedFor, CreditedAs;
    TransferOutcome(v, s, transfer);
    if transfer.hash in n.byIn {
      var ours, t := n.byIn[transfer.hash], ReadTransfer(transfer.body.value).value;
      assert SameTx(ours, w.byIn[transfer.hash]);
      hide Grows;
      if ours.aborted {
        FailedCreditsNothing(acc, home, w, transfer);
      } else {
        SentCredits(acc, home, w, transfer, t);
        InternalIsFirst(home, t, ours.out);
        InternalEnds(acc, home, w, v, transfer, t, s + [Step("our jetton wallet", "transfer", Some(ours))]);
      }
    }
  }

  lemma FailedCreditsNothing(acc: Accounts, home: Home, w: Net, transfer: Message)
    requires Lawful(acc, home, w) && transfer.hash in w.byIn && TxTrue(acc, home, w.byIn[transfer.hash])
    requires w.byIn[transfer.hash].incoming == transfer && HasOp(transfer, OP_TRANSFER) && w.byIn[transfer.hash].aborted
    ensures !CreditedFor(w, transfer)
  {
    var tx := w.byIn[transfer.hash];
    hide OpOf, ReadInternal, ReadTransfer, Logged, Lawful;
    forall i | 0 <= i < |tx.out| ensures !Logged(w.log, tx.out[i].hash) {
      FateOf(acc, home, w, transfer.hash, i);
    }
  }

  lemma SentCredits(acc: Accounts, home: Home, w: Net, transfer: Message, t: Transfer)
    requires transfer.hash in w.byIn && TxTrue(acc, home, w.byIn[transfer.hash])
    requires w.byIn[transfer.hash].incoming == transfer && HasOp(transfer, OP_TRANSFER) && !w.byIn[transfer.hash].aborted
    requires ReadTransfer(transfer.body.value).Some? && t == ReadTransfer(transfer.body.value).value
    ensures var out := w.byIn[transfer.hash].out;
      |out| == 1 && SentOn(home, t, out[0]) && (CreditedFor(w, transfer) <==> Logged(w.log, out[0].hash))
  {
    hide OpOf, ReadInternal, ReadTransfer, Logged, SentOn, Honest;
  }

  // ---- looks taken while the network runs ----

  lemma CarriedIsTransfer(m: Message, ref: Digest)
    requires Bearing(ref)(m)
    ensures m.body.Some? && HasOp(m, OP_TRANSFER) && ReadTransfer(m.body.value).Some?
  {
    hide ReadUint, ReadCoins, ReadAddress, ReadMaybeRef, ForwardRef;
  }

  /** Four looks, each no earlier than the one before. */
  predicate Rising(at: seq<nat>, ns: seq<Net>) {
    |at| == 4 && at[0] <= at[1] <= at[2] <= at[3] < |ns|
  }

  function Looks(ns: seq<Net>, at: seq<nat>): (v: seq<View>)
    requires Rising(at, ns)
    ensures |v| == 4
  {
    [ns[at[0]].byIn, ns[at[1]].byIn, ns[at[2]].byIn, ns[at[3]].byIn]
  }

  /** If the request was accepted, it carried a payment with this reference. */
  predicate OurPayment(n: Net, external: Digest, ref: Digest) {
    external in n.byIn ==> n.byIn[external].incoming.body.None? && First(n.byIn[external].out, Bearing(ref)) < |n.byIn[external].out|
  }

  /** The payment's own message. */
  function PaymentOf(n: Net, external: Digest, ref: Digest): Message
    requires external in n.byIn && OurPayment(n, external, ref)
  {
    n.byIn[external].out[First(n.byIn[external].out, Bearing(ref))]
  }

  /** The trace succeeds, and says delivered exactly when its first look saw the request, its second our
      jetton wallet's handling of the payment and its third the merchant's own jetton wallet credited,
      once, with the very amount the trace reports and the transfer asked for. */
  ghost predicate EndsWell(acc: Accounts, home: Home, n: Net, w: Net, v: seq<View>, external: Digest, ref: Digest, transfer: Message)
    requires |v| == 4 && transfer.body.Some? && ReadTransfer(transfer.body.value).Some?
  {
    && TraceOf(v, external, ref).Ok?
    && var tr, t := TraceOf(v, external, ref).value, ReadTransfer(transfer.body.value).value;
      && (tr.outcome == Delivered <==> external in v[0] && transfer.hash in n.byIn && CreditedFor(w, transfer))
      && (tr.outcome == Delivered ==> tr.received == Some(t.amount) && CreditedAs(w, home, transfer, t))
  }

  lemma PaymentEnds(acc: Accounts, home: Home, n: Net, w: Net, v: seq<View>, external: Digest, ref: Digest, transfer: Message)
    requires |v| == 4 && v[1] == n.byIn && v[2] == w.byIn && Grows(n.byIn, w.byIn) && Lawful(acc, home, w)
    requires external in v[0] && external in w.byIn && w.byIn[external].out == v[0][external].out
    requires var k := First(v[0][external].out, Bearing(ref)); k < |v[0][external].out| && transfer == v[0][external].out[k]
    ensures transfer.body.Some? && ReadTransfer(transfer.body.value).Some? && EndsWell(acc, home, n, w, v, external, ref, transfer)
  {
    hide Lawful, ReadTransfer, HasOp, TraceOf, CreditedFor, CreditedAs, Grows, First, CarriesRef, FromTransfer;
    var k := First(v[0][external].out, Bearing(ref));
    assert Bearing(ref)(transfer);
    CarriedIsTransfer(transfer, ref);
    FateOf(acc, home, w, external, k);
    TransferEnds(acc, home, n, w, v, transfer, [Step("wallet", "external", Some(v[0][external]))]);
    TraceSteps(v, external, ref);
  }

  /** Whenever its four looks are taken, tracing a payment of an accepted request ends well: delivered
      is credited. */
  lemma DeliveredIsCredited(h: Hasher, parse: AddressParser, acc: Accounts, home: Home, ns: seq<Net>, at: seq<nat>, external: Digest, ref: Digest)
    requires Run(h, parse, acc, home, ns) && Rising(at, ns)
    requires external in ns[at[3]].byIn && OurPayment(ns[at[3]], external, ref)
    ensures var transfer := PaymentOf(ns[at[3]], external, ref);
      && transfer.body.Some? && ReadTransfer(transfer.body.value).Some?
      && EndsWell(acc, home, ns[at[1]], ns[at[2]], Looks(ns, at), external, ref, transfer)
  {
    hide Run, Lawful, ReadTransfer, HasOp, TraceOf, EndsWell, First, CarriesRef, Grows, PaymentOf, OurPayment;
    var transfer := PaymentOf(ns[at[3]], external, ref);
    PaymentIsTransfer(ns[at[3]], external, ref);
    if external in ns[at[0]].byIn {
      RunIsLawful(h, parse, acc, home, ns, at[2]);
      RunGrows(h, parse, acc, home, ns, at[1], at[2]);
      SameOut(h, parse, acc, home, ns, at[0], at[2], external);
      SameOut(h, parse, acc, home, ns, at[0], at[3], external);
      PaymentEnds(acc, home, ns[at[1]], ns[at[2]], Looks(ns, at), external, ref, transfer);
    } else {
      UnseenEnds(acc, home, ns[at[1]], ns[at[2]], Looks(ns, at), external, ref, transfer);
    }
  }

  lemma PaymentIsTransfer(n: Net, external: Digest, ref: Digest)
    requires external in n.byIn && OurPayment(n, external, ref)
    ensures var m, out := PaymentOf(n, external, ref), n.byIn[external].out;
      && m.body.Some? && ReadTransfer(m.body.value).Some?
      && First(out, Bearing(ref)) < |out| && m == out[First(out, Bearing(ref))]
  {
    hide First, CarriesRef;
    CarriedIsTransfer(PaymentOf(n, external, ref), ref);
  }

  lemma UnseenEnds(acc: Accounts, home: Home, n: Net, w: Net, v: seq<View>, external: Digest, ref: Digest, transfer: Message)
    requires |v| == 4 && external !in v[0] && transfer.body.Some? && ReadTransfer(transfer.body.value).Some?
    ensures EndsWell(acc, home, n, w, v, external, ref, transfer)
  {
    hide ReadTransfer, TraceOf, CreditedFor, CreditedAs;
    NotSeenIsNotAccepted(v, external, ref);
  }

  lemma SameOut(h: Hasher, parse: AddressParser, acc: Accounts, home: Home, ns: seq<Net>, i: nat, j: nat, external: Digest)
    requires Run(h, parse, acc, home, ns) && i <= j < |ns| && external in ns[i].byIn
    ensures external in ns[j].byIn && ns[j].byIn[external].out == ns[i].byIn[external].out
  {
    RunGrows(h, parse, acc, home, ns, i, j);
    hide Run;
    assert SameTx(ns[i].byIn[external], ns[j].byIn[external]);
  }

  lemma NotSeenIsNotAccepted(v: seq<View>, external: Digest, ref: Digest)
    requires |v| == 4 && external !in v[0]
    ensures TraceOf(v, external, ref) == Ok(Trace([], NotAccepted, None, None))
  {
    hide First, FromTransfer, CarriesRef;
  }

  lemma TraceSteps(v: seq<View>, external: Digest, ref: Digest)
    requires |v| == 4 && external in v[0] && First(v[0][external].out, Bearing(ref)) < |v[0][external].out|
    ensures TraceOf(v, external, ref) == FromTransfer(v, [Step("wallet", "external", Some(v[0][external]))], v[0][external].out[First(v[0][external].out, Bearing(ref))])
  {
    hide First, FromTransfer, CarriesRef;
  }
}
