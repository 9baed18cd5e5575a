/** Reading jetton payments back out of cells: the request's own, and those found on chain. */
module TonReader {
  import opened Bits
  import opened Bytes
  import opened Bulk
  import opened Cells
  import opened CellBuilder
  import opened CellReader
  import opened TonMessage

  /** A message on chain; its hash is its identity. */
  datatype Message = Message(hash: Digest, src: Address, dst: Address, value: nat, bounce: bool, bounced: bool, body: Option<Cell>)

  // ---- the forward payload ----

  /** The reference in a forward payload: held by reference, our op, 32 bytes and nothing more. */
  function PayloadRef(p: Cell): Option<Digest> {
    var (op, r) := ReadUint(Begun(p), 32, 0);
    if op != PAYLOAD_OP then None
    else
      var (ref, end) := ReadBytes(r, 32);
      if end.short || end.bits != [] then None else Some(ref)
  }

  function ForwardRef(r: Rest): Option<Digest> {
    var (held, r1) := ReadBit(r);
    if !held then None
    else
      var (p, r2) := ReadRef(r1);
      if r2.short || p.None? then None else PayloadRef(p.value)
  }

  /** Where looking for a forward payload leaves the slice. */
  function PastForward(r: Rest): Rest {
    var (held, r1) := ReadBit(r);
    if held then ReadRef(r1).1 else r1
  }

  method ReadForwardRef(s: Slice) returns (ref: Option<Digest>)
    requires s.Valid()
    modifies s
    ensures ref == ForwardRef(old(s.Left())) && s.Valid() && s.Left() == PastForward(old(s.Left()))
  {
    hide ReadUint, ReadBytes, Content, PayloadRef, Begun, Low64, Pow2;
    var held := s.Bit();
    if !held {
      return None;
    }
    var p := s.Ref();
    if s.err || p.None? {
      return None;
    }
    ref := ReadPayload(p.value);
  }

  method ReadPayload(p: Cell) returns (ref: Option<Digest>)
    ensures ref == PayloadRef(p)
  {
    hide ReadUint, ReadBytes, Content, Low64, Pow2, PayloadRef, Begun;
    var ps := new Slice(p);
    PayloadSplits(p);
    var op := ps.Uint(32);
    if op != PAYLOAD_OP {
      return None;
    }
    var bytes := ps.Bytes(32);
    if ps.err || ps.pos != ps.c.bits {
      return None;
    }
    return Some(bytes);
  }

  lemma PayloadSplits(p: Cell)
    ensures var op := ReadUint(Begun(p), 32, 0);
      var x := ReadBytes(op.1, 32);
      PayloadRef(p) == if op.0 != PAYLOAD_OP || x.1.short || |x.1.bits| > 0 then None else Some(x.0)
  {
    hide ReadUint, ReadBytes, Begun;
  }

  // ---- a transfer body ----

  datatype Transfer = Transfer(queryId: nat, amount: nat, to: Address, response: Address, custom: Option<Cell>, forward: nat, ref: Option<Digest>)

  function ReadTransfer(body: Cell): Option<Transfer> {
    var (op, r0) := ReadUint(Begun(body), 32, 0);
    if op != OP_TRANSFER then None
    else
      var (queryId, r1) := ReadUint(r0, 64, 0);
      var (amount, r2) := ReadCoins(r1);
      var (to, r3) := ReadAddress(r2);
      var (response, r4) := ReadAddress(r3);
      var (custom, r5) := ReadMaybeRef(r4);
      var (forward, r6) := ReadCoins(r5);
      Some(Transfer(queryId, amount, to, response, custom, forward, ForwardRef(r6)))
  }

  /** What is left of a transfer body behind its forward amount. */
  function TransferRest(body: Cell): Rest {
    var r0 := ReadUint(Begun(body), 32, 0).1;
    var r1 := ReadUint(r0, 64, 0).1;
    var r2 := ReadCoins(r1).1;
    var r3 := ReadAddress(r2).1;
    var r4 := ReadAddress(r3).1;
    var r5 := ReadMaybeRef(r4).1;
    ReadCoins(r5).1
  }

  predicate CarriesRef(m: Message, ref: Digest) {
    && m.body.Some? && !m.bounced
    && ReadTransfer(m.body.value).Some? && ReadTransfer(m.body.value).value.ref == Some(ref)
  }

  method TransferOf(body: Cell) returns (t: Option<Transfer>)
    ensures t == ReadTransfer(body)
  {
    hide ReadUint, ReadCoins, ReadAddress, ReadMaybeRef, ForwardRef, Content, Low64, Pow2;
    var s := new Slice(body);
    var op := s.Uint(32);
    if op != OP_TRANSFER {
      return None;
    }
    var queryId := s.Uint(64);
    var amount := s.Coins();
    var to := s.Address();
    var response := s.Address();
    var custom := s.MaybeRef();
    var forward := s.Coins();
    var ref := ReadForwardRef(s);
    return Some(Transfer(queryId, amount, to, response, custom, forward, ref));
  }

  /** The first message that carries the reference. */
  ghost predicate IsFound(out: seq<Message>, ref: Digest, found: Option<nat>) {
    if found.None? then forall i :: 0 <= i < |out| ==> !CarriesRef(out[i], ref)
    else found.value < |out| && CarriesRef(out[found.value], ref) && forall i :: 0 <= i < found.value ==> !CarriesRef(out[i], ref)
  }

  method FindTransfer(out: seq<Message>, ref: Digest) returns (found: Option<nat>)
    ensures IsFound(out, ref, found)
  {
    hide ReadTransfer;
    for i := 0 to |out|
      invariant forall k :: 0 <= k < i ==> !CarriesRef(out[k], ref)
    {
      if out[i].body.Some? && !out[i].bounced {
        var t := TransferOf(out[i].body.value);
        if t.Some? && t.value.ref == Some(ref) {
          return Some(i);
        }
      }
    }
    return None;
  }

  // ---- the reader undoes the builder ----

  lemma PayloadReads(ref: Digest)
    ensures PayloadRef(PayloadCell(ref)) == Some(ref)
  {
    var b := PayloadBits(ref);
    Filled(b, []);
    assert |b| == 288;
    hide PayloadBits, ReadUint, ReadBytes, Content;
    PayloadSteps(ref);
  }

  lemma PayloadSteps(ref: Digest)
    ensures var r := ReadUint(Rest(PayloadBits(ref), [], false), 32, 0).1;
      ReadUint(Rest(PayloadBits(ref), [], false), 32, 0).0 == PAYLOAD_OP && ReadBytes(r, 32) == (ref, Rest([], [], false))
  {
    Widths();
    hide ReadUint, ReadBytes, UintBits, BytesBits, Pow2;
    UintRoundTrip(PAYLOAD_OP, 32, BytesBits(ref), []);
    BytesRoundTrip(ref, [], []);
    assert BytesBits(ref) + [] == BytesBits(ref);
  }

  lemma Widths()
    ensures Pow2(6) == 64 && Pow2(8) == 256 && Pow2(31) == 0x8000_0000 && Pow2(32) == 0x1_0000_0000
  {
    Pow256IsPow2(1);
    Pow256IsPow2(4);
    assert Pow256(2) == 65536 && Pow256(4) == 65536 * Pow256(2);
    assert Pow2(32) == 2 * Pow2(31);
  }

  /** A cell made of packed bits reads as those bits. */
  lemma Filled(b: seq<bool>, refs: seq<Cell>)
    ensures Begun(Cell(Packed(b), |b|, refs)) == Rest(b, refs, false)
  {
    forall i | 0 <= i < |b| ensures DataBit(Packed(b), i) == b[i] {
      PackedBit(b, i);
    }
    assert BitsOf(Packed(b), |b|) == b;
  }

  /** A transfer body reads back as exactly the payment it was built for. */
  lemma BodyReads(ref: Digest, amount: nat, to: Address, wallet: Address)
    requires amount < COINS_LIMIT
    ensures ReadTransfer(BodyCell(ref, amount, to, wallet)) == Some(Transfer(QueryId(ref), amount, to, wallet, None, FORWARD, Some(ref)))
    ensures TransferRest(BodyCell(ref, amount, to, wallet)) == Rest([true], [PayloadCell(ref)], false)
  {
    var b, refs := BodyBits(ref, amount, to, wallet), [PayloadCell(ref)];
    Filled(b, refs);
    Widths();
    PayloadReads(ref);
    hide ReadUint, ReadCoins, ReadAddress, UintBits, CoinsBits, AddressBits, PayloadCell, PayloadRef, Packed, Pow2, QueryId;
    var t6 := CoinsBits(FORWARD) + [true];
    var t5 := [false] + t6;
    var t4 := AddressBits(wallet) + t5;
    var t3 := AddressBits(to) + t4;
    var t2 := CoinsBits(amount) + t3;
    var t1 := UintBits(QueryId(ref), 64) + t2;
    UintRoundTrip(OP_TRANSFER, 32, t1, refs);
    UintRoundTrip(QueryId(ref), 64, t2, refs);
    CoinsRoundTrip(amount, t3, refs);
    AddressRoundTrip(to, t4, refs);
    AddressRoundTrip(wallet, t5, refs);
    assert t5[1..] == t6;
    CoinsRoundTrip(FORWARD, [true], refs);
    assert refs[0] == PayloadCell(ref);
  }

  /** What a wallet sends for one message cell. */
  datatype Outgoing = Outgoing(flags: nat, dst: Address, value: nat, extra: bool, fees: (nat, nat), created: (nat, nat), init: bool, body: Option<Cell>)

  function ReadMessage(c: Cell): Outgoing {
    var (flags, r1) := ReadUint(Begun(c), 6, 0);
    var (dst, r2) := ReadAddress(r1);
    var (value, r3) := ReadCoins(r2);
    var (extra, r4) := ReadBit(r3);
    var (ihr, r5) := ReadCoins(r4);
    var (fwd, r6) := ReadCoins(r5);
    var (lt, r7) := ReadUint(r6, 64, 0);
    var (at, r8) := ReadUint(r7, 32, 0);
    var (init, r9) := ReadBit(r8);
    var (body, _) := ReadMaybeRef(r9);
    Outgoing(flags, dst, value, extra, (ihr, fwd), (lt, at), init, body)
  }

  lemma MessageReads(to: Address, value: nat, body: Cell)
    requires value < COINS_LIMIT
    ensures ReadMessage(MessageCell(to, value, body)) == Outgoing(24, to, value, false, (0, 0), (0, 0), false, Some(body))
  {
    var b, refs := MessageBits(to, value), [body];
    Filled(b, refs);
    Widths();
    Pow2Grows(32, 64);
    hide ReadUint, ReadCoins, ReadAddress, UintBits, CoinsBits, AddressBits, Packed, Pow2;
    var t8: seq<bool> := [false, true];
    var t7 := UintBits(0, 32) + t8;
    var t6 := UintBits(0, 64) + t7;
    var t5 := CoinsBits(0) + t6;
    var t4 := CoinsBits(0) + t5;
    var t3 := [false] + t4;
    var t2 := CoinsBits(value) + t3;
    var t1 := AddressBits(to) + t2;
    UintRoundTrip(24, 6, t1, refs);
    AddressRoundTrip(to, t2, refs);
    CoinsRoundTrip(value, t3, refs);
    assert t3[1..] == t4;
    CoinsRoundTrip(0, t5, refs);
    CoinsRoundTrip(0, t6, refs);
    UintRoundTrip(0, 64, t7, refs);
    UintRoundTrip(0, 32, t8, refs);
    assert t8[1..] == [true];
  }

  // ---- the action list and the signed cell ----

  /** The messages of an action list, innermost first: the order a wallet sends them in. */
  function Unwind(list: Cell): Option<seq<Cell>> {
    if |list.refs| == 0 then if list.bits == 0 then Some([]) else None
    else if |list.refs| != 2 then None
    else
      var (tag, r) := ReadUint(Begun(list), 32, 0);
      var (mode, end) := ReadUint(r, 8, 0);
      var before := Unwind(list.refs[0]);
      if tag != SEND_MSG || mode != SEND_MODE || end.bits != [] || before.None? then None
      else Some(before.value + [list.refs[1]])
  }

  lemma ActionReads(refs: seq<Cell>)
    ensures var (tag, r) := ReadUint(Rest(ActionBits(), refs, false), 32, 0);
      tag == SEND_MSG && ReadUint(r, 8, 0) == (SEND_MODE, Rest([], refs, false))
  {
    Widths();
    hide ReadUint, UintBits, Pow2;
    UintRoundTrip(SEND_MSG, 32, UintBits(SEND_MODE, 8), refs);
    UintRoundTrip(SEND_MODE, 8, [], refs);
    assert UintBits(SEND_MODE, 8) + [] == UintBits(SEND_MODE, 8);
  }

  lemma UnwindsOne(list: Cell, message: Cell)
    requires Unwind(list).Some?
    ensures Unwind(Cell(Packed(ActionBits()), 40, [list, message])) == Some(Unwind(list).value + [message])
  {
    var refs := [list, message];
    var c := Cell(Packed(ActionBits()), 40, refs);
    assert c.refs[0] == list && c.refs[1] == message;
    Filled(ActionBits(), refs);
    ActionReads(refs);
    hide ReadUint, ActionBits, Packed, Begun;
  }

  lemma UnwindsNone()
    ensures Unwind(OutList([])) == Some([])
  {
    EmptyList();
  }

  lemma UnwindsMore(before: seq<Cell>, last: Cell)
    requires Unwind(OutList(before)) == Some(before)
    ensures Unwind(OutList(before + [last])) == Some(before + [last])
  {
    hide Unwind, Packed, ActionBits;
    assert (before + [last])[..|before|] == before;
    UnwindsOne(OutList(before), last);
  }

  /** Unwinding the action list gives the messages in list order. */
  lemma {:induction false} UnwindsInOrder(messages: seq<Cell>)
    ensures Unwind(OutList(messages)) == Some(messages)
  {
    hide *;
    if messages == [] {
      UnwindsNone();
    } else {
      var before, last := messages[..|messages| - 1], messages[|messages| - 1];
      UnwindsInOrder(before);
      UnwindsMore(before, last);
      assert before + [last] == messages;
    }
  }

  datatype Signed = Signed(op: nat, walletId: int, validUntil: nat, seqno: nat, list: Option<Cell>, extended: bool)

  function ReadSigned(c: Cell): Signed {
    var (op, r1) := ReadUint(Begun(c), 32, 0);
    var (walletId, r2) := ReadUint(r1, 32, 0);
    var (validUntil, r3) := ReadUint(r2, 32, 0);
    var (seqno, r4) := ReadUint(r3, 32, 0);
    var (list, r5) := ReadMaybeRef(r4);
    var (extended, _) := ReadBit(r5);
    Signed(op, Signed32(walletId), validUntil, seqno, list, extended)
  }

  function Signed32(v: nat): int { CellReader.Signed(v, 32) }

  lemma SignedReads(walletId: Int32, validUntil: Uint32, seqno: Uint32, list: Cell)
    ensures ReadSigned(SigningCell(walletId, validUntil, seqno, list)) == Signed(AUTH_SIGNED, walletId, validUntil, seqno, Some(list), false)
  {
    var b, refs := SigningBits(walletId, validUntil, seqno), [list];
    Filled(b, refs);
    Widths();
    hide ReadUint, UintBits, IntBits, Packed, Pow2, CellReader.Signed;
    var t4: seq<bool> := [true, false];
    var t3 := UintBits(seqno, 32) + t4;
    var t2 := UintBits(validUntil, 32) + t3;
    var t1 := IntBits(walletId, 32) + t2;
    UintRoundTrip(AUTH_SIGNED, 32, t1, refs);
    IntRoundTrip(walletId, 32, t2, refs);
    UintRoundTrip(validUntil, 32, t3, refs);
    UintRoundTrip(seqno, 32, t4, refs);
    assert t4[1..] == [false];
  }

  // ---- main results ----

  /** A message as the wallet's transaction records it. */
  function Recorded(h: Hasher, acc: Accounts, c: Cell): Message {
    var out := ReadMessage(c);
    Message(if Sound(c) then Hash(h, c) else ZERO, acc.wallet, out.dst, out.value, out.flags / 8 % 2 == 1, out.flags / 4 % 2 == 1, out.body)
  }

  /** The messages a batch puts on chain, as the wallet's transaction lists them. */
  function Outbox(h: Hasher, acc: Accounts, req: Request): (out: seq<Message>)
    ensures |out| == |req.messages|
  {
    seq(|req.messages|, i requires 0 <= i < |req.messages| => Recorded(h, acc, req.messages[i]))
  }

  ghost predicate RefsDistinct(items: seq<Payout>) {
    forall i, j :: 0 <= i < j < |items| ==> items[i].ref != items[j].ref
  }

  lemma ItemCarried(parse: AddressParser, acc: Accounts, req: Request, i: nat)
    requires IsRequest(parse, acc, req) && i < |req.items|
    ensures |req.messages| == |req.items| == |req.bodies| && CarriesItem(parse, acc, req.items[i], req.bodies[i], req.messages[i])
  {
    hide CarriesItem, SigningCell, OutList;
  }

  lemma ItemRecorded(h: Hasher, acc: Accounts, c: Cell, body: Cell)
    requires ReadMessage(c) == Outgoing(24, acc.jettonWallet, ATTACH, false, (0, 0), (0, 0), false, Some(body))
    ensures var m := Recorded(h, acc, c); m.src == acc.wallet && m.dst == acc.jettonWallet && m.value == ATTACH && m.bounce && !m.bounced && m.body == Some(body)
  {
    hide ReadMessage, Sound, Hash;
  }

  /** Payout i's message, as the wallet's transaction lists it, is ours and carries exactly payout i. */
  ghost predicate ReadsAsItem(h: Hasher, parse: AddressParser, acc: Accounts, req: Request, i: nat) {
    && i < |req.messages| == |req.items| == |req.bodies| == |Outbox(h, acc, req)| && parse(req.items[i].merchant).Some? && 0 < req.items[i].amount < COINS_LIMIT
    && (var m := Outbox(h, acc, req)[i];
        m.src == acc.wallet && m.dst == acc.jettonWallet && m.value == ATTACH && m.bounce && !m.bounced && m.body == Some(req.bodies[i]))
    && ReadTransfer(req.bodies[i]) == Some(Transfer(QueryId(req.items[i].ref), req.items[i].amount, parse(req.items[i].merchant).value, acc.wallet, None, FORWARD, Some(req.items[i].ref)))
  }

  lemma ItemReads(h: Hasher, parse: AddressParser, acc: Accounts, req: Request, i: nat)
    requires IsRequest(parse, acc, req) && i < |req.items|
    ensures ReadsAsItem(h, parse, acc, req, i)
  {
    hide IsRequest, BodyCell, MessageCell, ReadTransfer, TransferRest, ReadMessage, QueryId, Recorded, COINS_LIMIT, Depth;
    ItemCarried(parse, acc, req, i);
    SmallAttach();
    MessageReads(acc.jettonWallet, ATTACH, req.bodies[i]);
    ItemRecorded(h, acc, req.messages[i], req.bodies[i]);
    BodyReads(req.items[i].ref, req.items[i].amount, parse(req.items[i].merchant).value, acc.wallet);
  }

  lemma SmallAttach()
    ensures ATTACH < COINS_LIMIT
  {
  }

  lemma ItemPays(h: Hasher, parse: AddressParser, acc: Accounts, req: Request, i: nat)
    requires ReadsAsItem(h, parse, acc, req, i)
    ensures i < |req.items| == |req.bodies| && ReadTransfer(req.bodies[i]).Some? && ReadTransfer(req.bodies[i]).value.amount == req.items[i].amount
  {
    hide ReadTransfer, Outbox, QueryId;
  }

  /** The reader undoes the builder.  The signed cell gives back its fields and its action list;
      the list, innermost first, is the batch's messages in list order; each message pays our
      jetton wallet and carries its payout; and, with references that differ, looking for the
      i-th reference among them finds the i-th message. */
  lemma RequestReadsBack(h: Hasher, parse: AddressParser, acc: Accounts, req: Request)
    requires IsRequest(parse, acc, req)
    ensures ReadSigned(req.signing) == Signed(AUTH_SIGNED, WalletIdOf(acc), req.validUntil, req.seqno, Some(OutList(req.messages)), false)
    ensures Unwind(OutList(req.messages)) == Some(req.messages)
    ensures forall i :: 0 <= i < |req.items| ==> i < |req.bodies| && ReadTransfer(req.bodies[i]).Some? && ReadTransfer(req.bodies[i]).value.amount == req.items[i].amount
    ensures RefsDistinct(req.items) ==> forall i :: 0 <= i < |req.items| ==> IsFound(Outbox(h, acc, req), req.items[i].ref, Some(i))
  {
    SignedReads(WalletIdOf(acc), req.validUntil, req.seqno, OutList(req.messages));
    UnwindsInOrder(req.messages);
    hide *;
    SigningIs(parse, acc, req);
    forall i | 0 <= i < |req.items|
      ensures i < |req.bodies| && ReadTransfer(req.bodies[i]).Some? && ReadTransfer(req.bodies[i]).value.amount == req.items[i].amount
      ensures OnlyRef(Outbox(h, acc, req), i, req.items[i].ref)
    {
      ItemReads(h, parse, acc, req, i);
      ItemPays(h, parse, acc, req, i);
      ItemCarriesOnly(h, parse, acc, req, i);
    }
    if RefsDistinct(req.items) {
      forall i | 0 <= i < |req.items| ensures IsFound(Outbox(h, acc, req), req.items[i].ref, Some(i)) {
        FoundThere(Outbox(h, acc, req), req.items, i);
      }
    }
  }

  lemma SigningIs(parse: AddressParser, acc: Accounts, req: Request)
    requires IsRequest(parse, acc, req)
    ensures req.signing == SigningCell(WalletIdOf(acc), req.validUntil, req.seqno, OutList(req.messages))
    ensures |req.items| == |req.messages| == |req.bodies|
  {
    hide SigningCell, OutList, WalletIdOf, CarriesItem;
  }

  /** Message i carries this reference and no other. */
  ghost predicate OnlyRef(out: seq<Message>, i: nat, ref: Digest) {
    i < |out| && forall r :: CarriesRef(out[i], r) <==> r == ref
  }

  lemma ItemCarriesOnly(h: Hasher, parse: AddressParser, acc: Accounts, req: Request, i: nat)
    requires IsRequest(parse, acc, req) && i < |req.items|
    ensures OnlyRef(Outbox(h, acc, req), i, req.items[i].ref)
  {
    hide IsRequest, ReadTransfer, Recorded, QueryId;
    ItemReads(h, parse, acc, req, i);
  }

  lemma FoundThere(out: seq<Message>, items: seq<Payout>, i: nat)
    requires i < |items| == |out| && RefsDistinct(items)
    requires forall k :: 0 <= k < |items| ==> OnlyRef(out, k, items[k].ref)
    ensures IsFound(out, items[i].ref, Some(i))
  {
    hide CarriesRef;
    assert OnlyRef(out, i, items[i].ref);
    forall k | 0 <= k < i ensures !CarriesRef(out[k], items[i].ref) {
      assert OnlyRef(out, k, items[k].ref);
    }
  }
}
