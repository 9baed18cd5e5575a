/** The one signed request that carries a batch of jetton payments out of the wallet. */
module TonMessage {
  import opened Bits
  import opened Bytes
  import opened Bulk
  import opened Cells
  import opened CellBuilder
  import opened CellReader

  const AUTH_SIGNED := 0x7369676e
  const SEND_MSG := 0x0ec3c86d
  const SEND_MODE := 3
  const OP_TRANSFER := 0xf8a7ea5
  const MAX_MESSAGES := 255
  const DEFAULT_WALLET_ID := 0x7FFFFF11
  const ATTACH := 50_000_000
  const FORWARD := 1

  /** The op in front of a reference in a forward payload. */
  const PAYLOAD_OP := 0x3121432c

  type Uint32 = x: int | 0 <= x < 0x1_0000_0000

  type Int32 = x: int | -0x8000_0000 <= x < 0x8000_0000

  datatype Accounts = Accounts(wallet: Address, jettonWallet: Address, walletId: Int32)

  datatype RequestError =
    | EmptyBatch
    | TooManyMessages
    | ZeroAccount
    | ZeroRef(item: nat)
    | BadAmount(item: nat)
    | BadAddress(item: nat)
    | AmountTooLarge(item: nat)
    | BadCell(cause: Error)

  /** How a merchant's written address is read. */
  type AddressParser = Str -> Option<Address>

  datatype Request = Request(seqno: Uint32, validUntil: Uint32, items: seq<Payout>, bodies: seq<Cell>, messages: seq<Cell>, signing: Cell)

  // ---- lengths ----

  lemma CoinsLength(v: nat)
    requires v < COINS_LIMIT
    ensures |CoinsBits(v)| <= 124
  {
    CoinsFit();
    MinimalLength(v, 15);
  }

  lemma AddressLength(a: Address)
    ensures |AddressBits(a)| <= 267
  {
  }

  // ---- a payment's cells ----

  /** The first eight bytes of the reference, echoed by every answer to the payment. */
  function QueryId(ref: Digest): (q: nat)
    ensures q < Pow2(64)
  {
    Pow256IsPow2(8);
    FromBE(ref[..8])
  }

  function PayloadBits(ref: Digest): seq<bool> { UintBits(PAYLOAD_OP, 32) + BytesBits(ref) }

  function PayloadCell(ref: Digest): Cell { Cell(Packed(PayloadBits(ref)), 288, []) }

  function BodyBits(ref: Digest, amount: nat, to: Address, wallet: Address): seq<bool> {
    UintBits(OP_TRANSFER, 32) + (UintBits(QueryId(ref), 64) + (CoinsBits(amount) + (AddressBits(to) + (AddressBits(wallet)
    + ([false] + (CoinsBits(FORWARD) + [true]))))))
  }

  /** A transfer body: the op, the query id, the amount, who is paid, where what is left goes, and
      the reference as forward payload. */
  function BodyCell(ref: Digest, amount: nat, to: Address, wallet: Address): Cell {
    var b := BodyBits(ref, amount, to, wallet);
    Cell(Packed(b), |b|, [PayloadCell(ref)])
  }

  function MessageBits(to: Address, value: nat): seq<bool> {
    UintBits(24, 6) + (AddressBits(to) + (CoinsBits(value) + ([false] + (CoinsBits(0) + (CoinsBits(0) + (UintBits(0, 64) + (UintBits(0, 32) + [false, true])))))))
  }

  /** An internal message: bounceable, no source, no extra currency, no fees, the body by reference. */
  function MessageCell(to: Address, value: nat, body: Cell): Cell {
    var b := MessageBits(to, value);
    Cell(Packed(b), |b|, [body])
  }

  function ActionBits(): (b: seq<bool>)
    ensures |b| == 40
  {
    UintBits(SEND_MSG, 32) + UintBits(SEND_MODE, 8)
  }

  /** The action list: each action wraps the ones before it. */
  function OutList(messages: seq<Cell>): Cell {
    if messages == [] then Cell([], 0, [])
    else Cell(Packed(ActionBits()), 40, [OutList(messages[..|messages| - 1]), messages[|messages| - 1]])
  }

  function SigningBits(walletId: Int32, validUntil: Uint32, seqno: Uint32): (b: seq<bool>)
    ensures |b| == 130
  {
    UintBits(AUTH_SIGNED, 32) + (IntBits(walletId, 32) + (UintBits(validUntil, 32) + (UintBits(seqno, 32) + [true, false])))
  }

  function SigningCell(walletId: Int32, validUntil: Uint32, seqno: Uint32, list: Cell): Cell {
    Cell(Packed(SigningBits(walletId, validUntil, seqno)), 130, [list])
  }

  // ---- building is writing exactly those bits ----

  /** A draft that was given all of b and these references builds that cell. */
  lemma BuildsTo(b: seq<bool>, refs: seq<Cell>)
    requires |b| <= MAX_BITS
    ensures var c := Cell(Packed(b), |b|, refs);
      Built(WithBits(BLANK, b).(refs := refs)) == if Depth(c) <= MAX_DEPTH then Ok(c) else Err(TooDeep)
  {
    hide Packed, WithBits, Depth;
    WithBitsAppends(BLANK, b);
    assert [] + b == b;
    assert WithBits(BLANK, b).(refs := refs) == Draft(b, refs, None);
  }

  lemma CoinsAreBits(d: Draft, v: nat)
    requires v < COINS_LIMIT
    ensures WithCoins(d, v) == WithBits(d, CoinsBits(v))
  {
    WithBitsAppends(d, CoinsBits(v));
  }

  lemma BitIsBits(d: Draft, v: bool)
    ensures WithBit(d, v) == WithBits(d, [v])
  {
    assert WithBits(WithBit(d, v), []) == WithBit(d, v);
  }

  lemma RefOfBits(b: seq<bool>, c: Cell)
    requires |b| <= MAX_BITS
    ensures WithRef(WithBits(BLANK, b), c) == WithBits(BLANK, b).(refs := [c])
  {
    WithBitsAppends(BLANK, b);
  }

  lemma NoRefsNoDepth(data: Str, bits: nat)
    ensures Depth(Cell(data, bits, [])) == 0
  {
    assert Depths(Cell(data, bits, [])) == [];
  }

  lemma DeepestOne(x: nat)
    ensures Deepest([x]) == x + 1
  {
    var ds: seq<nat> := [x];
    assert ds[..|ds| - 1] == [];
    assert Deepest(ds[..|ds| - 1]) == 0;
  }

  lemma OneRefDepth(data: Str, bits: nat, c: Cell)
    ensures Depth(Cell(data, bits, [c])) == Depth(c) + 1
  {
    DeepestOne(Depth(c));
    assert Depths(Cell(data, bits, [c])) == [Depth(c)];
  }

  method TransferPayload(ref: Digest) returns (r: Result<Cell, Error>)
    ensures r == Ok(PayloadCell(ref))
  {
    var b := new Builder();
    WithBitsSplit(BLANK, UintBits(PAYLOAD_OP, 32), BytesBits(ref));
    b.Uint(PAYLOAD_OP, 32);
    b.Bytes(ref);
    NoRefsNoDepth(Packed(PayloadBits(ref)), 288);
    BuildsTo(PayloadBits(ref), []);
    WithBitsAppends(BLANK, PayloadBits(ref));
    r := b.Build();
  }

  /** Why item i has no transfer body, first complaint first. */
  function Fault(parse: AddressParser, i: nat, it: Payout): Option<RequestError> {
    if it.ref == ZERO then Some(ZeroRef(i))
    else if it.amount <= 0 then Some(BadAmount(i))
    else if parse(it.merchant).None? then Some(BadAddress(i))
    else if it.amount >= COINS_LIMIT then Some(AmountTooLarge(i))
    else None
  }

  lemma BodyLength(ref: Digest, amount: nat, to: Address, wallet: Address)
    requires amount < COINS_LIMIT
    ensures |BodyBits(ref, amount, to, wallet)| <= MAX_BITS
  {
    CoinsLength(amount);
    CoinsLength(FORWARD);
    AddressLength(to);
    AddressLength(wallet);
  }

  lemma TwoRefDepth(data: Str, bits: nat, a: Cell, c: Cell)
    ensures Depth(Cell(data, bits, [a, c])) == 1 + if Depth(c) > Depth(a) then Depth(c) else Depth(a)
  {
    DeepestOne(Depth(a));
    var ds: seq<nat> := [Depth(a), Depth(c)];
    assert ds[..|ds| - 1] == [Depth(a)];
    assert Depths(Cell(data, bits, [a, c])) == ds;
  }

  lemma BodyChain(ref: Digest, amount: nat, to: Address, wallet: Address)
    requires amount < COINS_LIMIT
    ensures var d := WithBits(WithBits(WithCoins(WithBits(WithBits(BLANK, UintBits(OP_TRANSFER, 32)), UintBits(QueryId(ref), 64)), amount), AddressBits(to)), AddressBits(wallet));
      WithBit(WithCoins(WithMaybeRef(d, None), FORWARD), true) == WithBits(BLANK, BodyBits(ref, amount, to, wallet))
  {
    hide WithBits, UintBits, CoinsBits, AddressBits, WithCoins, QueryId;
    var r6 := CoinsBits(FORWARD) + [true];
    var r5 := [false] + r6;
    var r4 := AddressBits(wallet) + r5;
    var r3 := AddressBits(to) + r4;
    var r2 := CoinsBits(amount) + r3;
    var r1 := UintBits(QueryId(ref), 64) + r2;
    var d1 := WithBits(BLANK, UintBits(OP_TRANSFER, 32));
    WithBitsSplit(BLANK, UintBits(OP_TRANSFER, 32), r1);
    var d2 := WithBits(d1, UintBits(QueryId(ref), 64));
    WithBitsSplit(d1, UintBits(QueryId(ref), 64), r2);
    var d3 := WithBits(d2, CoinsBits(amount));
    WithBitsSplit(d2, CoinsBits(amount), r3);
    CoinsAreBits(d2, amount);
    var d4 := WithBits(d3, AddressBits(to));
    WithBitsSplit(d3, AddressBits(to), r4);
    var d5 := WithBits(d4, AddressBits(wallet));
    WithBitsSplit(d4, AddressBits(wallet), r5);
    var d6 := WithBits(d5, [false]);
    WithBitsSplit(d5, [false], r6);
    BitIsBits(d5, false);
    var d7 := WithBits(d6, CoinsBits(FORWARD));
    WithBitsSplit(d6, CoinsBits(FORWARD), [true]);
    CoinsAreBits(d6, FORWARD);
    BitIsBits(d7, true);
  }

  /** The body's fields in order, and the payload by reference. */
  method WriteBody(ref: Digest, amount: nat, to: Address, wallet: Address, payload: Cell) returns (cell: Result<Cell, Error>)
    requires payload == PayloadCell(ref)
    ensures if amount < COINS_LIMIT then cell == Ok(BodyCell(ref, amount, to, wallet)) else cell.Err?
  {
    hide WithBits, UintBits, CoinsBits, AddressBits, PayloadCell, BodyBits, BLANK, BodyCell, QueryId;
    var b := new Builder();
    b.Uint(OP_TRANSFER, 32);
    b.Uint(QueryId(ref), 64);
    b.Coins(amount);
    b.Address(to);
    b.Address(wallet);
    b.MaybeRef(None);
    b.Coins(FORWARD);
    b.Bit(true);
    b.Ref(payload);
    cell := b.Build();
    if amount < COINS_LIMIT {
      BodyChain(ref, amount, to, wallet);
      BodyBuilds(ref, amount, to, wallet);
    } else {
      TooLargeSticks(ref, amount, to, wallet, payload);
    }
  }

  method TransferBody(parse: AddressParser, acc: Accounts, i: nat, it: Payout) returns (r: Result<Cell, RequestError>)
    ensures Fault(parse, i, it).Some? ==> r == Err(Fault(parse, i, it).value)
    ensures Fault(parse, i, it).None? ==> r == Ok(BodyCell(it.ref, it.amount, parse(it.merchant).value, acc.wallet))
  {
    hide BodyCell, PayloadCell, COINS_LIMIT;
    if it.ref == ZERO {
      return Err(ZeroRef(i));
    }
    if it.amount <= 0 {
      return Err(BadAmount(i));
    }
    var to := parse(it.merchant);
    if to.None? {
      return Err(BadAddress(i));
    }
    var payload := TransferPayload(it.ref);
    var cell := WriteBody(it.ref, it.amount, to.value, acc.wallet, payload.value);
    if cell.Err? {
      return Err(AmountTooLarge(i));
    }
    return Ok(cell.value);
  }

  lemma BodyBuilds(ref: Digest, amount: nat, to: Address, wallet: Address)
    requires amount < COINS_LIMIT
    ensures Built(WithRef(WithBits(BLANK, BodyBits(ref, amount, to, wallet)), PayloadCell(ref))) == Ok(BodyCell(ref, amount, to, wallet))
    ensures Depth(BodyCell(ref, amount, to, wallet)) == 1
  {
    BodyLength(ref, amount, to, wallet);
    var b := BodyBits(ref, amount, to, wallet);
    hide BodyBits;
    NoRefsNoDepth(Packed(PayloadBits(ref)), 288);
    OneRefDepth(Packed(b), |b|, PayloadCell(ref));
    RefOfBits(b, PayloadCell(ref));
    BuildsTo(b, [PayloadCell(ref)]);
  }

  lemma TooLargeSticks(ref: Digest, amount: nat, to: Address, wallet: Address, payload: Cell)
    requires amount >= COINS_LIMIT
    ensures var d := WithBits(WithBits(WithCoins(WithBits(WithBits(BLANK, UintBits(OP_TRANSFER, 32)), UintBits(QueryId(ref), 64)), amount), AddressBits(to)), AddressBits(wallet));
      Built(WithRef(WithBit(WithCoins(WithMaybeRef(d, None), FORWARD), true), payload)).Err?
  {
    var d1 := WithBits(BLANK, UintBits(OP_TRANSFER, 32));
    WithBitsAppends(BLANK, UintBits(OP_TRANSFER, 32));
    var d2 := WithBits(d1, UintBits(QueryId(ref), 64));
    WithBitsAppends(d1, UintBits(QueryId(ref), 64));
    var d3 := WithCoins(d2, amount);
    WithBitsAppends(d3, AddressBits(to));
    WithBitsAppends(d3, AddressBits(wallet));
  }

  // ---- the whole request ----

  lemma MessageChain(to: Address, value: nat)
    requires value < COINS_LIMIT
    ensures var d := WithCoins(WithCoins(WithBit(WithCoins(WithBits(WithBits(BLANK, UintBits(24, 6)), AddressBits(to)), value), false), 0), 0);
      WithBit(WithBit(WithBits(WithBits(d, UintBits(0, 64)), UintBits(0, 32)), false), true) == WithBits(BLANK, MessageBits(to, value))
  {
    hide WithBits, UintBits, CoinsBits, AddressBits, WithCoins;
    var r7 := UintBits(0, 32) + [false, true];
    var r6 := UintBits(0, 64) + r7;
    var r5 := CoinsBits(0) + r6;
    var r4 := CoinsBits(0) + r5;
    var r3 := [false] + r4;
    var r2 := CoinsBits(value) + r3;
    var r1 := AddressBits(to) + r2;
    var d1 := WithBits(BLANK, UintBits(24, 6));
    WithBitsSplit(BLANK, UintBits(24, 6), r1);
    var d2 := WithBits(d1, AddressBits(to));
    WithBitsSplit(d1, AddressBits(to), r2);
    var d3 := WithBits(d2, CoinsBits(value));
    WithBitsSplit(d2, CoinsBits(value), r3);
    CoinsAreBits(d2, value);
    var d4 := WithBits(d3, [false]);
    WithBitsSplit(d3, [false], r4);
    BitIsBits(d3, false);
    var d5 := WithBits(d4, CoinsBits(0));
    WithBitsSplit(d4, CoinsBits(0), r5);
    CoinsAreBits(d4, 0);
    var d6 := WithBits(d5, CoinsBits(0));
    WithBitsSplit(d5, CoinsBits(0), r6);
    CoinsAreBits(d5, 0);
    var d7 := WithBits(d6, UintBits(0, 64));
    WithBitsSplit(d6, UintBits(0, 64), r7);
    var d8 := WithBits(d7, UintBits(0, 32));
    WithBitsSplit(d7, UintBits(0, 32), [false, true]);
    BitIsBits(d8, false);
    BitIsBits(WithBits(d8, [false]), true);
    WithBitsSplit(d8, [false], [true]);
    assert [false] + [true] == [false, true];
  }

  /** The header's fields in order and the body by reference; an amount that no field holds and a body as
      deep as cells go are the builder's errors, the amount's first. */
  method InternalMessage(to: Address, value: int, body: Cell) returns (r: Result<Cell, Error>)
    ensures !(0 <= value < COINS_LIMIT) ==> r == Err(CoinsTooLarge)
    ensures 0 <= value < COINS_LIMIT && Depth(body) >= MAX_DEPTH ==> r == Err(TooDeep)
    ensures 0 <= value < COINS_LIMIT && Depth(body) < MAX_DEPTH ==>
      r == Ok(MessageCell(to, value, body)) && Depth(MessageCell(to, value, body)) == Depth(body) + 1
  {
    var b := new Builder();
    hide WithBits, UintBits, CoinsBits, AddressBits, MessageBits, BLANK, WithCoins, MessageCell;
    b.Uint(24, 6);
    b.Address(to);
    b.Coins(value);
    b.Bit(false);
    b.Coins(0);
    b.Coins(0);
    b.Uint(0, 64);
    b.Uint(0, 32);
    b.Bit(false);
    b.Bit(true);
    b.Ref(body);
    if 0 <= value < COINS_LIMIT {
      MessageChain(to, value);
      MessageBuilds(to, value, body);
    } else {
      ValueSticks(to, value, body);
    }
    r := b.Build();
  }

  lemma ValueSticks(to: Address, value: int, body: Cell)
    requires !(0 <= value < COINS_LIMIT)
    ensures var d := WithCoins(WithCoins(WithBit(WithCoins(WithBits(WithBits(BLANK, UintBits(24, 6)), AddressBits(to)), value), false), 0), 0);
      Built(WithRef(WithBit(WithBit(WithBits(WithBits(d, UintBits(0, 64)), UintBits(0, 32)), false), true), body)) == Err(CoinsTooLarge)
  {
    hide WithBits, UintBits, AddressBits, Depth, Packed;
    var d1 := WithBits(BLANK, UintBits(24, 6));
    WithBitsAppends(BLANK, UintBits(24, 6));
    AddressLength(to);
    WithBitsAppends(d1, AddressBits(to));
    var d3 := WithCoins(WithBits(d1, AddressBits(to)), value);
    assert d3.err == Some(CoinsTooLarge);
    WithBitsAppends(d3, UintBits(0, 64));
    WithBitsAppends(d3, UintBits(0, 32));
  }

  lemma MessageBuilds(to: Address, value: nat, body: Cell)
    requires value < COINS_LIMIT
    ensures Built(WithRef(WithBits(BLANK, MessageBits(to, value)), body)) == if Depth(body) < MAX_DEPTH then Ok(MessageCell(to, value, body)) else Err(TooDeep)
    ensures Depth(MessageCell(to, value, body)) == Depth(body) + 1
  {
    hide MessageBits, Packed, Built, WithBits, WithRef, Depth;
    var b := MessageBits(to, value);
    MessageLength(to, value);
    OneRefDepth(Packed(b), |b|, body);
    RefOfBits(b, body);
    BuildsTo(b, [body]);
  }

  lemma MessageLength(to: Address, value: nat)
    requires value < COINS_LIMIT
    ensures |MessageBits(to, value)| <= MAX_BITS
  {
    CoinsLength(value);
    CoinsLength(0);
    AddressLength(to);
    hide CoinsBits, UintBits, AddressBits;
  }

  /** One more action around the list. */
  method Action(list: Cell, message: Cell, ghost before: seq<Cell>) returns (r: Result<Cell, Error>)
    requires list == OutList(before) && Depth(list) < MAX_DEPTH && Depth(message) < MAX_DEPTH
    ensures r == Ok(OutList(before + [message]))
    ensures Depth(OutList(before + [message])) == 1 + if Depth(message) > Depth(list) then Depth(message) else Depth(list)
  {
    var b := new Builder();
    hide WithBits, UintBits, Packed;
    b.Ref(list);
    b.Uint(SEND_MSG, 32);
    b.Uint(SEND_MODE, 8);
    b.Ref(message);
    ActionBuilds(list, message);
    assert (before + [message])[..|before|] == before;
    r := b.Build();
  }

  lemma ActionBuilds(list: Cell, message: Cell)
    requires Depth(list) < MAX_DEPTH && Depth(message) < MAX_DEPTH
    ensures var c := Cell(Packed(ActionBits()), 40, [list, message]);
      && Built(WithRef(WithBits(WithBits(WithRef(BLANK, list), UintBits(SEND_MSG, 32)), UintBits(SEND_MODE, 8)), message)) == Ok(c)
      && Depth(c) == 1 + if Depth(message) > Depth(list) then Depth(message) else Depth(list)
  {
    hide UintBits, Packed, WithBits;
    var d := WithRef(BLANK, list);
    WithBitsSplit(d, UintBits(SEND_MSG, 32), UintBits(SEND_MODE, 8));
    WithBitsAppends(d, ActionBits());
    assert d.bits + ActionBits() == ActionBits();
    assert d.refs + [message] == [list, message];
    TwoRefDepth(Packed(ActionBits()), 40, list, message);
  }

  method Signing(walletId: Int32, validUntil: Uint32, seqno: Uint32, list: Cell) returns (r: Result<Cell, Error>)
    requires Depth(list) < MAX_DEPTH
    ensures r == Ok(SigningCell(walletId, validUntil, seqno, list))
  {
    var b := new Builder();
    hide WithBits, UintBits, IntBits, BLANK;
    b.Uint(AUTH_SIGNED, 32);
    b.Int(walletId, 32);
    b.Uint(validUntil, 32);
    b.Uint(seqno, 32);
    b.MaybeRef(Some(list));
    b.Bit(false);
    SigningBuilds(walletId, validUntil, seqno, list);
    r := b.Build();
  }

  lemma SigningBuilds(walletId: Int32, validUntil: Uint32, seqno: Uint32, list: Cell)
    requires Depth(list) < MAX_DEPTH
    ensures var d := WithBits(WithBits(WithBits(WithBits(BLANK, UintBits(AUTH_SIGNED, 32)), IntBits(walletId, 32)), UintBits(validUntil, 32)), UintBits(seqno, 32));
      Built(WithBit(WithMaybeRef(d, Some(list)), false)) == Ok(SigningCell(walletId, validUntil, seqno, list))
  {
    var r3 := UintBits(seqno, 32) + [true, false];
    var r2 := UintBits(validUntil, 32) + r3;
    var r1 := IntBits(walletId, 32) + r2;
    var d1 := WithBits(BLANK, UintBits(AUTH_SIGNED, 32));
    WithBitsSplit(BLANK, UintBits(AUTH_SIGNED, 32), r1);
    var d2 := WithBits(d1, IntBits(walletId, 32));
    WithBitsSplit(d1, IntBits(walletId, 32), r2);
    var d3 := WithBits(d2, UintBits(validUntil, 32));
    WithBitsSplit(d2, UintBits(validUntil, 32), r3);
    var d4 := WithBits(d3, UintBits(seqno, 32));
    WithBitsSplit(d3, UintBits(seqno, 32), [true, false]);
    WithBitsSplit(d4, [true], [false]);
    assert [true] + [false] == [true, false];
    SigningRoom(walletId, validUntil, seqno, list, d4);
  }

  lemma SigningRoom(walletId: Int32, validUntil: Uint32, seqno: Uint32, list: Cell, d: Draft)
    requires Depth(list) < MAX_DEPTH
    requires WithBits(BLANK, SigningBits(walletId, validUntil, seqno)) == WithBits(WithBits(d, [true]), [false])
    ensures Built(WithBit(WithMaybeRef(d, Some(list)), false)) == Ok(SigningCell(walletId, validUntil, seqno, list))
  {
    var b := SigningBits(walletId, validUntil, seqno);
    hide SigningBits;
    WithBitsAppends(BLANK, b);
    assert [] + b == b;
    BitIsBits(d, true);
    BitIsBits(WithBit(d, true), false);
    hide WithBits;
    assert WithBit(WithBit(d, true), false) == Draft(b, [], None);
    assert WithBit(WithMaybeRef(d, Some(list)), false) == Draft(b, [list], None);
    OneRefDepth(Packed(b), 130, list);
  }

  ghost predicate AllSendable(parse: AddressParser, items: seq<Payout>, n: nat) {
    n <= |items| && forall i :: 0 <= i < n ==> Fault(parse, i, items[i]).None?
  }

  /** The request holds one body and one message per payout, in list order. */
  ghost predicate Carries(parse: AddressParser, acc: Accounts, req: Request) {
    && |req.items| == |req.bodies| == |req.messages|
    && forall i :: 0 <= i < |req.items| ==> CarriesItem(parse, acc, req.items[i], req.bodies[i], req.messages[i])
  }

  ghost predicate CarriesItem(parse: AddressParser, acc: Accounts, it: Payout, body: Cell, message: Cell) {
    && parse(it.merchant).Some? && 0 < it.amount < COINS_LIMIT && it.ref != ZERO
    && body == BodyCell(it.ref, it.amount, parse(it.merchant).value, acc.wallet)
    && message == MessageCell(acc.jettonWallet, ATTACH, body)
    && Depth(message) == 2
  }

  function WalletIdOf(acc: Accounts): Int32 {
    if acc.walletId == 0 then DEFAULT_WALLET_ID else acc.walletId
  }

  ghost predicate IsRequest(parse: AddressParser, acc: Accounts, req: Request) {
    && Carries(parse, acc, req)
    && req.signing == SigningCell(WalletIdOf(acc), req.validUntil, req.seqno, OutList(req.messages))
  }

  method BuildItem(parse: AddressParser, acc: Accounts, i: nat, it: Payout) returns (r: Result<(Cell, Cell), RequestError>)
    ensures Fault(parse, i, it).Some? ==> r == Err(Fault(parse, i, it).value)
    ensures Fault(parse, i, it).None? ==> r.Ok? && CarriesItem(parse, acc, it, r.value.0, r.value.1)
  {
    hide BodyCell, MessageCell, Fault, Depth, Built, BodyBits, PayloadCell;
    var body := TransferBody(parse, acc, i, it);
    if body.Err? {
      return Err(body.error);
    }
    SendableTerms(parse, i, it);
    BodyBuilds(it.ref, it.amount, parse(it.merchant).value, acc.wallet);
    var message := InternalMessage(acc.jettonWallet, ATTACH, body.value);
    if message.Err? {
      assert false;
      return Err(BadCell(TooDeep));
    }
    return Ok((body.value, message.value));
  }

  lemma SendableTerms(parse: AddressParser, i: nat, it: Payout)
    requires Fault(parse, i, it).None?
    ensures parse(it.merchant).Some? && 0 < it.amount < COINS_LIMIT && it.ref != ZERO
  {
  }

  ghost predicate AllCarried(parse: AddressParser, acc: Accounts, items: seq<Payout>, bodies: seq<Cell>, messages: seq<Cell>) {
    |bodies| == |messages| <= |items| && forall i :: 0 <= i < |bodies| ==> CarriesItem(parse, acc, items[i], bodies[i], messages[i])
  }

  method BuildMessages(parse: AddressParser, acc: Accounts, items: seq<Payout>) returns (r: Result<(seq<Cell>, seq<Cell>), RequestError>)
    ensures r.Err? ==> FirstFault(parse, items, r.error)
    ensures r.Ok? ==> |r.value.0| == |items| && AllCarried(parse, acc, items, r.value.0, r.value.1) && AllSendable(parse, items, |items|)
  {
    var bodies: seq<Cell>, messages: seq<Cell> := [], [];
    hide CarriesItem, Fault;
    for i := 0 to |items|
      invariant |bodies| == i && AllSendable(parse, items, i) && AllCarried(parse, acc, items, bodies, messages)
    {
      var built := BuildItem(parse, acc, i, items[i]);
      if built.Err? {
        assert Fault(parse, i, items[i]) == Some(built.error);
        return Err(built.error);
      }
      bodies, messages := bodies + [built.value.0], messages + [built.value.1];
    }
    return Ok((bodies, messages));
  }

  /** A payout a batch can send: to an address, for a payment, of an amount a message can carry. */
  predicate Sendable(parse: AddressParser, it: Payout) {
    it.ref != ZERO && 0 < it.amount < COINS_LIMIT && parse(it.merchant).Some?
  }

  /** The error that names what is wrong with the i-th payout, its ref before its amount before its address. */
  predicate Blames(parse: AddressParser, e: RequestError, i: nat, it: Payout) {
    match e
    case ZeroRef(n) => n == i && it.ref == ZERO
    case BadAmount(n) => n == i && it.ref != ZERO && it.amount <= 0
    case BadAddress(n) => n == i && it.ref != ZERO && it.amount > 0 && parse(it.merchant).None?
    case AmountTooLarge(n) => n == i && it.ref != ZERO && it.amount >= COINS_LIMIT && parse(it.merchant).Some?
    case _ => false
  }

  ghost predicate AllGood(parse: AddressParser, items: seq<Payout>, n: nat) {
    n <= |items| && forall i :: 0 <= i < n ==> Sendable(parse, items[i])
  }

  lemma FaultSays(parse: AddressParser, items: seq<Payout>)
    ensures AllSendable(parse, items, |items|) <==> AllGood(parse, items, |items|)
    ensures forall e :: FirstFault(parse, items, e) ==>
      exists i :: 0 <= i < |items| && AllGood(parse, items, i) && !Sendable(parse, items[i]) && Blames(parse, e, i, items[i])
  {
    forall i | 0 <= i < |items|
      ensures Fault(parse, i, items[i]).None? <==> Sendable(parse, items[i])
      ensures Fault(parse, i, items[i]).Some? ==> Blames(parse, Fault(parse, i, items[i]).value, i, items[i])
    {
    }
    hide Fault, Sendable, Blames;
    forall e | FirstFault(parse, items, e)
      ensures exists i :: 0 <= i < |items| && AllGood(parse, items, i) && !Sendable(parse, items[i]) && Blames(parse, e, i, items[i])
    {
      var i :| 0 <= i < |items| && AllSendable(parse, items, i) && Fault(parse, i, items[i]) == Some(e);
      assert AllGood(parse, items, i) && !Sendable(parse, items[i]);
    }
  }

  /** The error of the first item that cannot be sent. */
  ghost predicate FirstFault(parse: AddressParser, items: seq<Payout>, e: RequestError) {
    exists i :: 0 <= i < |items| && AllSendable(parse, items, i) && Fault(parse, i, items[i]) == Some(e)
  }

  lemma EmptyList()
    ensures OutList([]) == Cell([], 0, []) && Depth(OutList([])) == 0 && Built(BLANK) == Ok(OutList([]))
  {
    NoRefsNoDepth([], 0);
    assert Packed([]) == [];
  }

  method WrapActions(messages: seq<Cell>) returns (r: Result<Cell, Error>)
    requires |messages| <= MAX_MESSAGES && forall i :: 0 <= i < |messages| ==> Depth(messages[i]) == 2
    ensures r == Ok(OutList(messages)) && Depth(OutList(messages)) <= |messages| + 2
  {
    EmptyList();
    hide OutList, Depth, Built;
    var b := new Builder();
    var empty := b.Build();
    var list := empty.value;
    for i := 0 to |messages|
      invariant list == OutList(messages[..i]) && Depth(list) <= i + 2
    {
      var next := Action(list, messages[i], messages[..i]);
      assert messages[..i] + [messages[i]] == messages[..i + 1];
      list := next.value;
    }
    assert messages[..|messages|] == messages;
    return Ok(list);
  }

  method TransferRequest(parse: AddressParser, acc: Accounts, seqno: Uint32, validUntil: Uint32, items: seq<Payout>) returns (r: Result<Request, RequestError>)
    ensures items == [] ==> r == Err(EmptyBatch)
    ensures |items| > MAX_MESSAGES ==> r == Err(TooManyMessages)
    ensures 0 < |items| <= MAX_MESSAGES && (acc.wallet == NOWHERE || acc.jettonWallet == NOWHERE) ==> r == Err(ZeroAccount)
    ensures 0 < |items| <= MAX_MESSAGES && acc.wallet != NOWHERE && acc.jettonWallet != NOWHERE ==>
      if r.Ok? then AllSendable(parse, items, |items|) else FirstFault(parse, items, r.error)
    ensures r.Ok? ==> IsRequest(parse, acc, r.value) && r.value.items == items && r.value.seqno == seqno && r.value.validUntil == validUntil
    ensures r.Ok? <==> 0 < |items| <= MAX_MESSAGES && acc.wallet != NOWHERE && acc.jettonWallet != NOWHERE && AllGood(parse, items, |items|)
    ensures 0 < |items| <= MAX_MESSAGES && acc.wallet != NOWHERE && acc.jettonWallet != NOWHERE && r.Err? ==>
      exists i :: 0 <= i < |items| && AllGood(parse, items, i) && !Sendable(parse, items[i]) && Blames(parse, r.error, i, items[i])
  {
    FaultSays(parse, items);
    hide OutList, SigningCell, CarriesItem, Fault, FirstFault, Depth, AllSendable, Sendable, Blames;
    if |items| == 0 {
      return Err(EmptyBatch);
    }
    if |items| > MAX_MESSAGES {
      return Err(TooManyMessages);
    }
    if acc.wallet == NOWHERE || acc.jettonWallet == NOWHERE {
      return Err(ZeroAccount);
    }
    var built := BuildMessages(parse, acc, items);
    if built.Err? {
      return Err(built.error);
    }
    DepthsOf(parse, acc, items, built.value.0, built.value.1);
    var list := WrapActions(built.value.1);
    var signing := Signing(WalletIdOf(acc), validUntil, seqno, list.value);
    return Ok(Request(seqno, validUntil, items, built.value.0, built.value.1, signing.value));
  }

  lemma DepthsOf(parse: AddressParser, acc: Accounts, items: seq<Payout>, bodies: seq<Cell>, messages: seq<Cell>)
    requires AllCarried(parse, acc, items, bodies, messages)
    ensures forall i :: 0 <= i < |messages| ==> Depth(messages[i]) == 2
  {
    forall i | 0 <= i < |messages| ensures Depth(messages[i]) == 2 {
      assert CarriesItem(parse, acc, items[i], bodies[i], messages[i]);
    }
  }
}
