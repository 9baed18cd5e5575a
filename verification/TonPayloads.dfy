/** Which messages the reader takes for a payment of ours: exactly those that carry its payload. */
module TonPayloads {
  import opened Bits
  import opened Bytes
  import opened Cells
  import opened CellBuilder
  import opened CellReader
  import opened TonMessage
  import opened TonReader

  // ---- what was read stood there ----

  lemma {:induction false} ShortWhen(r: Rest, n: nat, high: nat)
    ensures ReadUint(r, n, high).1.short <==> r.short || |r.bits| < n
    decreases n
  {
    if n > 0 {
      var (b, rest) := ReadBit(r);
      ShortWhen(rest, n - 1, 2 * high + if b then 1 else 0);
    }
  }

  lemma {:induction false} FromBound(b: seq<bool>, v: nat)
    ensures v * Pow2(|b|) <= UintFrom(b, v) < (v + 1) * Pow2(|b|)
    decreases |b|
  {
    if b != [] {
      var bit: nat := if b[0] then 1 else 0;
      FromBound(b[1..], 2 * v + bit);
      Halves(v, bit, Pow2(|b| - 1));
    }
  }

  lemma Cancels(a: int, b: int, p: int)
    requires p > 0
    ensures a * p < b * p ==> a < b
  {
    if a >= b {
      assert a * p == b * p + (a - b) * p;
      assert (a - b) * p >= 0;
    }
  }

  lemma Quotient(x: nat, q: nat, p: nat)
    requires p > 0 && q * p <= x < (q + 1) * p
    ensures x / p == q
  {
    var d, m := x / p, x % p;
    assert x == d * p + m;
    assert (d + 1) * p == d * p + p;
    Cancels(d, q + 1, p);
    Cancels(q, d + 1, p);
  }

  /** Bits read as a number are that number's bits. */
  lemma {:induction false} BitsBack(b: seq<bool>, v: nat)
    ensures UintBits(UintFrom(b, v), |b|) == b
    decreases |b|
  {
    if b != [] {
      var bit: nat := if b[0] then 1 else 0;
      var x := UintFrom(b, v);
      assert x == UintFrom(b[1..], 2 * v + bit);
      FromBound(b[1..], 2 * v + bit);
      BitsBack(b[1..], 2 * v + bit);
      hide Pow2, UintFrom;
      Quotient(x, 2 * v + bit, Pow2(|b| - 1));
      FirstBit(x, |b|, b[0]);
      hide UintBits;
      assert b == [b[0]] + b[1..];
    }
  }

  lemma FirstBit(x: nat, n: nat, b: bool)
    requires n > 0 && (x / Pow2(n - 1)) % 2 == if b then 1 else 0
    ensures UintBits(x, n) == [b] + UintBits(x, n - 1)
  {
  }

  /** A number that was read in full stands at the front of the bits, and the rest is what is left. */
  lemma UintTells(r: Rest, n: nat)
    requires !ReadUint(r, n, 0).1.short
    ensures var (v, rest) := ReadUint(r, n, 0); r == Rest(UintBits(v, n) + rest.bits, r.refs, false) && rest.refs == r.refs && v < Pow2(n)
  {
    hide *;
    ShortWhen(r, n, 0);
    UintSmall(r, n);
    UintStands(r.bits[..n], r.bits[n..], r.refs);
    assert r == Rest(r.bits[..n] + r.bits[n..], r.refs, false);
  }

  lemma UintSmall(r: Rest, n: nat)
    ensures ReadUint(r, n, 0).0 < Pow2(n)
  {
    UintBound(r, n, 0);
    hide ReadUint, Pow2;
  }

  lemma UintStands(bits: seq<bool>, tail: seq<bool>, refs: seq<Cell>)
    ensures var (v, rest) := ReadUint(Rest(bits + tail, refs, false), |bits|, 0); UintBits(v, |bits|) == bits && rest == Rest(tail, refs, false)
  {
    hide *;
    UintRead(bits, tail, refs, 0);
    BitsBack(bits, 0);
  }

  lemma {:induction false} BytesTell(r: Rest, n: nat)
    requires !ReadBytes(r, n).1.short
    ensures var (p, rest) := ReadBytes(r, n); r == Rest(BytesBits(p) + rest.bits, r.refs, false) && rest.refs == r.refs
    decreases n
  {
    hide ReadUint, UintBits;
    if n > 0 {
      var (b, rest) := ReadByte(r);
      BytesTell(rest, n - 1);
      UintTells(r, 8);
      var (p, end) := ReadBytes(rest, n - 1);
      assert ([b] + p)[1..] == p;
      assert UintBits(b, 8) + (BytesBits(p) + end.bits) == UintBits(b, 8) + BytesBits(p) + end.bits;
    }
  }

  // ---- payloads ----

  /** A payload names a reference exactly when it is our op and the reference's bytes, bit for bit. */
  lemma PayloadSays(p: Cell, ref: Digest)
    ensures PayloadRef(p) == Some(ref) <==> Content(p) == UintBits(PAYLOAD_OP, 32) + BytesBits(ref)
  {
    Payload32();
    hide ReadUint, ReadBytes, Content, UintBits, BytesBits, Pow2;
    var (op, r) := ReadUint(Begun(p), 32, 0);
    var (bytes, end) := ReadBytes(r, 32);
    if PayloadRef(p) == Some(ref) {
      BytesTell(r, 32);
      UintTells(Begun(p), 32);
      assert BytesBits(ref) + [] == BytesBits(ref);
    }
    if Content(p) == UintBits(PAYLOAD_OP, 32) + BytesBits(ref) {
      UintRoundTrip(PAYLOAD_OP, 32, BytesBits(ref), p.refs);
      assert BytesBits(ref) + [] == BytesBits(ref);
      BytesRoundTrip(ref, [], p.refs);
    }
  }

  lemma Payload32()
    ensures PAYLOAD_OP < Pow2(32)
  {
    assert Pow2(8) == 256;
    assert Pow2(16) == 65536;
    assert Pow2(24) == 0x1000000;
    assert Pow2(32) == 0x100000000;
  }

  /** Behind a transfer's fields stands a one, and the next reference is the payload with this reference. */
  predicate Forwards(r: Rest, ref: Digest) {
    !r.short && r.bits != [] && r.bits[0] && r.refs != [] && Content(r.refs[0]) == UintBits(PAYLOAD_OP, 32) + BytesBits(ref)
  }

  lemma ForwardSays(r: Rest, ref: Digest)
    ensures ForwardRef(r) == Some(ref) <==> Forwards(r, ref)
  {
    if r.refs != [] {
      PayloadSays(r.refs[0], ref);
    }
    hide PayloadRef, Content, UintBits, BytesBits;
  }

  lemma TransferSays(body: Cell, ref: Digest)
    ensures ReadTransfer(body).Some? && ReadTransfer(body).value.ref == Some(ref) <==>
      ReadUint(Begun(body), 32, 0).0 == OP_TRANSFER && ForwardRef(TransferRest(body)) == Some(ref)
  {
    hide ReadUint, ReadCoins, ReadAddress, ReadMaybeRef, ForwardRef, Begun;
  }

  /** A message is taken for this payment exactly when it is no bounce, its body opens with the transfer op,
      and its payload is a reference to the payment's own. */
  lemma CarriesSays(m: Message, ref: Digest)
    ensures CarriesRef(m, ref) <==>
      m.body.Some? && !m.bounced && ReadUint(Begun(m.body.value), 32, 0).0 == OP_TRANSFER && Forwards(TransferRest(m.body.value), ref)
  {
    if m.body.Some? {
      TransferSays(m.body.value, ref);
      ForwardSays(TransferRest(m.body.value), ref);
    }
    hide ReadTransfer, ReadUint, Forwards, ForwardRef, TransferRest, Begun;
  }

  /** No message is taken for two payments. */
  lemma CarriesOne(m: Message, ref: Digest, other: Digest)
    requires CarriesRef(m, ref) && CarriesRef(m, other)
    ensures ref == other
  {
    hide ReadUint, ReadTransfer;
  }
}
