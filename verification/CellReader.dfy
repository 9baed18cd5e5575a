/** Reading a cell field by field, and the round trip through a builder. */
module CellReader {
  import opened Bits
  import opened Bytes
  import opened Cells
  import opened CellBuilder

  /** What a slice has left; once it has read past the end, everything after reads as zero. */
  datatype Rest = Rest(bits: seq<bool>, refs: seq<Cell>, short: bool)

  function Begun(c: Cell): Rest { Rest(Content(c), c.refs, false) }

  // ---- what each read returns ----

  function ReadBit(r: Rest): (bool, Rest) {
    if r.short then (false, r)
    else if r.bits == [] then (false, r.(short := true))
    else (r.bits[0], r.(bits := r.bits[1..]))
  }

  function ReadUint(r: Rest, n: nat, high: nat): (nat, Rest)
    decreases n
  {
    if n == 0 then (high, r)
    else
      var (b, rest) := ReadBit(r);
      ReadUint(rest, n - 1, 2 * high + if b then 1 else 0)
  }

  function Signed(v: nat, n: nat): int {
    if n > 0 && v / Pow2(n - 1) == 1 then v - Pow2(n) else v
  }

  lemma {:induction false} UintBound(r: Rest, n: nat, high: nat)
    ensures high * Pow2(n) <= ReadUint(r, n, high).0 < (high + 1) * Pow2(n)
    decreases n
  {
    if n > 0 {
      var (b, rest) := ReadBit(r);
      var next := 2 * high + if b then 1 else 0;
      UintBound(rest, n - 1, next);
      Halves(high, if b then 1 else 0, Pow2(n - 1));
    }
  }

  lemma Halves(high: nat, bit: nat, p: nat)
    requires bit <= 1
    ensures high * (2 * p) <= (2 * high + bit) * p && (2 * high + bit + 1) * p <= (high + 1) * (2 * p)
  {
    assert (2 * high + bit) * p == high * (2 * p) + bit * p;
    assert (high + 1) * (2 * p) == high * (2 * p) + 2 * p;
    assert (2 * high + bit + 1) * p == high * (2 * p) + bit * p + p;
  }

  function ReadByte(r: Rest): (Byte, Rest) {
    UintBound(r, 8, 0);
    assert Pow2(8) == 256;
    ReadUint(r, 8, 0)
  }

  function ReadBytes(r: Rest, n: nat): (x: (Str, Rest))
    ensures |x.0| == n
    decreases n
  {
    if n == 0 then ([], r)
    else
      var (b, rest) := ReadByte(r);
      var (more, end) := ReadBytes(rest, n - 1);
      ([b] + more, end)
  }

  /** What was read so far in front of what is still to come. */
  function Behind(p: Str, x: (Str, Rest)): (Str, Rest) { (p + x.0, x.1) }

  lemma BytesStep(p: Str, r: Rest, n: nat)
    requires n > 0
    ensures Behind(p, ReadBytes(r, n)) == Behind(p + [ReadByte(r).0], ReadBytes(ReadByte(r).1, n - 1))
  {
    hide ReadByte;
    var b, more := ReadByte(r).0, ReadBytes(ReadByte(r).1, n - 1).0;
    assert p + ([b] + more) == (p + [b]) + more;
  }

  lemma BytesEnd(p: Str, r: Rest, whole: (Str, Rest))
    requires Behind(p, ReadBytes(r, 0)) == Behind([], whole)
    ensures (p, r) == whole
  {
    assert p + [] == p && [] + whole.0 == whole.0;
  }

  function ReadCoins(r: Rest): (nat, Rest) {
    var (n, rest) := ReadUint(r, 4, 0);
    var (p, end) := ReadBytes(rest, n);
    (FromBE(p), end)
  }

  function ReadInt8(r: Rest): (Int8, Rest) {
    UintBound(r, 8, 0);
    assert Pow2(8) == 256 && Pow2(7) == 128;
    var (v, rest) := ReadUint(r, 8, 0);
    (Signed(v, 8), rest)
  }

  function ReadAddress(r: Rest): (Address, Rest) {
    var (tag, rest) := ReadUint(r, 2, 0);
    if tag == 0 then (NOWHERE, rest)
    else if tag == 2 then
      var (anycast, std) := ReadBit(rest);
      if anycast then (NOWHERE, std.(short := true))
      else
        var (workchain, tail) := ReadInt8(std);
        var (hash, end) := ReadBytes(tail, 32);
        (Address(workchain, hash), end)
    else (NOWHERE, rest.(short := true))
  }

  function ReadRef(r: Rest): (Option<Cell>, Rest) {
    if r.short then (None, r)
    else if r.refs == [] then (None, r.(short := true))
    else (Some(r.refs[0]), r.(refs := r.refs[1..]))
  }

  function ReadMaybeRef(r: Rest): (Option<Cell>, Rest) {
    var (b, rest) := ReadBit(r);
    if !b then (None, rest) else ReadRef(rest)
  }

  /** The low 64 bits. */
  function Low64(v: nat): nat { v % Pow2(64) }

  lemma Low64Is(v: nat)
    ensures v < Pow2(64) ==> Low64(v) == v
  {
    hide Pow2;
  }

  lemma ShiftedIn(whole: nat, bit: nat)
    ensures Low64(2 * Low64(whole) + bit) == Low64(2 * whole + bit)
  {
    hide Pow2;
    ShiftedMod(whole, bit, Pow2(64));
  }

  lemma ShiftedMod(whole: nat, bit: nat, p: nat)
    requires p > 0
    ensures (2 * (whole % p) + bit) % p == (2 * whole + bit) % p
  {
    var q, m := whole / p, whole % p;
    var a, b := (2 * m + bit) / p, (2 * m + bit) % p;
    TwiceOver(whole, bit, p, q, m, a, b);
    DivModUnique(2 * whole + bit, p, 2 * q + a, b);
  }

  lemma TwiceOver(whole: nat, bit: nat, p: nat, q: nat, m: nat, a: nat, b: nat)
    requires whole == q * p + m && 2 * m + bit == a * p + b
    ensures 2 * whole + bit == (2 * q + a) * p + b
  {
    assert (2 * q + a) * p == 2 * (q * p) + a * p;
  }

  lemma FitsIn64(r: Rest, n: nat)
    requires n <= 64
    ensures ReadUint(r, n, 0).0 < Pow2(64)
  {
    hide Pow2, ReadUint;
    UintBound(r, n, 0);
    Pow2Grows(n, 64);
  }

  lemma SmallIsLow()
    ensures Low64(0) == 0
  {
    hide Pow2;
    Low64Is(0);
  }

  // ---- the slice ----

  class Slice {
    const c: Cell
    var pos: nat
    var ref: nat
    var err: bool

    ghost predicate Valid()
      reads this
    {
      pos <= c.bits && ref <= |c.refs|
    }

    ghost function Left(): Rest
      requires Valid()
      reads this
    {
      Rest(Content(c)[pos..], c.refs[ref..], err)
    }

    constructor (cell: Cell)
      ensures Valid() && c == cell && Left() == Begun(cell)
    {
      c := cell;
      pos, ref, err := 0, 0, false;
    }

    method Bit() returns (v: bool)
      requires Valid()
      modifies this
      ensures Valid() && (v, Left()) == ReadBit(old(Left()))
    {
      if err {
        return false;
      }
      if pos >= c.bits {
        err := true;
        return false;
      }
      v := DataBit(c.data, pos);
      pos := pos + 1;
    }

    /** Read n bits, the high bit first, into 64: of a longer number the low 64 remain. */
    method Uint(n: nat) returns (v: nat)
      requires Valid()
      modifies this
      ensures Valid() && Left() == ReadUint(old(Left()), n, 0).1 && v == Low64(ReadUint(old(Left()), n, 0).0)
      ensures n <= 64 ==> v == ReadUint(old(Left()), n, 0).0
    {
      hide Low64, Content;
      v := 0;
      ghost var whole: nat := 0;
      ghost var start := Left();
      SmallIsLow();
      for i := 0 to n
        invariant Valid() && ReadUint(Left(), n - i, whole) == ReadUint(start, n, 0) && v == Low64(whole)
      {
        var b := Bit();
        ShiftedIn(whole, if b then 1 else 0);
        v := Low64(2 * v + if b then 1 else 0);
        whole := 2 * whole + if b then 1 else 0;
      }
      if n <= 64 {
        FitsIn64(start, n);
        Low64Is(whole);
      }
    }

    method Byte() returns (b: Byte)
      requires Valid()
      modifies this
      ensures Valid() && (b, Left()) == ReadByte(old(Left()))
    {
      UintBound(Left(), 8, 0);
      assert Pow2(8) == 256;
      b := Uint(8);
    }

    method Int8() returns (v: Int8)
      requires Valid()
      modifies this
      ensures Valid() && (v, Left()) == ReadInt8(old(Left()))
    {
      UintBound(Left(), 8, 0);
      assert Pow2(8) == 256 && Pow2(7) == 128;
      var u := Uint(8);
      v := Signed(u, 8);
    }

    method Bytes(n: nat) returns (p: Str)
      requires Valid()
      modifies this
      ensures Valid() && (p, Left()) == ReadBytes(old(Left()), n)
    {
      hide *;
      p := [];
      ghost var start := Left();
      for i := 0 to n
        invariant Valid() && Behind(p, ReadBytes(Left(), n - i)) == Behind([], ReadBytes(start, n))
      {
        BytesStep(p, Left(), n - i);
        var b := Byte();
        p := p + [b];
      }
      BytesEnd(p, Left(), ReadBytes(start, n));
    }

    method Coins() returns (v: nat)
      requires Valid()
      modifies this
      ensures Valid() && (v, Left()) == ReadCoins(old(Left()))
    {
      var n := Uint(4);
      var p := Bytes(n);
      v := FromBE(p);
    }

    method Address() returns (a: Address)
      requires Valid()
      modifies this
      ensures Valid() && (a, Left()) == ReadAddress(old(Left()))
    {
      hide ReadUint, ReadInt8, ReadBytes, Content;
      var tag := Uint(2);
      if tag == 0 {
        return NOWHERE;
      }
      if tag == 2 {
        var anycast := Bit();
        if anycast {
          err := true;
          return NOWHERE;
        }
        var workchain := Int8();
        var hash := Bytes(32);
        return CellBuilder.Address.Address(workchain, hash);
      }
      err := true;
      return NOWHERE;
    }

    method Ref() returns (r: Option<Cell>)
      requires Valid()
      modifies this
      ensures Valid() && (r, Left()) == ReadRef(old(Left()))
    {
      if err {
        return None;
      }
      if ref >= |c.refs| {
        err := true;
        return None;
      }
      r := Some(c.refs[ref]);
      ref := ref + 1;
    }

    method MaybeRef() returns (r: Option<Cell>)
      requires Valid()
      modifies this
      ensures Valid() && (r, Left()) == ReadMaybeRef(old(Left()))
    {
      var b := Bit();
      if !b {
        return None;
      }
      r := Ref();
    }
  }

  // ---- round trips ----

  lemma {:induction false} UintRead(bits: seq<bool>, tail: seq<bool>, refs: seq<Cell>, high: nat)
    ensures ReadUint(Rest(bits + tail, refs, false), |bits|, high) == (UintFrom(bits, high), Rest(tail, refs, false))
    decreases |bits|
  {
    if bits == [] {
      assert bits + tail == tail;
    } else {
      assert (bits + tail)[1..] == bits[1..] + tail;
      UintRead(bits[1..], tail, refs, 2 * high + if bits[0] then 1 else 0);
    }
  }

  /** Every unsigned field that fits its width reads back. */
  lemma UintRoundTrip(v: nat, n: nat, tail: seq<bool>, refs: seq<Cell>)
    requires v < Pow2(n)
    ensures ReadUint(Rest(UintBits(v, n) + tail, refs, false), n, 0) == (v, Rest(tail, refs, false))
  {
    hide UintBits, ReadUint, UintFrom, Pow2;
    UintRead(UintBits(v, n), tail, refs, 0);
    UintReadsBack(v, n, 0);
    DivModUnique(v, Pow2(n), 0, v);
  }

  /** Every signed field that fits its width reads back. */
  lemma IntRoundTrip(v: int, n: nat, tail: seq<bool>, refs: seq<Cell>)
    requires n > 0 && 0 - Pow2(n - 1) <= v < Pow2(n - 1)
    ensures ReadUint(Rest(IntBits(v, n) + tail, refs, false), n, 0).1 == Rest(tail, refs, false)
    ensures Signed(ReadUint(Rest(IntBits(v, n) + tail, refs, false), n, 0).0, n) == v
  {
    var p := Pow2(n - 1);
    var u: nat := if v < 0 then v + 2 * p else v;
    Wraps(v, p);
    hide UintBits, ReadUint;
    UintRoundTrip(u, n, tail, refs);
  }

  /** A number of one sign bit more, modulo its width. */
  lemma Wraps(v: int, p: nat)
    requires 0 - p <= v < p
    ensures var u: nat := if v < 0 then v + 2 * p else v; v % (2 * p) == u && u / p == if v < 0 then 1 else 0
  {
    if v < 0 {
      ModDown(v, 2 * p);
      DivModUnique(v + 2 * p, p, 1, v + p);
    } else {
      DivModUnique(v, 2 * p, 0, v);
      DivModUnique(v, p, 0, v);
    }
  }

  lemma ModDown(v: int, m: nat)
    requires 0 - m <= v < 0
    ensures v % m == v + m
  {
    var q, r := v / m, v % m;
    assert v == q * m + r;
    assert (q + 1) * m == v + m - r;
    NotBetween(q + 1, m);
  }

  lemma ByteRoundTrip(b: Byte, tail: seq<bool>, refs: seq<Cell>)
    ensures ReadByte(Rest(UintBits(b, 8) + tail, refs, false)) == (b, Rest(tail, refs, false))
  {
    assert Pow2(8) == 256;
    hide ReadUint, UintBits, Pow2;
    UintRoundTrip(b, 8, tail, refs);
  }

  lemma {:induction false} BytesRoundTrip(p: Str, tail: seq<bool>, refs: seq<Cell>)
    ensures ReadBytes(Rest(BytesBits(p) + tail, refs, false), |p|) == (p, Rest(tail, refs, false))
  {
    hide ReadByte, UintBits;
    if p == [] {
      assert BytesBits(p) + tail == tail;
    } else {
      var rest := BytesBits(p[1..]) + tail;
      assert BytesBits(p) + tail == UintBits(p[0], 8) + rest;
      ByteRoundTrip(p[0], rest, refs);
      BytesRoundTrip(p[1..], tail, refs);
      assert [p[0]] + p[1..] == p;
    }
  }

  lemma {:induction false} MinimalRoundTrip(v: nat)
    ensures FromBE(Minimal(v)) == v
  {
    if v > 0 {
      MinimalRoundTrip(v / 256);
      assert Minimal(v)[..|Minimal(v)| - 1] == Minimal(v / 256);
    }
  }

  lemma {:induction false} MinimalLength(v: nat, n: nat)
    requires v < Pow256(n)
    ensures |Minimal(v)| <= n
  {
    if v > 0 {
      MinimalLength(v / 256, n - 1);
    }
  }

  /** Every amount below 2^120 reads back. */
  lemma CoinsRoundTrip(v: nat, tail: seq<bool>, refs: seq<Cell>)
    requires v < COINS_LIMIT
    ensures ReadCoins(Rest(CoinsBits(v) + tail, refs, false)) == (v, Rest(tail, refs, false))
  {
    var p := Minimal(v);
    CoinsFit();
    MinimalLength(v, 15);
    MinimalRoundTrip(v);
    assert CoinsBits(v) + tail == UintBits(|p|, 4) + (BytesBits(p) + tail);
    assert Pow2(4) == 16;
    UintRoundTrip(|p|, 4, BytesBits(p) + tail, refs);
    BytesRoundTrip(p, tail, refs);
  }

  lemma CoinsFit()
    ensures Pow256(15) == COINS_LIMIT
  {
    assert Pow256(3) == 0x100_0000;
    assert Pow256(6) == 0x100_0000 * Pow256(3);
    assert Pow256(9) == 0x100_0000 * Pow256(6);
    assert Pow256(12) == 0x100_0000 * Pow256(9);
    assert Pow256(15) == 0x100_0000 * Pow256(12);
  }

  /** Every address reads back, the missing one too. */
  lemma AddressRoundTrip(a: Address, tail: seq<bool>, refs: seq<Cell>)
    ensures ReadAddress(Rest(AddressBits(a) + tail, refs, false)) == (a, Rest(tail, refs, false))
  {
    assert Pow2(2) == 4 && Pow2(7) == 128 && Pow2(8) == 256;
    if a == NOWHERE {
      TwoBits(0, [false, false]);
      UintRoundTrip(0, 2, tail, refs);
    } else {
      var hash := BytesBits(a.hash) + tail;
      var std := IntBits(a.workchain, 8) + hash;
      TwoBits(2, [true, false]);
      assert AddressBits(a) + tail == [true, false] + ([false] + std);
      UintRoundTrip(2, 2, [false] + std, refs);
      assert ([false] + std)[1..] == std;
      IntRoundTrip(a.workchain, 8, hash, refs);
      BytesRoundTrip(a.hash, tail, refs);
    }
  }

  /** What a builder was given is what the built cell holds. */
  lemma BuiltReads(d: Draft)
    requires Built(d).Ok?
    ensures Begun(Built(d).value) == Rest(d.bits, d.refs, false)
  {
    forall i | 0 <= i < |d.bits| ensures DataBit(Packed(d.bits), i) == d.bits[i] {
      PackedBit(d.bits, i);
    }
  }
}
