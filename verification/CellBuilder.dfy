/** Writing cells field by field: bits into bytes, references beside them, errors that stick. */
module CellBuilder {
  import opened Bits
  import opened Bytes
  import opened Cells

  datatype Error = TooManyBits | TooManyRefs | CoinsTooLarge | TooDeep

  type Int8 = x: int | -128 <= x < 128

  datatype Address = Address(workchain: Int8, hash: Digest)

  const NOWHERE := Address(0, ZERO)

  /** What a builder has been given so far; the first error sticks. */
  datatype Draft = Draft(bits: seq<bool>, refs: seq<Cell>, err: Option<Error>)

  const BLANK := Draft([], [], None)

  // ---- what each field writes ----

  function WithBit(d: Draft, v: bool): Draft {
    if d.err.Some? then d
    else if |d.bits| + 1 > MAX_BITS then d.(err := Some(TooManyBits))
    else d.(bits := d.bits + [v])
  }

  function WithBits(d: Draft, b: seq<bool>): Draft
    decreases |b|
  {
    if b == [] then d else WithBits(WithBit(d, b[0]), b[1..])
  }

  function BytesBits(p: Str): (b: seq<bool>)
    ensures |b| == 8 * |p|
  {
    if p == [] then [] else UintBits(p[0], 8) + BytesBits(p[1..])
  }

  /** Two's complement. */
  function IntBits(v: int, n: nat): (b: seq<bool>)
    ensures |b| == n
  {
    UintBits(v % Pow2(n), n)
  }

  /** Big-endian bytes with no leading zero. */
  function Minimal(v: nat): Str {
    if v == 0 then [] else Minimal(v / 256) + [v % 256]
  }

  const COINS_LIMIT := 0x1_0000_0000_0000_0000_0000_0000_0000_00

  /** A length of four bits and that many bytes. */
  function CoinsBits(v: nat): seq<bool> {
    UintBits(|Minimal(v)|, 4) + BytesBits(Minimal(v))
  }

  function WithCoins(d: Draft, v: int): Draft {
    if d.err.Some? then d
    else if v < 0 || v >= COINS_LIMIT then d.(err := Some(CoinsTooLarge))
    else WithBits(d, CoinsBits(v))
  }

  function AddressBits(a: Address): seq<bool> {
    if a == NOWHERE then [false, false]
    else [true, false, false] + IntBits(a.workchain, 8) + BytesBits(a.hash)
  }

  function WithRef(d: Draft, c: Cell): Draft {
    if d.err.Some? then d
    else if |d.refs| >= MAX_REFS then d.(err := Some(TooManyRefs))
    else d.(refs := d.refs + [c])
  }

  function WithMaybeRef(d: Draft, c: Option<Cell>): Draft {
    if c.None? then WithBit(d, false) else WithRef(WithBit(d, true), c.value)
  }

  /** While there is room, writing bits appends them; otherwise the draft is spoilt for good. */
  lemma {:induction false} WithBitsAppends(d: Draft, b: seq<bool>)
    ensures WithBits(d, b).refs == d.refs && (d.err.Some? ==> WithBits(d, b) == d)
    ensures d.err.None? && |d.bits| + |b| <= MAX_BITS ==> WithBits(d, b) == d.(bits := d.bits + b)
    ensures d.err.None? && |d.bits| <= MAX_BITS < |d.bits| + |b| ==> WithBits(d, b).err == Some(TooManyBits)
    decreases |b|
  {
    if b == [] {
      assert d.bits + b == d.bits;
    } else {
      WithBitsAppends(WithBit(d, b[0]), b[1..]);
      assert (d.bits + [b[0]]) + b[1..] == d.bits + b;
    }
  }

  lemma {:induction false} WithBitsSplit(d: Draft, a: seq<bool>, b: seq<bool>)
    ensures WithBits(d, a + b) == WithBits(WithBits(d, a), b)
    decreases |a|
  {
    if a == [] {
      assert a + b == b;
    } else {
      assert (a + b)[0] == a[0] && (a + b)[1..] == a[1..] + b;
      WithBitsSplit(WithBit(d, a[0]), a[1..], b);
    }
  }

  // ---- the builder ----

  class Builder {
    var data: array<Byte>
    var bits: nat
    var refs: seq<Cell>
    var err: Option<Error>

    ghost predicate Valid()
      reads this, data
    {
      && data.Length == ByteCount(MAX_BITS) && bits <= MAX_BITS && |refs| <= MAX_REFS
      && forall i :: bits <= i < 8 * data.Length ==> !DataBit(data[..], i)
    }

    ghost function Contents(): Draft
      reads this, data
    {
      Draft(BitsOf(data[..], bits), refs, err)
    }

    constructor ()
      ensures Valid() && fresh(data) && Contents() == BLANK
    {
      data := new Byte[ByteCount(MAX_BITS)](_ => 0);
      bits := 0;
      refs := [];
      err := None;
      new;
      forall i | 0 <= i < 8 * data.Length ensures !DataBit(data[..], i) {
        ZeroBits(7 - i % 8);
      }
    }

    method Bit(v: bool)
      requires Valid()
      modifies this, data
      ensures Valid() && data == old(data) && Contents() == WithBit(old(Contents()), v)
    {
      if err.Some? {
        return;
      }
      if bits + 1 > MAX_BITS {
        err := Some(TooManyBits);
        return;
      }
      ghost var was := data[..];
      if v {
        data[bits / 8] := Tagged(data[bits / 8], 7 - bits % 8);
      }
      OneMoreBit(was, data[..], bits, v);
      bits := bits + 1;
    }

    /** n bits of an unsigned number, the high bit first. */
    method Uint(v: nat, n: nat)
      requires Valid()
      modifies this, data
      ensures Valid() && data == old(data) && Contents() == WithBits(old(Contents()), UintBits(v, n))
    {
      var i := n;
      while i > 0
        invariant Valid() && data == old(data)
        invariant WithBits(Contents(), UintBits(v, i)) == WithBits(old(Contents()), UintBits(v, n))
      {
        i := i - 1;
        Bit(v / Pow2(i) % 2 == 1);
      }
    }

    method Int(v: int, n: nat)
      requires Valid()
      modifies this, data
      ensures Valid() && data == old(data) && Contents() == WithBits(old(Contents()), IntBits(v, n))
    {
      Uint(v % Pow2(n), n);
    }

    method Bytes(p: Str)
      requires Valid()
      modifies this, data
      ensures Valid() && data == old(data) && Contents() == WithBits(old(Contents()), BytesBits(p))
    {
      for i := 0 to |p|
        invariant Valid() && data == old(data)
        invariant WithBits(Contents(), BytesBits(p[i..])) == WithBits(old(Contents()), BytesBits(p))
      {
        assert p[i..][1..] == p[i + 1..];
        WithBitsSplit(Contents(), UintBits(p[i], 8), BytesBits(p[i + 1..]));
        Uint(p[i], 8);
      }
    }

    /** An amount; a missing one is any negative number. */
    method Coins(v: int)
      requires Valid()
      modifies this, data
      ensures Valid() && data == old(data) && Contents() == WithCoins(old(Contents()), v)
    {
      if err.Some? {
        return;
      }
      if v < 0 || v >= COINS_LIMIT {
        err := Some(CoinsTooLarge);
        return;
      }
      var p := Minimal(v);
      WithBitsSplit(Contents(), UintBits(|p|, 4), BytesBits(p));
      Uint(|p|, 4);
      Bytes(p);
    }

    method Address(a: Address)
      requires Valid()
      modifies this, data
      ensures Valid() && data == old(data) && Contents() == WithBits(old(Contents()), AddressBits(a))
    {
      if a == NOWHERE {
        TwoBits(0, [false, false]);
        Uint(0, 2);
        return;
      }
      ghost var d := Contents();
      TwoBits(2, [true, false]);
      Uint(2, 2);
      Bit(false);
      Int(a.workchain, 8);
      Bytes(a.hash);
      WithBitsSplit(d, [true, false], [false]);
      WithBitsSplit(d, [true, false] + [false], IntBits(a.workchain, 8));
      WithBitsSplit(d, [true, false] + [false] + IntBits(a.workchain, 8), BytesBits(a.hash));
      assert AddressBits(a) == [true, false] + [false] + IntBits(a.workchain, 8) + BytesBits(a.hash);
    }

    method Ref(c: Cell)
      requires Valid()
      modifies this
      ensures Valid() && data == old(data) && Contents() == WithRef(old(Contents()), c)
    {
      if err.Some? {
        return;
      }
      if |refs| >= MAX_REFS {
        err := Some(TooManyRefs);
        return;
      }
      refs := refs + [c];
    }

    method MaybeRef(c: Option<Cell>)
      requires Valid()
      modifies this, data
      ensures Valid() && data == old(data) && Contents() == WithMaybeRef(old(Contents()), c)
    {
      if c.None? {
        Bit(false);
        return;
      }
      Bit(true);
      Ref(c.value);
    }

    method Build() returns (r: Result<Cell, Error>)
      requires Valid()
      ensures r == Built(Contents())
      ensures r.Ok? && (forall i :: 0 <= i < |refs| ==> Sound(refs[i])) ==> Sound(r.value)
    {
      if err.Some? {
        return Err(err.value);
      }
      var c := Cell(data[..ByteCount(bits)], bits, refs);
      var depth := 0;
      for i := 0 to |refs|
        invariant depth == Deepest(Depths(c)[..i])
      {
        assert Depths(c)[..i + 1][..i] == Depths(c)[..i];
        if Depth(refs[i]) + 1 > depth {
          depth := Depth(refs[i]) + 1;
        }
      }
      assert Depths(c)[..|refs|] == Depths(c);
      PackedIsData(data[..], bits);
      if depth > MAX_DEPTH {
        return Err(TooDeep);
      }
      return Ok(c);
    }
  }

  /** The cell a draft becomes. */
  function Built(d: Draft): Result<Cell, Error> {
    if d.err.Some? then Err(d.err.value)
    else
      var c := Cell(Packed(d.bits), |d.bits|, d.refs);
      if Depth(c) > MAX_DEPTH then Err(TooDeep) else Ok(c)
  }

  /** Bits in whole bytes, high bit first, the last byte filled with zeros. */
  function Packed(b: seq<bool>): (p: Str)
    ensures |p| == ByteCount(|b|)
  {
    seq(ByteCount(|b|), i requires 0 <= i < ByteCount(|b|) => PackedByte(b, 8 * i, 8))
  }

  /** The n bits from position `at`, as the high bits of a byte. */
  function PackedByte(b: seq<bool>, at: nat, n: nat): (v: Byte)
    requires n <= 8
    ensures v < Pow2(n)
    decreases n
  {
    assert Pow2(8) == 256;
    if n == 0 then 0
    else
      Pow2Grows(n, 8);
      (if at < |b| && b[at] then Pow2(n - 1) else 0) + PackedByte(b, at + 1, n - 1)
  }

  lemma {:induction false} PackedByteBits(b: seq<bool>, at: nat, n: nat, j: nat)
    requires j < n <= 8
    ensures Bit(PackedByte(b, at, n), n - 1 - j) == (at + j < |b| && b[at + j])
    decreases n
  {
    hide PackedByte, Bit, Pow2;
    var rest := PackedByte(b, at + 1, n - 1);
    PackedByteStep(b, at, n);
    Pow2Grows(n - 1, n);
    TopClear(rest, n - 1);
    if j > 0 {
      PackedByteBits(b, at + 1, n - 1, j - 1);
    }
    if at < |b| && b[at] {
      BitSet(rest, n - 1, n, n - 1 - j);
    }
  }

  lemma PackedByteStep(b: seq<bool>, at: nat, n: nat)
    requires 0 < n <= 8
    ensures PackedByte(b, at, n) == (if at < |b| && b[at] then Pow2(n - 1) else 0) + PackedByte(b, at + 1, n - 1)
  {
  }

  lemma {:induction false} TopClear(v: nat, n: nat)
    requires v < Pow2(n)
    ensures !Bit(v, n)
    decreases n
  {
    if n > 0 {
      TopClear(v / 2, n - 1);
    }
  }

  lemma PackedBit(b: seq<bool>, i: nat)
    requires i < 8 * ByteCount(|b|)
    ensures DataBit(Packed(b), i) == (i < |b| && b[i])
  {
    PackedByteBits(b, i / 8 * 8, 8, i % 8);
  }

  lemma SameBitsSameBytes(a: Str, b: Str)
    requires |a| == |b| && forall i :: 0 <= i < 8 * |a| ==> DataBit(a, i) == DataBit(b, i)
    ensures a == b
  {
    assert Pow2(8) == 256;
    forall k | 0 <= k < |a| ensures a[k] == b[k] {
      forall j | 0 <= j < 8 ensures Bit(a[k], j) == Bit(b[k], j) {
        var i := 8 * k + (7 - j);
        assert i / 8 == k && i % 8 == 7 - j;
        assert DataBit(a, i) == DataBit(b, i);
      }
      BitsDetermine(a[k], b[k], 8);
    }
  }

  /** A buffer clear behind its last bit holds exactly the packed bits. */
  lemma PackedIsData(data: Str, bits: nat)
    requires ByteCount(bits) <= |data| && forall i :: bits <= i < 8 * |data| ==> !DataBit(data, i)
    ensures data[..ByteCount(bits)] == Packed(BitsOf(data, bits))
    ensures TailClear(data[..ByteCount(bits)], bits)
  {
    var cut, b := data[..ByteCount(bits)], BitsOf(data, bits);
    forall i | 0 <= i < 8 * |cut| ensures DataBit(cut, i) == DataBit(Packed(b), i) && DataBit(cut, i) == DataBit(data, i) {
      PackedBit(b, i);
      assert i / 8 < |cut| && cut[i / 8] == data[i / 8];
      if i < bits {
        assert b[i] == DataBit(data, i);
      } else {
        assert !DataBit(data, i);
      }
    }
    SameBitsSameBytes(cut, Packed(b));
  }

  lemma OneMoreBit(was: Str, data: Str, p: nat, v: bool)
    requires p < 8 * |was| && forall i :: p <= i < 8 * |was| ==> !DataBit(was, i)
    requires data == if v then was[p / 8 := Tagged(was[p / 8], 7 - p % 8)] else was
    ensures BitsOf(data, p + 1) == BitsOf(was, p) + [v]
    ensures forall i :: p + 1 <= i < 8 * |was| ==> !DataBit(data, i)
  {
    assert Pow2(8) == 256;
    forall i | 0 <= i < 8 * |was| ensures DataBit(data, i) == (DataBit(was, i) || (v && i == p)) {
      if v && i / 8 == p / 8 {
        OrBitSets(was[p / 8], 7 - p % 8, 8, 7 - i % 8);
        assert i == p <==> i % 8 == p % 8;
      }
    }
    assert forall i :: 0 <= i < p ==> BitsOf(data, p + 1)[i] == BitsOf(was, p)[i];
  }

  lemma TwoBits(v: nat, b: seq<bool>)
    requires (v == 0 && b == [false, false]) || (v == 2 && b == [true, false])
    ensures UintBits(v, 2) == b
  {
    assert Pow2(0) == 1 && Pow2(1) == 2;
    assert UintBits(v, 1) == [v / Pow2(0) % 2 == 1] + UintBits(v, 0);
  }
}
