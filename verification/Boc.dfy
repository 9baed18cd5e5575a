/** The bag of cells: a tree written as bytes, and the reader that gets the tree back.

    The reader follows section 5.3 of the TON Blockchain paper for the form without an index:
    it knows nothing of how the writer orders cells beyond references pointing forward. */
module Boc {
  import opened Bits
  import opened Bytes
  import opened Cells

  const MAGIC: Str := [0xb5, 0xee, 0x9c, 0x72]

  /** No index, a checksum, no cache bits, no flags. */
  const WITH_CRC := 0x40

  /** A cell as it lies in the bag, its references by position. */
  datatype Flat = Flat(data: Str, bits: nat, refs: seq<nat>)

  /** CRC32-C: any function of the bytes. */
  type Checksum = Str -> nat

  // ---- widths and big-endian numbers ----

  /** The fewest bytes, at least one, that hold v. */
  ghost predicate Fits(v: nat, n: nat) {
    n >= 1 && v < Pow256(n) && (n > 1 ==> v >= Pow256(n - 1))
  }

  method BytesFor(v: nat) returns (n: nat)
    requires v < 0x100_0000_0000_0000
    ensures Fits(v, n) && n <= 7
  {
    SevenBytes();
    n := 1;
    while v >= Pow256(n)
      invariant 1 <= n <= 7 && (n > 1 ==> v >= Pow256(n - 1))
      decreases 7 - n
    {
      n := n + 1;
    }
  }

  lemma SevenBytes()
    ensures Pow256(1) == 256 && Pow256(7) == 0x100_0000_0000_0000
  {
    assert Pow256(1) == 256;
    assert Pow256(3) == 0x100_0000;
    assert Pow256(5) == 0x1_0000 * Pow256(3);
    assert Pow256(7) == 0x1_0000 * Pow256(5);
  }

  /** The n low bytes of v from the high end. */
  lemma {:induction false} FirstByte(v: nat, n: nat)
    requires n > 0
    ensures BE(v, n) == [v / Pow256(n - 1) % 256] + BE(v, n - 1)
  {
    if n > 1 {
      FirstByte(v / 256, n - 1);
      DivDiv(v, Pow256(n - 2));
      assert BE(v, n) == BE(v / 256, n - 1) + [v % 256];
      assert BE(v, n - 1) == BE(v / 256, n - 2) + [v % 256];
    }
  }

  lemma DivDiv(v: nat, p: nat)
    requires p > 0
    ensures v / 256 / p == v / (256 * p)
  {
    var q, r := v / 256, v % 256;
    var a, b := q / p, q % p;
    assert q == a * p + b;
    assert v == 256 * (a * p + b) + r;
    assert 256 * (a * p) == a * (256 * p);
    DivModUnique(v, 256 * p, a, 256 * b + r);
  }

  method AppendBE(b: Str, v: nat, n: nat) returns (r: Str)
    ensures r == b + BE(v, n)
  {
    r := b;
    var i := n;
    while i > 0
      invariant r + BE(v, i) == b + BE(v, n)
    {
      FirstByte(v, i);
      i := i - 1;
      ghost var was, low := r, BE(v, i);
      r := r + [v / Pow256(i) % 256];
      assert was + ([v / Pow256(i) % 256] + low) == r + low;
    }
  }

  // ---- the bytes ----

  function RefBytes(refs: seq<nat>, size: nat): (b: Str)
    ensures |b| == |refs| * size
  {
    if refs == [] then [] else BE(refs[0], size) + RefBytes(refs[1..], size)
  }

  predicate FlatSound(f: Flat) {
    f.bits <= MAX_BITS && |f.refs| <= MAX_REFS && TailClear(f.data, f.bits)
  }

  function FlatBytes(f: Flat, size: nat): Str
    requires FlatSound(f)
  {
    Head(|f.refs|, f.bits) + (Padded(f.data, f.bits) + RefBytes(f.refs, size))
  }

  ghost predicate AllSound(fs: seq<Flat>) {
    forall i :: 0 <= i < |fs| ==> FlatSound(fs[i])
  }

  ghost function FlatsBytes(fs: seq<Flat>, size: nat): Str
    requires AllSound(fs)
  {
    if fs == [] then [] else FlatBytes(fs[0], size) + FlatsBytes(fs[1..], size)
  }

  /** Big-endian numbers, each in its own width. */
  function Numbers(vs: seq<nat>, widths: seq<nat>): Str
    requires |vs| == |widths|
  {
    if vs == [] then [] else BE(vs[0], widths[0]) + Numbers(vs[1..], widths[1..])
  }

  /** Cells, roots, absent cells, the cells' size in bytes, and the root's position. */
  function Widths(size: nat, off: nat): seq<nat> { [size, size, size, off, size] }

  ghost function Body(fs: seq<Flat>, size: nat, off: nat): Str
    requires AllSound(fs) && size < 64 && off < 256
  {
    var cells := FlatsBytes(fs, size);
    MAGIC + ([WITH_CRC + size, off] + (Numbers([|fs|, 1, 0, |cells|, 0], Widths(size, off)) + cells))
  }

  ghost predicate IsBag(crc: Checksum, fs: seq<Flat>, b: Str) {
    && AllSound(fs)
    && exists size: nat, off: nat :: Sized(fs, size, off) && b == Body(fs, size, off) + LE(crc(Body(fs, size, off)), 4)
  }

  ghost predicate Sized(fs: seq<Flat>, size: nat, off: nat)
    requires AllSound(fs)
  {
    Fits(|fs|, size) && size <= 7 && Fits(|FlatsBytes(fs, size)|, off) && off <= 7
  }

  // ---- the reader ----

  function Take(b: Str, n: nat): Option<(nat, Str)> {
    if |b| < n then None else Some((FromBE(b[..n]), b[n..]))
  }

  /** The lowest set bit. */
  function Lowest(b: nat): nat
    requires b > 0
  {
    if b % 2 == 1 then 0 else 1 + Lowest(b / 2)
  }

  /** Padded data without its tag, given the bits descriptor. */
  function Unpad(p: Str, d: nat): Option<(Str, nat)>
    requires |p| == (d + 1) / 2
  {
    if d % 2 == 0 then Some((p, 4 * d))
    else
      var last := p[|p| - 1];
      if last == 0 || Lowest(last) >= 7 || last < Pow2(Lowest(last)) then None
      else Some((p[..|p| - 1] + [last - Pow2(Lowest(last))], 8 * (|p| - 1) + 7 - Lowest(last)))
  }

  function ReadRefs(b: Str, size: nat, n: nat): Option<(seq<nat>, Str)>
    decreases n
  {
    if n == 0 then Some(([], b))
    else
      var first := Take(b, size);
      if first.None? then None
      else
        var more := ReadRefs(first.value.1, size, n - 1);
        if more.None? then None else Some(([first.value.0] + more.value.0, more.value.1))
  }

  /** An ordinary cell: no level, not exotic, at most four references. */
  function ReadFlat(b: Str, size: nat): Option<(Flat, Str)> {
    if |b| < 2 || b[0] > MAX_REFS then None
    else
      var d: nat := b[1];
      var n, tail := (d + 1) / 2, b[2..];
      if |tail| < n then None
      else
        var data := Unpad(tail[..n], d);
        var refs := ReadRefs(tail[n..], size, b[0]);
        if data.None? || refs.None? then None
        else Some((Flat(data.value.0, data.value.1, refs.value.0), refs.value.1))
  }

  function ReadFlats(b: Str, size: nat, n: nat): Option<(seq<Flat>, Str)>
    decreases n
  {
    if n == 0 then Some(([], b))
    else
      var first := ReadFlat(b, size);
      if first.None? then None
      else
        var more := ReadFlats(first.value.1, size, n - 1);
        if more.None? then None else Some(([first.value.0] + more.value.0, more.value.1))
  }

  /** References point forward, inside the bag. */
  predicate Forward(fs: seq<Flat>) {
    forall i, k :: 0 <= i < |fs| && 0 <= k < |fs[i].refs| ==> i < fs[i].refs[k] < |fs|
  }

  function TreeAt(fs: seq<Flat>, i: nat): Cell
    requires Forward(fs) && i < |fs|
    decreases |fs| - i
  {
    Cell(fs[i].data, fs[i].bits, seq(|fs[i].refs|, k requires 0 <= k < |fs[i].refs| => TreeAt(fs, fs[i].refs[k])))
  }

  function ReadNumbers(b: Str, widths: seq<nat>): (r: Option<(seq<nat>, Str)>)
    ensures r.Some? ==> |r.value.0| == |widths|
    decreases |widths|
  {
    if widths == [] then Some(([], b))
    else
      var first := Take(b, widths[0]);
      if first.None? then None
      else
        var more := ReadNumbers(first.value.1, widths[1..]);
        if more.None? then None else Some(([first.value.0] + more.value.0, more.value.1))
  }

  datatype Header = Header(size: nat, cells: nat, roots: nat, absent: nat, total: nat, root: nat)

  function ReadHeader(b: Str): Option<(Header, Str)> {
    if |b| < 6 || b[..4] != MAGIC || b[4] < WITH_CRC || b[4] >= WITH_CRC + 8 then None
    else
      var size: nat := b[4] - WITH_CRC;
      var numbers := ReadNumbers(b[6..], Widths(size, b[5]));
      if numbers.None? then None
      else
        var v := numbers.value.0;
        Some((Header(size, v[0], v[1], v[2], v[3], v[4]), numbers.value.1))
  }

  /** One root, nothing absent, cells filling exactly the stated size, and the checksum of it all. */
  function ReadBag(crc: Checksum, b: Str): Option<Cell> {
    var header := ReadHeader(b);
    if header.None? then None
    else
      var (h, rest) := header.value;
      if h.roots != 1 || h.absent != 0 || h.root >= h.cells || |rest| != h.total + 4 || |b| < 4 then None
      else if rest[h.total..] != LE(crc(b[..|b| - 4]), 4) then None
      else
        var cells := ReadFlats(rest[..h.total], h.size, h.cells);
        if cells.None? || cells.value.1 != [] || |cells.value.0| != h.cells || !Forward(cells.value.0) then None
        else Some(TreeAt(cells.value.0, h.root))
  }

  // ---- reading back what was written ----

  lemma TakeBE(v: nat, n: nat, rest: Str)
    requires v < Pow256(n)
    ensures Take(BE(v, n) + rest, n) == Some((v, rest))
  {
    BERoundTrip(v, n);
    var b := BE(v, n) + rest;
    assert b[..n] == BE(v, n) && b[n..] == rest;
  }

  lemma {:induction false} LowestIs(b: nat, t: nat)
    requires b > 0 && Bit(b, t) && forall j :: 0 <= j < t ==> !Bit(b, j)
    ensures Lowest(b) == t
    decreases t
  {
    if t > 0 {
      assert !Bit(b, 0);
      assert b / 2 > 0;
      forall j | 0 <= j < t - 1 ensures !Bit(b / 2, j) {
        assert !Bit(b, j + 1);
      }
      LowestIs(b / 2, t - 1);
    }
  }

  lemma UntagByte(b: Byte, t: nat)
    requires t < 7 && forall j :: 0 <= j <= t ==> !Bit(b, j)
    ensures Tagged(b, t) > 0 && Lowest(Tagged(b, t)) == t && Tagged(b, t) == b + Pow2(t)
  {
    assert Pow2(8) == 256;
    forall j | 0 <= j <= t ensures Bit(Tagged(b, t), j) == (j == t) {
      OrBitSets(b, t, 8, j);
    }
    LowestIs(Tagged(b, t), t);
  }

  lemma UnpadPadded(data: Str, bits: nat)
    requires TailClear(data, bits)
    ensures Unpad(Padded(data, bits), BitsDescriptor(bits)) == Some((data, bits))
  {
    if bits % 8 != 0 {
      var k, t := |data| - 1, 7 - bits % 8;
      forall j | 0 <= j <= t ensures !Bit(data[k], j) {
        LastByteClear(data, bits, j);
      }
      UntagByte(data[k], t);
      assert Padded(data, bits)[..k] + [data[k]] == data;
    }
  }

  ghost predicate RefsFit(refs: seq<nat>, size: nat) {
    forall k :: 0 <= k < |refs| ==> refs[k] < Pow256(size)
  }

  lemma {:induction false} RefsReadBack(refs: seq<nat>, size: nat, rest: Str)
    requires RefsFit(refs, size)
    ensures ReadRefs(RefBytes(refs, size) + rest, size, |refs|) == Some((refs, rest))
  {
    if refs == [] {
      assert RefBytes(refs, size) + rest == rest;
    } else {
      var tail := RefBytes(refs[1..], size) + rest;
      assert RefBytes(refs, size) + rest == BE(refs[0], size) + tail;
      TakeBE(refs[0], size, tail);
      RefsReadBack(refs[1..], size, rest);
      assert [refs[0]] + refs[1..] == refs;
    }
  }

  lemma FlatReadsBack(f: Flat, size: nat, rest: Str)
    requires FlatSound(f) && RefsFit(f.refs, size)
    ensures ReadFlat(FlatBytes(f, size) + rest, size) == Some((f, rest))
  {
    var head, p, refs := Head(|f.refs|, f.bits), Padded(f.data, f.bits), RefBytes(f.refs, size);
    var b := FlatBytes(f, size) + rest;
    UnpadPadded(f.data, f.bits);
    RefsReadBack(f.refs, size, rest);
    hide Padded, RefBytes, Unpad, ReadRefs, TailClear;
    Assoc(head, p + refs, rest);
    Assoc(p, refs, rest);
    assert b[0] == head[0] && b[1] == head[1] && b[2..] == p + (refs + rest);
    assert (p + (refs + rest))[..|p|] == p && (p + (refs + rest))[|p|..] == refs + rest;
  }

  ghost predicate AllFit(fs: seq<Flat>, size: nat) {
    forall i :: 0 <= i < |fs| ==> RefsFit(fs[i].refs, size)
  }

  lemma {:induction false} FlatsReadBack(fs: seq<Flat>, size: nat)
    requires AllSound(fs) && AllFit(fs, size)
    ensures ReadFlats(FlatsBytes(fs, size), size, |fs|) == Some((fs, []))
  {
    if fs != [] {
      hide FlatBytes, ReadFlat;
      FlatReadsBack(fs[0], size, FlatsBytes(fs[1..], size));
      FlatsReadBack(fs[1..], size);
      assert [fs[0]] + fs[1..] == fs;
    }
  }

  lemma FirstNumber(vs: seq<nat>, widths: seq<nat>, rest: Str)
    requires |vs| == |widths| && vs != []
    ensures Numbers(vs, widths) + rest == BE(vs[0], widths[0]) + (Numbers(vs[1..], widths[1..]) + rest)
  {
    hide BE;
  }

  lemma {:induction false} NumbersReadBack(vs: seq<nat>, widths: seq<nat>, rest: Str)
    requires |vs| == |widths| && forall i :: 0 <= i < |vs| ==> vs[i] < Pow256(widths[i])
    ensures ReadNumbers(Numbers(vs, widths) + rest, widths) == Some((vs, rest))
  {
    if vs == [] {
      assert Numbers(vs, widths) + rest == rest;
    } else {
      hide *;
      var tail := Numbers(vs[1..], widths[1..]) + rest;
      FirstNumber(vs, widths, rest);
      TakeBE(vs[0], widths[0], tail);
      NumbersReadBack(vs[1..], widths[1..], rest);
      NextNumber(BE(vs[0], widths[0]) + tail, widths, vs[0], tail, vs[1..], rest);
      assert [vs[0]] + vs[1..] == vs;
    }
  }

  lemma NextNumber(b: Str, widths: seq<nat>, v: nat, tail: Str, more: seq<nat>, rest: Str)
    requires widths != [] && Take(b, widths[0]) == Some((v, tail)) && ReadNumbers(tail, widths[1..]) == Some((more, rest))
    ensures ReadNumbers(b, widths) == Some(([v] + more, rest))
  {
    hide Take;
  }

  lemma HeaderReadsBack(n: nat, size: nat, off: nat, total: nat, rest: Str)
    requires 1 <= size <= 7 && off <= 7 && n < Pow256(size) && total < Pow256(off)
    ensures ReadHeader(MAGIC + ([WITH_CRC + size, off] + (Numbers([n, 1, 0, total, 0], Widths(size, off)) + rest)))
            == Some((Header(size, n, 1, 0, total, 0), rest))
  {
    OneFits(size);
    assert Pow256(off) > 0;
    hide Numbers, ReadNumbers, Pow256, BE;
    FiveFit(n, total, size, off);
    NumbersReadBack([n, 1, 0, total, 0], Widths(size, off), rest);
    var tail := Numbers([n, 1, 0, total, 0], Widths(size, off)) + rest;
    var two: Str := [WITH_CRC + size, off];
    HeaderParts(two, tail);
  }

  lemma FiveFit(n: nat, total: nat, size: nat, off: nat)
    requires 1 < Pow256(size) && n < Pow256(size) && total < Pow256(off)
    ensures var vs, ws := [n, 1, 0, total, 0], Widths(size, off); |ws| == 5 && forall i :: 0 <= i < 5 ==> vs[i] < Pow256(ws[i])
  {
    hide Pow256;
  }

  lemma HeaderParts(two: Str, tail: Str)
    requires |two| == 2
    ensures var b := MAGIC + (two + tail); |b| >= 6 && b[..4] == MAGIC && b[4] == two[0] && b[5] == two[1] && b[6..] == tail
  {
  }

  lemma {:induction false} OneFits(size: nat)
    requires size >= 1
    ensures 1 < Pow256(size)
  {
    assert Pow256(size) == 256 * Pow256(size - 1);
  }

  /** Any bag of forward references reads back as the tree at its first cell. */
  lemma BagReadsBack(crc: Checksum, fs: seq<Flat>, b: Str)
    requires fs != [] && Forward(fs) && IsBag(crc, fs, b)
    ensures ReadBag(crc, b) == Some(TreeAt(fs, 0))
  {
    var size: nat, off: nat :| Sized(fs, size, off) && b == Body(fs, size, off) + LE(crc(Body(fs, size, off)), 4);
    var cells, body := FlatsBytes(fs, size), Body(fs, size, off);
    var sum := LE(crc(body), 4);
    forall i | 0 <= i < |fs| ensures RefsFit(fs[i].refs, size) {
    }
    FlatsReadBack(fs, size);
    HeaderReadsBack(|fs|, size, off, |cells|, cells + sum);
    hide FlatsBytes, ReadHeader, ReadFlats, LE, BE, Pow256, TreeAt;
    BodyEnds(fs, size, off, sum);
    assert (cells + sum)[|cells|..] == sum && (cells + sum)[..|cells|] == cells;
    assert b[..|b| - 4] == body;
  }

  lemma BodyEnds(fs: seq<Flat>, size: nat, off: nat, sum: Str)
    requires AllSound(fs) && size < 64 && off < 256
    ensures var cells := FlatsBytes(fs, size);
      Body(fs, size, off) + sum == MAGIC + ([WITH_CRC + size, off] + (Numbers([|fs|, 1, 0, |cells|, 0], Widths(size, off)) + (cells + sum)))
  {
    hide FlatsBytes, Numbers;
    var cells := FlatsBytes(fs, size);
    var numbers := Numbers([|fs|, 1, 0, |cells|, 0], Widths(size, off));
    var two: Str := [WITH_CRC + size, off];
    Assoc(numbers, cells, sum);
    Assoc(two, numbers + cells, sum);
    Assoc(MAGIC, two + (numbers + cells), sum);
  }

  lemma Assoc(a: Str, b: Str, c: Str)
    ensures (a + b) + c == a + (b + c)
  {
  }
}
