/** Cells: the immutable tree nodes of TON, and the hash that is their identity. */
module Cells {
  import opened Bits
  import opened Bytes

  const MAX_BITS := 1023
  const MAX_REFS := 4
  const MAX_DEPTH := 0xffff

  /** Bits are kept in whole bytes, high bit first; what is left of the last byte is zero. */
  datatype Cell = Cell(data: Str, bits: nat, refs: seq<Cell>)

  function ByteCount(bits: nat): nat { (bits + 7) / 8 }

  predicate DataBit(data: Str, i: nat) {
    i / 8 < |data| && Bit(data[i / 8], 7 - i % 8)
  }

  function BitsOf(data: Str, n: nat): (b: seq<bool>)
    ensures |b| == n
  {
    seq(n, i requires 0 <= i < n => DataBit(data, i))
  }

  function Content(c: Cell): (b: seq<bool>)
    ensures |b| == c.bits
  {
    BitsOf(c.data, c.bits)
  }

  function Deepest(ds: seq<nat>): nat {
    if ds == [] then 0
    else if ds[|ds| - 1] + 1 > Deepest(ds[..|ds| - 1]) then ds[|ds| - 1] + 1
    else Deepest(ds[..|ds| - 1])
  }

  /** The longest chain of references below a cell. */
  function Depth(c: Cell): nat
    decreases c, 1
  {
    Deepest(Depths(c))
  }

  function Depths(c: Cell): (ds: seq<nat>)
    ensures |ds| == |c.refs|
    decreases c, 0
  {
    seq(|c.refs|, i requires 0 <= i < |c.refs| => Depth(c.refs[i]))
  }

  lemma {:induction false} DeepestBounds(ds: seq<nat>, i: nat)
    requires i < |ds|
    ensures ds[i] < Deepest(ds)
  {
    if i < |ds| - 1 {
      DeepestBounds(ds[..|ds| - 1], i);
    }
  }

  lemma RefIsShallower(c: Cell, i: nat)
    requires i < |c.refs|
    ensures Depth(c.refs[i]) < Depth(c)
  {
    assert Depths(c)[i] == Depth(c.refs[i]);
    DeepestBounds(Depths(c), i);
  }

  predicate TailClear(data: Str, bits: nat) {
    |data| == ByteCount(bits) && forall i :: bits <= i < 8 * |data| ==> !DataBit(data, i)
  }

  /** What Build only ever produces. */
  predicate Sound(c: Cell) {
    && c.bits <= MAX_BITS && |c.refs| <= MAX_REFS && Depth(c) <= MAX_DEPTH && TailClear(c.data, c.bits)
    && forall i :: 0 <= i < |c.refs| ==> Sound(c.refs[i])
  }

  // ---- the representation and its hash ----

  /** The completion tag: a 1 behind the last bit, unless the bits fill their bytes. */
  function Padded(data: Str, bits: nat): (p: Str)
    requires |data| == ByteCount(bits)
    ensures |p| == |data|
  {
    if bits % 8 == 0 then data else data[..|data| - 1] + [Tagged(data[|data| - 1], 7 - bits % 8)]
  }

  function Tagged(b: Byte, t: nat): (r: Byte)
    requires t < 8
  {
    OrBitSets(b, t, 8, 0);
    assert Pow2(8) == 256;
    OrBit(b, t)
  }

  /** Twice the whole bytes, plus one when a part of one follows. */
  function BitsDescriptor(bits: nat): (d: nat)
    ensures bits <= MAX_BITS ==> d < 256
    ensures (d + 1) / 2 == ByteCount(bits) && (d % 2 == 0 <==> bits % 8 == 0) && d / 2 == bits / 8
  {
    bits / 8 + (bits + 7) / 8
  }

  function DepthBytes(ds: seq<nat>): (b: Str)
    ensures |b| == 2 * |ds|
  {
    if ds == [] then [] else BE(ds[0], 2) + DepthBytes(ds[1..])
  }

  function Head(refs: nat, bits: nat): Str
    requires refs <= MAX_REFS && bits <= MAX_BITS
  {
    [refs, BitsDescriptor(bits)]
  }

  function ReprOf(data: Str, bits: nat, ds: seq<nat>, hashes: seq<Digest>): Str
    requires |data| == ByteCount(bits) && bits <= MAX_BITS && |hashes| <= MAX_REFS
  {
    Head(|hashes|, bits) + Padded(data, bits) + DepthBytes(ds) + Flat(hashes)
  }

  /** A cell's identity: the digest of its descriptors, padded data, and its references' depths
      and digests. */
  function Hash(h: Hasher, c: Cell): Digest
    requires Sound(c)
    decreases c, 2
  {
    h(Repr(h, c))
  }

  function Repr(h: Hasher, c: Cell): Str
    requires Sound(c)
    decreases c, 1
  {
    ReprOf(c.data, c.bits, Depths(c), RefHashes(h, c))
  }

  function RefHashes(h: Hasher, c: Cell): (r: seq<Digest>)
    requires Sound(c)
    ensures |r| == |c.refs|
    decreases c, 0
  {
    seq(|c.refs|, i requires 0 <= i < |c.refs| => Hash(h, c.refs[i]))
  }

  // ---- the representation determines the cell ----

  /** Two last bytes with their tags behind different bits differ. */
  lemma TagsTellApart(a: Byte, s: nat, b: Byte, t: nat)
    requires s < 8 && t < 8 && Tagged(a, s) == Tagged(b, t)
    requires forall j :: 0 <= j <= s ==> !Bit(a, j)
    requires forall j :: 0 <= j <= t ==> !Bit(b, j)
    ensures s == t && a == b
  {
    assert Pow2(8) == 256;
    forall j | 0 <= j < 8
      ensures Bit(Tagged(a, s), j) == (j == s || Bit(a, j)) && Bit(Tagged(b, t), j) == (j == t || Bit(b, j))
    {
      OrBitSets(a, s, 8, j);
      OrBitSets(b, t, 8, j);
    }
    assert s == t by {
      assert Bit(Tagged(b, t), s) && Bit(Tagged(a, s), t);
    }
    forall j | 0 <= j < 8 ensures Bit(a, j) == Bit(b, j) {
      assert Bit(Tagged(a, s), j) == Bit(Tagged(b, t), j);
    }
    BitsDetermine(a, b, 8);
  }

  lemma LastByteClear(data: Str, bits: nat, j: nat)
    requires TailClear(data, bits) && bits % 8 != 0 && j <= 7 - bits % 8
    ensures |data| > 0 && !Bit(data[|data| - 1], j)
  {
    var i := 8 * (|data| - 1) + (7 - j);
    assert i / 8 == |data| - 1 && i % 8 == 7 - j && bits <= i;
    assert !DataBit(data, i);
  }

  /** Padded data and its descriptor give the bits back. */
  lemma PaddedDetermines(a: Str, m: nat, b: Str, n: nat)
    requires TailClear(a, m) && TailClear(b, n)
    requires BitsDescriptor(m) == BitsDescriptor(n) && Padded(a, m) == Padded(b, n)
    ensures a == b && m == n
  {
    assert |a| == |b|;
    if m % 8 != 0 {
      var k := |a| - 1;
      forall j | 0 <= j <= 7 - m % 8 ensures !Bit(a[k], j) { LastByteClear(a, m, j); }
      forall j | 0 <= j <= 7 - n % 8 ensures !Bit(b[k], j) { LastByteClear(b, n, j); }
      assert Padded(a, m)[k] == Padded(b, n)[k];
      TagsTellApart(a[k], 7 - m % 8, b[k], 7 - n % 8);
      assert Padded(a, m)[..k] == a[..k] && Padded(b, n)[..k] == b[..k];
      assert a == a[..k] + [a[k]] && b == b[..k] + [b[k]];
    }
  }

  lemma {:induction false} FlatInjective(a: seq<Digest>, b: seq<Digest>)
    requires |a| == |b| && Flat(a) == Flat(b)
    ensures a == b
  {
    if a != [] {
      assert Flat(a)[..32] == a[0] && Flat(a)[32..] == Flat(a[1..]);
      assert Flat(b)[..32] == b[0] && Flat(b)[32..] == Flat(b[1..]);
      FlatInjective(a[1..], b[1..]);
      assert a == [a[0]] + a[1..] && b == [b[0]] + b[1..];
    }
  }

  lemma ReprDetermines(a: Str, m: nat, ds: seq<nat>, x: seq<Digest>, b: Str, n: nat, es: seq<nat>, y: seq<Digest>)
    requires TailClear(a, m) && m <= MAX_BITS && |ds| == |x| <= MAX_REFS
    requires TailClear(b, n) && n <= MAX_BITS && |es| == |y| <= MAX_REFS
    requires ReprOf(a, m, ds, x) == ReprOf(b, n, es, y)
    ensures a == b && m == n && x == y
  {
    assert |a| == ByteCount(m) && |b| == ByteCount(n);
    hide ReprOf, Padded, Flat, TailClear;
    ReprParts(a, m, ds, x);
    ReprParts(b, n, es, y);
    PaddedDetermines(a, m, b, n);
    FlatInjective(x, y);
  }

  lemma ReprParts(a: Str, m: nat, ds: seq<nat>, x: seq<Digest>)
    requires |a| == ByteCount(m) && m <= MAX_BITS && |ds| == |x| <= MAX_REFS
    ensures var p := ReprOf(a, m, ds, x);
      && |p| >= 2 + |a| + 2 * |x| && p[0] == |x| && p[1] == BitsDescriptor(m)
      && p[2..2 + |a|] == Padded(a, m) && p[2 + |a| + 2 * |x|..] == Flat(x)
  {
    hide Padded, DepthBytes, Flat, BitsDescriptor;
    FourParts(Head(|x|, m), Padded(a, m), DepthBytes(ds), Flat(x));
  }

  lemma FourParts(head: Str, data: Str, depths: Str, hashes: Str)
    ensures var p, n := head + data + depths + hashes, |head| + |data| + |depths|;
      p[..|head|] == head && p[|head|..|head| + |data|] == data && p[n..] == hashes
  {
  }

  /** All the cells of a tree, the root among them. */
  ghost function Reach(c: Cell): set<Cell> {
    {c} + set i, d | 0 <= i < |c.refs| && d in Reach(c.refs[i]) :: d
  }

  ghost predicate NoCellCollision(h: Hasher, x: Cell, y: Cell)
    requires Sound(x) && Sound(y)
  {
    forall a, b :: a in Reach(x) && b in Reach(y) && Sound(a) && Sound(b) && Hash(h, a) == Hash(h, b) ==> Repr(h, a) == Repr(h, b)
  }

  lemma RefReach(c: Cell, i: nat, d: Cell)
    requires i < |c.refs| && d in Reach(c.refs[i])
    ensures d in Reach(c)
  {
  }

  /** The hash is the identity: cells of two trees whose digests are the same are the same cell,
      unless two of the trees' representations collide. */
  lemma {:induction false} HashIsIdentity(h: Hasher, x: Cell, y: Cell)
    requires Sound(x) && Sound(y) && NoCellCollision(h, x, y) && Hash(h, x) == Hash(h, y)
    ensures x == y
  {
    ReprDetermines(x.data, x.bits, Depths(x), RefHashes(h, x), y.data, y.bits, Depths(y), RefHashes(h, y));
    forall i | 0 <= i < |x.refs| ensures x.refs[i] == y.refs[i] {
      assert RefHashes(h, x)[i] == Hash(h, x.refs[i]) && RefHashes(h, y)[i] == Hash(h, y.refs[i]);
      forall a, b | a in Reach(x.refs[i]) && b in Reach(y.refs[i]) && Sound(a) && Sound(b) && Hash(h, a) == Hash(h, b)
        ensures Repr(h, a) == Repr(h, b)
      {
        RefReach(x, i, a);
        RefReach(y, i, b);
      }
      HashIsIdentity(h, x.refs[i], y.refs[i]);
    }
  }
}
