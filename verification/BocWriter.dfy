/** Writing a tree of cells as a bag. */
module BocWriter {
  import opened Bytes
  import opened Cells
  import opened CellOrder
  import opened Boc

  function Position(o: seq<Cell>, c: Cell): (i: nat)
    requires c in o
    ensures i < |o| && o[i] == c
  {
    if o[0] == c then 0 else 1 + Position(o[1..], c)
  }

  ghost predicate Closed(o: seq<Cell>) {
    forall i :: 0 <= i < |o| ==> RefsWithin(o[i], o)
  }

  function Positions(o: seq<Cell>, refs: seq<Cell>): (p: seq<nat>)
    requires forall k :: 0 <= k < |refs| ==> refs[k] in o
    ensures |p| == |refs|
  {
    seq(|refs|, k requires 0 <= k < |refs| => Position(o, refs[k]))
  }

  ghost function FlatOf(o: seq<Cell>, i: nat): Flat
    requires Closed(o) && i < |o|
  {
    assert RefsWithin(o[i], o);
    Flat(o[i].data, o[i].bits, Positions(o, o[i].refs))
  }

  ghost function FlatsOf(o: seq<Cell>): (fs: seq<Flat>)
    requires Closed(o)
    ensures |fs| == |o|
  {
    seq(|o|, i requires 0 <= i < |o| => FlatOf(o, i))
  }

  lemma OrderIsClosed(root: Cell, o: seq<Cell>)
    requires IsOrder(root, o)
    ensures Closed(o)
  {
    forall i | 0 <= i < |o| ensures RefsWithin(o[i], o) {
      assert RefsWithin(o[i], o[i + 1..]);
    }
  }

  lemma RefsAreForward(root: Cell, o: seq<Cell>)
    requires IsOrder(root, o)
    ensures Closed(o) && Forward(FlatsOf(o))
  {
    OrderIsClosed(root, o);
    var fs := FlatsOf(o);
    forall i, k | 0 <= i < |fs| && 0 <= k < |fs[i].refs| ensures i < fs[i].refs[k] < |fs| {
      assert RefsWithin(o[i], o[i + 1..]);
      var j :| 0 <= j < |o[i + 1..]| && o[i + 1..][j] == o[i].refs[k];
      assert o[i + 1 + j] == o[Position(o, o[i].refs[k])];
    }
  }

  /** The tree rebuilt at position i is the cell that was put there. */
  lemma {:induction false} TreeIsCell(root: Cell, o: seq<Cell>, i: nat)
    requires IsOrder(root, o) && i < |o|
    requires Closed(o) && Forward(FlatsOf(o))
    ensures TreeAt(FlatsOf(o), i) == o[i]
    decreases |o| - i
  {
    var fs := FlatsOf(o);
    forall k | 0 <= k < |o[i].refs| ensures TreeAt(fs, fs[i].refs[k]) == o[i].refs[k] {
      TreeIsCell(root, o, fs[i].refs[k]);
    }
    assert TreeAt(fs, i).refs == o[i].refs;
  }

  lemma FlatsSound(root: Cell, o: seq<Cell>)
    requires IsOrder(root, o) && Sound(root)
    ensures Closed(o) && AllSound(FlatsOf(o))
  {
    OrderIsClosed(root, o);
    forall i | 0 <= i < |o| ensures FlatSound(FlatsOf(o)[i]) {
      assert o[i] in Reach(root);
      ReachSound(root, o[i]);
    }
  }

  /** Reading a bag that holds a tree's cells in order gives the tree. */
  lemma OrderedBagReadsBack(crc: Checksum, root: Cell, o: seq<Cell>, b: Str)
    requires IsOrder(root, o) && Closed(o) && IsBag(crc, FlatsOf(o), b)
    ensures ReadBag(crc, b) == Some(root)
  {
    RefsAreForward(root, o);
    BagReadsBack(crc, FlatsOf(o), b);
    TreeIsCell(root, o, 0);
  }

  lemma FlatLength(f: Flat, size: nat)
    requires FlatSound(f)
    ensures |FlatBytes(f, size)| == 2 + ByteCount(f.bits) + |f.refs| * size
  {
  }

  /** The bytes these cells take with references of this width. */
  function BytesOf(o: seq<Cell>, size: nat): nat {
    if o == [] then 0 else 2 + ByteCount(o[0].bits) + |o[0].refs| * size + BytesOf(o[1..], size)
  }

  lemma {:induction false} TwoEach(o: seq<Cell>, size: nat)
    ensures BytesOf(o, size) >= 2 * |o|
  {
    if o != [] {
      TwoEach(o[1..], size);
    }
  }

  /** The tree's cells, in whatever order they are written, take less than 2^56 bytes: beyond that the
      writer's count of bytes never ends. */
  ghost predicate Writable(root: Cell) {
    forall o, size: nat :: IsOrder(root, o) && Fits(|o|, size) ==> BytesOf(o, size) < BYTES_LIMIT
  }

  const BYTES_LIMIT := 0x100_0000_0000_0000

  lemma {:induction false} SomeWidth(v: nat) returns (n: nat)
    ensures Fits(v, n)
  {
    assert Pow256(1) == 256;
    if v < 256 {
      return 1;
    }
    var m := SomeWidth(v / 256);
    n := m + 1;
    assert Pow256(n) == 256 * Pow256(m) && (m > 1 ==> Pow256(m) == 256 * Pow256(m - 1));
  }

  lemma CellsAreFew(root: Cell, o: seq<Cell>)
    requires Writable(root) && IsOrder(root, o)
    ensures |o| < BYTES_LIMIT
  {
    var n := SomeWidth(|o|);
    TwoEach(o, n);
    assert BytesOf(o, n) < BYTES_LIMIT;
  }

  // ---- the writer's loops ----

  method TotalSize(ghost fs: seq<Flat>, cells: seq<Cell>, size: nat) returns (total: nat)
    requires AllSound(fs) && |fs| == |cells| && size <= 7
    requires forall i :: 0 <= i < |fs| ==> fs[i].bits == cells[i].bits && |fs[i].refs| == |cells[i].refs|
    ensures total == |FlatsBytes(fs, size)| == BytesOf(cells, size)
  {
    total := 0;
    for i := 0 to |cells|
      invariant total + |FlatsBytes(fs[i..], size)| == |FlatsBytes(fs, size)| && total + BytesOf(cells[i..], size) == BytesOf(cells, size)
    {
      assert fs[i..][0] == fs[i] && fs[i..][1..] == fs[i + 1..];
      assert cells[i..][0] == cells[i] && cells[i..][1..] == cells[i + 1..];
      FlatLength(fs[i], size);
      hide FlatBytes;
      total := total + 2 + ByteCount(cells[i].bits) + |cells[i].refs| * size;
    }
  }

  /** In an order of the tree's cells no two have one identity, and every cell is listed. */
  lemma CellsApart(id: Identifier, root: Cell, cells: seq<Cell>)
    requires Apart(id, root) && IsOrder(root, cells)
    ensures forall j, k :: 0 <= j < k < |cells| ==> id(cells[j]) != id(cells[k])
    ensures forall c :: c in Reach(root) ==> c in cells
  {
    hide RefsWithin, Reach;
    forall j, k | 0 <= j < k < |cells| ensures id(cells[j]) != id(cells[k]) {
      assert cells[j] in Reach(root) && cells[k] in Reach(root);
    }
  }

  method IndexOf(id: Identifier, ghost root: Cell, cells: seq<Cell>) returns (index: map<Digest, nat>)
    requires Apart(id, root) && IsOrder(root, cells)
    ensures forall c :: c in Reach(root) ==> id(c) in index && index[id(c)] == Position(cells, c)
  {
    CellsApart(id, root, cells);
    hide Apart, IsOrder;
    index := map[];
    for i := 0 to |cells|
      invariant forall k :: 0 <= k < i ==> id(cells[k]) in index && index[id(cells[k])] == k
    {
      index := index[id(cells[i]) := i];
    }
    forall c | c in Reach(root) ensures id(c) in index && index[id(c)] == Position(cells, c) {
      assert cells[Position(cells, c)] == c;
    }
  }

  method AppendCell(b: Str, c: Cell, index: map<Digest, nat>, id: Identifier, size: nat, ghost f: Flat) returns (r: Str)
    requires FlatSound(f) && f.data == c.data && f.bits == c.bits && |f.refs| == |c.refs|
    requires forall k :: 0 <= k < |c.refs| ==> id(c.refs[k]) in index && index[id(c.refs[k])] == f.refs[k]
    ensures r == b + FlatBytes(f, size)
  {
    var head, padded := Head(|c.refs|, c.bits), Padded(c.data, c.bits);
    r := b + head + padded;
    ghost var front := r;
    hide Padded, Head, BE;
    for k := 0 to |c.refs|
      invariant r + RefBytes(f.refs[k..], size) == front + RefBytes(f.refs, size)
    {
      assert f.refs[k..][1..] == f.refs[k + 1..];
      ghost var was, first, rest := r, BE(f.refs[k], size), RefBytes(f.refs[k + 1..], size);
      r := AppendBE(r, index[id(c.refs[k])], size);
      Assoc(was, first, rest);
    }
    assert f.refs[|c.refs|..] == [] && r == front + RefBytes(f.refs, size);
    Assoc(b, head, padded);
    Assoc(b, head + padded, RefBytes(f.refs, size));
    Assoc(head, padded, RefBytes(f.refs, size));
  }

  method AppendCells(b: Str, cells: seq<Cell>, index: map<Digest, nat>, id: Identifier, size: nat, ghost root: Cell) returns (r: Str)
    requires IsOrder(root, cells) && Closed(cells) && AllSound(FlatsOf(cells))
    requires forall c :: c in Reach(root) ==> id(c) in index && index[id(c)] == Position(cells, c)
    ensures r == b + FlatsBytes(FlatsOf(cells), size)
  {
    ghost var fs := FlatsOf(cells);
    NoneLeft(fs, size);
    hide FlatBytes, FlatsBytes, FlatSound, FlatsOf, RefsWithin, IsOrder;
    r := b;
    for i := 0 to |cells|
      invariant r + FlatsBytes(fs[i..], size) == b + FlatsBytes(fs, size)
    {
      FirstLeft(fs, i, size);
      FlatOfCell(cells, i, index, id, root);
      ghost var was, first, rest := r, FlatBytes(fs[i], size), FlatsBytes(fs[i + 1..], size);
      r := AppendCell(r, cells[i], index, id, size, fs[i]);
      Assoc(was, first, rest);
    }
  }

  lemma NoneLeft(fs: seq<Flat>, size: nat)
    requires AllSound(fs)
    ensures fs[0..] == fs && FlatsBytes(fs[|fs|..], size) == []
  {
  }

  lemma FirstLeft(fs: seq<Flat>, i: nat, size: nat)
    requires AllSound(fs) && i < |fs|
    ensures FlatsBytes(fs[i..], size) == FlatBytes(fs[i], size) + FlatsBytes(fs[i + 1..], size)
  {
    hide FlatBytes, FlatSound;
    assert fs[i..][0] == fs[i] && fs[i..][1..] == fs[i + 1..];
  }

  lemma FlatOfCell(cells: seq<Cell>, i: nat, index: map<Digest, nat>, id: Identifier, root: Cell)
    requires IsOrder(root, cells) && Closed(cells) && i < |cells|
    requires forall c :: c in Reach(root) ==> id(c) in index && index[id(c)] == Position(cells, c)
    ensures var c, f := cells[i], FlatsOf(cells)[i];
      && f.data == c.data && f.bits == c.bits && |f.refs| == |c.refs|
      && forall k :: 0 <= k < |c.refs| ==> id(c.refs[k]) in index && index[id(c.refs[k])] == f.refs[k]
  {
    hide Reach, Position;
    assert RefsWithin(cells[i], cells);
  }

  method AppendNumbers(b: Str, vs: seq<nat>, widths: seq<nat>) returns (r: Str)
    requires |vs| == |widths|
    ensures r == b + Numbers(vs, widths)
  {
    r := b;
    for i := 0 to |vs|
      invariant r + Numbers(vs[i..], widths[i..]) == b + Numbers(vs, widths)
    {
      assert vs[i..][1..] == vs[i + 1..] && widths[i..][1..] == widths[i + 1..];
      ghost var was, first, rest := r, BE(vs[i], widths[i]), Numbers(vs[i + 1..], widths[i + 1..]);
      r := AppendBE(r, vs[i], widths[i]);
      Assoc(was, first, rest);
    }
  }

  /** For every tree of cells, short of a collision among its own cells' representations, the
      bytes hold each distinct cell once, before the cells it references, and read back as the
      same tree: same bits, same references, all the way down. */
  method ToBoC(h: Hasher, crc: Checksum, root: Cell) returns (b: Str)
    requires Sound(root) && NoCellCollision(h, root, root)
    requires Writable(root)
    ensures ReadBag(crc, b) == Some(root)
    ensures exists o :: IsOrder(root, o) && Closed(o) && IsBag(crc, FlatsOf(o), b)
  {
    var id := Identity(h);
    IdentityApart(h, root);
    var cells := Order(id, root);
    var index := IndexOf(id, root, cells);
    FlatsSound(root, cells);
    ghost var fs := FlatsOf(cells);
    b := WriteBag(crc, id, cells, index, root);
    OrderedBagReadsBack(crc, root, cells, b);
  }

  lemma StaysBelow(root: Cell, o: seq<Cell>, size: nat)
    requires Writable(root) && IsOrder(root, o) && Fits(|o|, size)
    ensures BytesOf(o, size) < BYTES_LIMIT
  {
    hide IsOrder, Fits, BytesOf;
  }

  lemma FlatShapes(o: seq<Cell>)
    requires Closed(o)
    ensures forall i :: 0 <= i < |o| ==> FlatsOf(o)[i].bits == o[i].bits && |FlatsOf(o)[i].refs| == |o[i].refs|
  {
    hide Closed, RefsWithin;
  }

  method WriteBag(crc: Checksum, id: Identifier, cells: seq<Cell>, index: map<Digest, nat>, ghost root: Cell) returns (b: Str)
    requires IsOrder(root, cells) && Closed(cells) && AllSound(FlatsOf(cells))
    requires forall c :: c in Reach(root) ==> id(c) in index && index[id(c)] == Position(cells, c)
    requires Writable(root)
    ensures IsBag(crc, FlatsOf(cells), b)
  {
    ghost var fs := FlatsOf(cells);
    CellsAreFew(root, cells);
    hide Reach, IsOrder, Closed, AllSound, FlatsBytes, Numbers, LE, BytesOf, FlatsOf, Widths, Writable, Pow256, Fits, IsBag, Position;
    var size := BytesFor(|cells|);
    StaysBelow(root, cells, size);
    FlatShapes(cells);
    var total := TotalSize(fs, cells, size);
    var off := BytesFor(total);
    var out := WriteHeader(|cells|, size, off, total);
    out := AppendCells(out, cells, index, id, size, root);
    BagIs(crc, fs, size, off, out);
    b := out + LE(crc(out), 4);
  }

  /** Magic, flags and widths, and the five counts: cells, roots, absent ones, bytes, and where the root is. */
  method WriteHeader(n: nat, size: nat, off: nat, total: nat) returns (out: Str)
    requires size <= 7 && off <= 7
    ensures out == (MAGIC + [WITH_CRC + size, off]) + Numbers([n, 1, 0, total, 0], Widths(size, off))
  {
    hide Numbers;
    var front: Str := MAGIC + [WITH_CRC + size, off];
    out := AppendNumbers(front, [n, 1, 0, total, 0], Widths(size, off));
  }

  lemma BagIs(crc: Checksum, fs: seq<Flat>, size: nat, off: nat, out: Str)
    requires AllSound(fs) && Fits(|fs|, size) && size <= 7 && Fits(|FlatsBytes(fs, size)|, off) && off <= 7
    requires out == (MAGIC + [WITH_CRC + size, off]) + Numbers([|fs|, 1, 0, |FlatsBytes(fs, size)|, 0], Widths(size, off)) + FlatsBytes(fs, size)
    ensures IsBag(crc, fs, out + LE(crc(out), 4))
  {
    hide AllSound, Fits, FlatsBytes, Numbers, Widths, Body, LE;
    BodyIs(fs, size, off, out);
    assert Sized(fs, size, off);
  }

  lemma BodyIs(fs: seq<Flat>, size: nat, off: nat, out: Str)
    requires AllSound(fs) && size < 64 && off < 256
    requires out == (MAGIC + [WITH_CRC + size, off]) + Numbers([|fs|, 1, 0, |FlatsBytes(fs, size)|, 0], Widths(size, off)) + FlatsBytes(fs, size)
    ensures out == Body(fs, size, off)
  {
    hide AllSound, FlatsBytes, Numbers;
    var two: Str := [WITH_CRC + size, off];
    var numbers, cells := Numbers([|fs|, 1, 0, |FlatsBytes(fs, size)|, 0], Widths(size, off)), FlatsBytes(fs, size);
    Assoc(MAGIC + two, numbers, cells);
    Assoc(MAGIC, two, numbers + cells);
  }
}
