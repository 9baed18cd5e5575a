/** Forms that others write and read as well, against examples that do not come from this code: they fix
    what a round trip leaves open. */
module KnownForms {
  import opened Bytes
  import opened Bits
  import opened Cells
  import opened CellBuilder
  import opened CellOrder
  import opened Crc16
  import opened FriendlyAddress
  import opened AddressText
  import Boc
  import SolanaWire

  // ---- addresses ----

  /** The alphabets of base64, plain and for URLs: A to Z, a to z, 0 to 9, and two more. */
  function Letter(v: int, url: bool): int
    requires 0 <= v < 64
  {
    if v < 26 then 'A' as int + v
    else if v < 52 then 'a' as int + (v - 26)
    else if v < 62 then '0' as int + (v - 52)
    else if v == 62 then (if url then '-' else '+') as int
    else (if url then '_' else '/') as int
  }

  lemma Narrow(x: int)
    requires 0 <= x < 64
    ensures (x as bv8) as int == x
  {
  }

  lemma SextetIsLetter(c: Byte, url: bool)
    requires Sextet(c, url).Some?
    ensures c == Letter(Sextet(c, url).value as int, url)
  {
    if 65 <= c <= 90 {
      Narrow(c - 65);
    } else if 97 <= c <= 122 {
      Narrow(c - 71);
    } else if 48 <= c <= 57 {
      Narrow(c + 4);
    }
  }

  lemma LetterIsSextet(v: int, url: bool)
    requires 0 <= v < 64
    ensures 0 <= Letter(v, url) < 256 && Sextet(Letter(v, url), url).Some?
  {
  }

  lemma LettersDiffer(v: int, w: int, url: bool)
    requires 0 <= v < 64 && 0 <= w < 64 && Letter(v, url) == Letter(w, url)
    ensures v == w
  {
  }

  /** A character stands for six bits exactly when it is the letter for them, and is written for them. */
  lemma AlphabetIsBase64(c: Byte, url: bool, v: bv8)
    requires v < 64
    ensures Sextet(c, url) == Some(v) <==> c == Letter(v as int, url)
    ensures Char(v) == Letter(v as int, true)
  {
    hide Sextet;
    LetterIsSextet(v as int, url);
    if Sextet(c, url).Some? {
      SextetIsLetter(c, url);
      if c == Letter(v as int, url) {
        LettersDiffer(v as int, Sextet(c, url).value as int, url);
      }
    }
  }

  lemma FirstSextets(a: Address, bounceable: bool)
    ensures var p := Payload(a, bounceable);
      && Encoded(p + [High(Crc(0, p)), Low(Crc(0, p))])[..2] == Sextets4(p[0], p[1], p[2])[..2]
      && |Encoded(p + [High(Crc(0, p)), Low(Crc(0, p))])| == 48
  {
    hide Crc, Payload;
  }

  /** A bounceable address is spelled E and a non-bounceable one U; then Q on the base chain, f on the masterchain. */
  lemma FriendlyBegins(a: Address, bounceable: bool)
    ensures Friendly(a, bounceable)[0] == (if bounceable then 'E' else 'U') as int
    ensures a.workchain == 0 ==> Friendly(a, bounceable)[1] == 'Q' as int
    ensures a.workchain == -1 ==> Friendly(a, bounceable)[1] == 'f' as int
  {
    FirstSextets(a, bounceable);
    hide Crc, Encoded;
    var p := Payload(a, bounceable);
    var v := Encoded(p + [High(Crc(0, p)), Low(Crc(0, p))]);
    assert v[..2][0] == v[0] && v[..2][1] == v[1];
    SecondSextet(p[0], p[1]);
    assert v[0] == p[0] >> 2 && v[1] == ((p[0] & 3) << 4) | (p[1] >> 4);
  }

  lemma SecondSextet(x: bv8, y: bv8)
    ensures x == 0x11 ==> x >> 2 == 4
    ensures x == 0x51 ==> x >> 2 == 20
    ensures (x == 0x11 || x == 0x51) && y == 0 ==> ((x & 3) << 4) | (y >> 4) == 16
    ensures (x == 0x11 || x == 0x51) && y == 0xff ==> ((x & 3) << 4) | (y >> 4) == 31
  {
  }

  lemma FlagOf(x: bv8, y: bv8)
    requires x < 64
    ensures Flagged((x << 2) | (y >> 4)) ==> x == 4 || x == 20 || x == 36 || x == 52
  {
  }

  /** And what is accepted begins with one of these two, or with k or 0, their forms for the test network. */
  lemma AcceptedBegins(s: Str)
    requires Accepted(s)
    ensures s[0] in [69, 85, 107, 48]
  {
    var v := Read(s).value;
    hide Checks, Sextet, Flagged;
    assert BytesIn(s)[0] == Bytes3(v[0], v[1], v[2], v[3])[0];
    ReadIsSixWide(s);
    FlagOf(v[0], v[1]);
    AlphabetIsBase64(s[0], true, v[0]);
    AlphabetIsBase64(s[0], false, v[0]);
  }

  // ---- compact numbers on Solana ----

  /** One byte up to 7f, two up to 3fff, then three: the low seven bits first. */
  lemma CompactNumbers()
    ensures SolanaWire.Compact(0x7f) == [0x7f] && SolanaWire.Compact(0x80) == [0x80, 0x01]
    ensures SolanaWire.Compact(0x3fff) == [0xff, 0x7f] && SolanaWire.Compact(0x4000) == [0x80, 0x80, 0x01]
  {
    assert SolanaWire.Compact(1) == [1] && SolanaWire.Compact(0x80) == [0x80] + SolanaWire.Compact(1);
  }

  // ---- numbers ----

  /** Low byte first on Solana, high byte first on TON. */
  lemma ByteOrders()
    ensures LE(0x0102, 2) == [0x02, 0x01] && FromLE([0x02, 0x01]) == 0x0102
    ensures BE(0x0102, 2) == [0x01, 0x02] && FromBE([0x01, 0x02]) == 0x0102
  {
    assert LE(0x0102, 2) == [0x02] + LE(1, 1) && LE(1, 1) == [0x01] + LE(0, 0);
    assert FromLE([0x02, 0x01]) == 0x02 + 256 * FromLE([0x01]) && FromLE([0x01]) == 1 + 256 * FromLE([]);
    TwoBytes(0x0102);
    assert [0x01, 0x02][..1] == [0x01] && [0x01][..0] == [];
    assert FromBE([0x01]) == 256 * FromBE([]) + 1;
  }

  /** Five in three bits, high bit first, and minus one in two. */
  lemma NumberBits()
    ensures UintBits(5, 3) == [true, false, true] && IntBits(-1, 2) == [true, true]
  {
    assert Pow2(0) == 1 && Pow2(1) == 2 && Pow2(2) == 4;
    assert UintBits(5, 1) == [true] + UintBits(5, 0) && UintBits(5, 2) == [false] + UintBits(5, 1);
    assert UintBits(3, 1) == [true] + UintBits(3, 0) && -1 % 4 == 3;
  }

  /** No coins are four zeros, and 256 of them two bytes behind their number. */
  lemma CoinBits()
    ensures CoinsBits(0) == UintBits(0, 4) && CoinsBits(256) == UintBits(2, 4) + (UintBits(1, 8) + UintBits(0, 8))
  {
    assert Minimal(1) == [1] && Minimal(256) == Minimal(1) + [0];
    hide UintBits;
    assert BytesBits([]) == [] && [0][1..] == [] && BytesBits([0]) == UintBits(0, 8) + [];
    assert [1, 0][1..] == [0];
  }

  /** No address is two zero bits; an address is one, two zeros, the workchain in eight bits and the hash in 256. */
  lemma AddressFields(a: Address)
    ensures AddressBits(Address(0, ZERO)) == [false, false]
    ensures a != Address(0, ZERO) ==> AddressBits(a)[..3] == [true, false, false] && |AddressBits(a)| == 267
    ensures a != Address(0, ZERO) ==> AddressBits(a)[3..11] == IntBits(a.workchain, 8) && AddressBits(a)[11..] == BytesBits(a.hash)
  {
  }

  // ---- cells ----

  /** The leaf of the bits 101, and a cell of two bytes over it, as they stand in a bag: descriptors, then the
      bits closed by a one and zeros, then the places of the references. */
  lemma CellsInABag()
    ensures Boc.FlatSound(Boc.Flat([0xa0], 3, [])) && Boc.FlatBytes(Boc.Flat([0xa0], 3, []), 1) == [0x00, 0x01, 0xb0]
    ensures Boc.FlatSound(Boc.Flat([0xab, 0xcd], 16, [2, 2])) && Boc.FlatBytes(Boc.Flat([0xab, 0xcd], 16, [2, 2]), 1) == [0x02, 0x04, 0xab, 0xcd, 0x02, 0x02]
  {
  }

  const TINY := Boc.Flat([0x0f, 0x8a, 0x7e, 0xa5], 32, [])

  /** The bag of one cell of 32 bits, up to its checksum: magic, flags and widths, one cell, one root, none
      absent, six bytes of cells, the root's place, and the cell. */
  lemma TinyBag()
    ensures Boc.AllSound([TINY])
    ensures Boc.Body([TINY], 1, 1) == [0xb5, 0xee, 0x9c, 0x72, 0x41, 0x01, 0x01, 0x01, 0x00, 0x06, 0x00, 0x00, 0x08, 0x0f, 0x8a, 0x7e, 0xa5]
  {
    TinyCell();
    Numbers5(1, 1, 0, 6, 0);
    hide Boc.Numbers, Boc.FlatsBytes, Boc.FlatSound;
  }

  lemma TinyCell()
    ensures Boc.AllSound([TINY]) && Boc.FlatsBytes([TINY], 1) == [0x00, 0x08, 0x0f, 0x8a, 0x7e, 0xa5]
  {
    var fs := [TINY];
    assert Boc.FlatSound(TINY);
    assert Boc.FlatBytes(TINY, 1) == [0x00, 0x08, 0x0f, 0x8a, 0x7e, 0xa5];
    hide Boc.FlatSound, Boc.FlatBytes;
    assert fs[1..] == [] && Boc.FlatsBytes([], 1) == [];
  }

  lemma OneByte(v: nat)
    requires v < 256
    ensures BE(v, 1) == [v]
  {
    assert BE(v / 256, 0) == [];
  }

  lemma TwoBytes(v: nat)
    requires v < 65536
    ensures BE(v, 2) == [v / 256, v % 256]
  {
    OneByte(v / 256);
  }

  lemma Numbers5(a: Byte, b: Byte, c: Byte, d: Byte, e: Byte)
    ensures Boc.Numbers([a, b, c, d, e], [1, 1, 1, 1, 1]) == [a, b, c, d, e]
  {
    OneByte(a); OneByte(b); OneByte(c); OneByte(d); OneByte(e);
    hide BE;
    assert Boc.Numbers([], []) == [];
    assert [e][1..] == [] && [1][1..] == [] && Boc.Numbers([e], [1]) == [e];
    assert [d, e][1..] == [e] && [1, 1][1..] == [1] && Boc.Numbers([d, e], [1, 1]) == [d, e];
    assert [c, d, e][1..] == [d, e] && [1, 1, 1][1..] == [1, 1] && Boc.Numbers([c, d, e], [1, 1, 1]) == [c, d, e];
    assert [b, c, d, e][1..] == [c, d, e] && [1, 1, 1, 1][1..] == [1, 1, 1] && Boc.Numbers([b, c, d, e], [1, 1, 1, 1]) == [b, c, d, e];
    assert [a, b, c, d, e][1..] == [b, c, d, e] && [1, 1, 1, 1, 1][1..] == [1, 1, 1, 1];
  }

  /** What is hashed of a cell over two others: descriptors and padded bits, then the depth of each
      reference, high byte first, then its hash. */
  lemma Representations(h: Hasher, over: Cell, left: Cell, right: Cell)
    requires Sound(over) && over.data == [0xab, 0xcd] && over.bits == 16 && over.refs == [left, right]
    ensures Sound(left) && Sound(right)
    ensures Repr(h, over) == [0x02, 0x04, 0xab, 0xcd] + [Depth(left) / 256, Depth(left) % 256, Depth(right) / 256, Depth(right) % 256] + (Hash(h, left) + Hash(h, right))
  {
    assert over.refs[0] == left && over.refs[1] == right;
    RefIsShallower(over, 0);
    RefIsShallower(over, 1);
    assert Depths(over) == [Depth(left), Depth(right)];
    assert RefHashes(h, over) == [Hash(h, left), Hash(h, right)];
    hide Depth, Hash, Sound, ReprOf, DepthBytes;
    TwoRefs(Depth(left), Depth(right), Hash(h, left), Hash(h, right));
  }

  lemma TwoRefs(d: nat, e: nat, x: Digest, y: Digest)
    requires d < 65536 && e < 65536
    ensures ReprOf([0xab, 0xcd], 16, [d, e], [x, y]) == [0x02, 0x04, 0xab, 0xcd] + [d / 256, d % 256, e / 256, e % 256] + (x + y)
  {
    TwoBytes(d);
    TwoBytes(e);
    hide BE;
    assert [d, e][1..] == [e] && [e][1..] == [] && DepthBytes([]) == [] && DepthBytes([e]) == BE(e, 2);
    var hashes := [x, y];
    assert hashes[1..] == [y] && [y][1..] == [] && Flat([]) == [] && Flat([y]) == y;
    assert Flat(hashes) == x + y;
  }
}
