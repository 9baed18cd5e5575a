/** The user-friendly form of a TON address: 36 bytes as 48 characters, checksum included. */
module FriendlyAddress {
  import opened Bytes
  import opened CellBuilder
  import opened Crc16

  // ---- characters and their six bits ----

  /** The value of a character in the URL-safe or the standard alphabet. */
  function Sextet(c: Byte, url: bool): (r: Option<bv8>)
    ensures r.Some? ==> r.value < 64
  {
    if 65 <= c <= 90 then Some((c - 65) as bv8)
    else if 97 <= c <= 122 then Some((c - 71) as bv8)
    else if 48 <= c <= 57 then Some((c + 4) as bv8)
    else if c == (if url then 45 else 43) then Some(62)
    else if c == (if url then 95 else 47) then Some(63)
    else None
  }

  predicate AllSextets(s: Str, url: bool) {
    forall i :: 0 <= i < |s| ==> Sextet(s[i], url).Some?
  }

  function Sextets(s: Str, url: bool): (v: seq<bv8>)
    requires AllSextets(s, url)
    ensures |v| == |s|
  {
    seq(|s|, i requires 0 <= i < |s| => Sextet(s[i], url).value)
  }

  /** Four sextets are three bytes. */
  function Bytes3(a: bv8, b: bv8, c: bv8, d: bv8): seq<bv8> {
    [(a << 2) | (b >> 4), (b << 4) | (c >> 2), (c << 6) | d]
  }

  function Decoded(v: seq<bv8>): (p: seq<bv8>)
    requires |v| % 4 == 0
    ensures |p| * 4 == |v| * 3
  {
    if v == [] then [] else Bytes3(v[0], v[1], v[2], v[3]) + Decoded(v[4..])
  }

  function SixBits(v: bv8): (w: seq<bool>)
    ensures |w| == 6
  {
    [v & 32 != 0, v & 16 != 0, v & 8 != 0, v & 4 != 0, v & 2 != 0, v & 1 != 0]
  }

  function AllSix(v: seq<bv8>): (w: seq<bool>)
    ensures |w| == 6 * |v|
  {
    if v == [] then [] else SixBits(v[0]) + AllSix(v[1..])
  }

  // ---- reading an address ----

  /** A written address as sextets, in whichever alphabet fits, the URL-safe one first. */
  function Read(s: Str): Option<seq<bv8>> {
    if AllSextets(s, true) then Some(Sextets(s, true))
    else if AllSextets(s, false) then Some(Sextets(s, false))
    else None
  }

  function Int8Of(b: bv8): Int8 {
    var v := b as int;
    if v < 128 then v else v - 256
  }

  function Ints(p: seq<bv8>): (s: Str)
    ensures |s| == |p|
  {
    seq(|p|, i requires 0 <= i < |p| => p[i] as int)
  }

  predicate Flagged(b: bv8) { b & 0x7f == 0x11 || b & 0x7f == 0x51 }

  /** Forty-eight characters of one alphabet. */
  predicate Readable(s: Str) { |s| == 48 && Read(s).Some? }

  /** The bytes they stand for. */
  function BytesIn(s: Str): (p: seq<bv8>)
    requires Readable(s)
    ensures |p| == 36
  {
    Decoded(Read(s).value)
  }

  /** The friendly half of ParseAddress. */
  method ParseFriendly(s: Str) returns (r: Option<Address>)
    ensures r.Some? <==> Accepted(s)
    ensures r.Some? ==> r.value == AddressIn(BytesIn(s))
  {
    if |s| != 48 || Read(s).None? {
      return None;
    }
    hide Read, BytesIn, Flagged, Crc;
    var p := BytesIn(s);
    if !Flagged(p[0]) {
      return None;
    }
    var crc := Checksum(p[..34]);
    if p[34] != High(crc) || p[35] != Low(crc) {
      return None;
    }
    return Some(AddressIn(p));
  }

  function AddressIn(p: seq<bv8>): Address
    requires |p| == 36
  {
    Address.Address(Int8Of(p[1]), Ints(p[2..34]))
  }

  predicate Accepted(s: Str) {
    Readable(s) && Flagged(BytesIn(s)[0]) && Checks(BytesIn(s))
  }

  // ---- one wrong character ----

  lemma SameGroup(a: bv8, b: bv8, c: bv8, d: bv8)
    requires a < 64 && b < 64 && c < 64 && d < 64
    ensures EightBits((a << 2) | (b >> 4)) == [a & 32 != 0, a & 16 != 0, a & 8 != 0, a & 4 != 0, a & 2 != 0, a & 1 != 0, b & 32 != 0, b & 16 != 0]
    ensures EightBits((b << 4) | (c >> 2)) == [b & 8 != 0, b & 4 != 0, b & 2 != 0, b & 1 != 0, c & 32 != 0, c & 16 != 0, c & 8 != 0, c & 4 != 0]
    ensures EightBits((c << 6) | d) == [c & 2 != 0, c & 1 != 0, d & 32 != 0, d & 16 != 0, d & 8 != 0, d & 4 != 0, d & 2 != 0, d & 1 != 0]
  {
  }

  lemma ThreeBytes(x: bv8, y: bv8, z: bv8)
    ensures AllBits([x, y, z]) == EightBits(x) + EightBits(y) + EightBits(z)
  {
    hide EightBits;
    assert [x, y, z][1..] == [y, z] && [y, z][1..] == [z] && [z][1..] == [];
    assert AllBits([z]) == EightBits(z) + AllBits([]);
    assert AllBits([y, z]) == EightBits(y) + AllBits([z]);
  }

  lemma Join62(u: seq<bool>, w: seq<bool>)
    requires |u| == |w| == 6
    ensures [u[0], u[1], u[2], u[3], u[4], u[5], w[0], w[1]] == u + w[..2]
  {
  }

  lemma Join44(u: seq<bool>, w: seq<bool>)
    requires |u| == |w| == 6
    ensures [u[2], u[3], u[4], u[5], w[0], w[1], w[2], w[3]] == u[2..] + w[..4]
  {
  }

  lemma Join26(u: seq<bool>, w: seq<bool>)
    requires |u| == |w| == 6
    ensures [u[4], u[5], w[0], w[1], w[2], w[3], w[4], w[5]] == u[4..] + w
  {
  }

  lemma SixIndexed(v: bv8)
    ensures var w := SixBits(v);
      w[0] == (v & 32 != 0) && w[1] == (v & 16 != 0) && w[2] == (v & 8 != 0) && w[3] == (v & 4 != 0) && w[4] == (v & 2 != 0) && w[5] == (v & 1 != 0)
  {
  }

  lemma First8(a: bv8, b: bv8, e: seq<bool>)
    requires e == [a & 32 != 0, a & 16 != 0, a & 8 != 0, a & 4 != 0, a & 2 != 0, a & 1 != 0, b & 32 != 0, b & 16 != 0]
    ensures e == SixBits(a) + SixBits(b)[..2]
  {
    hide SixBits;
    SixIndexed(a);
    SixIndexed(b);
    Join62(SixBits(a), SixBits(b));
  }

  lemma Middle8(b: bv8, c: bv8, e: seq<bool>)
    requires e == [b & 8 != 0, b & 4 != 0, b & 2 != 0, b & 1 != 0, c & 32 != 0, c & 16 != 0, c & 8 != 0, c & 4 != 0]
    ensures e == SixBits(b)[2..] + SixBits(c)[..4]
  {
    hide SixBits;
    SixIndexed(b);
    SixIndexed(c);
    Join44(SixBits(b), SixBits(c));
  }

  lemma Last8(c: bv8, d: bv8, e: seq<bool>)
    requires e == [c & 2 != 0, c & 1 != 0, d & 32 != 0, d & 16 != 0, d & 8 != 0, d & 4 != 0, d & 2 != 0, d & 1 != 0]
    ensures e == SixBits(c)[4..] + SixBits(d)
  {
    hide SixBits;
    SixIndexed(c);
    SixIndexed(d);
    Join26(SixBits(c), SixBits(d));
  }

  lemma Shared(a: bv8, b: bv8, c: bv8, d: bv8)
    requires a < 64 && b < 64 && c < 64 && d < 64
    ensures EightBits((a << 2) | (b >> 4)) == SixBits(a) + SixBits(b)[..2]
    ensures EightBits((b << 4) | (c >> 2)) == SixBits(b)[2..] + SixBits(c)[..4]
    ensures EightBits((c << 6) | d) == SixBits(c)[4..] + SixBits(d)
  {
    hide EightBits, SixBits;
    SameGroup(a, b, c, d);
    First8(a, b, EightBits((a << 2) | (b >> 4)));
    Middle8(b, c, EightBits((b << 4) | (c >> 2)));
    Last8(c, d, EightBits((c << 6) | d));
  }

  lemma Joined(a: seq<bool>, b: seq<bool>, c: seq<bool>, d: seq<bool>)
    requires |a| == |b| == |c| == |d| == 6
    ensures (a + b[..2]) + (b[2..] + c[..4]) + (c[4..] + d) == a + b + c + d
  {
  }

  lemma GroupBits(a: bv8, b: bv8, c: bv8, d: bv8)
    requires a < 64 && b < 64 && c < 64 && d < 64
    ensures AllBits(Bytes3(a, b, c, d)) == SixBits(a) + SixBits(b) + SixBits(c) + SixBits(d)
  {
    hide EightBits, SixBits, AllBits;
    Shared(a, b, c, d);
    ThreeBytes((a << 2) | (b >> 4), (b << 4) | (c >> 2), (c << 6) | d);
    Joined(SixBits(a), SixBits(b), SixBits(c), SixBits(d));
  }

  lemma {:induction false} AllBitsSplit(p: seq<bv8>, q: seq<bv8>)
    ensures AllBits(p + q) == AllBits(p) + AllBits(q)
  {
    hide EightBits;
    if p == [] {
      assert p + q == q;
    } else {
      assert (p + q)[0] == p[0] && (p + q)[1..] == p[1..] + q;
      AllBitsSplit(p[1..], q);
    }
  }

  predicate SixWide(v: seq<bv8>) { forall i :: 0 <= i < |v| ==> v[i] < 64 }

  /** The decoded bytes hold the sextets' bits in order. */
  lemma {:induction false} DecodedBits(v: seq<bv8>)
    requires |v| % 4 == 0 && SixWide(v)
    ensures AllBits(Decoded(v)) == AllSix(v)
  {
    hide SixBits, EightBits, Bytes3;
    if v != [] {
      DecodedBits(v[4..]);
      GroupBits(v[0], v[1], v[2], v[3]);
      AllBitsSplit(Bytes3(v[0], v[1], v[2], v[3]), Decoded(v[4..]));
      FourSextets(v);
      hide AllBits, AllSix;
    }
  }

  lemma FourSextets(v: seq<bv8>)
    requires |v| >= 4
    ensures AllSix(v) == SixBits(v[0]) + SixBits(v[1]) + SixBits(v[2]) + SixBits(v[3]) + AllSix(v[4..])
  {
    hide *;
    assert v[1..][1..] == v[2..] && v[2..][1..] == v[3..] && v[3..][1..] == v[4..];
    OneSextet(v);
    OneSextet(v[1..]);
    OneSextet(v[2..]);
    OneSextet(v[3..]);
    Regrouped(SixBits(v[0]), SixBits(v[1]), SixBits(v[2]), SixBits(v[3]), AllSix(v[4..]));
  }

  lemma Regrouped(a: seq<bool>, b: seq<bool>, c: seq<bool>, d: seq<bool>, rest: seq<bool>)
    ensures a + (b + (c + (d + rest))) == a + b + c + d + rest
  {
  }

  lemma OneSextet(v: seq<bv8>)
    requires v != []
    ensures AllSix(v) == SixBits(v[0]) + AllSix(v[1..])
  {
  }

  lemma {:induction false} AllSixSplit(u: seq<bv8>, v: seq<bv8>)
    ensures AllSix(u + v) == AllSix(u) + AllSix(v)
  {
    hide SixBits;
    if u == [] {
      assert u + v == v;
    } else {
      assert (u + v)[0] == u[0] && (u + v)[1..] == u[1..] + v;
      AllSixSplit(u[1..], v);
    }
  }

  /** One sextet changed is six bits in a row changed, at most. */
  lemma OneSextetWindow(u: seq<bv8>, v: seq<bv8>, i: nat)
    requires |u| == |v| && i < |u| && u[..i] == v[..i] && u[i + 1..] == v[i + 1..]
    ensures DifferWithin(AllSix(u), AllSix(v), 6 * i, 6)
  {
    hide SixBits, AllSix;
    SixAround(u, i);
    SixAround(v, i);
    MiddleCut(AllSix(u[..i]), SixBits(u[i]), AllSix(u[i + 1..]));
    MiddleCut(AllSix(u[..i]), SixBits(v[i]), AllSix(u[i + 1..]));
  }

  lemma MiddleCut(a: seq<bool>, b: seq<bool>, c: seq<bool>)
    ensures (a + (b + c))[..|a|] == a && (a + (b + c))[|a| + |b|..] == c
  {
  }

  /** The bits before, of and behind one sextet. */
  lemma SixAround(u: seq<bv8>, i: nat)
    requires i < |u|
    ensures AllSix(u) == AllSix(u[..i]) + (SixBits(u[i]) + AllSix(u[i + 1..]))
  {
    hide SixBits, AllSix;
    assert u == u[..i] + u[i..] && u[i..][1..] == u[i + 1..];
    AllSixSplit(u[..i], u[i..]);
    OneSextet(u[i..]);
  }

  lemma SixBitsTell(a: bv8, b: bv8)
    requires a < 64 && b < 64 && SixBits(a) == SixBits(b)
    ensures a == b
  {
    var u, v := SixBits(a), SixBits(b);
    assert u[0] == v[0] && u[1] == v[1] && u[2] == v[2] && u[3] == v[3] && u[4] == v[4] && u[5] == v[5];
  }

  /** A character that both alphabets know means the same in both. */
  lemma AlphabetsAgree(c: Byte, x: bool, y: bool)
    requires Sextet(c, x).Some? && Sextet(c, y).Some?
    ensures Sextet(c, x) == Sextet(c, y)
  {
  }

  lemma ReadAgrees(s: Str, t: Str, j: nat)
    requires |s| == |t| && j < |s| && s[j] == t[j] && Read(s).Some? && Read(t).Some?
    ensures Read(s).value[j] == Read(t).value[j]
  {
    AlphabetsAgree(s[j], AllSextets(s, true), AllSextets(t, true));
    hide Sextet;
  }

  lemma ReadIsSixWide(s: Str)
    requires Read(s).Some?
    ensures |Read(s).value| == |s| && SixWide(Read(s).value)
  {
    hide Sextet;
  }

  /** An accepted address with one character replaced by another that some alphabet knows checks exactly
      when the new character means the same six bits: any other replacement fails the checksum. */
  lemma OneCharacterIsCaught(s: Str, t: Str, i: nat)
    requires Accepted(s) && Readable(t) && i < 48 && forall j :: 0 <= j < 48 && j != i ==> s[j] == t[j]
    ensures Checks(BytesIn(t)) <==> Read(t) == Read(s)
  {
    var u, v := Read(s).value, Read(t).value;
    ReadIsSixWide(s);
    ReadIsSixWide(t);
    hide Sextet, AllSextets, Checks, Flagged;
    forall j | 0 <= j < 48 && j != i ensures u[j] == v[j] {
      ReadAgrees(s, t, j);
    }
    hide Read;
    OneSextetWindow(u, v, i);
    DecodedBits(u);
    DecodedBits(v);
    if Checks(Decoded(v)) {
      BurstsAreCaught(Decoded(u), Decoded(v), 6 * i, 6);
      SameSix(u, v, i);
    }
  }

  lemma SameSix(u: seq<bv8>, v: seq<bv8>, i: nat)
    requires |u| == |v| && SixWide(u) && SixWide(v) && AllSix(u) == AllSix(v)
    ensures u == v
  {
    forall k | 0 <= k < |u| ensures u[k] == v[k] {
      SixAt(u, k);
      SixAt(v, k);
      SixBitsTell(u[k], v[k]);
    }
  }

  lemma {:induction false} SixAt(u: seq<bv8>, k: nat)
    requires k < |u|
    ensures AllSix(u)[6 * k..6 * k + 6] == SixBits(u[k])
  {
    hide SixBits, AllSix;
    SixAround(u, k);
    SliceOf(AllSix(u[..k]), SixBits(u[k]), AllSix(u[k + 1..]));
  }

  lemma SliceOf(a: seq<bool>, b: seq<bool>, c: seq<bool>)
    ensures (a + (b + c))[|a|..|a| + |b|] == b
  {
  }
}
