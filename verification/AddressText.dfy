/** The two ways a TON address is written, and reading either back. */
module AddressText {
  import opened Bytes
  import opened CellBuilder
  import opened Crc16
  import opened FriendlyAddress

  // ---- the friendly form ----

  /** A sextet's character in the URL-safe alphabet. */
  function Char(v: bv8): Byte
    requires v < 64
  {
    if v < 26 then v as int + 65
    else if v < 52 then v as int + 71
    else if v < 62 then v as int - 4
    else if v == 62 then 45
    else 95
  }

  /** Three bytes are four sextets. */
  function Sextets4(x: bv8, y: bv8, z: bv8): (v: seq<bv8>)
    ensures |v| == 4 && SixWide(v)
  {
    [x >> 2, ((x & 3) << 4) | (y >> 4), ((y & 15) << 2) | (z >> 6), z & 63]
  }

  function Encoded(p: seq<bv8>): (v: seq<bv8>)
    requires |p| % 3 == 0
    ensures |v| * 3 == |p| * 4 && SixWide(v)
  {
    if p == [] then [] else Sextets4(p[0], p[1], p[2]) + Encoded(p[3..])
  }

  function Spelled(v: seq<bv8>): (s: Str)
    requires SixWide(v)
    ensures |s| == |v|
  {
    seq(|v|, i requires 0 <= i < |v| => Char(v[i]))
  }

  function WorkchainByte(w: Int8): bv8 { (if w < 0 then w + 256 else w) as bv8 }

  /** A byte is the octet of the signed number it stands for. */
  function Octet(b: Byte): bv8 { WorkchainByte(if b < 128 then b else b - 256) }

  function Octets(s: Str): (p: seq<bv8>)
    ensures |p| == |s|
  {
    seq(|s|, i requires 0 <= i < |s| => Octet(s[i]))
  }

  function Payload(a: Address, bounceable: bool): (p: seq<bv8>)
    ensures |p| == 34
  {
    [if bounceable then 0x11 else 0x51, WorkchainByte(a.workchain)] + Octets(a.hash)
  }

  /** Flag, workchain, hash and checksum, three bytes to four characters. */
  function Friendly(a: Address, bounceable: bool): (s: Str)
    ensures |s| == 48
  {
    var p := Payload(a, bounceable);
    Spelled(Encoded(p + [High(Crc(0, p)), Low(Crc(0, p))]))
  }

  lemma FourBack(x: bv8, y: bv8, z: bv8)
    ensures var v := Sextets4(x, y, z); Bytes3(v[0], v[1], v[2], v[3]) == [x, y, z]
  {
  }

  lemma {:induction false} EncodedReadsBack(p: seq<bv8>)
    requires |p| % 3 == 0
    ensures Decoded(Encoded(p)) == p
  {
    if p != [] {
      var v := Encoded(p);
      FourBack(p[0], p[1], p[2]);
      EncodedReadsBack(p[3..]);
      hide Bytes3, Sextets4;
      assert v[..4] == Sextets4(p[0], p[1], p[2]) && v[4..] == Encoded(p[3..]);
      assert v[0] == v[..4][0] && v[1] == v[..4][1] && v[2] == v[..4][2] && v[3] == v[..4][3];
      assert p == [p[0], p[1], p[2]] + p[3..];
    }
  }

  lemma CharReadsBack(v: bv8)
    requires v < 64
    ensures Sextet(Char(v), true) == Some(v) && Char(v) != 58
  {
  }

  lemma SpelledReadsBack(v: seq<bv8>)
    requires SixWide(v)
    ensures Read(Spelled(v)) == Some(v) && forall i :: 0 <= i < |v| ==> Spelled(v)[i] != 58
  {
    var s := Spelled(v);
    forall i | 0 <= i < |v| ensures Sextet(s[i], true) == Some(v[i]) && s[i] != 58 {
      CharReadsBack(v[i]);
    }
    hide Sextet, Char;
    assert AllSextets(s, true);
    assert Sextets(s, true) == v;
  }

  lemma AddsOne(u: bv8)
    requires u != 255
    ensures (u + 1) as int == u as int + 1
  {
  }

  lemma BelowTop(u: bv8)
    requires u as int < 255
    ensures u != 255
  {
  }

  /** Every byte's value is some byte's value. */
  lemma {:induction false} ByteFor(b: nat) returns (v: bv8)
    requires b < 256
    ensures v as int == b
  {
    if b == 0 {
      v := 0;
    } else {
      var u := ByteFor(b - 1);
      BelowTop(u);
      AddsOne(u);
      v := u + 1;
    }
  }

  lemma ByteBack(b: nat)
    requires b < 256
    ensures (b as bv8) as int == b
  {
    var v := ByteFor(b);
    SameByte(v);
  }

  lemma SameByte(v: bv8)
    ensures (v as int) as bv8 == v
  {
  }

  lemma WorkchainReadsBack(w: Int8)
    ensures Int8Of(WorkchainByte(w)) == w
  {
    ByteBack(if w < 0 then w + 256 else w);
  }

  lemma FlagsAreKnown()
    ensures Flagged(0x11) && Flagged(0x51)
  {
  }

  lemma OctetReadsBack(b: Byte)
    ensures Octet(b) as int == b
  {
    var w := if b < 128 then b else b - 256;
    WorkchainReadsBack(w);
    hide WorkchainByte;
    assert Octet(b) == WorkchainByte(w);
  }

  lemma OctetsReadBack(s: Str)
    ensures Ints(Octets(s)) == s
  {
    forall i | 0 <= i < |s| ensures Ints(Octets(s))[i] == s[i] {
      OctetReadsBack(s[i]);
    }
  }

  lemma PayloadReadsBack(a: Address, bounceable: bool, q: seq<bv8>)
    requires |q| == 36 && q[..34] == Payload(a, bounceable)
    ensures AddressIn(q) == a && Flagged(q[0])
  {
    hide Flagged, Int8Of, WorkchainByte, Ints, Octets;
    var p := Payload(a, bounceable);
    FlagsAreKnown();
    WorkchainReadsBack(a.workchain);
    OctetsReadBack(a.hash);
    assert q[0] == q[..34][0] && q[1] == q[..34][1] && q[2..34] == q[..34][2..] == Octets(a.hash);
  }

  // ---- the raw form ----

  function Hex(d: nat): Byte
    requires d < 16
  {
    if d < 10 then 48 + d else 87 + d
  }

  function HexText(h: Str): (s: Str)
    ensures |s| == 2 * |h|
  {
    if h == [] then [] else [Hex(h[0] / 16), Hex(h[0] % 16)] + HexText(h[1..])
  }

  /** A hex digit's value, in either case. */
  function Nibble(c: Byte): (d: Option<nat>)
    ensures d.Some? ==> d.value < 16
  {
    if 48 <= c <= 57 then Some(c - 48)
    else if 97 <= c <= 102 then Some(c - 87)
    else if 65 <= c <= 70 then Some(c - 55)
    else None
  }

  function Unhex(s: Str): (h: Option<Str>)
    requires |s| % 2 == 0
    ensures h.Some? ==> 2 * |h.value| == |s|
  {
    if s == [] then Some([])
    else
      var high, low, rest := Nibble(s[0]), Nibble(s[1]), Unhex(s[2..]);
      if high.None? || low.None? || rest.None? then None else Some([16 * high.value + low.value] + rest.value)
  }

  lemma {:induction false} HexReadsBack(h: Str)
    ensures Unhex(HexText(h)) == Some(h)
  {
    if h != [] {
      var s := HexText(h);
      HexReadsBack(h[1..]);
      assert s[2..] == HexText(h[1..]);
      assert h == [h[0]] + h[1..];
    }
  }

  predicate AllDigits(s: Str) { forall i :: 0 <= i < |s| ==> 48 <= s[i] < 58 }

  function Value(s: Str): nat
    requires AllDigits(s)
  {
    if s == [] then 0 else 10 * Value(s[..|s| - 1]) + (s[|s| - 1] - 48)
  }

  /** A signed decimal of eight bits: a sign perhaps, then digits and nothing else. */
  function ParseInt8(s: Str): Option<Int8> {
    var signed := s != [] && (s[0] == 43 || s[0] == 45);
    var digits := if signed then s[1..] else s;
    if digits == [] || !AllDigits(digits) then None
    else
      var v: int := if signed && s[0] == 45 then 0 - Value(digits) else Value(digits);
      if -128 <= v < 128 then Some(v) else None
  }

  lemma {:induction false} DigitsReadBack(n: nat)
    ensures AllDigits(Digits(n)) && Value(Digits(n)) == n
  {
    var d := Digits(n);
    if n >= 10 {
      DigitsReadBack(n / 10);
      assert d[..|d| - 1] == Digits(n / 10);
    } else {
      assert d[..0] == [];
    }
  }

  lemma DecimalReadsBack(v: Int8)
    ensures ParseInt8(Decimal(v)) == Some(v)
  {
    hide Value, AllDigits, Digits;
    if v < 0 {
      var n: nat := 0 - v;
      DigitsReadBack(n);
      assert Decimal(v)[1..] == Digits(n);
    } else {
      DigitsReadBack(v);
    }
  }

  /** Where c first occurs in s, or the length of s. */
  function IndexOf(s: Str, c: Byte): (i: nat)
    ensures i <= |s| && (i < |s| ==> s[i] == c) && forall k :: 0 <= k < i ==> s[k] != c
  {
    if s == [] || s[0] == c then 0 else 1 + IndexOf(s[1..], c)
  }

  /** The workchain in decimal, a colon, the hash in hex. */
  function Raw(a: Address): Str { Decimal(a.workchain) + [58] + HexText(a.hash) }

  function ParsedRaw(workchain: Str, hash: Str): Option<Address> {
    if ParseInt8(workchain).None? || |hash| != 64 then None
    else
      var h := Unhex(hash);
      if h.None? then None else Some(Address.Address(ParseInt8(workchain).value, h.value))
  }

  /** What is read as which address: with a colon the raw form, without one the friendly form. */
  function Parsed(s: Str): Option<Address> {
    var i := IndexOf(s, 58);
    if i < |s| then ParsedRaw(s[..i], s[i + 1..])
    else if Accepted(s) then Some(AddressIn(BytesIn(s)))
    else None
  }

  method ParseAddress(s: Str) returns (r: Option<Address>)
    ensures r == Parsed(s)
  {
    var i := IndexOf(s, 58);
    if i < |s| {
      var workchain := ParseInt8(s[..i]);
      if workchain.None? || |s[i + 1..]| != 64 {
        return None;
      }
      var hash := Unhex(s[i + 1..]);
      if hash.None? {
        return None;
      }
      return Some(Address.Address(workchain.value, hash.value));
    }
    hide Accepted, BytesIn;
    r := ParseFriendly(s);
  }

  /** The friendly form is accepted and reads as the address, whichever way it is flagged. */
  lemma FriendlyReadsBack(a: Address, bounceable: bool)
    ensures Accepted(Friendly(a, bounceable)) && AddressIn(BytesIn(Friendly(a, bounceable))) == a
    ensures Parsed(Friendly(a, bounceable)) == Some(a)
  {
    var p := Payload(a, bounceable);
    var q := p + [High(Crc(0, p)), Low(Crc(0, p))];
    var s := Friendly(a, bounceable);
    hide Crc, High, Low, Decoded, Encoded, Read, Sextet, Char;
    EncodedReadsBack(q);
    SpelledReadsBack(Encoded(q));
    assert q[..34] == p && q[0] == p[0];
    PayloadReadsBack(a, bounceable, q);
  }

  lemma NoColon(v: int)
    ensures forall i :: 0 <= i < |Decimal(v)| ==> Decimal(v)[i] != 58
  {
  }

  /** The raw form of an address reads as that address. */
  lemma RawReadsBack(a: Address)
    ensures Parsed(Raw(a)) == Some(a)
  {
    var s, d := Raw(a), Decimal(a.workchain);
    NoColon(a.workchain);
    hide Decimal, HexText, ParseInt8, Unhex;
    assert s[|d|] == 58 && forall k :: 0 <= k < |d| ==> s[k] == d[k];
    assert IndexOf(s, 58) == |d|;
    assert s[..|d|] == d && s[|d| + 1..] == HexText(a.hash);
    DecimalReadsBack(a.workchain);
    HexReadsBack(a.hash);
  }

  /** s is one of the three ways to write a. */
  predicate Writes(s: Str, a: Address) {
    s == Raw(a) || s == Friendly(a, true) || s == Friendly(a, false)
  }

  /** So what is written one way or another reads as its own address, and never names two. */
  lemma OneAddress(s: Str, a: Address, b: Address)
    requires Writes(s, a)
    ensures Parsed(s) == Some(a) && (Writes(s, b) ==> a == b)
  {
    hide Raw, Friendly, Parsed, Accepted, AddressIn, BytesIn;
    RawReadsBack(a);
    FriendlyReadsBack(a, true);
    FriendlyReadsBack(a, false);
    RawReadsBack(b);
    FriendlyReadsBack(b, true);
    FriendlyReadsBack(b, false);
  }
}
