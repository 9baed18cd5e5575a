/** Byte strings, digests and the integer encodings the other modules share.

    A Go string and a Go []byte are both sequences of bytes here.  SHA-256 is never
    modelled: every function that hashes takes the hash as a parameter. */
module Bytes {

  type Byte = b: int | 0 <= b < 256

  type Str = seq<Byte>

  type Digest = s: Str | |s| == 32 witness ZERO

  type Hasher = Str -> Digest

  const ZERO: Str := [0, 0, 0, 0, 0, 0, 0, 0, 0, 0, 0, 0, 0, 0, 0, 0,
                      0, 0, 0, 0, 0, 0, 0, 0, 0, 0, 0, 0, 0, 0, 0, 0]

  datatype Option<+T> = None | Some(value: T)

  datatype Result<+T, +E> = Ok(value: T) | Err(error: E)

  /** The bytes of an ASCII literal. */
  function Text(s: string): (t: Str)
    ensures |t| == |s|
  {
    seq(|s|, i requires 0 <= i < |s| => s[i] as int % 256)
  }

  /** No two different members of xs have the same digest.  Collision freedom is only
      ever assumed of the finitely many inputs that a computation hashes: no function
      into 32 bytes is injective on all byte strings. */
  ghost predicate NoCollision(h: Hasher, xs: set<Str>) {
    forall x, y :: x in xs && y in xs && h(x) == h(y) ==> x == y
  }

  /** Digests end to end. */
  function Flat(keys: seq<Digest>): (b: Str)
    ensures |b| == 32 * |keys|
  {
    if keys == [] then [] else keys[0] + Flat(keys[1..])
  }

  // ---- fixed-width integers ----

  function Pow256(n: nat): (p: nat)
    ensures p > 0
  {
    if n == 0 then 1 else 256 * Pow256(n - 1)
  }

  function LE(v: nat, n: nat): (b: Str)
    ensures |b| == n
  {
    if n == 0 then [] else [v % 256] + LE(v / 256, n - 1)
  }

  function FromLE(b: Str): (v: nat)
    ensures v < Pow256(|b|)
  {
    if b == [] then 0 else b[0] + 256 * FromLE(b[1..])
  }

  lemma {:induction false} LERoundTrip(v: nat, n: nat)
    requires v < Pow256(n)
    ensures FromLE(LE(v, n)) == v
  {
    if n > 0 {
      LERoundTrip(v / 256, n - 1);
      assert LE(v, n)[1..] == LE(v / 256, n - 1);
    }
  }

  lemma {:induction false} LEInjective(a: nat, b: nat, n: nat)
    requires a < Pow256(n) && b < Pow256(n) && LE(a, n) == LE(b, n)
    ensures a == b
  {
    LERoundTrip(a, n);
    LERoundTrip(b, n);
  }

  function BE(v: nat, n: nat): (b: Str)
    ensures |b| == n
  {
    if n == 0 then [] else BE(v / 256, n - 1) + [v % 256]
  }

  function FromBE(b: Str): (v: nat)
    ensures v < Pow256(|b|)
  {
    if b == [] then 0 else 256 * FromBE(b[..|b| - 1]) + b[|b| - 1]
  }

  lemma {:induction false} BERoundTrip(v: nat, n: nat)
    requires v < Pow256(n)
    ensures FromBE(BE(v, n)) == v
  {
    if n > 0 {
      BERoundTrip(v / 256, n - 1);
      assert BE(v, n)[..n - 1] == BE(v / 256, n - 1);
    }
  }

  // ---- base-128 variable-length integers (Go's uvarint) ----

  function Uvarint(v: nat): (b: Str)
    ensures |b| > 0
  {
    if v < 128 then [v] else [128 + v % 128] + Uvarint(v / 128)
  }

  lemma FirstOfUvarint(v: nat, x: Str)
    ensures var s := Uvarint(v) + x;
      && s != [] && s[0] == (if v < 128 then v else 128 + v % 128)
      && s[1..] == if v < 128 then x else Uvarint(v / 128) + x
  {
    if v >= 128 {
      assert (Uvarint(v) + x)[1..] == Uvarint(v / 128) + x;
    }
  }

  /** A uvarint ends where it says it ends, so whatever follows it is recovered too. */
  lemma {:induction false} UvarintPrefix(a: nat, b: nat, x: Str, y: Str)
    requires Uvarint(a) + x == Uvarint(b) + y
    ensures a == b && x == y
  {
    var l, r := Uvarint(a) + x, Uvarint(b) + y;
    FirstOfUvarint(a, x);
    FirstOfUvarint(b, y);
    hide Uvarint;
    if a >= 128 {
      UvarintPrefix(a / 128, b / 128, x, y);
    }
  }

  /** One length-prefixed field. */
  function Put(s: Str): Str {
    Uvarint(|s|) + s
  }

  lemma PutPrefix(s: Str, t: Str, x: Str, y: Str)
    requires Put(s) + x == Put(t) + y
    ensures s == t && x == y
  {
    assert Put(s) + x == Uvarint(|s|) + (s + x);
    assert Put(t) + y == Uvarint(|t|) + (t + y);
    UvarintPrefix(|s|, |t|, s + x, t + y);
    assert (s + x)[..|s|] == s && (t + y)[..|t|] == t;
    assert (s + x)[|s|..] == x && (t + y)[|t|..] == y;
  }

  // ---- decimal numbers (big.Int.String) ----

  function Digits(n: nat): (d: Str)
    ensures |d| > 0 && forall i :: 0 <= i < |d| ==> 48 <= d[i] < 58
  {
    if n < 10 then [48 + n] else Digits(n / 10) + [48 + n % 10]
  }

  function Decimal(v: int): (d: Str)
    ensures |d| > 0 && (v < 0 <==> d[0] == 45)
  {
    if v < 0 then [45] + Digits(-v) else Digits(v)
  }

  lemma {:induction false} DigitsInjective(a: nat, b: nat)
    requires Digits(a) == Digits(b)
    ensures a == b
    decreases a + b
  {
    var x, y := Digits(a), Digits(b);
    assert x[|x| - 1] == y[|y| - 1];
    if a >= 10 && b >= 10 {
      assert x[..|x| - 1] == Digits(a / 10) && y[..|y| - 1] == Digits(b / 10);
      DigitsInjective(a / 10, b / 10);
    }
  }

  lemma DecimalInjective(a: int, b: int)
    requires Decimal(a) == Decimal(b)
    ensures a == b
  {
    if a < 0 && b < 0 {
      assert Decimal(a)[1..] == Digits(-a) && Decimal(b)[1..] == Digits(-b);
      DigitsInjective(-a, -b);
    } else if a >= 0 && b >= 0 {
      DigitsInjective(a, b);
    }
  }
}
