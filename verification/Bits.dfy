/** Powers of two, single bits, and integers as bit strings, high bit first. */
module Bits {
  import opened Bytes

  function Pow2(n: nat): (p: nat)
    ensures p > 0
  {
    if n == 0 then 1 else 2 * Pow2(n - 1)
  }

  /** Bit k of a number, the lowest first. */
  predicate Bit(b: nat, k: nat) {
    if k == 0 then b % 2 == 1 else Bit(b / 2, k - 1)
  }

  lemma {:induction false} BitSet(b: nat, k: nat, n: nat, j: nat)
    requires b < Pow2(n) && k < n && !Bit(b, k)
    ensures b + Pow2(k) < Pow2(n)
    ensures Bit(b + Pow2(k), j) == (j == k || Bit(b, j))
    decreases n
  {
    if k > 0 {
      EvenMore(b, Pow2(k - 1));
      BitSet(b / 2, k - 1, n - 1, if j > 0 then j - 1 else 0);
    } else {
      OneMore(b, Pow2(n - 1));
    }
  }

  lemma EvenMore(b: nat, p: nat)
    ensures (b + 2 * p) / 2 == b / 2 + p && (b + 2 * p) % 2 == b % 2
  {
  }

  lemma OneMore(b: nat, p: nat)
    requires b % 2 == 0 && b < 2 * p
    ensures (b + 1) / 2 == b / 2 && (b + 1) % 2 == 1 && b + 1 < 2 * p
  {
  }

  lemma ZeroBits(k: nat)
    ensures !Bit(0, k)
  {
  }

  /** Or one bit in. */
  function OrBit(b: nat, k: nat): nat {
    if Bit(b, k) then b else b + Pow2(k)
  }

  lemma OrBitSets(b: nat, k: nat, n: nat, j: nat)
    requires b < Pow2(n) && k < n
    ensures OrBit(b, k) < Pow2(n)
    ensures Bit(OrBit(b, k), j) == (j == k || Bit(b, j))
  {
    if !Bit(b, k) {
      BitSet(b, k, n, j);
    }
  }

  lemma {:induction false} BitsDetermine(a: nat, b: nat, n: nat)
    requires a < Pow2(n) && b < Pow2(n) && forall k :: 0 <= k < n ==> Bit(a, k) == Bit(b, k)
    ensures a == b
    decreases n
  {
    if n > 0 {
      forall k | 0 <= k < n - 1 ensures Bit(a / 2, k) == Bit(b / 2, k) {
        assert Bit(a, k + 1) == Bit(b, k + 1);
      }
      BitsDetermine(a / 2, b / 2, n - 1);
      assert Bit(a, 0) == Bit(b, 0);
    }
  }

  lemma {:induction false} Pow2Grows(a: nat, b: nat)
    requires a <= b
    ensures Pow2(a) <= Pow2(b)
  {
    if a < b {
      Pow2Grows(a, b - 1);
    }
  }

  lemma {:induction false} Pow256IsPow2(n: nat)
    ensures Pow256(n) == Pow2(8 * n)
  {
    if n > 0 {
      Pow256IsPow2(n - 1);
      var m := 8 * (n - 1);
      assert Pow2(m + 4) == 2 * Pow2(m + 3) == 4 * Pow2(m + 2) == 8 * Pow2(m + 1) == 16 * Pow2(m);
      assert Pow2(m + 8) == 2 * Pow2(m + 7) == 4 * Pow2(m + 6) == 8 * Pow2(m + 5) == 16 * Pow2(m + 4);
    }
  }

  // ---- integers as bit strings ----

  /** The low n bits of v, high bit first. */
  function UintBits(v: nat, n: nat): (b: seq<bool>)
    ensures |b| == n
  {
    if n == 0 then [] else [v / Pow2(n - 1) % 2 == 1] + UintBits(v, n - 1)
  }

  /** Carry on reading a number whose high part is v. */
  function UintFrom(b: seq<bool>, v: nat): nat
    decreases |b|
  {
    if b == [] then v else UintFrom(b[1..], 2 * v + if b[0] then 1 else 0)
  }

  lemma SplitTop(v: nat, n: nat)
    requires n > 0
    ensures v % Pow2(n) == v / Pow2(n - 1) % 2 * Pow2(n - 1) + v % Pow2(n - 1)
  {
    var p := Pow2(n - 1);
    assert Pow2(n) == 2 * p;
    hide Pow2;
    var q, r := v / p, v % p;
    var half, top := q / 2, q % 2;
    Halved(half, top, p);
    TopFits(top, r, p);
    DivModUnique(v, 2 * p, half, top * p + r);
  }

  lemma Halved(half: nat, top: nat, p: nat)
    ensures (2 * half + top) * p == half * (2 * p) + top * p
  {
  }

  lemma TopFits(top: nat, r: nat, p: nat)
    requires top <= 1 && r < p
    ensures 0 <= top * p + r < 2 * p
  {
  }

  lemma DivModUnique(v: nat, m: nat, q: nat, r: nat)
    requires m > 0 && r < m && v == q * m + r
    ensures v / m == q && v % m == r
  {
    var a, b := v / m, v % m;
    assert v == a * m + b;
    assert (q - a) * m == b - r;
    NotBetween(q - a, m);
  }

  lemma {:induction false} AtLeast(y: nat, m: nat)
    requires y > 0
    ensures y * m >= m
  {
    if y > 1 {
      AtLeast(y - 1, m);
    }
  }

  lemma NotBetween(x: int, m: nat)
    ensures x > 0 ==> x * m >= m
    ensures x < 0 ==> x * m <= 0 - m
  {
    if x > 0 {
      AtLeast(x, m);
    } else if x < 0 {
      AtLeast(0 - x, m);
      assert (0 - x) * m == 0 - x * m;
    }
  }

  lemma Regroup(high: nat, top: nat, p: nat, low: nat)
    ensures (2 * high + top) * p + low == high * (2 * p) + (top * p + low)
  {
  }

  lemma {:induction false} UintReadsBack(v: nat, n: nat, high: nat)
    ensures UintFrom(UintBits(v, n), high) == high * Pow2(n) + v % Pow2(n)
    decreases n
  {
    if n > 0 {
      var b := UintBits(v, n);
      assert b[1..] == UintBits(v, n - 1);
      var top := v / Pow2(n - 1) % 2;
      UintReadsBack(v, n - 1, 2 * high + top);
      SplitTop(v, n);
      Regroup(high, top, Pow2(n - 1), v % Pow2(n - 1));
    }
  }
}
