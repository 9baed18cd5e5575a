/** The checksum at the end of a user-friendly TON address, and the errors it never misses. */
module Crc16 {
  // ---- the register ----

  /** One bit further. */
  function Step(c: bv16): bv16 {
    if c & 0x8000 != 0 then (c << 1) ^ 0x1021 else c << 1
  }

  function Steps(c: bv16, n: nat): bv16
    decreases n
  {
    if n == 0 then c else Steps(Step(c), n - 1)
  }

  function Enter(c: bv16, b: bv8): bv16 { c ^ ((b as bv16) << 8) }

  /** CRC-16 with polynomial 0x1021 from register c on. */
  function Crc(c: bv16, p: seq<bv8>): bv16
    decreases |p|
  {
    if p == [] then c else Crc(Steps(Enter(c, p[0]), 8), p[1..])
  }

  method Checksum(p: seq<bv8>) returns (crc: bv16)
    ensures crc == Crc(0, p)
  {
    hide Step, Enter;
    crc := 0;
    for k := 0 to |p|
      invariant Crc(crc, p[k..]) == Crc(0, p)
    {
      assert p[k..][1..] == p[k + 1..];
      crc := EightSteps(Enter(crc, p[k]));
    }
  }

  method EightSteps(start: bv16) returns (crc: bv16)
    ensures crc == Steps(start, 8)
  {
    crc := start;
    for i := 0 to 8
      invariant Steps(crc, 8 - i) == Steps(start, 8)
    {
      var next: bv16;
      if crc & 0x8000 != 0 {
        next := (crc << 1) ^ 0x1021;
      } else {
        next := crc << 1;
      }
      assert next == Step(crc);
      hide Step;
      crc := next;
    }
  }

  // ---- bit by bit ----

  function Put(c: bv16, b: bool): bv16 { if b then c ^ 0x8000 else c }

  function Feed(c: bv16, b: bool): bv16 { Step(Put(c, b)) }

  function Run(c: bv16, w: seq<bool>): bv16
    decreases |w|
  {
    if w == [] then c else Run(Feed(c, w[0]), w[1..])
  }

  /** A byte's bits, the high one first. */
  function EightBits(b: bv8): (w: seq<bool>)
    ensures |w| == 8
  {
    [b & 0x80 != 0, b & 0x40 != 0, b & 0x20 != 0, b & 0x10 != 0, b & 8 != 0, b & 4 != 0, b & 2 != 0, b & 1 != 0]
  }

  function AllBits(p: seq<bv8>): (w: seq<bool>)
    ensures |w| == 8 * |p|
  {
    if p == [] then [] else EightBits(p[0]) + AllBits(p[1..])
  }

  lemma {:induction false} RunSplit(c: bv16, a: seq<bool>, b: seq<bool>)
    ensures Run(c, a + b) == Run(Run(c, a), b)
    decreases |a|
  {
    hide Feed;
    if a == [] {
      assert a + b == b;
    } else {
      assert (a + b)[0] == a[0] && (a + b)[1..] == a[1..] + b;
      RunSplit(Feed(c, a[0]), a[1..], b);
    }
  }

  // ---- the register is linear, and loses nothing ----

  lemma ShiftXor(x: bv16, y: bv16)
    ensures (x ^ y) << 1 == (x << 1) ^ (y << 1)
  {
  }

  lemma TopXor(x: bv16, y: bv16)
    ensures (x ^ y) & 0x8000 == (x & 0x8000) ^ (y & 0x8000)
    ensures x & 0x8000 == 0 || x & 0x8000 == 0x8000
    ensures y & 0x8000 == 0 || y & 0x8000 == 0x8000
  {
  }

  lemma XorMoves(a: bv16, b: bv16, k: bv16)
    ensures (a ^ k) ^ b == (a ^ b) ^ k && a ^ (b ^ k) == (a ^ b) ^ k && (a ^ k) ^ (b ^ k) == a ^ b
  {
  }

  function Xor(x: bv16, y: bv16): bv16 { x ^ y }

  lemma StepLinear(x: bv16, y: bv16)
    ensures Step(Xor(x, y)) == Xor(Step(x), Step(y))
  {
    ShiftXor(x, y);
    TopXor(x, y);
    XorMoves(x << 1, y << 1, 0x1021);
  }

  lemma XorRegroups(a: bv16, b: bv16, k: bv16)
    ensures Xor(Xor(a, k), b) == Xor(Xor(a, b), k) && Xor(a, Xor(b, k)) == Xor(Xor(a, b), k) && Xor(Xor(a, k), Xor(b, k)) == Xor(a, b)
  {
    hide Xor;
    XorGroups(a, k, b);
    XorTurns(k, b);
    XorGroups(a, b, k);
    XorGroups(Xor(a, k), b, k);
    XorGroups(Xor(a, b), k, k);
    XorClears(Xor(a, b), k);
  }

  lemma XorGroups(a: bv16, b: bv16, c: bv16)
    ensures Xor(Xor(a, b), c) == Xor(a, Xor(b, c))
  {
  }

  lemma XorTurns(a: bv16, b: bv16)
    ensures Xor(a, b) == Xor(b, a)
  {
  }

  lemma XorClears(a: bv16, b: bv16)
    ensures Xor(a, Xor(b, b)) == a
  {
  }

  lemma PutIs(c: bv16)
    ensures Put(c, true) == Xor(c, 0x8000) && Put(c, false) == c
  {
  }

  lemma PutLinear(x: bv16, y: bv16, a: bool, b: bool)
    ensures Put(Xor(x, y), a != b) == Xor(Put(x, a), Put(y, b))
  {
    hide Put, Xor;
    PutIs(x);
    PutIs(y);
    PutIs(Xor(x, y));
    XorRegroups(x, y, 0x8000);
  }

  lemma StepLosesNothing(x: bv16)
    ensures Step(x) == 0 ==> x == 0
  {
  }

  lemma FeedLinear(x: bv16, y: bv16, a: bool, b: bool)
    ensures Feed(Xor(x, y), a != b) == Xor(Feed(x, a), Feed(y, b))
  {
    hide Step, Xor, Put;
    PutLinear(x, y, a, b);
    StepLinear(Put(x, a), Put(y, b));
  }

  function Difference(u: seq<bool>, v: seq<bool>): (d: seq<bool>)
    requires |u| == |v|
    ensures |d| == |u|
  {
    seq(|u|, i requires 0 <= i < |u| => u[i] != v[i])
  }

  lemma {:induction false} RunLinear(x: bv16, y: bv16, u: seq<bool>, v: seq<bool>)
    requires |u| == |v|
    ensures Run(Xor(x, y), Difference(u, v)) == Xor(Run(x, u), Run(y, v))
    decreases |u|
  {
    hide Feed, Xor;
    if u != [] {
      var d := Difference(u, v);
      assert d[0] == (u[0] != v[0]) && d[1..] == Difference(u[1..], v[1..]);
      FeedLinear(x, y, u[0], v[0]);
      RunLinear(Feed(x, u[0]), Feed(y, v[0]), u[1..], v[1..]);
    }
  }

  // ---- bursts ----

  function Zeros(n: nat): (w: seq<bool>)
    ensures |w| == n
  {
    seq(n, _ => false)
  }

  lemma StepOfZero()
    ensures Step(0) == 0
  {
  }

  /** Silence leaves an empty register empty, and a filled one filled. */
  lemma {:induction false} RunOfZeros(c: bv16, n: nat)
    ensures Run(c, Zeros(n)) == 0 <==> c == 0
    decreases n
  {
    hide Step;
    if n > 0 {
      assert Zeros(n)[1..] == Zeros(n - 1);
      StepLosesNothing(c);
      StepOfZero();
      RunOfZeros(Step(c), n - 1);
    }
  }

  function Half(x: bv16): bv16 { x >> 1 }

  predicate Clear(x: bv16, m: bv16) { x & m == 0 }

  predicate Odd(x: bv16) { x & 1 == 1 }

  /** The only register the bits w empty: the bits themselves, at the register's high end. */
  function Emptied(w: seq<bool>): bv16 {
    if w == [] then 0 else Put(Half(Emptied(w[1..])), w[0])
  }

  /** The bits below those that w reaches. */
  function Below(n: nat): bv16 {
    if n == 0 then 0xFFFF else Half(Below(n - 1))
  }

  lemma HalfClear(x: bv16, m: bv16)
    requires Clear(x, m)
    ensures Clear(Half(x), Half(m))
  {
    assert (x >> 1) & (m >> 1) == (x & m) >> 1;
  }

  lemma PutClear(x: bv16, m: bv16, b: bool)
    requires Clear(x, Half(m))
    ensures Clear(Put(x, b), Half(m))
  {
    assert (x ^ 0x8000) & (m >> 1) == x & (m >> 1);
  }

  lemma NothingClear(m: bv16)
    ensures Clear(0, m)
  {
  }

  lemma {:induction false} EmptiedIsHigh(w: seq<bool>)
    ensures Clear(Emptied(w), Below(|w|))
  {
    hide Put, Half, Clear;
    if w == [] {
      NothingClear(Below(0));
    } else {
      EmptiedIsHigh(w[1..]);
      HalfClear(Emptied(w[1..]), Below(|w| - 1));
      PutClear(Half(Emptied(w[1..])), Below(|w| - 1), w[0]);
    }
  }

  lemma BelowFifteen(n: nat)
    requires n <= 15
    ensures Odd(Below(n))
  {
    assert Below(1) == 0x7FFF;
    assert Below(2) == 0x3FFF;
    assert Below(3) == 0x1FFF;
    assert Below(4) == 0xFFF;
    assert Below(5) == 0x7FF;
    assert Below(6) == 0x3FF;
    assert Below(7) == 0x1FF;
    assert Below(8) == 0xFF;
    assert Below(9) == 0x7F;
    assert Below(10) == 0x3F;
    assert Below(11) == 0x1F;
    assert Below(12) == 0xF;
    assert Below(13) == 7;
    assert Below(14) == 3;
    assert Below(15) == 1;
  }

  lemma LowBitClear(x: bv16, m: bv16)
    requires Clear(x, m) && Odd(m)
    ensures !Odd(x)
  {
  }

  lemma EvenStep(x: bv16)
    requires !Odd(Step(x))
    ensures Half(Step(x)) == x
  {
    ShiftedOut(x);
    ShiftedBack(x);
  }

  lemma ShiftedOut(x: bv16)
    ensures x & 0x8000 != 0 ==> Odd(Step(x))
  {
  }

  lemma ShiftedBack(x: bv16)
    ensures x & 0x8000 == 0 ==> Half(Step(x)) == x
  {
  }

  lemma PutTwice(c: bv16, b: bool)
    ensures Put(Put(c, b), b) == c
  {
  }

  /** Stepping back to an even register: what was put in is what was there. */
  lemma BackOne(c: bv16, b: bool)
    requires !Odd(Feed(c, b))
    ensures c == Put(Half(Feed(c, b)), b)
  {
    hide Step, Put, Half, Odd;
    EvenStep(Put(c, b));
    PutTwice(c, b);
  }

  lemma EvenEmptied(w: seq<bool>)
    requires |w| <= 15
    ensures !Odd(Emptied(w))
  {
    hide Emptied, Below, Odd, Clear;
    EmptiedIsHigh(w);
    BelowFifteen(|w|);
    LowBitClear(Emptied(w), Below(|w|));
  }

  lemma {:induction false} OnlyOneEmpties(c: bv16, w: seq<bool>)
    requires |w| <= 16 && Run(c, w) == 0
    ensures c == Emptied(w)
    decreases |w|
  {
    hide Feed, Put, Half, Odd;
    if w != [] {
      OnlyOneEmpties(Feed(c, w[0]), w[1..]);
      EvenEmptied(w[1..]);
      BackOne(c, w[0]);
    }
  }

  lemma PutIsNotLost(e: bv16, b: bool)
    requires Put(Half(e), b) == 0 && !Odd(e)
    ensures !b && e == 0
  {
    hide Half, Odd;
    HighClear(e);
  }

  lemma HighClear(e: bv16)
    ensures Half(e) & 0x8000 == 0
    ensures Half(e) == 0 && !Odd(e) ==> e == 0
    ensures Half(e) ^ 0x8000 != 0
  {
  }

  lemma {:induction false} EmptiedOfNothing(w: seq<bool>)
    requires |w| <= 16 && Emptied(w) == 0
    ensures w == Zeros(|w|)
  {
    hide Put, Half, Odd;
    if w != [] {
      EvenEmptied(w[1..]);
      PutIsNotLost(Emptied(w[1..]), w[0]);
      EmptiedOfNothing(w[1..]);
      assert w == [w[0]] + w[1..];
    }
  }

  lemma NoXor()
    ensures Xor(0, 0) == 0
  {
  }

  /** Same bits outside a window of n. */
  ghost predicate DifferWithin(u: seq<bool>, v: seq<bool>, at: nat, n: nat) {
    |u| == |v| && at + n <= |u| && u[..at] == v[..at] && u[at + n..] == v[at + n..]
  }

  /** Two strings that both check never differ only within sixteen consecutive bits. */
  lemma NoShortBurst(u: seq<bool>, v: seq<bool>, at: nat, n: nat)
    requires Run(0, u) == 0 && Run(0, v) == 0 && DifferWithin(u, v, at, n) && n <= 16
    ensures u == v
  {
    hide Run, Emptied, Xor;
    var d := Difference(u, v);
    RunLinear(0, 0, u, v);
    assert Xor(0, 0) == 0 by { NoXor(); }
    var w := d[at..at + n];
    forall i | 0 <= i < at ensures !d[i] {
      assert u[..at][i] == v[..at][i];
    }
    forall i | at + n <= i < |d| ensures !d[i] {
      assert u[at + n..][i - at - n] == v[at + n..][i - at - n];
    }
    assert d == Zeros(at) + (w + Zeros(|u| - at - n));
    RunSplit(0, Zeros(at), w + Zeros(|u| - at - n));
    RunOfZeros(0, at);
    RunSplit(0, w, Zeros(|u| - at - n));
    RunOfZeros(Run(0, w), |u| - at - n);
    OnlyOneEmpties(0, w);
    EmptiedOfNothing(w);
    forall i | 0 <= i < |u| ensures u[i] == v[i] {
      assert !d[i] by {
        if at <= i < at + n {
          assert d[i] == w[i - at];
        }
      }
    }
  }

  // ---- bytes are eight bits each ----

  lemma XorNothing(x: bv16)
    ensures Xor(x, 0) == x && Xor(x, x) == 0
  {
  }

  lemma XorPut(c: bv16, e: bv16, b: bool)
    ensures Xor(c, Put(e, b)) == Xor(Put(c, b), e)
  {
    hide Put, Xor;
    PutIs(c);
    PutIs(e);
    XorRegroups(c, e, 0x8000);
  }

  lemma HalfSteps(e: bv16)
    requires !Odd(e)
    ensures Step(Half(e)) == e
  {
    HighClear(e);
    HalfTwice(e);
    hide Half, Odd;
  }

  lemma HalfTwice(e: bv16)
    ensures !Odd(e) ==> Half(e) << 1 == e
  {
  }

  /** Putting bits in one by one is putting them all in first and stepping after. */
  lemma {:induction false} RunIsSteps(c: bv16, w: seq<bool>)
    requires |w| <= 16
    ensures Run(c, w) == Steps(Xor(c, Emptied(w)), |w|)
    decreases |w|
  {
    hide Step, Put, Half, Odd, Xor, Emptied;
    if w == [] {
      EmptiedNone();
      XorNothing(c);
    } else {
      RunIsSteps(Feed(c, w[0]), w[1..]);
      EmptiedSome(w);
      var e := Emptied(w[1..]);
      XorPut(c, Half(e), w[0]);
      StepLinear(Put(c, w[0]), Half(e));
      EvenEmptied(w[1..]);
      HalfSteps(e);
    }
  }

  lemma EmptiedNone()
    ensures Emptied([]) == 0
  {
  }

  lemma EmptiedSome(w: seq<bool>)
    requires w != []
    ensures Emptied(w) == Put(Half(Emptied(w[1..])), w[0])
  {
  }

  lemma Place7(b: bv8) ensures Put(0, b & 1 != 0) == ((b & 1) as bv16) << 15 {}

  lemma Place6(b: bv8) ensures Put(Half(((b & 1) as bv16) << 15), b & 2 != 0) == ((b & 3) as bv16) << 14 {}

  lemma Place5(b: bv8) ensures Put(Half(((b & 3) as bv16) << 14), b & 4 != 0) == ((b & 7) as bv16) << 13 {}

  lemma Place4(b: bv8) ensures Put(Half(((b & 7) as bv16) << 13), b & 8 != 0) == ((b & 15) as bv16) << 12 {}

  lemma Place3(b: bv8) ensures Put(Half(((b & 15) as bv16) << 12), b & 16 != 0) == ((b & 31) as bv16) << 11 {}

  lemma Place2(b: bv8) ensures Put(Half(((b & 31) as bv16) << 11), b & 32 != 0) == ((b & 63) as bv16) << 10 {}

  lemma Place1(b: bv8) ensures Put(Half(((b & 63) as bv16) << 10), b & 64 != 0) == ((b & 127) as bv16) << 9 {}

  lemma Place0(b: bv8) ensures Put(Half(((b & 127) as bv16) << 9), b & 128 != 0) == (b as bv16) << 8 {}

  lemma HalfOfZero()
    ensures Half(0) == 0
  {
  }

  /** A byte's bits at the register's high end are the byte there. */
  lemma EmptiedByte(b: bv8)
    ensures Emptied(EightBits(b)) == (b as bv16) << 8
  {
    hide Put, Half, Emptied;
    var w := EightBits(b);
    EmptiedNone();
    HalfOfZero();
    assert w[7..][1..] == [] && w[6..][1..] == w[7..] && w[5..][1..] == w[6..] && w[4..][1..] == w[5..];
    assert w[3..][1..] == w[4..] && w[2..][1..] == w[3..] && w[1..][1..] == w[2..] && w[0..] == w;
    EmptiedSome(w[7..]);
    Place7(b);
    EmptiedSome(w[6..]);
    Place6(b);
    EmptiedSome(w[5..]);
    Place5(b);
    EmptiedSome(w[4..]);
    Place4(b);
    EmptiedSome(w[3..]);
    Place3(b);
    EmptiedSome(w[2..]);
    Place2(b);
    EmptiedSome(w[1..]);
    Place1(b);
    EmptiedSome(w);
    Place0(b);
  }

  lemma ByteIsBits(c: bv16, b: bv8)
    ensures Run(c, EightBits(b)) == Steps(Enter(c, b), 8)
  {
    hide Run, Steps, Emptied, EightBits;
    RunIsSteps(c, EightBits(b));
    EmptiedByte(b);
  }

  /** The byte loop computes the bit-serial checksum. */
  lemma {:induction false} CrcIsRun(c: bv16, p: seq<bv8>)
    ensures Crc(c, p) == Run(c, AllBits(p))
    decreases |p|
  {
    hide Steps, Enter, EightBits;
    if p != [] {
      ByteIsBits(c, p[0]);
      RunSplit(c, EightBits(p[0]), AllBits(p[1..]));
      CrcIsRun(Steps(Enter(c, p[0]), 8), p[1..]);
      hide Run;
    }
  }

  // ---- a string behind which its own checksum stands ----

  function High(c: bv16): bv8 { (c >> 8) as bv8 }

  function Low(c: bv16): bv8 { (c & 0xFF) as bv8 }

  predicate Checks(p: seq<bv8>) {
    |p| >= 2
    && var crc := Crc(0, p[..|p| - 2]);
      p[|p| - 2] == High(crc) && p[|p| - 1] == Low(crc)
  }

  lemma EnterHigh(c: bv16)
    ensures Enter(c, High(c)) == c & 0xFF
  {
  }

  lemma EnterLow(c: bv16)
    ensures Enter((c & 0xFF) << 8, Low(c)) == 0
  {
  }

  lemma StepsOfLow(c: bv16)
    ensures Steps(c & 0xFF, 8) == (c & 0xFF) << 8
  {
    LowSteps(c & 0xFF);
    hide Step;
    Eight(c & 0xFF);
  }

  lemma Eight(x: bv16)
    ensures Steps(x, 8) == Step(Step(Step(Step(Step(Step(Step(Step(x))))))))
  {
    hide Step;
    assert Steps(x, 8) == Steps(Step(Step(x)), 6);
    assert Steps(Step(Step(x)), 6) == Steps(Step(Step(Step(Step(x)))), 4);
  }

  lemma LowSteps(x: bv16)
    requires x & 0xFF00 == 0
    ensures Step(x) == x << 1 && Step(x << 1) == x << 2 && Step(x << 2) == x << 3 && Step(x << 3) == x << 4
    ensures Step(x << 4) == x << 5 && Step(x << 5) == x << 6 && Step(x << 6) == x << 7 && Step(x << 7) == x << 8
  {
  }

  lemma {:induction false} StepsOfZero(n: nat)
    ensures Steps(0, n) == 0
  {
    hide Step;
    if n > 0 {
      StepOfZero();
      StepsOfZero(n - 1);
    }
  }

  /** A register that is fed its own bits ends empty. */
  lemma OwnBitsEmpty(c: bv16)
    ensures Crc(c, [High(c), Low(c)]) == 0
  {
    hide Steps, Enter, High, Low;
    EnterHigh(c);
    StepsOfLow(c);
    EnterLow(c);
    StepsOfZero(8);
    var p := [High(c), Low(c)];
    assert p[1..] == [Low(c)] && p[1..][1..] == [];
    var mid := Steps(Enter(c, p[0]), 8);
    assert Crc(c, p) == Crc(mid, p[1..]);
    assert Crc(mid, p[1..]) == Crc(Steps(Enter(mid, Low(c)), 8), []);
  }

  lemma {:induction false} CrcSplit(c: bv16, a: seq<bv8>, b: seq<bv8>)
    ensures Crc(c, a + b) == Crc(Crc(c, a), b)
    decreases |a|
  {
    hide Steps, Enter;
    if a == [] {
      assert a + b == b;
    } else {
      assert (a + b)[0] == a[0] && (a + b)[1..] == a[1..] + b;
      CrcSplit(Steps(Enter(c, a[0]), 8), a[1..], b);
    }
  }

  lemma ChecksToZero(p: seq<bv8>)
    requires Checks(p)
    ensures Run(0, AllBits(p)) == 0
  {
    var body := p[..|p| - 2];
    var crc := Crc(0, body);
    hide Crc, High, Low;
    assert p == body + [High(crc), Low(crc)];
    CrcSplit(0, body, [High(crc), Low(crc)]);
    OwnBitsEmpty(crc);
    CrcIsRun(0, p);
  }

  lemma BitsTell(a: bv8, b: bv8)
    requires EightBits(a) == EightBits(b)
    ensures a == b
  {
    var u, v := EightBits(a), EightBits(b);
    assert u[0] == v[0] && u[1] == v[1] && u[2] == v[2] && u[3] == v[3] && u[4] == v[4] && u[5] == v[5] && u[6] == v[6] && u[7] == v[7];
  }

  lemma {:induction false} AllBitsTell(p: seq<bv8>, q: seq<bv8>)
    requires |p| == |q| && AllBits(p) == AllBits(q)
    ensures p == q
  {
    if p != [] {
      hide EightBits;
      assert AllBits(p)[..8] == EightBits(p[0]) && AllBits(p)[8..] == AllBits(p[1..]);
      assert AllBits(q)[..8] == EightBits(q[0]) && AllBits(q)[8..] == AllBits(q[1..]);
      BitsTell(p[0], q[0]);
      AllBitsTell(p[1..], q[1..]);
      assert p == [p[0]] + p[1..] && q == [q[0]] + q[1..];
    }
  }

  /** Two byte strings of any one length, each followed by its own checksum, never differ only
      within a run of at most sixteen consecutive bits. */
  lemma BurstsAreCaught(p: seq<bv8>, q: seq<bv8>, at: nat, n: nat)
    requires Checks(p) && Checks(q) && |p| == |q| && DifferWithin(AllBits(p), AllBits(q), at, n) && n <= 16
    ensures p == q
  {
    hide Checks;
    ChecksToZero(p);
    ChecksToZero(q);
    NoShortBurst(AllBits(p), AllBits(q), at, n);
    AllBitsTell(p, q);
  }
}
