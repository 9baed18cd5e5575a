/** What the address checksum is: the remainder of dividing by one polynomial over the field of two. */
module CrcDivision {
  import opened Crc16

  // ---- the generator, and sums of its shifts ----

  /** The exponents of the generator's terms. */
  const GENERATOR: set<nat> := {16, 12, 5, 0}

  /** The generator as a bit string, the highest exponent first. */
  function Word(): (w: seq<bool>)
    ensures |w| == 17
  {
    seq(17, i requires 0 <= i < 17 => 16 - i in GENERATOR)
  }

  /** The generator somewhere in a string of n bits, and nothing else. */
  function Shift(n: nat, at: nat): (w: seq<bool>)
    requires at + 17 <= n
    ensures |w| == n
  {
    Zeros(at) + (Word() + Zeros(n - at - 17))
  }

  predicate Fit(n: nat, ats: seq<nat>) { forall i :: 0 <= i < |ats| ==> ats[i] + 17 <= n }

  /** The sum of such strings: bit by bit, odd counts stay. */
  function Sum(n: nat, ats: seq<nat>): (w: seq<bool>)
    requires Fit(n, ats)
    ensures |w| == n
  {
    if ats == [] then Zeros(n) else Difference(Shift(n, ats[0]), Sum(n, ats[1..]))
  }

  /** w, read as a polynomial, is a multiple of the generator. */
  ghost predicate Divisible(w: seq<bool>) {
    exists ats: seq<nat> :: Fit(|w|, ats) && w == Sum(|w|, ats)
  }

  // ---- multiples leave nothing ----

  /** What of the generator is fed from bit i on. */
  function Rest(i: nat): seq<bool>
    requires i <= 17
  {
    Word()[i..]
  }

  lemma RestAt(c: bv16, i: nat)
    requires i < 17
    ensures Run(c, Rest(i)) == Run(Feed(c, i == 0 || i == 4 || i == 11 || i == 16), Rest(i + 1))
  {
    hide Feed;
    assert Rest(i)[1..] == Rest(i + 1);
  }

  lemma RestEnds()
    ensures Rest(0) == Word() && forall c :: Run(c, Rest(17)) == c
  {
  }

  lemma FirstNine()
    ensures Feed(0, true) == 0x1021 && Feed(0x1021, false) == 0x2042 && Feed(0x2042, false) == 0x4084
    ensures Feed(0x4084, false) == 0x8108 && Feed(0x8108, true) == 0x0210 && Feed(0x0210, false) == 0x0420
    ensures Feed(0x0420, false) == 0x0840 && Feed(0x0840, false) == 0x1080 && Feed(0x1080, false) == 0x2100
  {
  }

  lemma LastEight()
    ensures Feed(0x2100, false) == 0x4200 && Feed(0x4200, false) == 0x8400 && Feed(0x8400, true) == 0x0800
    ensures Feed(0x0800, false) == 0x1000 && Feed(0x1000, false) == 0x2000 && Feed(0x2000, false) == 0x4000
    ensures Feed(0x4000, false) == 0x8000 && Feed(0x8000, true) == 0
  {
  }

  /** The register that is fed the generator ends empty. */
  lemma WordLeavesNothing()
    ensures Run(0, Word()) == 0
  {
    FirstNine();
    LastEight();
    RestEnds();
    hide Feed, Run, Word, Rest;
    RestAt(0x0, 0);
    RestAt(0x1021, 1);
    RestAt(0x2042, 2);
    RestAt(0x4084, 3);
    RestAt(0x8108, 4);
    RestAt(0x210, 5);
    RestAt(0x420, 6);
    RestAt(0x840, 7);
    RestAt(0x1080, 8);
    RestAt(0x2100, 9);
    RestAt(0x4200, 10);
    RestAt(0x8400, 11);
    RestAt(0x800, 12);
    RestAt(0x1000, 13);
    RestAt(0x2000, 14);
    RestAt(0x4000, 15);
    RestAt(0x8000, 16);
  }

  lemma ShiftLeavesNothing(n: nat, at: nat)
    requires at + 17 <= n
    ensures Run(0, Shift(n, at)) == 0
  {
    hide Run, Word;
    RunSplit(0, Zeros(at), Word() + Zeros(n - at - 17));
    RunOfZeros(0, at);
    RunSplit(0, Word(), Zeros(n - at - 17));
    WordLeavesNothing();
    RunOfZeros(0, n - at - 17);
  }

  lemma {:induction false} SumLeavesNothing(n: nat, ats: seq<nat>)
    requires Fit(n, ats)
    ensures Run(0, Sum(n, ats)) == 0
  {
    hide Run, Shift, Xor;
    if ats == [] {
      RunOfZeros(0, n);
    } else {
      ShiftLeavesNothing(n, ats[0]);
      SumLeavesNothing(n, ats[1..]);
      NoXor();
      RunLinear(0, 0, Shift(n, ats[0]), Sum(n, ats[1..]));
    }
  }

  // ---- and only multiples ----

  function Later(ats: seq<nat>): (r: seq<nat>)
    ensures |r| == |ats|
  {
    seq(|ats|, i requires 0 <= i < |ats| => ats[i] + 1)
  }

  lemma {:induction false} SumLater(n: nat, ats: seq<nat>)
    requires Fit(n, ats)
    ensures Fit(n + 1, Later(ats)) && Sum(n + 1, Later(ats)) == [false] + Sum(n, ats)
  {
    if ats == [] {
      assert Zeros(n + 1) == [false] + Zeros(n);
    } else {
      SumLater(n, ats[1..]);
      assert Later(ats)[1..] == Later(ats[1..]);
      ShiftLater(n, ats[0]);
      hide Shift;
      assert Difference([false] + Shift(n, ats[0]), [false] + Sum(n, ats[1..])) == [false] + Difference(Shift(n, ats[0]), Sum(n, ats[1..]));
    }
  }

  lemma ShiftLater(n: nat, at: nat)
    requires at + 17 <= n
    ensures Shift(n + 1, at + 1) == [false] + Shift(n, at)
  {
    hide Word;
    assert Zeros(at + 1) == [false] + Zeros(at);
  }

  lemma DifferenceTwice(u: seq<bool>, v: seq<bool>)
    requires |u| == |v|
    ensures Difference(u, Difference(u, v)) == v
  {
  }

  /** Taking the generator off the front clears the first bit. */
  lemma TakenOff(w: seq<bool>)
    requires |w| >= 17 && w[0]
    ensures !Difference(Shift(|w|, 0), w)[0]
  {
    assert Word()[0];
  }

  lemma SilentStart(w: seq<bool>)
    requires w != [] && !w[0]
    ensures Run(0, w) == Run(0, w[1..]) && w == [false] + w[1..]
  {
    StepOfZero();
    assert Feed(0, false) == 0;
    hide Step;
  }

  lemma {:induction false} Divides(w: seq<bool>) returns (ats: seq<nat>)
    requires Run(0, w) == 0
    ensures Fit(|w|, ats) && w == Sum(|w|, ats)
    decreases |w|
  {
    hide Run, Shift, Xor, Sum, Emptied;
    if |w| <= 16 {
      ats := [];
      OnlyOneEmpties(0, w);
      EmptiedOfNothing(w);
      SumOfNone(|w|);
    } else if !w[0] {
      ats := DividesRest(w);
    } else {
      var d := Difference(Shift(|w|, 0), w);
      ShiftLeavesNothing(|w|, 0);
      NoXor();
      RunLinear(0, 0, Shift(|w|, 0), w);
      TakenOff(w);
      var rest := DividesRest(d);
      ats := [0] + rest;
      DifferenceTwice(Shift(|w|, 0), w);
      SumOfMore(|w|, 0, rest);
    }
  }

  lemma SumOfNone(n: nat)
    ensures Sum(n, []) == Zeros(n)
  {
  }

  lemma SumOfMore(n: nat, at: nat, rest: seq<nat>)
    requires at + 17 <= n && Fit(n, rest)
    ensures Fit(n, [at] + rest) && Sum(n, [at] + rest) == Difference(Shift(n, at), Sum(n, rest))
  {
    assert ([at] + rest)[1..] == rest;
    hide Shift;
  }

  lemma {:induction false} DividesRest(w: seq<bool>) returns (ats: seq<nat>)
    requires w != [] && !w[0] && Run(0, w) == 0
    ensures Fit(|w|, ats) && w == Sum(|w|, ats)
    decreases |w|, 0
  {
    hide Run, Sum;
    SilentStart(w);
    var rest := Divides(w[1..]);
    SumLater(|w| - 1, rest);
    ats := Later(rest);
  }

  /** The register of a bit string is empty exactly when the string is a multiple of the generator. */
  lemma EmptyIsDivisible(w: seq<bool>)
    ensures Run(0, w) == 0 <==> Divisible(w)
  {
    hide Run, Sum;
    if Run(0, w) == 0 {
      var ats := Divides(w);
    }
    if Divisible(w) {
      var ats: seq<nat> :| Fit(|w|, ats) && w == Sum(|w|, ats);
      SumLeavesNothing(|w|, ats);
    }
  }

  // ---- the checksum ----

  lemma TwoBytes(p: seq<bv8>, c: bv16)
    requires |p| >= 2 && c == Crc(0, p[..|p| - 2])
    ensures var q := p[..|p| - 2] + [High(c), Low(c)];
      Run(0, AllBits(q)) == 0 && Checks(q) && |q| == |p|
  {
    var body := p[..|p| - 2];
    var q := body + [High(c), Low(c)];
    assert q[..|q| - 2] == body;
    hide Crc, High, Low;
    assert Checks(q);
    ChecksToZero(q);
  }

  lemma {:induction false} AllBitsSplit(a: seq<bv8>, b: seq<bv8>)
    ensures AllBits(a + b) == AllBits(a) + AllBits(b)
  {
    hide EightBits;
    if a == [] {
      assert a + b == b;
    } else {
      assert (a + b)[0] == a[0] && (a + b)[1..] == a[1..] + b;
      AllBitsSplit(a[1..], b);
    }
  }

  /** A byte string ends in its own checksum exactly when, read as one polynomial, it is a multiple of the
      generator. */
  lemma CheckIsDivision(p: seq<bv8>)
    requires |p| >= 2
    ensures Checks(p) <==> Divisible(AllBits(p))
  {
    hide Divisible, Run, Crc, High, Low;
    EmptyIsDivisible(AllBits(p));
    if Checks(p) {
      ChecksToZero(p);
    }
    if Divisible(AllBits(p)) {
      ZeroChecks(p);
    }
  }

  /** No other two bytes than the checksum bring the register back to 0. */
  lemma ZeroChecks(p: seq<bv8>)
    requires |p| >= 2 && Run(0, AllBits(p)) == 0
    ensures Checks(p)
  {
    hide *;
    var c, body, last := Crc(0, p[..|p| - 2]), p[..|p| - 2], p[|p| - 2..];
    var q := body + [High(c), Low(c)];
    TwoBytes(p, c);
    assert p == body + last;
    AllBitsSplit(body, last);
    AllBitsSplit(body, [High(c), Low(c)]);
    SameFront(AllBits(body), AllBits(last), AllBits([High(c), Low(c)]));
    NoShortBurst(AllBits(p), AllBits(q), |AllBits(body)|, 16);
    AllBitsTell(p, q);
  }

  lemma SameFront(front: seq<bool>, a: seq<bool>, b: seq<bool>)
    requires |a| == |b| == 16
    ensures DifferWithin(front + a, front + b, |front|, 16)
  {
  }

  /** One byte more. */
  lemma CrcAt(c: bv16, p: seq<bv8>, i: nat)
    requires i < |p|
    ensures Crc(c, p[i..]) == Crc(Step(Step(Step(Step(Step(Step(Step(Step(Enter(c, p[i]))))))))), p[i + 1..])
  {
    hide Step, Enter;
    assert p[i..][1..] == p[i + 1..];
    Eight(Enter(c, p[i]));
  }

  lemma Digit1()
    ensures Step(Step(Step(Step(Step(Step(Step(Step(Enter(0x0, 49))))))))) == 0x2672
  {
    assert Enter(0x0, 49) == 0x3100;
    assert Step(0x3100) == 0x6200 && Step(0x6200) == 0xc400 && Step(0xc400) == 0x9821 && Step(0x9821) == 0x2063;
    assert Step(0x2063) == 0x40c6 && Step(0x40c6) == 0x818c && Step(0x818c) == 0x1339 && Step(0x1339) == 0x2672;
  }

  lemma Digit2()
    ensures Step(Step(Step(Step(Step(Step(Step(Step(Enter(0x2672, 50))))))))) == 0x20b5
  {
    assert Enter(0x2672, 50) == 0x1472;
    assert Step(0x1472) == 0x28e4 && Step(0x28e4) == 0x51c8 && Step(0x51c8) == 0xa390 && Step(0xa390) == 0x5701;
    assert Step(0x5701) == 0xae02 && Step(0xae02) == 0x4c25 && Step(0x4c25) == 0x984a && Step(0x984a) == 0x20b5;
  }

  lemma Digit3()
    ensures Step(Step(Step(Step(Step(Step(Step(Step(Enter(0x20b5, 51))))))))) == 0x9752
  {
    assert Enter(0x20b5, 51) == 0x13b5;
    assert Step(0x13b5) == 0x276a && Step(0x276a) == 0x4ed4 && Step(0x4ed4) == 0x9da8 && Step(0x9da8) == 0x2b71;
    assert Step(0x2b71) == 0x56e2 && Step(0x56e2) == 0xadc4 && Step(0xadc4) == 0x4ba9 && Step(0x4ba9) == 0x9752;
  }

  lemma Digit4()
    ensures Step(Step(Step(Step(Step(Step(Step(Step(Enter(0x9752, 52))))))))) == 0xd789
  {
    assert Enter(0x9752, 52) == 0xa352;
    assert Step(0xa352) == 0x5685 && Step(0x5685) == 0xad0a && Step(0xad0a) == 0x4a35 && Step(0x4a35) == 0x946a;
    assert Step(0x946a) == 0x38f5 && Step(0x38f5) == 0x71ea && Step(0x71ea) == 0xe3d4 && Step(0xe3d4) == 0xd789;
  }

  lemma Digit5()
    ensures Step(Step(Step(Step(Step(Step(Step(Step(Enter(0xd789, 53))))))))) == 0x546c
  {
    assert Enter(0xd789, 53) == 0xe289;
    assert Step(0xe289) == 0xd533 && Step(0xd533) == 0xba47 && Step(0xba47) == 0x64af && Step(0x64af) == 0xc95e;
    assert Step(0xc95e) == 0x829d && Step(0x829d) == 0x151b && Step(0x151b) == 0x2a36 && Step(0x2a36) == 0x546c;
  }

  lemma Digit6()
    ensures Step(Step(Step(Step(Step(Step(Step(Step(Enter(0x546c, 54))))))))) == 0x20e4
  {
    assert Enter(0x546c, 54) == 0x626c;
    assert Step(0x626c) == 0xc4d8 && Step(0xc4d8) == 0x9991 && Step(0x9991) == 0x2303 && Step(0x2303) == 0x4606;
    assert Step(0x4606) == 0x8c0c && Step(0x8c0c) == 0x839 && Step(0x839) == 0x1072 && Step(0x1072) == 0x20e4;
  }

  lemma Digit7()
    ensures Step(Step(Step(Step(Step(Step(Step(Step(Enter(0x20e4, 55))))))))) == 0x86d6
  {
    assert Enter(0x20e4, 55) == 0x17e4;
    assert Step(0x17e4) == 0x2fc8 && Step(0x2fc8) == 0x5f90 && Step(0x5f90) == 0xbf20 && Step(0xbf20) == 0x6e61;
    assert Step(0x6e61) == 0xdcc2 && Step(0xdcc2) == 0xa9a5 && Step(0xa9a5) == 0x436b && Step(0x436b) == 0x86d6;
  }

  lemma Digit8()
    ensures Step(Step(Step(Step(Step(Step(Step(Step(Enter(0x86d6, 56))))))))) == 0x9015
  {
    assert Enter(0x86d6, 56) == 0xbed6;
    assert Step(0xbed6) == 0x6d8d && Step(0x6d8d) == 0xdb1a && Step(0xdb1a) == 0xa615 && Step(0xa615) == 0x5c0b;
    assert Step(0x5c0b) == 0xb816 && Step(0xb816) == 0x600d && Step(0x600d) == 0xc01a && Step(0xc01a) == 0x9015;
  }

  lemma Digit9()
    ensures Step(Step(Step(Step(Step(Step(Step(Step(Enter(0x9015, 57))))))))) == 0x31c3
  {
    assert Enter(0x9015, 57) == 0xa915;
    assert Step(0xa915) == 0x420b && Step(0x420b) == 0x8416 && Step(0x8416) == 0x180d && Step(0x180d) == 0x301a;
    assert Step(0x301a) == 0x6034 && Step(0x6034) == 0xc068 && Step(0xc068) == 0x90f1 && Step(0x90f1) == 0x31c3;
  }

  const NINE: seq<bv8> := [49, 50, 51, 52, 53, 54, 55, 56, 57]

  lemma FirstFour()
    ensures Crc(0, NINE[0..]) == Crc(0xd789, NINE[4..])
  {
    hide Step, Enter, Crc;
    Digit1();
    CrcAt(0x0, NINE, 0);
    Digit2();
    CrcAt(0x2672, NINE, 1);
    Digit3();
    CrcAt(0x20b5, NINE, 2);
    Digit4();
    CrcAt(0x9752, NINE, 3);
  }

  lemma LastFive()
    ensures Crc(0xd789, NINE[4..]) == Crc(0x31c3, NINE[9..])
  {
    hide Step, Enter, Crc;
    Digit5();
    CrcAt(0xd789, NINE, 4);
    Digit6();
    CrcAt(0x546c, NINE, 5);
    Digit7();
    CrcAt(0x20e4, NINE, 6);
    Digit8();
    CrcAt(0x86d6, NINE, 7);
    Digit9();
    CrcAt(0x9015, NINE, 8);
  }

  /** The checksum of the nine digits, as catalogues of checksums give it for this one. */
  lemma NineDigits()
    ensures Crc(0, [49, 50, 51, 52, 53, 54, 55, 56, 57]) == 0x31c3
  {
    hide Crc;
    FirstFour();
    LastFive();
    CrcOfNothing(0x31c3);
    assert NINE[0..] == NINE && NINE[9..] == [];
  }

  lemma CrcOfNothing(c: bv16)
    ensures Crc(c, []) == c
  {
  }
}
