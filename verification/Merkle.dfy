/** The tree that commits to a payout list, and the proof shared by one aligned block. */
module Merkle {
  import opened Bits
  import opened Bytes

  datatype Error = EmptyTree | BlockTooLarge | BlockOutOfRange

  function Leaf(h: Hasher, data: Str): Digest {
    h([0] + data)
  }

  const PAD: Str := ZERO

  /** How two children become their parent. */
  type Joiner = (Digest, Digest) -> Digest

  function NodeBytes(left: Digest, right: Digest): Str {
    [1] + left + right
  }

  function Node(h: Hasher): Joiner {
    (left: Digest, right: Digest) => h(NodeBytes(left, right))
  }

  predicate IsPow2(p: int, n: nat) { p == Pow2(n) }

  // ---- levels ----

  /** One level up: adjacent pairs joined, left before right. */
  function Up(f: Joiner, level: seq<Digest>): (up: seq<Digest>)
    ensures |up| == |level| / 2
    ensures forall i :: 0 <= i < |up| ==> up[i] == f(level[2 * i], level[2 * i + 1])
  {
    seq(|level| / 2, i requires 0 <= i < |level| / 2 => f(level[2 * i], level[2 * i + 1]))
  }

  /** The single digest above 2^n leaves. */
  function Fold(f: Joiner, level: seq<Digest>, n: nat): Digest
    requires |level| == Pow2(n)
    decreases n
  {
    if n == 0 then level[0] else Fold(f, Up(f, level), n - 1)
  }

  /** The list padded to a power of two with blank leaves. */
  function Padded(leaves: seq<Digest>, depth: nat): (p: seq<Digest>)
    requires |leaves| <= Pow2(depth)
    ensures |p| == Pow2(depth) && leaves <= p
  {
    leaves + seq(Pow2(depth) - |leaves|, _ => PAD)
  }

  /** The least depth at which the list fits. */
  predicate DepthOf(leaves: nat, depth: nat) {
    leaves <= Pow2(depth) && (depth > 0 ==> Pow2(depth - 1) < leaves)
  }

  datatype Tree = Tree(levels: seq<seq<Digest>>) {
    function Depth(): int { |levels| - 1 }

    function Root(): Digest
      requires levels != [] && levels[|levels| - 1] != []
    {
      levels[|levels| - 1][0]
    }
  }

  /** Levels that halve down to one node. */
  ghost predicate Halving(t: Tree) {
    t.levels != [] && forall n :: 0 <= n <= t.Depth() ==> |t.levels[n]| == Pow2(t.Depth() - n)
  }

  /** Each level is joined from the one below. */
  ghost predicate Joined(f: Joiner, t: Tree) {
    forall n :: 0 < n < |t.levels| ==> t.levels[n] == Up(f, t.levels[n - 1])
  }

  /** The least power of two that is not below n. */
  method WidthFor(n: nat) returns (width: nat, ghost depth: nat)
    requires n > 0
    ensures width == Pow2(depth) && DepthOf(n, depth)
  {
    width, depth := 1, 0;
    while width < n
      invariant width == Pow2(depth) && (depth > 0 ==> Pow2(depth - 1) < n)
      decreases n - width
    {
      width := width * 2;
      depth := depth + 1;
    }
  }

  /** All the levels above a padded one. */
  method Levels(f: Joiner, leaves: seq<Digest>, ghost depth: nat) returns (levels: seq<seq<Digest>>)
    requires |leaves| == Pow2(depth)
    ensures Tree(levels).Depth() == depth && Halving(Tree(levels)) && Joined(f, Tree(levels)) && levels[0] == leaves
  {
    hide Pow2, Up;
    var level := leaves;
    levels := [level];
    while |level| > 1
      invariant 0 < |levels| <= depth + 1
      invariant level == levels[|levels| - 1] && levels[0] == leaves
      invariant forall n :: 0 <= n < |levels| ==> |levels[n]| == Pow2(depth - n)
      invariant forall n :: 0 < n < |levels| ==> levels[n] == Up(f, levels[n - 1])
      decreases |level|
    {
      HalfPower(depth - (|levels| - 1));
      level := Above(f, level);
      UpHalves(f, levels[|levels| - 1]);
      levels := levels + [level];
    }
    HalfPower(depth - (|levels| - 1));
  }

  /** Halving a power of two that is not one, and only such a one, takes an exponent off. */
  lemma HalfPower(n: nat)
    ensures Pow2(n) > 1 <==> n > 0
    ensures n > 0 ==> Pow2(n) / 2 == Pow2(n - 1)
    ensures n == 0 ==> Pow2(n) == 1
  {
  }

  lemma UpHalves(f: Joiner, level: seq<Digest>)
    ensures |Up(f, level)| == |level| / 2
  {
  }

  method Build(f: Joiner, leaves: seq<Digest>) returns (r: Result<Tree, Error>)
    ensures r.Err? <==> leaves == []
    ensures r.Err? ==> r.error == EmptyTree
    ensures r.Ok? ==> Halving(r.value) && Joined(f, r.value) && DepthOf(|leaves|, r.value.Depth()) && r.value.levels[0] == Padded(leaves, r.value.Depth())
  {
    if leaves == [] {
      return Err(EmptyTree);
    }
    hide Halving, Joined, Pow2;
    ghost var depth;
    var width: nat;
    width, depth := WidthFor(|leaves|);
    var level: seq<Digest> := leaves + seq(width - |leaves|, _ => PAD);
    assert level == Padded(leaves, depth);
    var levels := Levels(f, level, depth);
    return Ok(Tree(levels));
  }

  method Above(f: Joiner, level: seq<Digest>) returns (next: seq<Digest>)
    ensures next == Up(f, level)
  {
    next := [];
    for i := 0 to |level| / 2
      invariant next == Up(f, level)[..i]
    {
      next := next + [f(level[2 * i], level[2 * i + 1])];
    }
  }

  // ---- proofs ----

  function Sibling(i: int): int {
    if i % 2 == 0 then i + 1 else i - 1
  }

  /** The position of a node's ancestor k levels up. */
  function Ancestor(i: int, k: nat): int {
    if k == 0 then i else Ancestor(i, k - 1) / 2
  }

  lemma {:induction false} AncestorInRange(i: nat, d: nat, k: nat)
    requires i < Pow2(d) && k <= d
    ensures 0 <= Ancestor(i, k) < Pow2(d - k)
  {
    if k > 0 {
      AncestorInRange(i, d, k - 1);
    }
  }

  /** The proof of block `block` at level `align`: the other half, on every level up. */
  ghost predicate IsProof(t: Tree, align: nat, block: nat, proof: seq<Digest>) {
    && align + |proof| == t.Depth()
    && forall k :: 0 <= k < |proof| ==> ProofAt(t, align, block, proof, k)
  }

  ghost predicate ProofAt(t: Tree, align: nat, block: nat, proof: seq<Digest>, k: nat) {
    k < |proof| && IsSibling(t, align + k, Ancestor(block, k), proof[k])
  }

  ghost predicate IsSibling(t: Tree, n: nat, i: int, d: Digest) {
    n < |t.levels| && 0 <= Sibling(i) < |t.levels[n]| && d == t.levels[n][Sibling(i)]
  }

  lemma SiblingThere(t: Tree, align: nat, block: nat, level: nat)
    requires Halving(t) && align <= level < t.Depth() && block < |t.levels[align]|
    ensures var i := Ancestor(block, level - align);
      && 0 <= Sibling(i) < |t.levels[level]|
      && IsSibling(t, level, i, t.levels[level][Sibling(i)])
      && Ancestor(block, level - align + 1) == i / 2
  {
    AncestorInRange(block, t.Depth() - align, level - align);
    assert |t.levels[level]| == 2 * Pow2(t.Depth() - level - 1);
  }

  method BlockProof(t: Tree, block: int, align: nat) returns (r: Result<seq<Digest>, Error>)
    requires Halving(t)
    ensures align > t.Depth() ==> r == Err(BlockTooLarge)
    ensures align <= t.Depth() ==> (r.Err? <==> block < 0 || block >= Pow2(t.Depth() - align))
    ensures align <= t.Depth() && r.Err? ==> r.error == BlockOutOfRange
    ensures r.Ok? ==> IsProof(t, align, block, r.value)
  {
    if align > t.Depth() {
      return Err(BlockTooLarge);
    }
    if block < 0 || block >= |t.levels[align]| {
      return Err(BlockOutOfRange);
    }
    var proof: seq<Digest> := [];
    var idx := block;
    assert Ancestor(block, 0) == block;
    hide IsSibling, Ancestor, Halving, Pow2;
    for level := align to t.Depth()
      invariant |proof| == level - align
      invariant idx == Ancestor(block, level - align)
      invariant forall k :: 0 <= k < |proof| ==> ProofAt(t, align, block, proof, k)
    {
      SiblingThere(t, align, block, level);
      var next := proof + [t.levels[level][Sibling(idx)]];
      assert forall k :: 0 <= k < |proof| ==> ProofAt(t, align, block, proof, k) ==> ProofAt(t, align, block, next, k);
      assert ProofAt(t, align, block, next, level - align);
      proof := next;
      idx := idx / 2;
    }
    return Ok(proof);
  }

  /** Walk from a digest to the root, one sibling a level, the position choosing the side. */
  function Climb(f: Joiner, acc: Digest, idx: int, proof: seq<Digest>): Digest
    decreases |proof|
  {
    if proof == [] then acc
    else if idx % 2 == 0 then Climb(f, f(acc, proof[0]), idx / 2, proof[1..])
    else Climb(f, f(proof[0], acc), idx / 2, proof[1..])
  }

  ghost predicate Accepts(f: Joiner, root: Digest, block: int, leaves: seq<Digest>, proof: seq<Digest>, k: nat) {
    IsPow2(|leaves|, k) && Climb(f, Fold(f, leaves, k), block, proof) == root
  }

  /** Recompute the root from a full block and its proof, as the on-chain program does. */
  method VerifyBlock(f: Joiner, root: Digest, block: int, leaves: seq<Digest>, proof: seq<Digest>) returns (ok: bool)
    ensures ok <==> exists k :: Accepts(f, root, block, leaves, proof, k)
  {
    ghost var k;
    var power: bool;
    power, k := IsPowerOfTwo(|leaves|);
    if !power {
      return false;
    }
    hide Fold, Climb, Pow2, IsPow2;
    var top := FoldLevel(f, leaves, k);
    var acc := ClimbProof(f, top, block, proof);
    ok := acc == root;
    forall m | Accepts(f, root, block, leaves, proof, m) ensures m == k {
      Pow2Injective(m, k) by { assert IsPow2(|leaves|, m) && IsPow2(|leaves|, k); SamePower(|leaves|, m, k); }
    }
    assert Accepts(f, root, block, leaves, proof, k) <==> ok;
  }

  lemma SamePower(p: int, a: nat, b: nat)
    requires IsPow2(p, a) && IsPow2(p, b)
    ensures Pow2(a) == Pow2(b)
  {
  }

  /** Halve a level until one node is left. */
  method FoldLevel(f: Joiner, leaves: seq<Digest>, ghost k: nat) returns (top: Digest)
    requires IsPow2(|leaves|, k)
    ensures |leaves| == Pow2(k) && top == Fold(f, leaves, k)
  {
    hide Fold, Pow2, Up;
    var level := leaves;
    ghost var n := k;
    while |level| > 1
      invariant |level| == Pow2(n) && Fold(f, level, n) == Fold(f, leaves, k)
      decreases |level|
    {
      HalfPower(n);
      FoldStep(f, level, n);
      UpHalves(f, level);
      level := Above(f, level);
      n := n - 1;
    }
    HalfPower(n);
    FoldEnd(f, level);
    return level[0];
  }

  lemma FoldStep(f: Joiner, level: seq<Digest>, n: nat)
    requires n > 0 && |level| == Pow2(n)
    ensures |Up(f, level)| == Pow2(n - 1) && Fold(f, level, n) == Fold(f, Up(f, level), n - 1)
  {
  }

  lemma FoldEnd(f: Joiner, level: seq<Digest>)
    requires |level| == Pow2(0)
    ensures |level| == 1 && Fold(f, level, 0) == level[0]
  {
  }

  method ClimbProof(f: Joiner, from: Digest, block: int, proof: seq<Digest>) returns (acc: Digest)
    ensures acc == Climb(f, from, block, proof)
  {
    acc := from;
    var idx := block;
    for i := 0 to |proof|
      invariant Climb(f, acc, idx, proof[i..]) == Climb(f, from, block, proof)
    {
      assert proof[i..][1..] == proof[i + 1..];
      acc := if idx % 2 == 0 then f(acc, proof[i]) else f(proof[i], acc);
      idx := idx / 2;
    }
  }

  lemma {:induction false} Pow2Injective(a: nat, b: nat)
    requires Pow2(a) == Pow2(b)
    ensures a == b
  {
    if a > 0 && b > 0 {
      Pow2Injective(a - 1, b - 1);
    }
  }

  /** Exactly one bit set. */
  method IsPowerOfTwo(n: nat) returns (power: bool, ghost k: nat)
    ensures power <==> exists k :: IsPow2(n, k)
    ensures power ==> IsPow2(n, k)
  {
    k := 0;
    if n == 0 {
      assert forall m :: !IsPow2(0, m);
      return false, 0;
    }
    var rest := n;
    while rest % 2 == 0
      invariant rest > 0 && n == rest * Pow2(k)
      decreases rest
    {
      Scale(rest, k);
      rest := rest / 2;
      k := k + 1;
    }
    power := rest == 1;
    assert rest == 1 ==> IsPow2(n, k);
    if !power {
      forall m ensures !IsPow2(n, m) {
        OddFactor(rest, k, m);
      }
    }
  }

  lemma Scale(rest: nat, k: nat)
    requires rest % 2 == 0
    ensures rest * Pow2(k) == rest / 2 * Pow2(k + 1)
  {
    assert rest == 2 * (rest / 2);
  }

  lemma Pow2Doubles(k: nat)
    requires k > 0
    ensures Pow2(k) == 2 * Pow2(k - 1)
  {
  }

  lemma TwiceProduct(x: nat, p: nat)
    ensures x * (2 * p) == 2 * (x * p)
  {
  }

  lemma {:induction false} OddFactor(rest: nat, k: nat, m: nat)
    requires rest % 2 == 1 && rest != 1
    ensures rest * Pow2(k) != Pow2(m)
  {
    hide Pow2;
    if k > 0 {
      Pow2Doubles(k);
      TwiceProduct(rest, Pow2(k - 1));
      Doubled(rest * Pow2(k - 1), k, m);
      if m > 0 {
        OddFactor(rest, k - 1, m - 1);
      }
    } else {
      OddIsNoPower(rest, m);
    }
  }

  lemma Doubled(x: nat, k: nat, m: nat)
    requires k > 0
    ensures m > 0 ==> (2 * x == Pow2(m) <==> x == Pow2(m - 1))
    ensures m == 0 ==> 2 * x != Pow2(m)
  {
  }

  lemma OddIsNoPower(rest: nat, m: nat)
    requires rest % 2 == 1 && rest != 1
    ensures rest * Pow2(0) != Pow2(m)
  {
  }
}
