/** Block proofs verify, and nothing but the committed block does. */
module MerkleProofs {
  import opened Bits
  import opened Bytes
  import opened Merkle

  // ---- positions ----

  /** The first leaf below node b, n levels up. */
  function Start(b: nat, n: nat): nat {
    if n == 0 then b else 2 * Start(b, n - 1)
  }

  /** The stretch of level m below node b of level m + n fits inside that level. */
  lemma {:induction false} StretchFits(t: Tree, m: nat, n: nat, b: nat)
    requires Halving(t) && m + n <= t.Depth() && b < |t.levels[m + n]|
    ensures Start(b, n) + Pow2(n) <= |t.levels[m]|
    decreases n
  {
    if n > 0 {
      StretchFits(t, m + 1, n - 1, b);
      assert |t.levels[m]| == 2 * |t.levels[m + 1]|;
    }
  }

  function Stretch(level: seq<Digest>, b: nat, n: nat): (s: seq<Digest>)
    requires Start(b, n) + Pow2(n) <= |level|
    ensures |s| == Pow2(n)
  {
    level[Start(b, n)..Start(b, n) + Pow2(n)]
  }

  lemma UpOfSlice(f: Joiner, below: seq<Digest>, lo: nat, k: nat)
    requires 2 * lo + 2 * k <= |below|
    ensures Up(f, below[2 * lo..2 * lo + 2 * k]) == Up(f, below)[lo..lo + k]
  {
    var s := below[2 * lo..2 * lo + 2 * k];
    forall i | 0 <= i < k ensures Up(f, s)[i] == Up(f, below)[lo..lo + k][i] {
      assert s[2 * i] == below[2 * (lo + i)] && s[2 * i + 1] == below[2 * (lo + i) + 1];
    }
  }

  /** Joining a stretch of one level gives the stretch above it. */
  lemma UpOfStretch(f: Joiner, below: seq<Digest>, b: nat, n: nat)
    requires n > 0 && Start(b, n) + Pow2(n) <= |below|
    ensures Up(f, Stretch(below, b, n)) == Stretch(Up(f, below), b, n - 1)
  {
    hide Start, Pow2, Up, Stretch;
    StartDoubles(b, n);
    var lo, k := Start(b, n - 1), Pow2(n - 1);
    HalfFits(lo, k, |below|);
    StretchIs(below, b, n);
    StretchIs(Up(f, below), b, n - 1);
    UpOfSlice(f, below, lo, k);
  }

  lemma HalfFits(lo: nat, k: nat, n: nat)
    requires 2 * lo + 2 * k <= n
    ensures lo + k <= n / 2
  {
  }

  lemma StretchIs(level: seq<Digest>, b: nat, n: nat)
    requires Start(b, n) + Pow2(n) <= |level|
    ensures Stretch(level, b, n) == level[Start(b, n)..Start(b, n) + Pow2(n)]
  {
    hide Start, Pow2;
  }

  lemma StartDoubles(b: nat, n: nat)
    requires n > 0
    ensures Start(b, n) == 2 * Start(b, n - 1) && Pow2(n) == 2 * Pow2(n - 1)
  {
  }

  lemma LevelAbove(f: Joiner, t: Tree, m: nat)
    requires Joined(f, t) && m + 1 < |t.levels|
    ensures t.levels[m + 1] == Up(f, t.levels[m])
  {
  }

  // ---- completeness ----

  lemma {:induction false} FoldOfStretch(f: Joiner, t: Tree, m: nat, n: nat, b: nat)
    requires Halving(t) && Joined(f, t) && m + n <= t.Depth() && b < |t.levels[m + n]|
    ensures Start(b, n) + Pow2(n) <= |t.levels[m]|
    ensures Fold(f, Stretch(t.levels[m], b, n), n) == t.levels[m + n][b]
    decreases n
  {
    hide Halving, Joined, Fold, Up, Pow2, Start;
    StretchFits(t, m, n, b);
    if n > 0 {
      UpOfStretch(f, t.levels[m], b, n);
      LevelAbove(f, t, m);
      FoldStep(f, Stretch(t.levels[m], b, n), n);
      FoldOfStretch(f, t, m + 1, n - 1, b);
    } else {
      StretchOfOne(f, t.levels[m], b);
    }
  }

  lemma StretchOfOne(f: Joiner, level: seq<Digest>, b: nat)
    requires b < |level|
    ensures Start(b, 0) + Pow2(0) <= |level| && |Stretch(level, b, 0)| == Pow2(0)
    ensures Fold(f, Stretch(level, b, 0), 0) == level[b]
  {
    assert Pow2(0) == 1;
  }

  /** From a node and its sibling to their parent, on the side its position says. */
  lemma ParentOf(f: Joiner, t: Tree, n: nat, i: nat)
    requires Halving(t) && Joined(f, t) && n < t.Depth() && i < |t.levels[n]|
    ensures 0 <= Sibling(i) < |t.levels[n]| && i / 2 < |t.levels[n + 1]|
    ensures t.levels[n + 1][i / 2] == if i % 2 == 0 then f(t.levels[n][i], t.levels[n][Sibling(i)]) else f(t.levels[n][Sibling(i)], t.levels[n][i])
  {
    assert |t.levels[n]| == 2 * |t.levels[n + 1]|;
    assert t.levels[n + 1] == Up(f, t.levels[n]);
    if i % 2 == 0 {
      assert 2 * (i / 2) == i;
    } else {
      assert 2 * (i / 2) == i - 1;
    }
  }

  lemma {:induction false} ClimbReachesRoot(f: Joiner, t: Tree, align: nat, block: nat, proof: seq<Digest>, k: nat)
    requires Halving(t) && Joined(f, t) && align <= t.Depth() && block < |t.levels[align]|
    requires IsProof(t, align, block, proof) && k <= |proof|
    ensures 0 <= Ancestor(block, k) < |t.levels[align + k]|
    ensures Climb(f, t.levels[align + k][Ancestor(block, k)], Ancestor(block, k), proof[k..]) == t.Root()
    decreases |proof| - k
  {
    if k < |proof| {
      ClimbStep(f, t, align, block, proof, k);
      hide *;
      ClimbReachesRoot(f, t, align, block, proof, k + 1);
    } else {
      AncestorInRange(block, t.Depth() - align, k);
      assert proof[k..] == [];
    }
  }

  /** One sibling up. */
  lemma ClimbStep(f: Joiner, t: Tree, align: nat, block: nat, proof: seq<Digest>, k: nat)
    requires Halving(t) && Joined(f, t) && align <= t.Depth() && block < |t.levels[align]|
    requires IsProof(t, align, block, proof) && k < |proof|
    ensures align + k + 1 < |t.levels| && 0 <= Ancestor(block, k) < |t.levels[align + k]| && 0 <= Ancestor(block, k + 1) < |t.levels[align + k + 1]|
    ensures Climb(f, t.levels[align + k][Ancestor(block, k)], Ancestor(block, k), proof[k..])
         == Climb(f, t.levels[align + k + 1][Ancestor(block, k + 1)], Ancestor(block, k + 1), proof[k + 1..])
  {
    AncestorInRange(block, t.Depth() - align, k);
    AncestorInRange(block, t.Depth() - align, k + 1);
    var i := Ancestor(block, k);
    assert Ancestor(block, k + 1) == i / 2;
    assert ProofAt(t, align, block, proof, k);
    ParentOf(f, t, align + k, i);
    hide Halving, Joined, IsProof, Ancestor;
    assert proof[k..][1..] == proof[k + 1..] && proof[k..][0] == proof[k];
  }

  /** Completeness: for every list, alignment and block in range, the proof that BlockProof
      opens makes VerifyBlock accept exactly that block of the padded list. */
  lemma BlockProofVerifies(f: Joiner, t: Tree, align: nat, block: nat, proof: seq<Digest>)
    requires Halving(t) && Joined(f, t) && align <= t.Depth() && block < |t.levels[align]|
    requires IsProof(t, align, block, proof)
    ensures Start(block, align) + Pow2(align) <= |t.levels[0]|
    ensures Accepts(f, t.Root(), block, Stretch(t.levels[0], block, align), proof, align)
  {
    FoldOfStretch(f, t, 0, align, block);
    ClimbReachesRoot(f, t, align, block, proof, 0);
    assert proof[0..] == proof;
  }

  // ---- soundness ----

  /** No two different pairs of s join to the same digest. */
  ghost predicate JoinsApart(f: Joiner, s: set<(Digest, Digest)>) {
    forall p, q :: p in s && q in s && f(p.0, p.1) == f(q.0, q.1) ==> p == q
  }

  /** s holds every pair that building t joins ... */
  ghost predicate BuildJoins(t: Tree, s: set<(Digest, Digest)>) {
    forall n, i :: 0 <= n < |t.levels| - 1 && 0 <= i && 2 * i + 1 < |t.levels[n]| ==> Pair(t.levels[n], i) in s
  }

  function Pair(level: seq<Digest>, i: nat): (Digest, Digest)
    requires 2 * i + 1 < |level|
  {
    (level[2 * i], level[2 * i + 1])
  }

  /** ... every pair that folding a block joins ... */
  ghost predicate FoldJoins(f: Joiner, level: seq<Digest>, n: nat, s: set<(Digest, Digest)>)
    decreases n
  {
    (forall i :: 0 <= i && 2 * i + 1 < |level| ==> Pair(level, i) in s) && (n > 0 ==> FoldJoins(f, Up(f, level), n - 1, s))
  }

  /** ... and every pair that climbing a proof joins. */
  ghost predicate ClimbJoins(f: Joiner, acc: Digest, idx: int, proof: seq<Digest>, s: set<(Digest, Digest)>)
    decreases |proof|
  {
    proof != [] ==>
      var pair := if idx % 2 == 0 then (acc, proof[0]) else (proof[0], acc);
      pair in s && ClimbJoins(f, f(pair.0, pair.1), idx / 2, proof[1..], s)
  }

  lemma {:induction false} ClimbSound(f: Joiner, t: Tree, n: nat, i: nat, acc: Digest, proof: seq<Digest>, s: set<(Digest, Digest)>)
    requires Halving(t) && Joined(f, t) && n + |proof| == t.Depth() && i < |t.levels[n]|
    requires Climb(f, acc, i, proof) == t.Root()
    requires JoinsApart(f, s) && BuildJoins(t, s) && ClimbJoins(f, acc, i, proof, s)
    ensures acc == t.levels[n][i]
    decreases |proof|
  {
    if proof != [] {
      ParentOf(f, t, n, i);
      var pair := if i % 2 == 0 then (acc, proof[0]) else (proof[0], acc);
      ClimbSound(f, t, n + 1, i / 2, f(pair.0, pair.1), proof[1..], s);
      assert |t.levels[n]| == 2 * |t.levels[n + 1]|;
      hide Halving, Joined, Climb;
      SamePair(f, t, n, i, pair, s);
    }
  }

  lemma SamePair(f: Joiner, t: Tree, n: nat, i: nat, pair: (Digest, Digest), s: set<(Digest, Digest)>)
    requires n < t.Depth() && i < |t.levels[n]| == 2 * |t.levels[n + 1]| && t.levels[n + 1] == Up(f, t.levels[n])
    requires JoinsApart(f, s) && BuildJoins(t, s) && pair in s && f(pair.0, pair.1) == t.levels[n + 1][i / 2]
    ensures t.levels[n][i] == if i % 2 == 0 then pair.0 else pair.1
  {
    var own := Pair(t.levels[n], i / 2);
    assert own in s;
    assert f(own.0, own.1) == t.levels[n + 1][i / 2];
  }

  lemma {:induction false} FoldSound(f: Joiner, t: Tree, m: nat, n: nat, b: nat, level: seq<Digest>, s: set<(Digest, Digest)>)
    requires Halving(t) && Joined(f, t) && m + n <= t.Depth() && b < |t.levels[m + n]|
    requires |level| == Pow2(n) && Fold(f, level, n) == t.levels[m + n][b]
    requires JoinsApart(f, s) && BuildJoins(t, s) && FoldJoins(f, level, n, s)
    ensures Start(b, n) + Pow2(n) <= |t.levels[m]| && level == Stretch(t.levels[m], b, n)
    decreases n
  {
    hide *;
    LevelIsThere(t, m, n);
    StretchFits(t, m, n, b);
    if n == 0 {
      FoldNone(f, t.levels[m], b, level);
    } else {
      LevelIsWide(t, m, n);
      FoldJoinsUp(f, level, n, s);
      LevelAbove(f, t, m);
      FoldSound(f, t, m + 1, n - 1, b, Up(f, level), s);
      UpOfStretch(f, t.levels[m], b, n);
      StretchJoins(t, m, n, b, s);
      PairwiseEqual(f, level, Stretch(t.levels[m], b, n), s);
    }
  }

  lemma FoldNone(f: Joiner, below: seq<Digest>, b: nat, level: seq<Digest>)
    requires |level| == Pow2(0) && b < |below| && Fold(f, level, 0) == below[b]
    ensures Start(b, 0) + Pow2(0) <= |below| && level == Stretch(below, b, 0)
  {
  }

  lemma LevelIsThere(t: Tree, m: nat, n: nat)
    requires m + n <= t.Depth()
    ensures m < |t.levels|
  {
  }

  lemma LevelIsWide(t: Tree, m: nat, n: nat)
    requires n > 0 && m + n <= t.Depth()
    ensures m + 1 < |t.levels| && m + 1 + (n - 1) <= t.Depth() && Pow2(n) % 2 == 0
  {
  }

  lemma FoldJoinsUp(f: Joiner, level: seq<Digest>, n: nat, s: set<(Digest, Digest)>)
    requires n > 0 && |level| == Pow2(n) && FoldJoins(f, level, n, s)
    ensures FoldJoins(f, Up(f, level), n - 1, s)
    ensures forall i :: 0 <= i && 2 * i + 1 < |level| ==> Pair(level, i) in s
    ensures |Up(f, level)| == Pow2(n - 1) && Fold(f, level, n) == Fold(f, Up(f, level), n - 1)
  {
  }

  lemma StretchJoins(t: Tree, m: nat, n: nat, b: nat, s: set<(Digest, Digest)>)
    requires BuildJoins(t, s) && m < |t.levels| - 1 && n > 0 && Start(b, n) + Pow2(n) <= |t.levels[m]|
    ensures forall i :: 0 <= i && 2 * i + 1 < Pow2(n) ==> Pair(Stretch(t.levels[m], b, n), i) in s
  {
    forall i | 0 <= i && 2 * i + 1 < Pow2(n) ensures Pair(Stretch(t.levels[m], b, n), i) in s {
      assert Pair(Stretch(t.levels[m], b, n), i) == Pair(t.levels[m], Start(b, n - 1) + i);
    }
  }

  lemma PairwiseEqual(f: Joiner, a: seq<Digest>, b: seq<Digest>, s: set<(Digest, Digest)>)
    requires |a| == |b| && |a| % 2 == 0 && Up(f, a) == Up(f, b) && JoinsApart(f, s)
    requires forall i :: 0 <= i && 2 * i + 1 < |a| ==> Pair(a, i) in s
    requires forall i :: 0 <= i && 2 * i + 1 < |b| ==> Pair(b, i) in s
    ensures a == b
  {
    forall k | 0 <= k < |a| ensures a[k] == b[k] {
      var p, q := Pair(a, k / 2), Pair(b, k / 2);
      assert Up(f, a)[k / 2] == f(p.0, p.1) && Up(f, b)[k / 2] == f(q.0, q.1);
      assert p == q;
    }
  }

  /** Soundness: whatever 2^align leaves VerifyBlock accepts at an in-range position, with a
      proof of the tree's own length, are the committed block in order, unless two of the
      joins that building, folding and climbing perform collide. */
  lemma OnlyTheBlockVerifies(f: Joiner, t: Tree, align: nat, block: nat, leaves: seq<Digest>, proof: seq<Digest>, s: set<(Digest, Digest)>)
    requires Halving(t) && Joined(f, t) && align <= t.Depth() && block < |t.levels[align]|
    requires Accepts(f, t.Root(), block, leaves, proof, align) && align + |proof| == t.Depth()
    requires JoinsApart(f, s) && BuildJoins(t, s) && FoldJoins(f, leaves, align, s)
    requires ClimbJoins(f, Fold(f, leaves, align), block, proof, s)
    ensures Start(block, align) + Pow2(align) <= |t.levels[0]|
    ensures leaves == Stretch(t.levels[0], block, align)
  {
    ClimbSound(f, t, align, block, Fold(f, leaves, align), proof, s);
    FoldSound(f, t, 0, align, block, leaves, s);
  }

  /** For the product's joiner, digests apart on the bytes means joins apart on the pairs. */
  lemma HashKeepsJoinsApart(h: Hasher, s: set<(Digest, Digest)>)
    requires NoCollision(h, set p | p in s :: NodeBytes(p.0, p.1))
    ensures JoinsApart(Node(h), s)
  {
    forall p, q | p in s && q in s && Node(h)(p.0, p.1) == Node(h)(q.0, q.1)
      ensures p == q
    {
      var x, y := NodeBytes(p.0, p.1), NodeBytes(q.0, q.1);
      assert x == y;
      assert x[1..33] == p.0 && x[33..] == p.1 && y[1..33] == q.0 && y[33..] == q.1;
    }
  }
}
