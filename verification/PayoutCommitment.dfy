/** Nothing but the committed list is ever paid, short of a hash collision. */
module PayoutCommitment {
  import opened Bits
  import opened Bytes
  import opened Merkle
  import opened MerkleProofs
  import opened PayoutMessage
  import opened PayoutProgram
  import opened PayoutAgreement
  import opened PayoutLifetime

  lemma LeafDataInjective(i: nat, a: Digest, v: nat, r: Digest, j: nat, b: Digest, u: nat, q: Digest)
    requires v < U64 && u < U64 && LeafData(i, a, v, r) == LeafData(j, b, u, q)
    ensures a == b && v == u && r == q
  {
    var x, y := LeafData(i, a, v, r), LeafData(j, b, u, q);
    hide LE;
    assert x[2..34] == a && y[2..34] == b;
    assert x[34..42] == LE(v, 8) && y[34..42] == LE(u, 8);
    assert x[42..] == r && y[42..] == q;
    WidthsAre();
    LEInjective(v, u, 8);
  }

  /** xs holds every leaf preimage of the list ... */
  ghost predicate ListHashed(run: Run, xs: set<Str>) {
    |run.items| == |run.accounts| && forall i :: 0 <= i < |run.items| && run.items[i].amount >= 0 ==>
      [0] + LeafData(i, run.accounts[i], run.items[i].amount, run.items[i].ref) in xs
  }

  /** ... and every one of the batch. */
  ghost predicate BatchHashed(merchants: seq<Digest>, b: PayCall, xs: set<Str>) {
    |merchants| == |b.amounts| == |b.refs| && forall i :: 0 <= i < |merchants| ==>
      [0] + LeafData(b.block * BLOCK + i, merchants[i], b.amounts[i], b.refs[i]) in xs
  }

  /** s holds every join the batch's check performs. */
  ghost predicate BatchJoined(h: Hasher, merchants: seq<Digest>, b: PayCall, s: set<(Digest, Digest)>) {
    && |merchants| == |b.amounts| == |b.refs|
    && var level := BlockLeaves(h, merchants, b);
      && FoldJoins(Node(h), level, 3, s)
      && ClimbJoins(Node(h), EightToOne(Node(h), level), b.block, b.proof, s)
  }

  /** The run account holds this list's root and length. */
  ghost predicate Holds(w: World, key: Digest, run: Run)
    requires run.tree.levels != [] && run.tree.levels[|run.tree.levels| - 1] != []
  {
    CheckRun(w, key) && ReadHeader(w.runs[key]).root == run.tree.Root() && ReadHeader(w.runs[key]).leaves == |run.items|
  }

  lemma BlockIsCommitted(h: Hasher, run: Run, w: World, now: int, key: Digest, merchants: seq<Digest>, b: PayCall, s: set<(Digest, Digest)>)
    requires IsRun(h, run) && run.tree.levels != [] && run.tree.levels[|run.tree.levels| - 1] != []
    requires Holds(w, key, run) && |b.amounts| == |b.refs| && Refusal(h, w, now, key, merchants, b) == None
    requires JoinsApart(Node(h), s) && BuildJoins(run.tree, s) && BatchJoined(h, merchants, b, s)
    ensures b.block * BLOCK < |run.items| && |merchants| == BlockEnd(run, b.block) - b.block * BLOCK
    ensures run.tree.Depth() >= 3 && Start(b.block, 3) + Pow2(3) <= |run.tree.levels[0]|
    ensures BlockLeaves(h, merchants, b) == Stretch(run.tree.levels[0], b.block, 3)
  {
    PassedChecks(h, run, w, now, key, merchants, b);
    hide Refusal, Holds, ReadHeader, CheckRun, FoldJoins, ClimbJoins, JoinsApart, BuildJoins, BlockLeaves, DepthFor, Fold, Climb;
    DepthsAgree(h, run);
    BlockOnTree(h, run, b.block);
    StartIsEight(0);
    var level := BlockLeaves(h, merchants, b);
    assert IsPow2(|level|, 3);
    assert Accepts(Node(h), run.tree.Root(), b.block, level, b.proof, 3);
    assert |run.tree.levels[3]| == Pow2(run.tree.Depth() - 3);
    OnlyTheBlockVerifies(Node(h), run.tree, 3, b.block, level, b.proof, s);
  }

  lemma PassedChecks(h: Hasher, run: Run, w: World, now: int, key: Digest, merchants: seq<Digest>, b: PayCall)
    requires run.tree.levels != [] && run.tree.levels[|run.tree.levels| - 1] != []
    requires Holds(w, key, run) && |b.amounts| == |b.refs| && Refusal(h, w, now, key, merchants, b) == None
    ensures b.block * BLOCK < |run.items| && |merchants| == |b.amounts| == BlockEnd(run, b.block) - b.block * BLOCK
    ensures |b.proof| == DepthFor(|run.items|) - 3 && RootOf(h, merchants, b) == run.tree.Root()
  {
    hide ReadHeader, CheckRun, RootOf, DepthFor;
  }

  lemma LeafIsCommitted(h: Hasher, run: Run, merchants: seq<Digest>, b: PayCall, i: nat, xs: set<Str>)
    requires IsRun(h, run) && b.block * BLOCK < |run.items| && |merchants| == BlockEnd(run, b.block) - b.block * BLOCK
    requires BatchHashed(merchants, b, xs) && i < |merchants| && b.amounts[i] < U64
    requires run.tree.Depth() >= 3 && Start(b.block, 3) + Pow2(3) <= |run.tree.levels[0]|
    requires BlockLeaves(h, merchants, b) == Stretch(run.tree.levels[0], b.block, 3)
    requires NoCollision(h, xs) && ListHashed(run, xs)
    ensures var k := b.block * BLOCK + i; merchants[i] == run.accounts[k] && b.amounts[i] == run.items[k].amount && b.refs[i] == run.items[k].ref
  {
    var k := b.block * BLOCK + i;
    LeafIs(h, run, merchants, b, i);
    hide IsRun, LeafData, NoCollision, BlockLeaves, Stretch, Start;
    LeafTells(h, k, merchants[i], b.amounts[i], b.refs[i], run.accounts[k], run.items[k].amount, run.items[k].ref, xs);
  }

  /** The leaf the program rebuilds is the list's own. */
  lemma LeafIs(h: Hasher, run: Run, merchants: seq<Digest>, b: PayCall, i: nat)
    requires IsRun(h, run) && b.block * BLOCK < |run.items| && |merchants| == |b.amounts| == |b.refs| && |merchants| == BlockEnd(run, b.block) - b.block * BLOCK && i < |merchants|
    requires run.tree.Depth() >= 3 && Start(b.block, 3) + Pow2(3) <= |run.tree.levels[0]|
    requires BlockLeaves(h, merchants, b) == Stretch(run.tree.levels[0], b.block, 3)
    ensures var k := b.block * BLOCK + i;
      && k < |run.items| == |run.accounts| && 0 < run.items[k].amount < U64
      && h([0] + LeafData(k, merchants[i], b.amounts[i], b.refs[i])) == h([0] + LeafData(k, run.accounts[k], run.items[k].amount, run.items[k].ref))
  {
    hide LeafData;
    var k := b.block * BLOCK + i;
    StartIsEight(b.block);
    assert run.tree.levels[0][k] == BlockLeaf(h, merchants, b, i) by {
      assert BlockLeaves(h, merchants, b)[i] == Stretch(run.tree.levels[0], b.block, 3)[i];
    }
    assert run.tree.levels[0][k] == LeafAt(h, run.items, run.accounts, k);
    assert Fault(k, run.items[k], run.accounts[k]) == None;
  }

  lemma LeafTells(h: Hasher, k: nat, a: Digest, v: nat, r: Digest, b: Digest, u: nat, q: Digest, xs: set<Str>)
    requires v < U64 && u < U64 && NoCollision(h, xs)
    requires var x, y := [0] + LeafData(k, a, v, r), [0] + LeafData(k, b, u, q); x in xs && y in xs && h(x) == h(y)
    ensures a == b && v == u && r == q
  {
    hide LeafData;
    var x, y: Str := [0] + LeafData(k, a, v, r), [0] + LeafData(k, b, u, q);
    assert x[1..] == LeafData(k, a, v, r) && y[1..] == LeafData(k, b, u, q);
    LeafDataInjective(k, a, v, r, k, b, u, q);
  }

  /** A payment is the list's own item at that leaf. */
  predicate Committed(p: Payment, run: Run) {
    p.leaf < |run.items| == |run.accounts| && p.to == run.accounts[p.leaf] && p.amount == run.items[p.leaf].amount && p.ref == run.items[p.leaf].ref
  }

  lemma AmountsFit(data: Str)
    requires ParseBatch(data).Some?
    ensures forall i :: 0 <= i < |ParseBatch(data).value.amounts| ==> ParseBatch(data).value.amounts[i] < U64
  {
    WidthsAre();
    hide FromLE, Pow256, Chunks, RefAt;
  }

  /** The inputs a call hashes are among those that do not collide. */
  ghost predicate Covered(h: Hasher, c: Call, xs: set<Str>, s: set<(Digest, Digest)>) {
    c.Pay? && ParseBatch(c.data).Some? && |c.accounts| >= 3 && |c.accounts| - 3 == |ParseBatch(c.data).value.amounts| ==>
      BatchHashed(c.accounts[3..], ParseBatch(c.data).value, xs) && BatchJoined(h, c.accounts[3..], ParseBatch(c.data).value, s)
  }

  lemma BatchIsCommitted(h: Hasher, run: Run, w: World, now: int, key: Digest, merchants: seq<Digest>, b: PayCall, xs: set<Str>, s: set<(Digest, Digest)>)
    requires IsRun(h, run) && run.tree.levels != [] && run.tree.levels[|run.tree.levels| - 1] != []
    requires Holds(w, key, run) && |b.amounts| == |b.refs| == |merchants| && Refusal(h, w, now, key, merchants, b) == None
    requires BatchHashed(merchants, b, xs) && BatchJoined(h, merchants, b, s)
    requires NoCollision(h, xs) && ListHashed(run, xs) && JoinsApart(Node(h), s) && BuildJoins(run.tree, s)
    requires forall i :: 0 <= i < |b.amounts| ==> b.amounts[i] < U64
    ensures forall i :: 0 <= i < |merchants| ==> Committed(Paying(now, b, merchants, |merchants|)[i], run)
  {
    hide Holds, BatchJoined, JoinsApart, BuildJoins, Refusal, ListHashed, BatchHashed, BlockLeaves, NoCollision, Stretch, Start;
    BlockIsCommitted(h, run, w, now, key, merchants, b, s);
    forall i | 0 <= i < |merchants| ensures Committed(Paying(now, b, merchants, |merchants|)[i], run) {
      LeafIsCommitted(h, run, merchants, b, i, xs);
    }
  }

  lemma PaidIsCall(c: Call, o: Opening)
    requires Paid(c, o) != []
    ensures c.Pay?
  {
  }

  lemma CoversBatch(h: Hasher, c: Call, xs: set<Str>, s: set<(Digest, Digest)>)
    requires Covered(h, c, xs, s) && c.Pay? && ParseBatch(c.data).Some? && |c.accounts| >= 3 && |c.accounts| - 3 == |ParseBatch(c.data).value.amounts|
    ensures BatchHashed(c.accounts[3..], ParseBatch(c.data).value, xs) && BatchJoined(h, c.accounts[3..], ParseBatch(c.data).value, s)
  {
    hide BatchHashed, BatchJoined, ParseBatch;
  }

  lemma PassedTheChecks(h: Hasher, w: World, c: Call, o: Opening)
    requires Paid(c, o) != [] && Pays(h, w, c.now, c.accounts, c.data, c.outcome)
    ensures ParseBatch(c.data).Some? && |c.accounts| >= 3 && c.accounts[0] == o.run
    ensures var b := ParseBatch(c.data).value;
      && |b.amounts| == |b.refs| == |c.accounts| - 3 && Refusal(h, w, c.now, o.run, c.accounts[3..], b) == None
      && Paid(c, o) == Paying(c.now, b, c.accounts[3..], |c.accounts| - 3)
  {
    hide RootOf, Marked, AnyPaid, PayAll, ReadHeader, DepthFor;
  }

  lemma CallPaysCommitted(h: Hasher, run: Run, w: World, c: Call, o: Opening, xs: set<Str>, s: set<(Digest, Digest)>)
    requires IsRun(h, run) && run.tree.levels != [] && run.tree.levels[|run.tree.levels| - 1] != []
    requires Holds(w, o.run, run) && (c.Pay? ==> Pays(h, w, c.now, c.accounts, c.data, c.outcome)) && Covered(h, c, xs, s)
    requires NoCollision(h, xs) && ListHashed(run, xs) && JoinsApart(Node(h), s) && BuildJoins(run.tree, s)
    ensures forall k :: 0 <= k < |Paid(c, o)| ==> Committed(Paid(c, o)[k], run)
  {
    hide *;
    if Paid(c, o) != [] {
      PaidIsCall(c, o);
      PassedTheChecks(h, w, c, o);
      AmountsFit(c.data);
      var b, merchants := ParseBatch(c.data).value, c.accounts[3..];
      CoversBatch(h, c, xs, s);
      BatchIsCommitted(h, run, w, c.now, o.run, merchants, b, xs, s);
    }
  }

  ghost predicate AllCovered(h: Hasher, calls: seq<Call>, xs: set<Str>, s: set<(Digest, Digest)>) {
    forall i :: 0 <= i < |calls| ==> Covered(h, calls[i], xs, s)
  }

  /** Over every life of a run opened for the builder's root, every payment made is the list's
      own item: its token account, its amount, its reference. */
  lemma {:induction false} OnlyTheListIsPaid(h: Hasher, find: Finder, run: Run, w: World, calls: seq<Call>, o: Opening, xs: set<Str>, s: set<(Digest, Digest)>)
    requires IsRun(h, run) && run.tree.levels != [] && run.tree.levels[|run.tree.levels| - 1] != []
    requires o.terms.root == run.tree.Root() && o.terms.leaves == |run.items|
    requires Live(w, o, []) && Life(h, find, w, calls, o) && AllCovered(h, calls, xs, s)
    requires NoCollision(h, xs) && ListHashed(run, xs) && JoinsApart(Node(h), s) && BuildJoins(run.tree, s)
    ensures forall k :: 0 <= k < |History(calls, o)| ==> Committed(History(calls, o)[k], run)
  {
    if calls != [] {
      var before, last := calls[..|calls| - 1], calls[|calls| - 1];
      assert AllCovered(h, before, xs, s);
      OnlyTheListIsPaid(h, find, run, w, before, o, xs, s);
      LifeKeepsLive(h, find, w, before, o);
      HoldsWhileLive(Then(w, before), o, History(before, o), run);
      hide IsRun, Live, ListHashed, BuildJoins, JoinsApart, NoCollision, Pays, Covered, Committed, Paid;
      CallPaysCommitted(h, run, Then(w, before), last, o, xs, s);
    }
  }

  lemma HoldsWhileLive(w: World, o: Opening, p: seq<Payment>, run: Run)
    requires run.tree.levels != [] && run.tree.levels[|run.tree.levels| - 1] != []
    requires Live(w, o, p) && o.terms.root == run.tree.Root() && o.terms.leaves == |run.items|
    ensures Holds(w, o.run, run)
  {
    hide BitsTell, WholeBlocks, Once, Timely, Sum;
  }
}
