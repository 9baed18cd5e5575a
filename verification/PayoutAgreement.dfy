/** The off-chain builder and the on-chain program agree byte for byte. */
module PayoutAgreement {
  import opened Bits
  import opened Bytes
  import opened Bulk
  import opened Merkle
  import opened MerkleProofs
  import opened SolanaWire
  import opened PayoutMessage
  import opened PayoutProgram

  /** The accounts an instruction is handed: the message's keys at the positions it lists. */
  function Named(m: Message, ix: Instruction): (names: seq<Digest>)
    requires forall i :: 0 <= i < |ix.accounts| ==> ix.accounts[i] < |m.keys|
  {
    seq(|ix.accounts|, i requires 0 <= i < |ix.accounts| => m.keys[ix.accounts[i]])
  }

  // ---- the data, read back ----

  lemma {:induction false} ItemAt(items: seq<Payout>, i: nat)
    requires i < |items| && forall k :: 0 <= k < |items| ==> items[k].amount >= 0
    ensures ItemBytes(items)[i * 40..i * 40 + 8] == LE(items[i].amount, 8)
    ensures ItemBytes(items)[i * 40 + 8..i * 40 + 40] == items[i].ref
  {
    var b, head, rest := ItemBytes(items), LE(items[0].amount, 8) + items[0].ref, ItemBytes(items[1..]);
    assert b == head + rest && |head| == 40;
    if i > 0 {
      ItemAt(items[1..], i - 1);
      var o := (i - 1) * 40;
      hide ItemBytes, LE;
      SliceBehind(head, rest, o, o + 8);
      SliceBehind(head, rest, o + 8, o + 40);
    } else {
      assert b[0..8] == head[0..8] && b[8..40] == head[8..40];
    }
  }

  lemma SliceBehind(head: Str, rest: Str, lo: nat, hi: nat)
    requires lo <= hi <= |rest|
    ensures (head + rest)[|head| + lo..|head| + hi] == rest[lo..hi]
  {
  }

  lemma {:induction false} ChunksOfFlat(proof: seq<Digest>)
    ensures Chunks(Flat(proof)) == proof
  {
    if proof != [] {
      assert Flat(proof)[..32] == proof[0] && Flat(proof)[32..] == Flat(proof[1..]);
      ChunksOfFlat(proof[1..]);
    }
  }

  ghost predicate Same(b: PayCall, block: nat, items: seq<Payout>, proof: seq<Digest>) {
    && b.block == block && b.proof == proof && |b.amounts| == |b.refs| == |items|
    && forall i :: 0 <= i < |items| ==> b.amounts[i] == items[i].amount && b.refs[i] == items[i].ref
  }

  /** The data behind the discriminator. */
  function Tail(block: nat, items: seq<Payout>, proof: seq<Digest>): (d: Str)
    requires |items| < 256 && forall i :: 0 <= i < |items| ==> items[i].amount >= 0
    ensures |d| == 3 + 40 * |items| + 32 * |proof|
  {
    LE(block, 2) + ([|items|] + (ItemBytes(items) + Flat(proof)))
  }

  lemma TailParts(block: nat, items: seq<Payout>, proof: seq<Digest>)
    requires |items| < 256 && forall i :: 0 <= i < |items| ==> items[i].amount >= 0
    ensures var d, n := Tail(block, items, proof), 3 + |items| * 40;
      d[..2] == LE(block, 2) && d[2] == |items| && d[3..n] == ItemBytes(items) && d[n..] == Flat(proof)
  {
    hide LE, ItemBytes, Flat;
    var n: Str := [|items|];
    var d := LE(block, 2) + (n + (ItemBytes(items) + Flat(proof)));
    assert d[3..] == ItemBytes(items) + Flat(proof);
  }

  lemma SliceOfSlice(s: Str, lo: nat, hi: nat, a: nat, b: nat)
    requires a <= b && lo + b <= hi <= |s|
    ensures s[lo..hi][a..b] == s[lo + a..lo + b]
  {
    var x, y := s[lo..hi][a..b], s[lo + a..lo + b];
    forall k | 0 <= k < |x| ensures x[k] == y[k] {
    }
  }

  lemma ItemReadsBack(d: Str, items: seq<Payout>, i: nat)
    requires i < |items| < 256 && |d| >= 3 + |items| * 40
    requires forall k :: 0 <= k < |items| ==> 0 <= items[k].amount < U64
    requires d[3..3 + |items| * 40] == ItemBytes(items)
    ensures AmountAt(d, i) == items[i].amount && RefAt(d, i) == items[i].ref
  {
    hide *;
    ItemSlices(d, ItemBytes(items), i, |items|);
    ItemAt(items, i);
    WidthsAre();
    LERoundTrip(items[i].amount, 8);
  }

  lemma ItemSlices(d: Str, body: Str, i: nat, n: nat)
    requires i < n && |d| >= 3 + n * 40 && |body| == n * 40 && d[3..3 + n * 40] == body
    ensures AmountAt(d, i) == FromLE(body[i * 40..i * 40 + 8]) && RefAt(d, i) == body[i * 40 + 8..i * 40 + 40]
  {
    hide FromLE;
    SliceOfSlice(d, 3, 3 + n * 40, i * 40, i * 40 + 8);
    SliceOfSlice(d, 3, 3 + n * 40, i * 40 + 8, i * 40 + 40);
  }

  /** pay_batch reads from the builder's data exactly what the builder put there. */
  lemma DataReadsBack(block: nat, items: seq<Payout>, proof: seq<Digest>)
    requires block < 65536 && 0 < |items| <= BLOCK
    requires forall i :: 0 <= i < |items| ==> 0 <= items[i].amount < U64
    ensures ParseBatch(Tail(block, items, proof)).Some?
    ensures Same(ParseBatch(Tail(block, items, proof)).value, block, items, proof)
  {
    var d := Tail(block, items, proof);
    TailParts(block, items, proof);
    WidthsAre();
    LERoundTrip(block, 2);
    ChunksOfFlat(proof);
    hide LE, ItemBytes, FromLE, Pow256, Flat, Chunks, Tail, AmountAt, RefAt;
    forall i | 0 <= i < |items| ensures AmountAt(d, i) == items[i].amount && RefAt(d, i) == items[i].ref {
      ItemReadsBack(d, items, i);
    }
  }

  // ---- the tree, from both sides ----

  lemma DepthIsUnique(n: nat, a: nat, b: nat)
    requires DepthOf(n, a) && DepthOf(n, b)
    ensures a == b
  {
    if a < b {
      Pow2Grows(a, b - 1);
    } else if b < a {
      Pow2Grows(b, a - 1);
    }
  }

  /** The program's depth_for is the builder's tree height. */
  lemma DepthsAgree(h: Hasher, run: Run)
    requires IsRun(h, run)
    ensures run.tree.Depth() == DepthFor(|run.items|)
  {
    DepthIsUnique(if |run.items| < 8 then 8 else |run.items|, run.tree.Depth(), DepthFor(|run.items|));
  }

  /** The eight leaves the program rebuilds are the block of the committed level. */
  lemma LeavesAgree(h: Hasher, run: Run, block: nat, b: PayCall)
    requires IsRun(h, run) && block * BLOCK < |run.items|
    requires Same(b, block, run.items[block * BLOCK..BlockEnd(run, block)], b.proof)
    ensures run.tree.Depth() >= 3 && Start(block, 3) + Pow2(3) <= |run.tree.levels[0]|
    ensures BlockLeaves(h, run.accounts[block * BLOCK..BlockEnd(run, block)], b) == Stretch(run.tree.levels[0], block, 3)
  {
    BlockOnTree(h, run, block);
    StretchFits(run.tree, 0, 3, block);
    StartIsEight(block);
    hide IsRun, BlockLeaf, Halving, Pow2, Start;
    var merchants := run.accounts[block * BLOCK..BlockEnd(run, block)];
    forall i | 0 <= i < 8
      ensures BlockLeaf(h, merchants, b, i) == run.tree.levels[0][block * BLOCK + i]
    {
      LeafAgrees(h, run, block, b, i);
    }
  }

  lemma LeafAgrees(h: Hasher, run: Run, block: nat, b: PayCall, i: nat)
    requires IsRun(h, run) && block * BLOCK < |run.items| && i < 8 && run.tree.levels != [] && block * BLOCK + i < |run.tree.levels[0]|
    requires Same(b, block, run.items[block * BLOCK..BlockEnd(run, block)], b.proof)
    ensures BlockLeaf(h, run.accounts[block * BLOCK..BlockEnd(run, block)], b, i) == run.tree.levels[0][block * BLOCK + i]
  {
    var k, items := block * BLOCK + i, run.items[block * BLOCK..BlockEnd(run, block)];
    assert run.tree.levels[0][k] == LeafAt(h, run.items, run.accounts, k);
    if i < |items| {
      assert items[i] == run.items[k] && Fault(k, run.items[k], run.accounts[k]) == None;
    }
    hide Leaf, LeafData;
  }

  lemma StartIsEight(b: nat)
    ensures Start(b, 3) == b * 8 && Pow2(3) == 8
  {
    assert Start(b, 0) == b && Start(b, 1) == 2 * b && Start(b, 2) == 4 * b;
    assert Pow2(0) == 1 && Pow2(1) == 2 && Pow2(2) == 4;
  }

  /** Folding and climbing the builder's block with the builder's proof gives the builder's root. */
  lemma RootsAgree(h: Hasher, run: Run, block: nat, b: PayCall)
    requires IsRun(h, run) && block * BLOCK < |run.items|
    requires Same(b, block, run.items[block * BLOCK..BlockEnd(run, block)], b.proof)
    requires IsProof(run.tree, 3, block, b.proof)
    ensures RootOf(h, run.accounts[block * BLOCK..BlockEnd(run, block)], b) == run.tree.Root()
  {
    BlockOnTree(h, run, block);
    BlockProofVerifies(Node(h), run.tree, 3, block, b.proof);
    LeavesAgree(h, run, block, b);
  }

  // ---- the whole message ----

  /** A run account that init_run opened for this list and that can still be paid from. */
  ghost predicate Payable(w: World, key: Digest, run: Run, now: int)
    requires run.tree.levels != [] && run.tree.levels[|run.tree.levels| - 1] != []
  {
    && CheckRun(w, key)
    && var hd := ReadHeader(w.runs[key]);
      hd.clawed == 0 && now < hd.deadline && hd.root == run.tree.Root() && hd.leaves == |run.items|
  }

  lemma RunHasRoot(h: Hasher, run: Run)
    requires IsRun(h, run)
    ensures run.tree.levels != [] && run.tree.levels[|run.tree.levels| - 1] != []
  {
    assert |run.tree.levels[run.tree.Depth()]| == Pow2(0);
  }

  /** The instruction names the run, the vault, the token program and the block's own token
      accounts in list order, however often one of them repeats. */
  lemma NamesReadBack(h: Hasher, run: Run, acc: Accounts, blockhash: Digest, block: nat, m: Message)
    requires IsBatch(h, run, acc, blockhash, block, m)
    ensures var ix := m.instructions[0];
      && (forall i :: 0 <= i < |ix.accounts| ==> ix.accounts[i] < |m.keys|)
      && ix.program < |m.keys| && m.keys[ix.program] == acc.program
      && Named(m, ix) == [acc.run, acc.vault, acc.tokenProgram] + run.accounts[block * BLOCK..BlockEnd(run, block)]
  {
    hide HasData, Lists, Named;
    var ix, accounts := m.instructions[0], run.accounts[block * BLOCK..BlockEnd(run, block)];
    FixedKeys(acc, accounts, m.keys, ix.accounts[3..]);
    FirstThree(ix.accounts, 1, 2, |m.keys| - 2);
    NamesAre(acc, accounts, m, ix);
  }

  lemma FixedKeys(acc: Accounts, accounts: seq<Digest>, keys: seq<Digest>, places: Str)
    requires Lists(acc, accounts, keys, places)
    ensures |keys| >= 5 && keys[1] == acc.run && keys[2] == acc.vault
    ensures keys[|keys| - 2] == acc.tokenProgram && keys[|keys| - 1] == acc.program
    ensures |places| == |accounts| && forall i :: 0 <= i < |places| ==> places[i] < |keys| && keys[places[i]] == accounts[i]
  {
    assert keys[1] == keys[..3][1] && keys[2] == keys[..3][2];
    assert keys[|keys| - 2] == keys[|keys| - 2..][0] && keys[|keys| - 1] == keys[|keys| - 2..][1];
  }

  lemma FirstThree(s: Str, a: nat, b: nat, c: nat)
    requires |s| >= 3 && s[..3] == [a, b, c]
    ensures s[0] == a && s[1] == b && s[2] == c && forall i :: 3 <= i < |s| ==> s[i] == s[3..][i - 3]
  {
    assert s[0] == s[..3][0] && s[1] == s[..3][1] && s[2] == s[..3][2];
  }

  lemma NamesAre(acc: Accounts, accounts: seq<Digest>, m: Message, ix: Instruction)
    requires |m.keys| >= 5 && m.keys[1] == acc.run && m.keys[2] == acc.vault && m.keys[|m.keys| - 2] == acc.tokenProgram
    requires |ix.accounts| == 3 + |accounts| && ix.accounts[0] == 1 && ix.accounts[1] == 2 && ix.accounts[2] == |m.keys| - 2
    requires forall i :: 3 <= i < |ix.accounts| ==> ix.accounts[i] < |m.keys| && m.keys[ix.accounts[i]] == accounts[i - 3]
    ensures Named(m, ix) == [acc.run, acc.vault, acc.tokenProgram] + accounts
  {
  }

  /** What the builder put behind the discriminator, as pay_batch parses it. */
  lemma BatchReadsBack(h: Hasher, run: Run, block: nat, data: Str) returns (b: PayCall)
    requires IsRun(h, run) && block * BLOCK < |run.items| && HasData(h, run, block, data)
    ensures |data| > 8 && data[..8] == Discriminator(h, "pay_batch") && ParseBatch(data[8..]) == Some(b)
    ensures Same(b, block, run.items[block * BLOCK..BlockEnd(run, block)], b.proof) && IsProof(run.tree, 3, block, b.proof)
  {
    var start, end := block * BLOCK, BlockEnd(run, block);
    var items := run.items[start..end];
    var proof :| IsProof(run.tree, 3, block, proof) && data == BatchData(h, block, items, proof);
    forall i | 0 <= i < |items| ensures 0 <= items[i].amount < U64 {
      assert Fault(start + i, run.items[start + i], run.accounts[start + i]) == None;
    }
    BlockOnTree(h, run, block);
    DataReadsBack(block, items, proof);
    assert data[..8] == Discriminator(h, "pay_batch") && data[8..] == Tail(block, items, proof);
    b := ParseBatch(data[8..]).value;
  }

  lemma ProofLength(h: Hasher, run: Run, block: nat, b: PayCall)
    requires IsRun(h, run) && IsProof(run.tree, 3, block, b.proof)
    ensures |b.proof| == DepthFor(|run.items|) - 3 && |run.items| == |run.accounts|
  {
    DepthsAgree(h, run);
  }

  lemma ChecksPass(h: Hasher, run: Run, block: nat, b: PayCall, w: World, key: Digest, now: int)
    requires IsRun(h, run) && block * BLOCK < |run.items|
    requires run.tree.levels != [] && run.tree.levels[|run.tree.levels| - 1] != []
    requires Payable(w, key, run, now)
    requires Same(b, block, run.items[block * BLOCK..BlockEnd(run, block)], b.proof) && IsProof(run.tree, 3, block, b.proof)
    ensures Refusal(h, w, now, key, run.accounts[block * BLOCK..BlockEnd(run, block)], b) == None
  {
    assert |run.items| == |run.accounts|;
    hide IsRun, RootOf, DepthFor, IsProof, ReadHeader, CheckRun, Refusal;
    ProofLength(h, run, block, b);
    RootsAgree(h, run, block, b);
    RefusesNothing(h, w, now, key, run.accounts[block * BLOCK..BlockEnd(run, block)], b);
  }

  lemma RefusesNothing(h: Hasher, w: World, now: int, key: Digest, merchants: seq<Digest>, b: PayCall)
    requires CheckRun(w, key) && |merchants| == |b.amounts| == |b.refs|
    requires var hd := ReadHeader(w.runs[key]);
      && hd.clawed == 0 && now < hd.deadline && b.block * BLOCK < hd.leaves && |b.proof| == DepthFor(hd.leaves) - 3
      && |merchants| == (if hd.leaves - b.block * BLOCK < BLOCK then hd.leaves - b.block * BLOCK else BLOCK) && RootOf(h, merchants, b) == hd.root
    ensures Refusal(h, w, now, key, merchants, b) == None
  {
    hide RootOf, DepthFor, ReadHeader;
  }

  /** For every run of at most 65,535 payouts and every block of it, the message the builder
      emits, read by the chain's own rules, calls pay_batch with exactly that block's accounts,
      amounts and references, and passes its count, depth, proof-length and root checks. */
  lemma MessageIsAccepted(h: Hasher, run: Run, acc: Accounts, blockhash: Digest, block: nat, m: Message, w: World, now: int)
    requires IsRun(h, run) && IsBatch(h, run, acc, blockhash, block, m)
    requires run.tree.levels != [] && run.tree.levels[|run.tree.levels| - 1] != []
    requires Payable(w, acc.run, run, now)
    ensures var ix, start, end := m.instructions[0], block * BLOCK, BlockEnd(run, block);
      && (forall i :: 0 <= i < |ix.accounts| ==> ix.accounts[i] < |m.keys|)
      && ix.program < |m.keys| && m.keys[ix.program] == acc.program
      && Named(m, ix) == [acc.run, acc.vault, acc.tokenProgram] + run.accounts[start..end]
      && |ix.data| > 8 && ix.data[..8] == Discriminator(h, "pay_batch")
      && ParseBatch(ix.data[8..]).Some?
      && var b := ParseBatch(ix.data[8..]).value;
        && Same(b, block, run.items[start..end], b.proof)
        && Refusal(h, w, now, acc.run, run.accounts[start..end], b) == None
  {
    NamesReadBack(h, run, acc, blockhash, block, m);
    var b := BatchReadsBack(h, run, block, m.instructions[0].data);
    ChecksPass(h, run, block, b, w, acc.run, now);
  }

  /** So an unpaid block of a payable run is refused for money alone: any answer pay_batch gives
      to the builder's message is a settlement of that block. */
  lemma MessageSettles(h: Hasher, run: Run, acc: Accounts, blockhash: Digest, block: nat, m: Message, w: World, now: int, r: Result<World, Fail>)
    requires IsRun(h, run) && IsBatch(h, run, acc, blockhash, block, m)
    requires run.tree.levels != [] && run.tree.levels[|run.tree.levels| - 1] != []
    requires Payable(w, acc.run, run, now)
    requires forall i :: 0 <= i < |m.instructions[0].accounts| ==> m.instructions[0].accounts[i] < |m.keys|
    requires |m.instructions[0].data| > 8 && Pays(h, w, now, Named(m, m.instructions[0]), m.instructions[0].data[8..], r)
    ensures ParseBatch(m.instructions[0].data[8..]).Some?
    ensures var b, merchants := ParseBatch(m.instructions[0].data[8..]).value, run.accounts[block * BLOCK..BlockEnd(run, block)];
      |merchants| == |b.amounts| && CheckRun(w, acc.run) && Settles(w, acc.run, acc.vault, acc.tokenProgram, merchants, b, r)
  {
    MessageIsAccepted(h, run, acc, blockhash, block, m, w, now);
    var names := Named(m, m.instructions[0]);
    assert names[3..] == run.accounts[block * BLOCK..BlockEnd(run, block)];
  }
}
