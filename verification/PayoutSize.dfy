/** What the packer reserves for a payout batch is what its message takes. */
module PayoutSize {
  import opened Bits
  import opened Bytes
  import opened Bulk
  import opened Merkle
  import opened SolanaWire
  import M = PayoutMessage
  import A = PayoutAgreement

  /** Solana's numbers: bytes of a transaction, then accounts it may name. */
  const BYTES := Rule(1232, 280, 73, 32)
  const ACCOUNTS := Rule(64, 5, 1, 0)
  const PREPARE_BYTES := Rule(1232, 262, 74, 0)
  const PREPARE_ACCOUNTS := Rule(64, 5, 2, 0)
  const SOLANA := Limits([BYTES, ACCOUNTS], 8, [PREPARE_BYTES, PREPARE_ACCOUNTS], 2_039_280)

  /** One signature and its count. */
  const SIGNATURES := 65

  lemma OnlyThree(k: nat)
    ensures Pow2(k) == 8 <==> k == 3
  {
    assert Pow2(3) == 8;
    if Pow2(k) == 8 && k != 3 {
      if k > 3 {
        Pow2Grows(4, k);
      } else {
        Pow2Grows(k, 2);
      }
    }
  }

  /** Pack and NewRun agree on the number of blocks, the height of the tree and the items of
      every block. */
  lemma PlanIsRun(h: Hasher, run: M.Run, p: Plan)
    requires M.IsRun(h, run) && IsPlan(SOLANA, run.items, p)
    ensures |p.batches| == M.Blocks(run) && p.levels == run.tree.Depth() && p.proofHashes == run.tree.Depth() - 3
    ensures forall b :: 0 <= b < |p.batches| ==> b * 8 < |run.items| && p.batches[b].items == run.items[b * 8..M.BlockEnd(run, b)]
  {
    var n := |run.items|;
    var block: nat :| IsPower(8, block) && p.levels == block + p.proofHashes && n <= Pow2(p.levels) && (p.proofHashes > 0 ==> Pow2(p.levels - 1) < n);
    OnlyThree(block);
    assert Pow2(2) == 4 && Pow2(3) == 8;
    if p.proofHashes > 0 {
      Pow2Grows(3, p.levels - 1);
    }
    A.DepthIsUnique(if n < 8 then 8 else n, p.levels, run.tree.Depth());
    forall b | 0 <= b < |p.batches| ensures b * 8 < n && p.batches[b].items == run.items[b * 8..M.BlockEnd(run, b)] {
      assert BlockAt(8, run.items, p.batches[b], b);
    }
  }

  ghost predicate AllDifferent(s: seq<Digest>) {
    forall i, j :: 0 <= i < j < |s| ==> s[i] != s[j]
  }

  /** Different places below a bound are no more than the bound. */
  lemma {:induction false} Pigeons(places: seq<int>, lo: nat, hi: nat)
    requires lo <= hi && forall i :: 0 <= i < |places| ==> lo <= places[i] < hi
    requires forall i, j :: 0 <= i < j < |places| ==> places[i] != places[j]
    ensures |places| <= hi - lo
    decreases hi
  {
    if lo < hi {
      if hi - 1 in places {
        var k :| 0 <= k < |places| && places[k] == hi - 1;
        var rest := places[..k] + places[k + 1..];
        forall i | 0 <= i < |rest| ensures rest[i] == places[if i < k then i else i + 1] && lo <= rest[i] < hi - 1 {
        }
        forall i, j | 0 <= i < j < |rest| ensures rest[i] != rest[j] {
          assert rest[i] == places[if i < k then i else i + 1] && rest[j] == places[if j < k then j else j + 1];
        }
        Pigeons(rest, lo, hi - 1);
      } else {
        forall i | 0 <= i < |places| ensures places[i] < hi - 1 {
          assert places[i] in places;
        }
        Pigeons(places, lo, hi - 1);
      }
    }
  }

  /** With different token accounts every item has its own place in the account list. */
  lemma OneKeyEach(acc: M.Accounts, accounts: seq<Digest>, keys: seq<Digest>, places: Str)
    requires M.Lists(acc, accounts, keys, places) && AllDifferent(accounts)
    ensures |keys| == 5 + |accounts|
  {
    forall i, j | 0 <= i < j < |places| ensures places[i] != places[j] {
      assert accounts[i] != accounts[j];
    }
    Pigeons(places, 3, |keys| - 2);
  }

  lemma MessageLength(m: Message, n: nat)
    requires m.signatures < 256 && m.readonlySigned < 256 && m.readonlyUnsigned < 256
    requires |m.instructions| == 1 && m.instructions[0].program < 256 && n <= 8
    requires |m.keys| == 5 + n && |m.instructions[0].accounts| == 3 + n && |m.instructions[0].data| < 16384
    ensures |MessageBytes(m)| == 202 + 33 * n + |m.instructions[0].data| + if |m.instructions[0].data| < 128 then 1 else 2
  {
    var ix := m.instructions[0];
    assert |Compact(1)| == 1 && |Compact(3 + n)| == 1 && |Compact(5 + n)| == 1;
    assert |InstructionBytes(ix)| == 1 + |Compact(3 + n)| + (3 + n) + |Compact(|ix.data|)| + |ix.data|;
    hide Compact, Flat, InstructionBytes;
  }

  /** Each block's transaction takes exactly the bytes Pack recorded for it, or one less exactly
      when its data is under 128 bytes; so never more than a transaction may have. */
  lemma SizeIsRecorded(h: Hasher, run: M.Run, p: Plan, acc: M.Accounts, blockhash: Digest, block: nat, m: Message)
    requires M.IsRun(h, run) && IsPlan(SOLANA, run.items, p) && block < |p.batches|
    requires M.IsBatch(h, run, acc, blockhash, block, m)
    requires AllDifferent(run.accounts[block * 8..M.BlockEnd(run, block)])
    ensures |p.batches[block].used| == 2 && m.signatures < 256 && m.readonlySigned < 256 && m.readonlyUnsigned < 256 && |m.instructions| == 1 && m.instructions[0].program < 256
    ensures var size, used := SIGNATURES + |MessageBytes(m)|, p.batches[block].used[0].used;
      && size == (if |m.instructions[0].data| < 128 then used - 1 else used)
      && size <= 1232
  {
    PlanIsRun(h, run, p);
    var items, accounts := run.items[block * 8..M.BlockEnd(run, block)], run.accounts[block * 8..M.BlockEnd(run, block)];
    var ix := m.instructions[0];
    assert RecordedAt(SOLANA.rules, p.proofHashes, p.batches[block], block);
    OneKeyEach(acc, accounts, m.keys, ix.accounts[3..]);
    DataLength(h, run, block, ix.data);
    assert p.batches[block].used[0] == Usage(280 + p.proofHashes * 32 + |items| * 73, 1232);
    hide M.IsRun, IsPlan;
    MessageLength(m, |items|);
  }

  lemma DataLength(h: Hasher, run: M.Run, block: nat, data: Str)
    requires M.IsRun(h, run) && block * 8 < |run.items| && M.HasData(h, run, block, data)
    ensures |data| == 11 + 40 * (M.BlockEnd(run, block) - block * 8) + 32 * (run.tree.Depth() - 3)
  {
    var items := run.items[block * 8..M.BlockEnd(run, block)];
    var proof :| IsProof(run.tree, 3, block, proof) && data == M.BatchData(h, block, items, proof);
  }
}
