/** Exactly when the three calls go through, said in accounts, balances, bits and the clock. */
module PayoutOutcomes {
  import opened Bytes
  import opened Bits
  import opened PayoutMessage
  import opened PayoutProgram
  import opened PayoutLifetime
  import opened PayoutVault
  import opened PayoutAgreement
  import SolanaWire

  // ---- opening ----

  /** A token account that can pay this much: its owner's, in this mint, not frozen. */
  predicate CanSpend(t: Tokens, from: Digest, owner: Digest, mint: Digest, amount: nat) {
    from in t && t[from].owner == owner && t[from].mint == mint && !t[from].frozen && t[from].amount >= amount
  }

  predicate Unused(w: World, key: Digest) { key !in w.runs && key !in w.tokens && key !in w.mints && key !in w.others }

  /** The terms make sense, the payer signed them in time, both addresses are the ones derived from payer,
      root and run and are new, and the payer's own token account can pay the total. */
  predicate OpeningGoes(find: Finder, w: World, now: int, signed: bool, accounts: seq<Digest>, data: Str)
    requires |accounts| >= 7
  {
    var payer, from, run, vault, mint := accounts[0], accounts[1], accounts[2], accounts[3], accounts[4];
    && |data| == 50 && FromLE(data[32..40]) > 0 && FromLE(data[40..42]) > 0
    && signed && now < I64(FromLE(data[42..50]))
    && find(Text("run") + payer + data[..32]).0 == run && find(Text("vault") + run).0 == vault
    && Unused(w, run) && Unused(w, vault) && run != vault && mint in w.mints
    && CanSpend(w.tokens, from, payer, mint, FromLE(data[32..40]))
  }

  /** With SPL Token named, init_run goes through exactly then, and moves the total from the payer's
      account to the run's new vault and nothing else. */
  lemma OpensWhen(find: Finder, w: World, now: int, signed: bool, accounts: seq<Digest>, data: Str, r: Result<World, Fail>)
    requires Opens(find, w, now, signed, accounts, data, r) && |accounts| >= 7 && accounts[5] == w.programs.spl
    ensures r.Ok? <==> OpeningGoes(find, w, now, signed, accounts, data)
    ensures r.Ok? ==> var from, run, vault, mint, total := accounts[1], accounts[2], accounts[3], accounts[4], FromLE(data[32..40]);
      && r.value == w.(runs := r.value.runs, tokens := r.value.tokens) && r.value.runs.Keys == w.runs.Keys + {run}
      && (forall k :: k in w.runs ==> r.value.runs[k] == w.runs[k])
      && r.value.tokens == w.tokens[from := w.tokens[from].(amount := w.tokens[from].amount - total)][vault := TokenAccount(mint, run, total, false)]
  {
    WidthsAre();
    hide FromLE, I64, Opened, Pow256;
    if ParseInit(data).Some? {
      FundingMoves(w, accounts[1], accounts[3], accounts[0], accounts[4], accounts[2], ParseInit(data).value.total);
    }
    hide Transfer;
  }

  lemma FundingMoves(w: World, from: Digest, vault: Digest, payer: Digest, mint: Digest, run: Digest, total: nat)
    requires total < U64
    ensures var r := Transfer(w.tokens[vault := TokenAccount(mint, run, 0, false)], from, vault, payer, total);
      vault !in w.tokens && total > 0 ==>
        && (r.Some? <==> CanSpend(w.tokens, from, payer, mint, total))
        && (r.Some? ==> r.value == w.tokens[from := w.tokens[from].(amount := w.tokens[from].amount - total)][vault := TokenAccount(mint, run, total, false)])
  {
  }

  // ---- paying ----

  /** An account that SPL Token lets receive this much in this mint. */
  predicate CanReceive(t: Tokens, to: Digest, mint: Digest, amount: nat) {
    to in t && t[to].mint == mint && !t[to].frozen && t[to].amount + amount < U64
  }

  ghost predicate AllReceive(t: Tokens, mint: Digest, merchants: seq<Digest>, amounts: seq<nat>, n: nat)
    requires n <= |merchants| == |amounts|
  {
    forall i :: 0 <= i < n ==> CanReceive(t, merchants[i], mint, Credit(merchants, amounts, merchants[i], n))
  }

  lemma {:induction false} SumsGrow(merchants: seq<Digest>, amounts: seq<nat>, k: Digest, n: nat)
    requires n <= |merchants| == |amounts|
    ensures Credit(merchants, amounts, k, n) <= SumOf(amounts, n)
    ensures n > 0 ==> Credit(merchants, amounts, k, n - 1) <= Credit(merchants, amounts, k, n)
  {
    if n > 0 {
      SumsGrow(merchants, amounts, k, n - 1);
    }
  }

  lemma {:induction false} NoCredit(merchants: seq<Digest>, amounts: seq<nat>, k: Digest, n: nat)
    requires n <= |merchants| == |amounts| && forall i :: 0 <= i < n ==> merchants[i] != k
    ensures Credit(merchants, amounts, k, n) == 0
  {
    if n > 0 {
      NoCredit(merchants, amounts, k, n - 1);
    }
  }

  /** The first n transfers leave every receiver able to receive the rest exactly as the start did. */
  lemma NextReceives(t: Tokens, mint: Digest, merchants: seq<Digest>, amounts: seq<nat>, n: nat)
    requires 0 < n <= |merchants| == |amounts|
    ensures AllReceive(t, mint, merchants, amounts, n) <==>
      AllReceive(t, mint, merchants, amounts, n - 1) && CanReceive(t, merchants[n - 1], mint, Credit(merchants, amounts, merchants[n - 1], n))
  {
    forall i | 0 <= i < n - 1 ensures Credit(merchants, amounts, merchants[i], n - 1) <= Credit(merchants, amounts, merchants[i], n) {
      SumsGrow(merchants, amounts, merchants[i], n);
    }
    if AllReceive(t, mint, merchants, amounts, n) {
      assert AllReceive(t, mint, merchants, amounts, n - 1);
    }
  }

  /** SPL Token carries a whole batch out of an account that none of the receivers is exactly when that
      account holds the sum and each receiver can take all its items. */
  lemma {:induction false} TransfersGo(p: Programs, t: Tokens, vault: Digest, run: Digest, merchants: seq<Digest>, amounts: seq<nat>, n: nat)
    requires n <= |merchants| == |amounts| && forall i :: 0 <= i < n ==> merchants[i] != vault
    requires vault in t && t[vault].owner == run
    ensures PayAll(p, p.spl, t, vault, merchants, amounts, run, n).Ok? <==>
      n == 0 || (CanSpend(t, vault, run, t[vault].mint, SumOf(amounts, n)) && AllReceive(t, t[vault].mint, merchants, amounts, n))
  {
    hide *;
    PayAllUnfolds(p, p.spl, t, vault, merchants, amounts, run, n);
    if n > 0 {
      TransfersGo(p, t, vault, run, merchants, amounts, n - 1);
      NextReceives(t, t[vault].mint, merchants, amounts, n);
      SpendsLess(t, vault, run, t[vault].mint, merchants, amounts, n);
      if PayAll(p, p.spl, t, vault, merchants, amounts, run, n - 1).Ok? {
        NoCredit(merchants, amounts, vault, n - 1);
        PayAllMoves(p, t, vault, merchants, amounts, run, n - 1);
        OneMoreGoes(p, t, vault, run, merchants, amounts, n);
        BySpl(p, PayAll(p, p.spl, t, vault, merchants, amounts, run, n - 1).value.0, vault, merchants[n - 1], run, amounts[n - 1]);
      }
    }
  }

  lemma BySpl(p: Programs, t: Tokens, from: Digest, to: Digest, authority: Digest, amount: nat)
    ensures TransferBy(p, p.spl, t, from, to, authority, amount) == Transfer(t, from, to, authority, amount)
  {
  }

  /** Who can spend the first n items could spend one less; and of none, everybody can receive. */
  lemma SpendsLess(t: Tokens, vault: Digest, run: Digest, mint: Digest, merchants: seq<Digest>, amounts: seq<nat>, n: nat)
    requires 0 < n <= |merchants| == |amounts|
    ensures CanSpend(t, vault, run, mint, SumOf(amounts, n)) ==> CanSpend(t, vault, run, mint, SumOf(amounts, n - 1))
    ensures AllReceive(t, mint, merchants, amounts, 0)
  {
  }

  lemma OneMoreGoes(p: Programs, t: Tokens, vault: Digest, run: Digest, merchants: seq<Digest>, amounts: seq<nat>, n: nat)
    requires 0 < n <= |merchants| == |amounts| && merchants[n - 1] != vault && vault in t && t[vault].owner == run
    requires Credit(merchants, amounts, vault, n - 1) == 0
    requires PayAll(p, p.spl, t, vault, merchants, amounts, run, n - 1).Ok?
    requires var (u, sum) := PayAll(p, p.spl, t, vault, merchants, amounts, run, n - 1).value;
      && sum == SumOf(amounts, n - 1) && SameAccounts(t, u)
      && forall k :: k in t ==> u[k].amount + (if k == vault then sum else 0) == t[k].amount + Credit(merchants, amounts, k, n - 1)
    ensures var (u, sum) := PayAll(p, p.spl, t, vault, merchants, amounts, run, n - 1).value;
      (Transfer(u, vault, merchants[n - 1], run, amounts[n - 1]).Some? && sum + amounts[n - 1] < U64 <==>
        && CanSpend(t, vault, run, t[vault].mint, SumOf(amounts, n))
        && CanReceive(t, merchants[n - 1], t[vault].mint, Credit(merchants, amounts, merchants[n - 1], n)))
  {
    hide PayAll;
    var (u, sum) := PayAll(p, p.spl, t, vault, merchants, amounts, run, n - 1).value;
    var to := merchants[n - 1];
    assert to in t <==> to in u;
  }

  /** The block's leaves that the bits and the history call unpaid. */
  ghost predicate BlockUnpaid(p: seq<Payment>, block: nat, count: nat) {
    forall leaf: nat :: block * BLOCK <= leaf < block * BLOCK + count ==> !InHistory(p, leaf)
  }

  lemma BitSaysUnpaid(st: Str, leaves: nat, p: seq<Payment>, block: nat, i: nat)
    requires BitsTell(st, p, leaves) && HEADER + block < |st| && block * BLOCK + i < leaves && i < BLOCK
    ensures InHistory(p, block * BLOCK + i) <==> Bit(st[HEADER + block], i)
  {
    var leaf := block * BLOCK + i;
    assert leaf / 8 == block && leaf % 8 == i;
    assert LeafPaid(st, leaf) <==> InHistory(p, leaf);
  }

  lemma BitsSayUnpaid(st: Str, leaves: nat, p: seq<Payment>, block: nat, count: nat)
    requires BitsTell(st, p, leaves) && HEADER + block < |st| && block * BLOCK + count <= leaves && count <= BLOCK
    ensures AnyPaid(st[HEADER + block], count) <==> !BlockUnpaid(p, block, count)
  {
    hide Bit, BitsTell, InHistory;
    var b := st[HEADER + block];
    forall i | 0 <= i < count ensures InHistory(p, block * BLOCK + i) <==> Bit(b, i) {
      BitSaysUnpaid(st, leaves, p, block, i);
    }
    if leaf: nat :| block * BLOCK <= leaf < block * BLOCK + count && InHistory(p, leaf) {
      assert Bit(b, leaf - block * BLOCK);
    }
  }

  /** A live run's own batch on its own vault, once it passed the checks, goes through exactly when none
      of its leaves was paid, the vault holds the sum, every receiver can take its items, and the paid
      total has room. */
  lemma SettlesWhen(w: World, o: Opening, p: seq<Payment>, merchants: seq<Digest>, b: PayCall, r: Result<World, Fail>)
    requires Live(w, o, p) && Held(w, o) && 0 < |merchants| == |b.amounts| <= BLOCK && b.block * BLOCK + |merchants| <= o.terms.leaves
    requires forall i :: 0 <= i < |merchants| ==> merchants[i] != o.vault
    requires Settles(w, o.run, o.vault, w.programs.spl, merchants, b, r)
    ensures r.Ok? <==> BlockGoes(w, o, p, merchants, b)
    ensures !BlockUnpaid(p, b.block, |merchants|) <==> r == Err(AlreadyPaid)
  {
    var st := w.runs[o.run];
    assert b.block < (o.terms.leaves + 7) / 8;
    BitsSayUnpaid(st, o.terms.leaves, p, b.block, |merchants|);
    TransfersGo(w.programs, w.tokens, o.vault, o.run, merchants, b.amounts, |merchants|);
    if PayAll(w.programs, w.programs.spl, w.tokens, o.vault, merchants, b.amounts, o.run, |merchants|).Ok? {
      PayAllSums(w.programs, w.programs.spl, w.tokens, o.vault, merchants, b.amounts, o.run, |merchants|);
    } else {
      FailsOnMoney(w.programs, w.tokens, o.vault, merchants, b.amounts, o.run, |merchants|);
    }
    hide BitsTell, WholeBlocks, Once, Timely, Sum, PayAll, AnyPaid, BlockUnpaid, AllReceive, Marked, Sane, FromLE;
  }

  lemma {:induction false} FailsOnMoney(p: Programs, t: Tokens, vault: Digest, merchants: seq<Digest>, amounts: seq<nat>, run: Digest, n: nat)
    requires n <= |merchants| == |amounts| && PayAll(p, p.spl, t, vault, merchants, amounts, run, n).Err?
    ensures PayAll(p, p.spl, t, vault, merchants, amounts, run, n).error != AlreadyPaid
  {
    if n > 0 && PayAll(p, p.spl, t, vault, merchants, amounts, run, n - 1).Err? {
      FailsOnMoney(p, t, vault, merchants, amounts, run, n - 1);
    }
  }

  ghost predicate BlockGoes(w: World, o: Opening, p: seq<Payment>, merchants: seq<Digest>, b: PayCall)
    requires |merchants| == |b.amounts| && o.vault in w.tokens
  {
    && BlockUnpaid(p, b.block, |merchants|)
    && CanSpend(w.tokens, o.vault, o.run, w.tokens[o.vault].mint, SumOf(b.amounts, |merchants|))
    && AllReceive(w.tokens, w.tokens[o.vault].mint, merchants, b.amounts, |merchants|)
    && Sum(p) + SumOf(b.amounts, |merchants|) < U64
  }

  /** The builder's message for a block, handed to the program for a live run of that list with the run's
      own vault and SPL Token: it goes through exactly then, whoever sends it. */
  lemma MessageGoes(h: Hasher, run: Run, acc: Accounts, blockhash: Digest, block: nat, m: SolanaWire.Message, w: World, o: Opening, p: seq<Payment>, now: int, r: Result<World, Fail>)
    requires IsRun(h, run) && IsBatch(h, run, acc, blockhash, block, m)
    requires run.tree.levels != [] && run.tree.levels[|run.tree.levels| - 1] != []
    requires Live(w, o, p) && Held(w, o) && acc.run == o.run && acc.vault == o.vault && acc.tokenProgram == w.programs.spl
    requires o.terms.root == run.tree.Root() && o.terms.leaves == |run.items|
    requires o.vault !in run.accounts
    requires forall i :: 0 <= i < |m.instructions[0].accounts| ==> m.instructions[0].accounts[i] < |m.keys|
    requires |m.instructions[0].data| > 8 && Pays(h, w, now, Named(m, m.instructions[0]), m.instructions[0].data[8..], r)
    ensures ParseBatch(m.instructions[0].data[8..]).Some?
    ensures var b, merchants := ParseBatch(m.instructions[0].data[8..]).value, run.accounts[block * BLOCK..BlockEnd(run, block)];
      && |merchants| == |b.amounts| && Same(b, block, run.items[block * BLOCK..BlockEnd(run, block)], b.proof)
      && (r.Ok? <==> now < o.terms.deadline && BlockGoes(w, o, p, merchants, b))
  {
    hide *;
    BatchShape(h, run, acc, blockhash, block, m);
    var data := m.instructions[0].data;
    var b := BatchReadsBack(h, run, block, data);
    SameSize(run, block, b);
    if now < o.terms.deadline {
      StillPayable(w, o, p, run, now);
      MessageSettles(h, run, acc, blockhash, block, m, w, now, r);
      SettlesWhen(w, o, p, run.accounts[block * BLOCK..BlockEnd(run, block)], b, r);
    } else {
      NamesReadBack(h, run, acc, blockhash, block, m);
      LateFails(h, w, o, p, now, Named(m, m.instructions[0]), data[8..], r);
    }
  }

  lemma BatchShape(h: Hasher, run: Run, acc: Accounts, blockhash: Digest, block: nat, m: SolanaWire.Message)
    requires IsRun(h, run) && IsBatch(h, run, acc, blockhash, block, m)
    ensures block * BLOCK < |run.items| == |run.accounts| && |m.instructions| == 1 && HasData(h, run, block, m.instructions[0].data)
  {
    hide HasData, Lists;
  }

  lemma SameSize(run: Run, block: nat, b: PayCall)
    requires block * BLOCK < |run.items| == |run.accounts| && Same(b, block, run.items[block * BLOCK..BlockEnd(run, block)], b.proof)
    ensures var merchants := run.accounts[block * BLOCK..BlockEnd(run, block)];
      0 < |merchants| == |b.amounts| <= BLOCK && b.block * BLOCK + |merchants| <= |run.items| && forall i :: 0 <= i < |merchants| ==> merchants[i] in run.accounts
  {
  }

  lemma StillPayable(w: World, o: Opening, p: seq<Payment>, run: Run, now: int)
    requires Live(w, o, p) && now < o.terms.deadline && run.tree.levels != [] && run.tree.levels[|run.tree.levels| - 1] != []
    requires o.terms.root == run.tree.Root() && o.terms.leaves == |run.items|
    ensures Payable(w, o.run, run, now)
  {
    hide BitsTell, WholeBlocks, Once, Timely, Sum, FromLE;
  }

  lemma LateFails(h: Hasher, w: World, o: Opening, p: seq<Payment>, now: int, accounts: seq<Digest>, data: Str, r: Result<World, Fail>)
    requires Live(w, o, p) && now >= o.terms.deadline && |accounts| >= 3 && accounts[0] == o.run
    requires Pays(h, w, now, accounts, data, r)
    ensures r.Err?
  {
    hide BitsTell, WholeBlocks, Once, Timely, Sum, FromLE, Settles, RootOf, DepthFor, ParseBatch;
  }

  // ---- who signs and who is written ----

  /** Solana's reading of a message header: the first keys sign, and of the signers and of the rest the last
      so many are only read. */
  predicate Signs(m: SolanaWire.Message, i: nat) { i < m.signatures }

  predicate Writable(m: SolanaWire.Message, i: nat) {
    i < m.signatures - m.readonlySigned || (m.signatures <= i < |m.keys| - m.readonlyUnsigned)
  }

  /** The fee payer alone signs; run, vault and every token account to be paid are written, and the two
      programs are not. */
  lemma RolesAre(h: Hasher, run: Run, acc: Accounts, blockhash: Digest, block: nat, m: SolanaWire.Message, i: nat)
    requires IsBatch(h, run, acc, blockhash, block, m) && i < |m.keys|
    ensures Signs(m, i) ==> m.keys[i] == acc.feePayer
    ensures m.keys[i] == acc.feePayer && Signs(m, i) ==> Writable(m, i)
    ensures Writable(m, i) <==> i < |m.keys| - 2
    ensures |m.keys| >= 5 && m.keys[|m.keys| - 2] == acc.tokenProgram && m.keys[|m.keys| - 1] == acc.program
    ensures m.keys[1] == acc.run && m.keys[2] == acc.vault
  {
    hide HasData;
    FixedKeys(acc, run.accounts[block * BLOCK..BlockEnd(run, block)], m.keys, m.instructions[0].accounts[3..]);
    assert m.keys[0] == m.keys[..3][0];
  }

  // ---- clawing back ----

  /** The clock's numbers are signed: a 64-bit number stands for the one in that range it is equal to. */
  lemma DeadlinesAreSigned(v: nat)
    requires v < 0x1_0000_0000_0000_0000
    ensures -0x8000_0000_0000_0000 <= I64(v) < 0x8000_0000_0000_0000 && (v - I64(v)) % 0x1_0000_0000_0000_0000 == 0
  {
  }

  /** The bytes in which SPL Token keeps an account's owner name this key. */
  predicate OwnedBy(w: World, account: Digest, owner: Digest) {
    |Data(w, account)| >= 64 && Data(w, account)[32..64] == owner
  }

  predicate ClawGoes(w: World, o: Opening, now: int, dest: Digest, payer: Digest)
    requires o.vault in w.tokens
  {
    var vault := w.tokens[o.vault];
    && now >= o.terms.deadline && payer == o.payer != o.vault && OwnedBy(w, dest, o.payer)
    && (vault.amount == 0 || (!vault.frozen && CanReceive(w.tokens, dest, vault.mint, vault.amount)))
  }

  /** A live run can be clawed back through its own vault exactly from the deadline on, by naming its payer
      and an account of the payer's that can take what is left. */
  lemma ClawsWhen(w: World, o: Opening, p: seq<Payment>, now: int, dest: Digest, payer: Digest, r: Result<World, Fail>)
    requires Live(w, o, p) && Held(w, o) && o.payer != o.run
    requires ClawsBack(w, now, [o.run, o.vault, dest, payer, w.programs.spl], r)
    ensures r.Ok? <==> ClawGoes(w, o, now, dest, payer)
    ensures r == Err(TooEarlyToClawback) <==> now < o.terms.deadline
    ensures r.Ok? ==> Returned(w.tokens, r.value.tokens, o, dest, w.tokens[o.vault].amount) && r.value.runs == w.runs - {o.run}
  {
    hide BitsTell, WholeBlocks, Once, Timely, Sum, FromLE, TokenData, I64, Sane;
    TokenAmount(w.tokens[o.vault]);
    if dest in w.tokens {
      TokenAmount(w.tokens[dest]);
    }
  }

  // ---- a run that is no more ----

  /** A run account whose clawed byte is up is paid from and clawed back no more, whatever else it says. */
  lemma ClawedIsClosed(h: Hasher, w: World, now: int, accounts: seq<Digest>, data: Str, paid: Result<World, Fail>, clawed: Result<World, Fail>)
    requires |accounts| > 0 && CheckRun(w, accounts[0]) && w.runs[accounts[0]][OFF_CLAWED] != 0
    requires Pays(h, w, now, accounts, data, paid) && ClawsBack(w, now, accounts, clawed)
    ensures paid.Err? && clawed.Err?
    ensures ParseBatch(data).Some? && |accounts| >= 5 ==> paid == clawed == Err(AlreadyClawedBack)
  {
    hide FromLE, I64, RootOf, DepthFor, Settles, ParseBatch;
  }
}
