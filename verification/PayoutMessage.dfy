/** The off-chain half of a payout run: the committed list and one message per block. */
module PayoutMessage {
  import opened Bits
  import opened Bytes
  import opened Bulk
  import opened Merkle
  import opened SolanaWire

  const U64 := 0x1_0000_0000_0000_0000

  /** A block is 2^3 leaves. */
  const BLOCK := 8

  datatype Error =
    | EmptyRun
    | RunTooLarge
    | AccountsMismatch
    | BadAmount(item: nat)
    | AmountOverflow(item: nat)
    | ZeroRef(item: nat)
    | ZeroAccount
    | ZeroTokenAccount(item: nat)
    | NoSuchBlock
    | NoTree(cause: Merkle.Error)

  datatype Accounts = Accounts(feePayer: Digest, run: Digest, vault: Digest, tokenProgram: Digest, program: Digest)

  datatype Run = Run(items: seq<Payout>, accounts: seq<Digest>, tree: Tree)

  // ---- the leaves ----

  function LeafData(i: nat, account: Digest, amount: nat, ref: Digest): (d: Str)
    ensures |d| == 74
  {
    LE(i, 2) + account + LE(amount, 8) + ref
  }

  /** Why item i cannot be a leaf, first complaint first. */
  function Fault(i: nat, it: Payout, account: Digest): Option<Error> {
    if it.amount <= 0 then Some(BadAmount(i))
    else if it.amount >= U64 then Some(AmountOverflow(i))
    else if it.ref == ZERO then Some(ZeroRef(i))
    else if account == ZERO then Some(ZeroTokenAccount(i))
    else None
  }

  /** A payout the run can hold: something to pay that fits in 64 bits, for a payment, to an account. */
  predicate Listable(it: Payout, account: Digest) {
    0 < it.amount < 0x1_0000_0000_0000_0000 && it.ref != ZERO && account != ZERO
  }

  /** The error that names what is wrong with the i-th payout, the amount before the rest. */
  predicate Blames(e: Error, i: nat, it: Payout, account: Digest) {
    match e
    case BadAmount(n) => n == i && it.amount <= 0
    case AmountOverflow(n) => n == i && it.amount >= 0x1_0000_0000_0000_0000
    case ZeroRef(n) => n == i && 0 < it.amount < 0x1_0000_0000_0000_0000 && it.ref == ZERO
    case ZeroTokenAccount(n) => n == i && 0 < it.amount < 0x1_0000_0000_0000_0000 && it.ref != ZERO && account == ZERO
    case _ => false
  }

  ghost predicate AllListable(items: seq<Payout>, accounts: seq<Digest>, n: nat) {
    n <= |items| == |accounts| && forall i :: 0 <= i < n ==> Listable(items[i], accounts[i])
  }

  lemma FaultSays(items: seq<Payout>, accounts: seq<Digest>, n: nat)
    requires Faultless(items, accounts, n)
    ensures AllListable(items, accounts, n)
    ensures n < |items| && Fault(n, items[n], accounts[n]).Some? ==>
      !Listable(items[n], accounts[n]) && Blames(Fault(n, items[n], accounts[n]).value, n, items[n], accounts[n])
  {
    forall i | 0 <= i < n ensures Listable(items[i], accounts[i]) {
      assert Fault(i, items[i], accounts[i]) == None;
    }
  }

  ghost predicate Faultless(items: seq<Payout>, accounts: seq<Digest>, n: nat) {
    n <= |items| == |accounts| && forall i :: 0 <= i < n ==> Fault(i, items[i], accounts[i]) == None
  }

  /** The list as leaves, blank up to one block. */
  function LeafAt(h: Hasher, items: seq<Payout>, accounts: seq<Digest>, i: nat): Digest
    requires |items| == |accounts|
  {
    if i < |items| && items[i].amount >= 0
    then Leaf(h, LeafData(i, accounts[i], items[i].amount, items[i].ref))
    else PAD
  }

  ghost predicate AreLeaves(h: Hasher, items: seq<Payout>, accounts: seq<Digest>, leaves: seq<Digest>) {
    && |items| == |accounts|
    && |leaves| == (if |items| < BLOCK then BLOCK else |items|)
    && forall i :: 0 <= i < |leaves| ==> leaves[i] == LeafAt(h, items, accounts, i)
  }

  /** The tree commits to the list, in order, at the least depth that holds a whole block. */
  ghost predicate Commits(h: Hasher, items: seq<Payout>, accounts: seq<Digest>, t: Tree) {
    && |items| == |accounts|
    && Halving(t) && Joined(Node(h), t)
    && DepthOf(if |items| < BLOCK then BLOCK else |items|, t.Depth())
    && forall i :: 0 <= i < |t.levels[0]| ==> t.levels[0][i] == LeafAt(h, items, accounts, i)
  }

  ghost predicate IsRun(h: Hasher, run: Run) {
    && 0 < |run.items| <= 65536
    && Faultless(run.items, run.accounts, |run.items|)
    && Commits(h, run.items, run.accounts, run.tree)
  }

  lemma LeavesCommit(h: Hasher, items: seq<Payout>, accounts: seq<Digest>, leaves: seq<Digest>, t: Tree)
    requires AreLeaves(h, items, accounts, leaves)
    requires Halving(t) && Joined(Node(h), t) && DepthOf(|leaves|, t.Depth())
    requires t.levels[0] == Padded(leaves, t.Depth())
    ensures Commits(h, items, accounts, t)
  {
    forall i | 0 <= i < |t.levels[0]| ensures t.levels[0][i] == LeafAt(h, items, accounts, i) {
      if i < |leaves| {
        assert t.levels[0][i] == leaves[i];
      } else {
        assert t.levels[0][i] == PAD;
      }
    }
  }

  method NewRun(h: Hasher, items: seq<Payout>, accounts: seq<Digest>) returns (r: Result<Run, Error>)
    ensures items == [] ==> r == Err(EmptyRun)
    ensures |items| > 65536 ==> r == Err(RunTooLarge)
    ensures 0 < |items| <= 65536 && |accounts| != |items| ==> r == Err(AccountsMismatch)
    ensures 0 < |items| <= 65536 && |accounts| == |items| && r.Err? ==>
      exists i :: 0 <= i < |items| && Faultless(items, accounts, i) && Fault(i, items[i], accounts[i]) == Some(r.error)
    ensures r.Ok? ==> IsRun(h, r.value) && r.value.items == items && r.value.accounts == accounts
    ensures r.Ok? <==> 0 < |items| <= 65536 && AllListable(items, accounts, |items|)
    ensures 0 < |items| <= 65536 && |accounts| == |items| && r.Err? ==>
      exists i :: 0 <= i < |items| && AllListable(items, accounts, i) && Blames(r.error, i, items[i], accounts[i])
  {
    if |items| == 0 {
      return Err(EmptyRun);
    }
    if |items| > 65536 {
      return Err(RunTooLarge);
    }
    if |accounts| != |items| {
      return Err(AccountsMismatch);
    }
    var leaves: seq<Digest> := [];
    for i := 0 to |items|
      invariant |leaves| == i && Faultless(items, accounts, i)
      invariant forall k :: 0 <= k < i ==> leaves[k] == LeafAt(h, items, accounts, k)
    {
      var fault := Fault(i, items[i], accounts[i]);
      if fault.Some? {
        FaultSays(items, accounts, i);
        return Err(fault.value);
      }
      leaves := leaves + [Leaf(h, LeafData(i, accounts[i], items[i].amount, items[i].ref))];
    }
    while |leaves| < BLOCK
      invariant |items| <= |leaves| <= if |items| < BLOCK then BLOCK else |items|
      invariant forall k :: 0 <= k < |leaves| ==> leaves[k] == LeafAt(h, items, accounts, k)
    {
      leaves := leaves + [PAD];
    }
    var tree := Build(Node(h), leaves);
    if tree.Err? {
      assert false;
      return Err(NoTree(EmptyTree));
    }
    FaultSays(items, accounts, |items|);
    LeavesCommit(h, items, accounts, leaves, tree.value);
    return Ok(Run(items, accounts, tree.value));
  }

  // ---- one block's message ----

  function Blocks(run: Run): nat { (|run.items| + BLOCK - 1) / BLOCK }

  /** One past the block's last item. */
  function BlockEnd(run: Run, block: nat): (e: nat)
    requires block * BLOCK < |run.items|
    ensures block * BLOCK < e <= |run.items| && e <= block * BLOCK + BLOCK
  {
    if block * BLOCK + BLOCK > |run.items| then |run.items| else block * BLOCK + BLOCK
  }

  function ItemBytes(items: seq<Payout>): (b: Str)
    requires forall i :: 0 <= i < |items| ==> items[i].amount >= 0
    ensures |b| == 40 * |items|
  {
    if items == [] then [] else LE(items[0].amount, 8) + items[0].ref + ItemBytes(items[1..])
  }

  function BatchData(h: Hasher, block: nat, items: seq<Payout>, proof: seq<Digest>): (d: Str)
    requires forall i :: 0 <= i < |items| ==> items[i].amount >= 0
    requires |items| < 256
    ensures |d| == 11 + 40 * |items| + 32 * |proof|
  {
    Discriminator(h, "pay_batch") + (LE(block, 2) + ([|items|] + (ItemBytes(items) + Flat(proof))))
  }

  /** The account list: the three that are written, the block's token accounts each once,
      the two programs; and each item's place in it. */
  ghost predicate Lists(acc: Accounts, accounts: seq<Digest>, keys: seq<Digest>, places: Str) {
    && 5 <= |keys| <= 5 + |accounts| == 5 + |places|
    && keys[..3] == [acc.feePayer, acc.run, acc.vault]
    && keys[|keys| - 2..] == [acc.tokenProgram, acc.program]
    && (forall i :: 0 <= i < |places| ==> 3 <= places[i] < |keys| - 2 && keys[places[i]] == accounts[i])
    && (forall j :: 3 <= j < |keys| - 2 ==> keys[j] in accounts)
    && (forall j, k :: 3 <= j < k < |keys| - 2 ==> keys[j] != keys[k])
  }

  ghost predicate IsBatch(h: Hasher, run: Run, acc: Accounts, blockhash: Digest, block: nat, m: Message) {
    && block * BLOCK < |run.items| == |run.accounts|
    && m.signatures == 1 && m.readonlySigned == 0 && m.readonlyUnsigned == 2
    && m.blockhash == blockhash && |m.instructions| == 1
    && var start, end, ix := block * BLOCK, BlockEnd(run, block), m.instructions[0];
      && |ix.accounts| >= 3 && ix.accounts[..3] == [1, 2, |m.keys| - 2] && ix.program == |m.keys| - 1 < 256
      && Lists(acc, run.accounts[start..end], m.keys, ix.accounts[3..])
      && HasData(h, run, block, ix.data)
  }

  ghost predicate HasData(h: Hasher, run: Run, block: nat, data: Str)
    requires block * BLOCK < |run.items|
  {
    var items := run.items[block * BLOCK..BlockEnd(run, block)];
    && (forall i :: 0 <= i < |items| ==> items[i].amount >= 0)
    && exists proof :: IsProof(run.tree, 3, block, proof) && data == BatchData(h, block, items, proof)
  }

  predicate AnyZero(acc: Accounts) {
    acc.feePayer == ZERO || acc.run == ZERO || acc.vault == ZERO || acc.tokenProgram == ZERO || acc.program == ZERO
  }

  /** Collect the block's token accounts, each listed once. */
  method ListAccounts(acc: Accounts, accounts: seq<Digest>) returns (keys: seq<Digest>, places: Str)
    requires |accounts| <= BLOCK
    ensures Lists(acc, accounts, keys, places)
  {
    keys := [acc.feePayer, acc.run, acc.vault];
    var seen: map<Digest, nat> := map[];
    places := [];
    for i := 0 to |accounts|
      invariant 3 <= |keys| <= 3 + i && |places| == i && keys[..3] == [acc.feePayer, acc.run, acc.vault]
      invariant forall k :: k in seen ==> 3 <= seen[k] < |keys| && keys[seen[k]] == k
      invariant forall j :: 3 <= j < |keys| ==> keys[j] in seen && seen[keys[j]] == j && keys[j] in accounts
      invariant forall k :: 0 <= k < i ==> 3 <= places[k] < |keys| && keys[places[k]] == accounts[k]
    {
      var account := accounts[i];
      var at;
      if account in seen {
        at := seen[account];
      } else {
        at := |keys|;
        seen := seen[account := at];
        keys := keys + [account];
      }
      places := places + [at];
    }
    keys := keys + [acc.tokenProgram, acc.program];
  }

  method BatchDataOf(h: Hasher, block: nat, items: seq<Payout>, proof: seq<Digest>) returns (data: Str)
    requires |items| <= BLOCK && forall i :: 0 <= i < |items| ==> items[i].amount >= 0
    ensures data == BatchData(h, block, items, proof)
  {
    var head := Discriminator(h, "pay_batch") + (LE(block, 2) + [|items|]);
    data := head;
    for i := 0 to |items|
      invariant data + ItemBytes(items[i..]) == head + ItemBytes(items)
    {
      assert items[i..][1..] == items[i + 1..];
      data := data + (LE(items[i].amount, 8) + items[i].ref);
    }
    ghost var all := head + ItemBytes(items);
    for i := 0 to |proof|
      invariant data + Flat(proof[i..]) == all + Flat(proof)
    {
      assert proof[i..][1..] == proof[i + 1..];
      data := data + proof[i];
    }
    var n: Str := [|items|];
    assert all + Flat(proof) == Discriminator(h, "pay_batch") + (LE(block, 2) + (n + (ItemBytes(items) + Flat(proof))));
  }

  /** The block lies on the tree, which is at least one block high. */
  lemma BlockOnTree(h: Hasher, run: Run, block: nat)
    requires IsRun(h, run) && block * BLOCK < |run.items|
    ensures run.tree.Depth() >= 3 && block < Pow2(run.tree.Depth() - 3) && block < 8192
  {
    var d := run.tree.Depth();
    assert Pow2(0) == 1 && Pow2(1) == 2 && Pow2(2) == 4;
    assert Pow2(d) == 2 * Pow2(d - 1) == 4 * Pow2(d - 2) == 8 * Pow2(d - 3);
  }

  lemma BlockIsSound(h: Hasher, run: Run, block: nat)
    requires IsRun(h, run) && block * BLOCK < |run.items|
    ensures |run.accounts| == |run.items| && block * BLOCK < BlockEnd(run, block) <= |run.items| && BlockEnd(run, block) - block * BLOCK <= BLOCK
    ensures forall i :: block * BLOCK <= i < BlockEnd(run, block) ==> run.items[i].amount >= 0
  {
    assert forall i :: 0 <= i < |run.items| ==> Fault(i, run.items[i], run.accounts[i]) == None;
  }

  lemma DataIsBlocks(h: Hasher, run: Run, block: nat, proof: seq<Digest>, data: Str)
    requires block * BLOCK < |run.items| && IsProof(run.tree, 3, block, proof)
    requires var items := run.items[block * BLOCK..BlockEnd(run, block)];
      (forall i :: 0 <= i < |items| ==> items[i].amount >= 0) && |items| <= BLOCK && data == BatchData(h, block, items, proof)
    ensures HasData(h, run, block, data)
  {
    hide BatchData, IsProof;
  }

  lemma KeysFit(acc: Accounts, accounts: seq<Digest>, keys: seq<Digest>, places: Str)
    requires Lists(acc, accounts, keys, places) && |accounts| <= BLOCK
    ensures 5 <= |keys| <= 256
  {
  }

  lemma MessageIsBatch(h: Hasher, run: Run, acc: Accounts, blockhash: Digest, block: nat, keys: seq<Digest>, places: Str, data: Str, m: Message)
    requires block * BLOCK < |run.items| == |run.accounts| && 5 <= |keys| <= 256 && HasData(h, run, block, data)
    requires Lists(acc, run.accounts[block * BLOCK..BlockEnd(run, block)], keys, places)
    requires m == Message(1, 0, 2, keys, blockhash, [Instruction(|keys| - 1, [1, 2, |keys| - 2] + places, data)])
    ensures IsBatch(h, run, acc, blockhash, block, m)
  {
    hide Lists, HasData;
    var head: Str := [1, 2, |keys| - 2];
    assert (head + places)[..3] == head && (head + places)[3..] == places;
  }

  method PayBatchMessage(h: Hasher, run: Run, acc: Accounts, blockhash: Digest, block: int) returns (r: Result<Str, Error>)
    requires IsRun(h, run)
    ensures AnyZero(acc) ==> r == Err(ZeroAccount)
    ensures !AnyZero(acc) && (block < 0 || block >= Blocks(run)) ==> r == Err(NoSuchBlock)
    ensures !AnyZero(acc) && 0 <= block < Blocks(run) ==> r.Ok? && ParseMessage(r.value).Some?
    ensures r.Ok? ==> var m := ParseMessage(r.value).value; IsBatch(h, run, acc, blockhash, block, m) && r.value == MessageBytes(m)
    ensures r == Err(ZeroAccount) <==> ZERO in [acc.feePayer, acc.run, acc.vault, acc.tokenProgram, acc.program]
    ensures r.Ok? <==> ZERO !in [acc.feePayer, acc.run, acc.vault, acc.tokenProgram, acc.program] && 0 <= block * BLOCK < |run.items|
  {
    if AnyZero(acc) {
      return Err(ZeroAccount);
    }
    if block < 0 || block * BLOCK >= |run.items| {
      return Err(NoSuchBlock);
    }
    hide IsRun, IsBatch, HasData, Lists, MessageBytes, ParseMessage, BatchData;
    var start, end := block * BLOCK, BlockEnd(run, block);
    BlockIsSound(h, run, block);
    var items := run.items[start..end];
    var keys, places := ListAccounts(acc, run.accounts[start..end]);
    BlockOnTree(h, run, block);
    var proof := BlockProof(run.tree, block, 3);
    if proof.Err? {
      assert false;
      return Err(NoTree(BlockOutOfRange));
    }
    var data := BatchDataOf(h, block, items, proof.value);
    DataIsBlocks(h, run, block, proof.value, data);
    KeysFit(acc, run.accounts[start..end], keys, places);
    ghost var m := Message(1, 0, 2, keys, blockhash, [Instruction(|keys| - 1, [1, 2, |keys| - 2] + places, data)]);
    MessageIsBatch(h, run, acc, blockhash, block, keys, places, data, m);
    var msg := Assemble(keys, blockhash, [1, 2, |keys| - 2] + places, data, m);
    MessageRoundTrip(m);
    return Ok(msg);
  }

  method Assemble(keys: seq<Digest>, blockhash: Digest, accounts: Str, data: Str, ghost m: Message) returns (msg: Str)
    requires 0 < |keys| <= 256
    requires m == Message(1, 0, 2, keys, blockhash, [Instruction(|keys| - 1, accounts, data)])
    ensures msg == MessageBytes(m)
  {
    hide Compact, MessageBytes, InstructionBytes;
    var start: Str := [1, 0, 2];
    msg := AppendCompactU16(start, |keys|);
    ghost var head := msg;
    for i := 0 to |keys|
      invariant msg + Flat(keys[i..]) == head + Flat(keys)
    {
      assert keys[i..][1..] == keys[i + 1..];
      msg := msg + keys[i];
    }
    assert keys[|keys|..] == [];
    msg := msg + blockhash;
    msg := AppendCompactU16(msg, 1);
    var count: Str := [|keys| - 1];
    msg := msg + count;
    msg := AppendCompactU16(msg, |accounts|);
    msg := msg + accounts;
    msg := AppendCompactU16(msg, |data|);
    msg := msg + data;
    WholeMessage(keys, blockhash, accounts, data, start, count, m);
  }

  lemma MessageIs(m: Message, head: Str, ix: Str)
    requires m.signatures == 1 && m.readonlySigned == 0 && m.readonlyUnsigned == 2 && |m.instructions| == 1 && m.instructions[0].program < 256
    requires head == [1, 0, 2] && ix == InstructionBytes(m.instructions[0])
    ensures MessageBytes(m) == head + (Compact(|m.keys|) + (Flat(m.keys) + (m.blockhash + (Compact(1) + ix))))
  {
    hide Compact, Flat, InstructionBytes;
  }

  /** Appending one after the other is appending the rest at once. */
  lemma AllAppended(head: Str, a: Str, b: Str, c: Str, d: Str, count: Str, e: Str, f: Str, g: Str, i: Str)
    ensures head + (a + (b + (c + (d + (count + (e + (f + (g + i)))))))) == head + a + b + c + d + count + e + f + g + i
  {
    Flatten(head, a, b, c, d, count + (e + (f + (g + i))));
    Flatten(head + a + b + c + d, count, e, f, g, i);
  }

  /** What is appended field by field is the message. */
  lemma WholeMessage(keys: seq<Digest>, blockhash: Digest, accounts: Str, data: Str, head: Str, count: Str, m: Message)
    requires 0 < |keys| <= 256 && head == [1, 0, 2] && count == [|keys| - 1]
    requires m == Message(1, 0, 2, keys, blockhash, [Instruction(|keys| - 1, accounts, data)])
    ensures MessageBytes(m) == head + Compact(|keys|) + Flat(keys) + blockhash + Compact(1) + count + Compact(|accounts|) + accounts + Compact(|data|) + data
  {
    hide Compact, Flat, MessageBytes;
    MessageIs(m, head, count + (Compact(|accounts|) + (accounts + (Compact(|data|) + data))));
    AllAppended(head, Compact(|keys|), Flat(keys), blockhash, Compact(1), count, Compact(|accounts|), accounts, Compact(|data|), data);
  }

  lemma Flatten(base: Str, a: Str, b: Str, c: Str, d: Str, e: Str)
    ensures base + (a + (b + (c + (d + e)))) == base + a + b + c + d + e
  {
    assert base + (a + (b + (c + (d + e)))) == (base + a) + (b + (c + (d + e)));
    var x := base + a;
    assert x + (b + (c + (d + e))) == (x + b) + (c + (d + e));
    var y := x + b;
    assert y + (c + (d + e)) == (y + c) + (d + e);
    assert (y + c) + (d + e) == y + c + d + e;
  }
}
