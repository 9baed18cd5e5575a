/** The on-chain half of a payout run: init_run, pay_batch and clawback over raw account bytes.

    A failed transaction leaves no trace, so each entry point works on a copy of the run's
    bytes and hands back a new world only when it succeeds. */
module PayoutProgram {
  import opened Bits
  import opened Bytes
  import opened Merkle
  import opened PayoutMessage

  const HEADER := 126
  const OFF_VERSION := 0
  const OFF_BUMP := 1
  const OFF_VAULT_BUMP := 2
  const OFF_CLAWED := 3
  const OFF_PAYER := 4
  const OFF_MINT := 36
  const OFF_ROOT := 68
  const OFF_TOTAL := 100
  const OFF_PAID := 108
  const OFF_DEADLINE := 116
  const OFF_LEAVES := 124
  const VERSION := 1

  /** The program's errors, the runtime's, and what a called program answers. */
  datatype Fail =
    | WrongRunAccount | AlreadyClawedBack | RunExpired | TooEarlyToClawback | InvalidProof | AlreadyPaid
    | OutOfRange | WrongBatchShape | WrongReceiver | DeadlineNotInFuture
    | InvalidInstructionData | NotEnoughAccountKeys | MissingRequiredSignature
    | AlreadyInUse | TokenRefused | Panicked

  // ---- what the program runs against ----

  /** SPL Token keeps an amount in 64 bits. */
  type Amount = n: nat | n < U64

  datatype TokenAccount = TokenAccount(mint: Digest, owner: Digest, amount: Amount, frozen: bool)

  type Tokens = map<Digest, TokenAccount>

  /** The token programs a caller may name: SPL Token's address, and what a program at any other
      address makes of the token accounts when it is asked to transfer, or to close an account. */
  datatype Programs = Programs(spl: Digest, transfer: (Digest, Tokens, Digest, Digest, Digest, nat) -> Option<Tokens>,
                               close: (Digest, Tokens, Digest, Digest, Digest) -> Option<Tokens>)

  /** runs: the accounts this program owns; tokens: those SPL Token owns; others: the rest. */
  datatype World = World(runs: map<Digest, Str>, tokens: Tokens, mints: set<Digest>, others: map<Digest, Str>, programs: Programs)

  /** SPL Token's account layout: mint, owner, amount, then 93 bytes this program never reads. */
  function TokenData(a: TokenAccount): (d: Str)
    ensures |d| >= 72
  {
    a.mint + a.owner + LE(a.amount, 8) + [if a.frozen then 2 else 1]
  }

  function Data(w: World, key: Digest): Str {
    if key in w.tokens then TokenData(w.tokens[key])
    else if key in w.runs then w.runs[key]
    else if key in w.others then w.others[key]
    else []
  }

  /** SPL Token's Transfer: moves or fails. */
  function Transfer(t: Tokens, from: Digest, to: Digest, authority: Digest, amount: nat): Option<Tokens> {
    if from !in t || to !in t then None
    else if t[from].frozen || t[to].frozen || t[from].mint != t[to].mint then None
    else if t[from].owner != authority || t[from].amount < amount then None
    else if from == to then Some(t)
    else if t[to].amount + amount >= U64 then None
    else Some(t[from := t[from].(amount := t[from].amount - amount)][to := t[to].(amount := t[to].amount + amount)])
  }

  /** SPL Token's CloseAccount: only the owner, only when empty, never into itself. */
  function Close(t: Tokens, account: Digest, to: Digest, authority: Digest): Option<Tokens> {
    if account !in t || account == to || t[account].owner != authority || t[account].amount != 0 then None
    else Some(t - {account})
  }

  /** The program compares no token program's address: whichever is named is asked. */
  function TransferBy(p: Programs, program: Digest, t: Tokens, from: Digest, to: Digest, authority: Digest, amount: nat): Option<Tokens> {
    if program == p.spl then Transfer(t, from, to, authority, amount) else p.transfer(program, t, from, to, authority, amount)
  }

  function CloseBy(p: Programs, program: Digest, t: Tokens, account: Digest, to: Digest, authority: Digest): Option<Tokens> {
    if program == p.spl then Close(t, account, to, authority) else p.close(program, t, account, to, authority)
  }

  /** Program-derived addresses: the key and bump found for a list of seeds, joined. */
  type Finder = Str -> (Digest, Byte)

  function RunSeeds(payer: Digest, root: Digest): Str { Text("run") + payer + root }

  function VaultSeeds(run: Digest): Str { Text("vault") + run }

  // ---- the run account ----

  /** A 64-bit two's-complement number. */
  function I64(v: nat): int {
    if v < 0x8000_0000_0000_0000 then v else v - U64
  }

  datatype Header = Header(version: Byte, bump: Byte, vaultBump: Byte, clawed: Byte, payer: Digest, mint: Digest,
                           root: Digest, total: nat, paid: nat, deadline: int, leaves: nat)

  function ReadHeader(st: Str): Header
    requires |st| >= HEADER
  {
    Header(st[OFF_VERSION], st[OFF_BUMP], st[OFF_VAULT_BUMP], st[OFF_CLAWED],
           st[OFF_PAYER..OFF_PAYER + 32], st[OFF_MINT..OFF_MINT + 32], st[OFF_ROOT..OFF_ROOT + 32],
           FromLE(st[OFF_TOTAL..OFF_TOTAL + 8]), FromLE(st[OFF_PAID..OFF_PAID + 8]),
           I64(FromLE(st[OFF_DEADLINE..OFF_DEADLINE + 8])), FromLE(st[OFF_LEAVES..OFF_LEAVES + 2]))
  }

  predicate CheckRun(w: World, run: Digest) {
    run in w.runs && |w.runs[run]| >= HEADER && w.runs[run][OFF_VERSION] == VERSION
  }

  /** Is leaf i's bit up? */
  predicate LeafPaid(st: Str, i: nat) {
    HEADER + i / 8 < |st| && Bit(st[HEADER + i / 8], i % 8)
  }

  /** Is one of the block's first `count` leaves paid? */
  ghost predicate AnyPaid(b: nat, count: nat) {
    exists k :: 0 <= k < count && Bit(b, k)
  }

  /** The first `count` bits went up, the others stayed. */
  ghost predicate BitsUp(b: nat, after: nat, count: nat) {
    forall k :: 0 <= k < BLOCK ==> Bit(after, k) == (k < count || Bit(b, k))
  }

  method MarkLeaves(state: array<Byte>, block: nat, count: nat) returns (unpaid: bool)
    requires 0 < count <= BLOCK && HEADER + block < state.Length
    modifies state
    ensures unpaid <==> !AnyPaid(old(state[HEADER + block]), count)
    ensures forall i :: 0 <= i < state.Length && i != HEADER + block ==> state[i] == old(state[i])
    ensures unpaid ==> BitsUp(old(state[HEADER + block]), state[HEADER + block], count)
  {
    ghost var was: nat := state[HEADER + block];
    for i := 0 to count
      invariant forall j :: 0 <= j < state.Length && j != HEADER + block ==> state[j] == old(state[j])
      invariant forall k :: 0 <= k < i ==> !Bit(was, k)
      invariant BitsUp(was, state[HEADER + block], i)
    {
      var leaf := block * BLOCK + i;
      var byte := HEADER + leaf / 8;
      assert byte == HEADER + block && leaf % 8 == i;
      var now := state[byte];
      if Bit(now, leaf % 8) {
        assert Bit(was, i);
        return false;
      }
      assert Pow2(8) == 256;
      BitSet(now, i, 8, 0);
      var next := now + Pow2(i);
      state[byte] := next;
      forall k | 0 <= k < BLOCK ensures Bit(next, k) == (k < i + 1 || Bit(was, k)) {
        BitSet(now, i, 8, k);
      }
    }
    return true;
  }

  // ---- pay_batch ----

  datatype PayCall = PayCall(block: nat, amounts: seq<nat>, refs: seq<Digest>, proof: seq<Digest>)

  /** The shape of the instruction's data: the block, how many items, 40 bytes for each, the proof. */
  function ParseBatch(data: Str): Option<PayCall> {
    if |data| < 3 then None
    else
      var count := data[2];
      if count == 0 || count > BLOCK || |data| < 3 + count * 40 then None
      else if (|data| - 3 - count * 40) % 32 != 0 then None
      else
        var tail := data[3 + count * 40..];
        Some(PayCall(FromLE(data[..2]),
                   seq(count, i requires 0 <= i < count => AmountAt(data, i)),
                   seq(count, i requires 0 <= i < count => RefAt(data, i)),
                   Chunks(tail)))
  }

  function AmountAt(data: Str, i: nat): (v: nat)
    requires |data| >= 3 + (i + 1) * 40
  {
    FromLE(data[3 + i * 40..3 + i * 40 + 8])
  }

  function RefAt(data: Str, i: nat): Digest
    requires |data| >= 3 + (i + 1) * 40
  {
    data[3 + i * 40 + 8..3 + i * 40 + 40]
  }

  function Chunks(b: Str): (c: seq<Digest>)
    requires |b| % 32 == 0
    ensures 32 * |c| == |b|
  {
    if b == [] then [] else [b[..32]] + Chunks(b[32..])
  }

  /** The block's eight leaves as the program rebuilds them from the accounts it was handed. */
  function BlockLeaves(h: Hasher, merchants: seq<Digest>, b: PayCall): (l: seq<Digest>)
    requires |merchants| == |b.amounts| == |b.refs|
    ensures |l| == 8
  {
    seq(8, i requires 0 <= i < 8 => BlockLeaf(h, merchants, b, i))
  }

  function BlockLeaf(h: Hasher, merchants: seq<Digest>, b: PayCall, i: nat): Digest
    requires |merchants| == |b.amounts| == |b.refs|
  {
    if i < |merchants| then Leaf(h, LeafData(b.block * BLOCK + i, merchants[i], b.amounts[i], b.refs[i])) else PAD
  }

  function RootOf(h: Hasher, merchants: seq<Digest>, b: PayCall): Digest
    requires |merchants| == |b.amounts| == |b.refs|
  {
    Climb(Node(h), EightToOne(Node(h), BlockLeaves(h, merchants, b)), b.block, b.proof)
  }

  /** How high the tree over a list is: the least depth, three at least, that holds it. */
  function DepthFor(leaves: nat): (d: nat)
    ensures d >= 3 && DepthOf(if leaves < 8 then 8 else leaves, d)
  {
    assert Pow2(2) == 4 && Pow2(3) == 8;
    DepthFrom(leaves, 3)
  }

  function DepthFrom(leaves: nat, d: nat): (r: nat)
    requires d > 0 && (d == 3 || Pow2(d - 1) < leaves)
    ensures r >= d && leaves <= Pow2(r) && (r == d || Pow2(r - 1) < leaves)
    decreases leaves - Pow2(d)
  {
    if Pow2(d) < leaves then DepthFrom(leaves, d + 1) else d
  }

  method DepthForLoop(leaves: nat) returns (depth: nat)
    ensures depth == DepthFor(leaves)
  {
    var width := BLOCK;
    depth := 3;
    assert Pow2(3) == 8;
    while width < leaves
      invariant depth >= 3 && width == Pow2(depth) && (depth == 3 || Pow2(depth - 1) < leaves)
      invariant DepthFrom(leaves, depth) == DepthFor(leaves)
      decreases leaves - width
    {
      width := width * 2;
      depth := depth + 1;
    }
  }

  /** Everything pay_batch checks before it touches the bitmap, first refusal first. */
  function Refusal(h: Hasher, w: World, now: int, run: Digest, merchants: seq<Digest>, b: PayCall): Option<Fail>
    requires |b.amounts| == |b.refs|
  {
    if !CheckRun(w, run) then Some(WrongRunAccount)
    else
      var hd := ReadHeader(w.runs[run]);
      if hd.clawed != 0 then Some(AlreadyClawedBack)
      else if now >= hd.deadline then Some(RunExpired)
      else if b.block * BLOCK >= hd.leaves then Some(OutOfRange)
      else if |b.amounts| != (if hd.leaves - b.block * BLOCK < BLOCK then hd.leaves - b.block * BLOCK else BLOCK) then Some(WrongBatchShape)
      else if |b.proof| != DepthFor(hd.leaves) - 3 then Some(InvalidProof)
      else if |merchants| != |b.amounts| then Some(WrongBatchShape)
      else if RootOf(h, merchants, b) != hd.root then Some(InvalidProof)
      else None
  }

  /** The first n transfers out of the vault, in order, and their sum. */
  function PayAll(p: Programs, program: Digest, t: Tokens, vault: Digest, merchants: seq<Digest>, amounts: seq<nat>, authority: Digest, n: nat): (r: Result<(Tokens, nat), Fail>)
    requires n <= |merchants| == |amounts|
  {
    if n == 0 then Ok((t, 0))
    else
      var before := PayAll(p, program, t, vault, merchants, amounts, authority, n - 1);
      if before.Err? then before
      else
        var moved := TransferBy(p, program, before.value.0, vault, merchants[n - 1], authority, amounts[n - 1]);
        if moved.None? then Err(TokenRefused)
        else if before.value.1 + amounts[n - 1] >= U64 then Err(InvalidInstructionData)
        else Ok((moved.value, before.value.1 + amounts[n - 1]))
  }

  /** The run account after a block was paid: its leaves' bits up, the sum booked, all else as it was. */
  ghost predicate Marked(st: Str, after: Str, block: nat, count: nat, sum: nat) {
    && |after| == |st| && HEADER + block < |st|
    && (forall i :: 0 <= i < |st| && i != HEADER + block && !(OFF_PAID <= i < OFF_PAID + 8) ==> after[i] == st[i])
    && BitsUp(st[HEADER + block], after[HEADER + block], count)
    && FromLE(after[OFF_PAID..OFF_PAID + 8]) == FromLE(st[OFF_PAID..OFF_PAID + 8]) + sum
  }

  /** What pay_batch answers, for every input. */
  ghost predicate Pays(h: Hasher, w: World, now: int, accounts: seq<Digest>, data: Str, r: Result<World, Fail>) {
    var parsed := ParseBatch(data);
    if parsed.None? then r == Err(InvalidInstructionData)
    else if |accounts| < 3 then r == Err(NotEnoughAccountKeys)
    else
      var b, run := parsed.value, accounts[0];
      var refusal := Refusal(h, w, now, run, accounts[3..], b);
      if refusal.Some? then r == Err(refusal.value)
      else Settles(w, run, accounts[1], accounts[2], accounts[3..], b, r)
  }

  ghost predicate Settles(w: World, run: Digest, vault: Digest, program: Digest, merchants: seq<Digest>, b: PayCall, r: Result<World, Fail>)
    requires CheckRun(w, run) && |merchants| == |b.amounts|
  {
    var st := w.runs[run];
    if HEADER + b.block >= |st| then r == Err(Panicked)
    else if AnyPaid(st[HEADER + b.block], |b.amounts|) then r == Err(AlreadyPaid)
    else
      var moved := PayAll(w.programs, program, w.tokens, vault, merchants, b.amounts, run, |b.amounts|);
      if moved.Err? then r == Err(moved.error)
      else if ReadHeader(st).paid + moved.value.1 >= U64 then r == Err(InvalidInstructionData)
      else
        && r.Ok? && run in r.value.runs
        && Marked(st, r.value.runs[run], b.block, |b.amounts|, moved.value.1)
        && r.value == w.(runs := w.runs[run := r.value.runs[run]], tokens := moved.value.0)
  }

  /** Join adjacent pairs into the first half, in place: each write lands behind the reads. */
  method HalveInPlace(f: Joiner, level: array<Digest>, width: nat)
    requires width <= level.Length
    modifies level
    ensures level[..width / 2] == Up(f, old(level[..width]))
  {
    ghost var src: seq<Digest> := level[..width];
    for i := 0 to width / 2
      invariant forall k :: 0 <= k < i ==> level[k] == f(src[2 * k], src[2 * k + 1])
      invariant forall k :: 2 * i <= k < width ==> level[k] == src[k]
    {
      level[i] := f(level[2 * i], level[2 * i + 1]);
    }
  }

  lemma FoldHalves(f: Joiner, level: seq<Digest>, n: nat)
    requires |level| == Pow2(n) && |level| > 1
    ensures n > 0 && |level| / 2 == Pow2(n - 1) && Fold(f, level, n) == Fold(f, Up(f, level), n - 1)
  {
  }

  /** Fold eight digests to one, in place. */
  method FoldInPlace(f: Joiner, level: array<Digest>)
    requires level.Length == 8
    modifies level
    ensures level[0] == EightToOne(f, old(level[..]))
  {
    ghost var whole: seq<Digest> := level[..];
    var width := 8;
    ghost var n: nat := 3;
    assert Pow2(3) == 8;
    hide Pow2;
    assert level[..width] == whole;
    while width > 1
      invariant width == Pow2(n) && width <= 8
      invariant Fold(f, level[..width], n) == Fold(f, whole, 3)
      decreases width
    {
      FoldHalves(f, level[..width], n);
      HalveInPlace(f, level, width);
      width := width / 2;
      n := n - 1;
    }
  }

  function EightToOne(f: Joiner, level: seq<Digest>): Digest
    requires |level| == 8
  {
    assert Pow2(3) == 8;
    Fold(f, level, 3)
  }

  method ClimbChunks(f: Joiner, from: Digest, block: nat, proofBytes: Str) returns (acc: Digest)
    requires |proofBytes| % 32 == 0
    ensures acc == Climb(f, from, block, Chunks(proofBytes))
  {
    acc := from;
    var idx := block;
    var rest := proofBytes;
    while rest != []
      invariant |rest| % 32 == 0
      invariant Climb(f, acc, idx, Chunks(rest)) == Climb(f, from, block, Chunks(proofBytes))
      decreases |rest|
    {
      var sibling: Digest := rest[..32];
      assert Chunks(rest)[0] == sibling && Chunks(rest)[1..] == Chunks(rest[32..]);
      acc := if idx % 2 == 0 then f(acc, sibling) else f(sibling, acc);
      idx := idx / 2;
      rest := rest[32..];
    }
  }

  /** Rebuild the root a batch proves membership in. */
  method RecomputeRoot(h: Hasher, merchants: seq<Digest>, data: Str, block: nat, count: nat, proofBytes: Str, ghost b: PayCall) returns (acc: Digest)
    requires 0 < count <= BLOCK && |merchants| == count && |data| >= 3 + count * 40 && |proofBytes| % 32 == 0
    requires b.block == block && |b.amounts| == count == |b.refs| && b.proof == Chunks(proofBytes)
    requires forall i :: 0 <= i < count ==> b.amounts[i] == AmountAt(data, i) && b.refs[i] == RefAt(data, i)
    ensures acc == RootOf(h, merchants, b)
  {
    hide LE, LeafData, Chunks, FromLE;
    var level := new Digest[8](_ => PAD);
    for i := 0 to BLOCK
      invariant forall k :: 0 <= k < i ==> level[k] == BlockLeaf(h, merchants, b, k)
    {
      if i < count {
        level[i] := Leaf(h, LeafData(block * BLOCK + i, merchants[i], AmountAt(data, i), RefAt(data, i)));
      } else {
        level[i] := PAD;
      }
    }
    assert level[..] == BlockLeaves(h, merchants, b);
    FoldInPlace(Node(h), level);
    acc := ClimbChunks(Node(h), level[0], block, proofBytes);
  }

  method PayMerchants(p: Programs, program: Digest, t: Tokens, vault: Digest, merchants: seq<Digest>, amounts: seq<nat>, authority: Digest) returns (r: Result<(Tokens, nat), Fail>)
    requires |merchants| == |amounts|
    ensures r == PayAll(p, program, t, vault, merchants, amounts, authority, |amounts|)
  {
    var tokens, total := t, 0;
    for i := 0 to |amounts|
      invariant PayAll(p, program, t, vault, merchants, amounts, authority, i) == Ok((tokens, total))
    {
      var moved := TransferBy(p, program, tokens, vault, merchants[i], authority, amounts[i]);
      if moved.None? {
        FailureLasts(p, program, t, vault, merchants, amounts, authority, i + 1, |amounts|);
        return Err(TokenRefused);
      }
      if total + amounts[i] >= U64 {
        FailureLasts(p, program, t, vault, merchants, amounts, authority, i + 1, |amounts|);
        return Err(InvalidInstructionData);
      }
      tokens, total := moved.value, total + amounts[i];
    }
    return Ok((tokens, total));
  }

  lemma {:induction false} FailureLasts(p: Programs, program: Digest, t: Tokens, vault: Digest, merchants: seq<Digest>, amounts: seq<nat>, authority: Digest, n: nat, m: nat)
    requires n <= m <= |merchants| == |amounts|
    requires PayAll(p, program, t, vault, merchants, amounts, authority, n).Err?
    ensures PayAll(p, program, t, vault, merchants, amounts, authority, m) == PayAll(p, program, t, vault, merchants, amounts, authority, n)
  {
    if n < m {
      FailureLasts(p, program, t, vault, merchants, amounts, authority, n, m - 1);
    }
  }

  method WriteLE(state: array<Byte>, at: nat, v: nat, n: nat)
    requires at + n <= state.Length && v < Pow256(n)
    modifies state
    ensures FromLE(state[at..at + n]) == v
    ensures forall i :: 0 <= i < state.Length && !(at <= i < at + n) ==> state[i] == old(state[i])
  {
    var bytes := LE(v, n);
    forall i | 0 <= i < n { state[at + i] := bytes[i]; }
    assert state[at..at + n] == bytes;
    LERoundTrip(v, n);
  }

  lemma WidthsAre()
    ensures Pow256(8) == U64 && Pow256(2) == 65536
  {
    assert Pow256(2) == 65536;
    assert Pow256(4) == 65536 * Pow256(2);
    assert Pow256(6) == 65536 * Pow256(4);
    assert Pow256(8) == 65536 * Pow256(6);
  }

  method PayBatch(h: Hasher, w: World, now: int, accounts: seq<Digest>, data: Str) returns (r: Result<World, Fail>)
    ensures Pays(h, w, now, accounts, data, r)
  {
    hide RootOf, Settles, DepthFor, Chunks, AmountAt, RefAt;
    if |data| < 3 {
      return Err(InvalidInstructionData);
    }
    var block, count := FromLE(data[..2]), data[2];
    if count == 0 || count > BLOCK || |data| < 3 + count * 40 {
      return Err(InvalidInstructionData);
    }
    var proofBytes := data[3 + count * 40..];
    if |proofBytes| % 32 != 0 {
      return Err(InvalidInstructionData);
    }
    if |accounts| < 3 {
      return Err(NotEnoughAccountKeys);
    }
    var run, vault := accounts[0], accounts[1];
    if !CheckRun(w, run) {
      return Err(WrongRunAccount);
    }
    var st := w.runs[run];
    if st[OFF_CLAWED] != 0 {
      return Err(AlreadyClawedBack);
    }
    var root: Digest := st[OFF_ROOT..OFF_ROOT + 32];
    var leaves := FromLE(st[OFF_LEAVES..OFF_LEAVES + 2]);
    if now >= I64(FromLE(st[OFF_DEADLINE..OFF_DEADLINE + 8])) {
      return Err(RunExpired);
    }
    if block * BLOCK >= leaves {
      return Err(OutOfRange);
    }
    if count != (if leaves - block * BLOCK < BLOCK then leaves - block * BLOCK else BLOCK) {
      return Err(WrongBatchShape);
    }
    var depth := DepthForLoop(leaves);
    if |proofBytes| != (depth - 3) * 32 {
      return Err(InvalidProof);
    }
    var merchants := accounts[3..];
    if |merchants| != count {
      return Err(WrongBatchShape);
    }
    ghost var b := ParseBatch(data).value;
    var acc := RecomputeRoot(h, merchants, data, block, count, proofBytes, b);
    if acc != root {
      return Err(InvalidProof);
    }
    r := Settle(w, run, vault, accounts[2], merchants, data, count, block, b);
  }

  method Settle(w: World, run: Digest, vault: Digest, program: Digest, merchants: seq<Digest>, data: Str, count: nat, block: nat, ghost b: PayCall) returns (r: Result<World, Fail>)
    requires CheckRun(w, run) && 0 < |merchants| == count <= BLOCK && |data| >= 3 + count * 40
    requires b.block == block && b.amounts == seq(count, i requires 0 <= i < count => AmountAt(data, i))
    ensures Settles(w, run, vault, program, merchants, b, r)
  {
    hide PayAll, FromLE, AmountAt, BitsUp, AnyPaid, Bit;
    var st := w.runs[run];
    var state := new Byte[|st|](i requires 0 <= i < |st| => st[i]);
    if HEADER + block >= state.Length {
      return Err(Panicked);
    }
    var unpaid := MarkLeaves(state, block, count);
    if !unpaid {
      return Err(AlreadyPaid);
    }
    var amounts := seq(count, i requires 0 <= i < count => AmountAt(data, i));
    var paid := PayMerchants(w.programs, program, w.tokens, vault, merchants, amounts, run);
    if paid.Err? {
      return Err(paid.error);
    }
    assert state[OFF_PAID..OFF_PAID + 8] == st[OFF_PAID..OFF_PAID + 8];
    var sum := FromLE(state[OFF_PAID..OFF_PAID + 8]) + paid.value.1;
    if sum >= U64 {
      return Err(InvalidInstructionData);
    }
    WidthsAre();
    WriteLE(state, OFF_PAID, sum, 8);
    assert state[..][OFF_PAID..OFF_PAID + 8] == state[OFF_PAID..OFF_PAID + 8];
    return Ok(w.(runs := w.runs[run := state[..]], tokens := paid.value.0));
  }

  // ---- init_run ----

  datatype Terms = Terms(root: Digest, total: nat, leaves: nat, deadline: int)

  function ParseInit(data: Str): Option<Terms> {
    if |data| != 50 then None
    else
      var t := Terms(data[..32], FromLE(data[32..40]), FromLE(data[40..42]), I64(FromLE(data[42..50])));
      if t.total == 0 || t.leaves == 0 then None else Some(t)
  }

  /** The run account of a new run. */
  ghost predicate Opened(st: Str, t: Terms, payer: Digest, mint: Digest, bump: Byte, vaultBump: Byte) {
    && |st| == HEADER + (t.leaves + 7) / 8
    && ReadHeader(st) == Header(VERSION, bump, vaultBump, 0, payer, mint, t.root, t.total, 0, t.deadline, t.leaves)
    && forall i :: HEADER <= i < |st| ==> st[i] == 0
  }

  /** What init_run answers: accounts are payer, its token account, run, vault, mint and two programs. */
  ghost predicate Opens(find: Finder, w: World, now: int, signed: bool, accounts: seq<Digest>, data: Str, r: Result<World, Fail>) {
    var parsed := ParseInit(data);
    if parsed.None? then r == Err(InvalidInstructionData)
    else if |accounts| < 7 then r == Err(NotEnoughAccountKeys)
    else if !signed then r == Err(MissingRequiredSignature)
    else if now >= parsed.value.deadline then r == Err(DeadlineNotInFuture)
    else
      var t, payer, run, vault, mint := parsed.value, accounts[0], accounts[2], accounts[3], accounts[4];
      var found, foundVault := find(RunSeeds(payer, t.root)), find(VaultSeeds(run));
      if found.0 != run || foundVault.0 != vault then r == Err(WrongRunAccount)
      else if InUse(w, run) || InUse(w, vault) || run == vault then r == Err(AlreadyInUse)
      else if accounts[5] == w.programs.spl && mint !in w.mints then r == Err(TokenRefused)
      else
        var created := Created(w, accounts[5], vault, mint, run);
        var moved := TransferBy(w.programs, accounts[5], created.tokens, accounts[1], vault, payer, t.total);
        if moved.None? then r == Err(TokenRefused)
        else
          && r.Ok? && run in r.value.runs
          && Opened(r.value.runs[run], t, payer, mint, found.1, foundVault.1)
          && r.value == created.(runs := w.runs[run := r.value.runs[run]], tokens := moved.value)
  }

  /** The vault as it was just created: a token account of the run when its owner is SPL Token, and
      165 bytes that mean nothing to it when another program was named. */
  function Created(w: World, program: Digest, vault: Digest, mint: Digest, run: Digest): World {
    if program == w.programs.spl then w.(tokens := w.tokens[vault := TokenAccount(mint, run, 0, false)])
    else w.(others := w.others[vault := seq(165, _ => 0)])
  }

  predicate InUse(w: World, key: Digest) {
    key in w.runs || key in w.tokens || key in w.others || key in w.mints
  }

  method InitRun(find: Finder, w: World, now: int, signed: bool, accounts: seq<Digest>, data: Str) returns (r: Result<World, Fail>)
    ensures Opens(find, w, now, signed, accounts, data, r)
  {
    if |data| != 50 {
      return Err(InvalidInstructionData);
    }
    var root: Digest := data[..32];
    var total, leaves := FromLE(data[32..40]), FromLE(data[40..42]);
    var deadline := I64(FromLE(data[42..50]));
    if total == 0 || leaves == 0 {
      return Err(InvalidInstructionData);
    }
    if |accounts| < 7 {
      return Err(NotEnoughAccountKeys);
    }
    var payer, payerToken, run, vault, mint := accounts[0], accounts[1], accounts[2], accounts[3], accounts[4];
    if !signed {
      return Err(MissingRequiredSignature);
    }
    if now >= deadline {
      return Err(DeadlineNotInFuture);
    }
    var found := find(RunSeeds(payer, root));
    if found.0 != run {
      return Err(WrongRunAccount);
    }
    var foundVault := find(VaultSeeds(run));
    if foundVault.0 != vault {
      return Err(WrongRunAccount);
    }
    if InUse(w, run) || InUse(w, vault) || run == vault {
      return Err(AlreadyInUse);
    }
    if accounts[5] == w.programs.spl && mint !in w.mints {
      return Err(TokenRefused);
    }
    var created := Created(w, accounts[5], vault, mint, run);
    var moved := TransferBy(w.programs, accounts[5], created.tokens, payerToken, vault, payer, total);
    if moved.None? {
      return Err(TokenRefused);
    }
    var state := FreshState(leaves, data, payer, mint, found.1, foundVault.1);
    return Ok(created.(runs := w.runs[run := state], tokens := moved.value));
  }

  /** Fill the account from its front: one more field behind what is there. */
  method Write(state: array<Byte>, at: nat, bytes: Str, ghost front: Str)
    requires at + |bytes| <= state.Length && state[..at] == front
    modifies state
    ensures state[..at + |bytes|] == front + bytes
    ensures forall i :: at + |bytes| <= i < state.Length ==> state[i] == old(state[i])
  {
    forall i | 0 <= i < |bytes| { state[at + i] := bytes[i]; }
  }

  method FreshState(leaves: nat, data: Str, payer: Digest, mint: Digest, bump: Byte, vaultBump: Byte) returns (st: Str)
    requires |data| == 50 && leaves == FromLE(data[40..42])
    ensures Opened(st, Terms(data[..32], FromLE(data[32..40]), leaves, I64(FromLE(data[42..50]))), payer, mint, bump, vaultBump)
  {
    var state := new Byte[HEADER + (leaves + 7) / 8](_ => 0);
    var flags: Str := [VERSION, bump, vaultBump, 0];
    var root: Digest := data[..32];
    Write(state, OFF_VERSION, flags, []);
    Write(state, OFF_PAYER, payer, flags);
    Write(state, OFF_MINT, mint, flags + payer);
    Write(state, OFF_ROOT, root, flags + payer + mint);
    ghost var keys := flags + payer + mint + root;
    WriteCounts(state, data, keys);
    st := state[..];
    assert st[..HEADER] == state[..HEADER];
    HeaderOf(st, payer, mint, data, bump, vaultBump);
    hide *;
    assert Opened(st, Terms(data[..32], FromLE(data[32..40]), leaves, I64(FromLE(data[42..50]))), payer, mint, bump, vaultBump);
  }

  lemma HeaderOf(st: Str, payer: Digest, mint: Digest, data: Str, bump: Byte, vaultBump: Byte)
    requires |data| == 50 && |st| == HEADER + (FromLE(data[40..42]) + 7) / 8
    requires st[..HEADER] == [VERSION, bump, vaultBump, 0] + payer + mint + data[..32]
                             + LE(FromLE(data[32..40]), 8) + LE(0, 8) + LE(FromLE(data[42..50]), 8) + LE(FromLE(data[40..42]), 2)
    requires forall i :: HEADER <= i < |st| ==> st[i] == 0
    ensures Opened(st, Terms(data[..32], FromLE(data[32..40]), FromLE(data[40..42]), I64(FromLE(data[42..50]))), payer, mint, bump, vaultBump)
  {
    var flags: Str := [VERSION, bump, vaultBump, 0];
    CountsOf(st, flags + payer + mint + data[..32], data);
    KeysOf(st, flags, payer, mint, data[..32]);
    hide LE, FromLE, Pow256, I64;
    assert st[..4] == flags && st[0] == flags[0] && st[1] == flags[1] && st[2] == flags[2] && st[3] == flags[3];
  }

  method WriteCounts(state: array<Byte>, data: Str, ghost keys: Str)
    requires |data| == 50 && state.Length >= HEADER && |keys| == OFF_TOTAL && state[..OFF_TOTAL] == keys
    modifies state
    ensures state[..HEADER] == keys + LE(FromLE(data[32..40]), 8) + LE(0, 8) + LE(FromLE(data[42..50]), 8) + LE(FromLE(data[40..42]), 2)
    ensures forall i :: HEADER <= i < state.Length ==> state[i] == old(state[i])
  {
    var total, paid, deadline, count := LE(FromLE(data[32..40]), 8), LE(0, 8), LE(FromLE(data[42..50]), 8), LE(FromLE(data[40..42]), 2);
    hide LE, FromLE, Pow256;
    Write(state, OFF_TOTAL, total, keys);
    Write(state, OFF_PAID, paid, keys + total);
    Write(state, OFF_DEADLINE, deadline, keys + total + paid);
    Write(state, OFF_LEAVES, count, keys + total + paid + deadline);
  }

  lemma FieldAt(st: Str, front: Str, field: Str)
    requires front + field <= st
    ensures front <= st && st[|front|..|front| + |field|] == field
  {
    assert st[..|front| + |field|] == front + field;
  }

  lemma KeysOf(st: Str, flags: Str, payer: Digest, mint: Digest, root: Digest)
    requires |flags| == 4 && flags + payer + mint + root <= st
    ensures flags <= st && st[OFF_PAYER..OFF_PAYER + 32] == payer && st[OFF_MINT..OFF_MINT + 32] == mint && st[OFF_ROOT..OFF_ROOT + 32] == root
  {
    FieldAt(st, flags + payer + mint, root);
    FieldAt(st, flags + payer, mint);
    FieldAt(st, flags, payer);
  }

  lemma CountsOf(st: Str, keys: Str, data: Str)
    requires |data| == 50 && |keys| == OFF_TOTAL && |st| >= HEADER
    requires keys + LE(FromLE(data[32..40]), 8) + LE(0, 8) + LE(FromLE(data[42..50]), 8) + LE(FromLE(data[40..42]), 2) == st[..HEADER]
    ensures keys <= st
    ensures FromLE(st[OFF_TOTAL..OFF_TOTAL + 8]) == FromLE(data[32..40]) && FromLE(st[OFF_PAID..OFF_PAID + 8]) == 0
    ensures FromLE(st[OFF_DEADLINE..OFF_DEADLINE + 8]) == FromLE(data[42..50]) && FromLE(st[OFF_LEAVES..OFF_LEAVES + 2]) == FromLE(data[40..42])
  {
    var total, paid, deadline, count := LE(FromLE(data[32..40]), 8), LE(0, 8), LE(FromLE(data[42..50]), 8), LE(FromLE(data[40..42]), 2);
    LERoundTrip(FromLE(data[32..40]), 8);
    LERoundTrip(0, 8);
    LERoundTrip(FromLE(data[42..50]), 8);
    LERoundTrip(FromLE(data[40..42]), 2);
    hide LE, FromLE, Pow256;
    FieldAt(st, keys + total + paid + deadline, count);
    FieldAt(st, keys + total + paid, deadline);
    FieldAt(st, keys + total, paid);
    FieldAt(st, keys, total);
  }

  // ---- clawback ----

  /** What clawback answers: accounts are run, vault, the payer's token account, the payer, SPL Token. */
  ghost predicate ClawsBack(w: World, now: int, accounts: seq<Digest>, r: Result<World, Fail>) {
    if |accounts| < 5 then r == Err(NotEnoughAccountKeys)
    else
      var run, vault, dest, payer := accounts[0], accounts[1], accounts[2], accounts[3];
      if !CheckRun(w, run) then r == Err(WrongRunAccount)
      else
        var hd := ReadHeader(w.runs[run]);
        if hd.clawed != 0 then r == Err(AlreadyClawedBack)
        else if now < hd.deadline then r == Err(TooEarlyToClawback)
        else if payer != hd.payer || |Data(w, dest)| < 64 || Data(w, dest)[32..64] != hd.payer then r == Err(WrongReceiver)
        else if |Data(w, vault)| < 72 then r == Err(Panicked)
        else
          var remaining := FromLE(Data(w, vault)[64..72]);
          var moved := if remaining == 0 then Some(w.tokens) else TransferBy(w.programs, accounts[4], w.tokens, vault, dest, run, remaining);
          if moved.None? then r == Err(TokenRefused)
          else
            var closed := CloseBy(w.programs, accounts[4], moved.value, vault, payer, run);
            if closed.None? then r == Err(TokenRefused)
            else r == Ok(w.(runs := w.runs - {run}, tokens := closed.value))
  }

  method Clawback(w: World, now: int, accounts: seq<Digest>) returns (r: Result<World, Fail>)
    ensures ClawsBack(w, now, accounts, r)
  {
    if |accounts| < 5 {
      return Err(NotEnoughAccountKeys);
    }
    var run, vault, dest, payer := accounts[0], accounts[1], accounts[2], accounts[3];
    if !CheckRun(w, run) {
      return Err(WrongRunAccount);
    }
    var st := w.runs[run];
    if st[OFF_CLAWED] != 0 {
      return Err(AlreadyClawedBack);
    }
    var payerKey := st[OFF_PAYER..OFF_PAYER + 32];
    if now < I64(FromLE(st[OFF_DEADLINE..OFF_DEADLINE + 8])) {
      return Err(TooEarlyToClawback);
    }
    if payer != payerKey {
      return Err(WrongReceiver);
    }
    var destData := Data(w, dest);
    if |destData| < 64 || destData[32..64] != payerKey {
      return Err(WrongReceiver);
    }
    var vaultData := Data(w, vault);
    if |vaultData| < 72 {
      return Err(Panicked);
    }
    var remaining := FromLE(vaultData[64..72]);
    var tokens := w.tokens;
    if remaining > 0 {
      var moved := TransferBy(w.programs, accounts[4], tokens, vault, dest, run, remaining);
      if moved.None? {
        return Err(TokenRefused);
      }
      tokens := moved.value;
    }
    var closed := CloseBy(w.programs, accounts[4], tokens, vault, payer, run);
    if closed.None? {
      return Err(TokenRefused);
    }
    return Ok(w.(runs := w.runs - {run}, tokens := closed.value));
  }
}
