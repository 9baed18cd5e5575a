/** What every life of a run keeps in its books, from init_run through any calls to its clawback. */
module PayoutLifetime {
  import opened Bits
  import opened Bytes
  import opened PayoutMessage
  import opened PayoutProgram

  /** One transaction with the answer it got, or anything at all that others do. */
  datatype Call =
    | Init(now: int, signed: bool, accounts: seq<Digest>, data: Str, outcome: Result<World, Fail>)
    | Pay(now: int, accounts: seq<Digest>, data: Str, outcome: Result<World, Fail>)
    | Claw(now: int, accounts: seq<Digest>, outcome: Result<World, Fail>)
    | Outside(after: World)

  /** One leaf paid. */
  datatype Payment = Payment(leaf: nat, to: Digest, amount: nat, ref: Digest, at: int)

  /** What a run was opened with. */
  datatype Opening = Opening(run: Digest, vault: Digest, payer: Digest, terms: Terms)

  ghost predicate Answered(h: Hasher, find: Finder, w: World, c: Call) {
    match c
    case Init(now, signed, accounts, data, r) => Opens(find, w, now, signed, accounts, data, r)
    case Pay(now, accounts, data, r) => Pays(h, w, now, accounts, data, r)
    case Claw(now, accounts, r) => ClawsBack(w, now, accounts, r)
    case Outside(_) => true
  }

  function After(w: World, c: Call): World {
    match c
    case Init(_, _, _, _, r) => if r.Ok? then r.value else w
    case Pay(_, _, _, r) => if r.Ok? then r.value else w
    case Claw(_, _, r) => if r.Ok? then r.value else w
    case Outside(after) => after
  }

  /** Only this program writes the accounts it owns, and programs stay where they are. */
  ghost predicate Kept(w: World, c: Call) {
    c.Outside? ==> c.after.runs == w.runs && c.after.programs == w.programs
  }

  predicate Closes(c: Call, o: Opening) {
    c.Claw? && c.outcome.Ok? && |c.accounts| > 0 && c.accounts[0] == o.run
  }

  // ---- the payments of a life ----

  function Paying(now: int, b: PayCall, merchants: seq<Digest>, n: nat): (p: seq<Payment>)
    requires n <= |merchants| == |b.amounts| == |b.refs|
    ensures |p| == n
    ensures forall i :: 0 <= i < n ==> p[i] == Payment(b.block * BLOCK + i, merchants[i], b.amounts[i], b.refs[i], now)
  {
    if n == 0 then []
    else Paying(now, b, merchants, n - 1) + [Payment(b.block * BLOCK + n - 1, merchants[n - 1], b.amounts[n - 1], b.refs[n - 1], now)]
  }

  /** What one call pays out of this run. */
  ghost function Paid(c: Call, o: Opening): seq<Payment> {
    if c.Pay? && c.outcome.Ok? && |c.accounts| >= 3 && c.accounts[0] == o.run
       && ParseBatch(c.data).Some? && |ParseBatch(c.data).value.amounts| == |c.accounts| - 3
    then Paying(c.now, ParseBatch(c.data).value, c.accounts[3..], |c.accounts| - 3)
    else []
  }

  function Sum(p: seq<Payment>): nat {
    if p == [] then 0 else Sum(p[..|p| - 1]) + p[|p| - 1].amount
  }

  function SumOf(amounts: seq<nat>, n: nat): nat
    requires n <= |amounts|
  {
    if n == 0 then 0 else SumOf(amounts, n - 1) + amounts[n - 1]
  }

  lemma {:induction false} SumAppends(p: seq<Payment>, now: int, b: PayCall, merchants: seq<Digest>, n: nat)
    requires n <= |merchants| == |b.amounts| == |b.refs|
    ensures Sum(p + Paying(now, b, merchants, n)) == Sum(p) + SumOf(b.amounts, n)
  {
    var all := p + Paying(now, b, merchants, n);
    if n == 0 {
      assert all == p;
    } else {
      SumAppends(p, now, b, merchants, n - 1);
      assert all[..|all| - 1] == p + Paying(now, b, merchants, n - 1);
    }
  }

  /** What a batch books is the sum of its items, whichever program was asked to move them. */
  lemma {:induction false} PayAllSums(p: Programs, program: Digest, t: Tokens, vault: Digest, merchants: seq<Digest>, amounts: seq<nat>, authority: Digest, n: nat)
    requires n <= |merchants| == |amounts|
    requires PayAll(p, program, t, vault, merchants, amounts, authority, n).Ok?
    ensures PayAll(p, program, t, vault, merchants, amounts, authority, n).value.1 == SumOf(amounts, n)
  {
    if n > 0 {
      PayAllSums(p, program, t, vault, merchants, amounts, authority, n - 1);
    }
  }

  // ---- the invariant ----

  ghost predicate InHistory(p: seq<Payment>, leaf: nat) {
    exists k :: 0 <= k < |p| && p[k].leaf == leaf
  }

  ghost predicate Once(p: seq<Payment>) {
    forall i, j :: 0 <= i < j < |p| ==> p[i].leaf != p[j].leaf
  }

  ghost predicate Timely(p: seq<Payment>, o: Opening) {
    forall i :: 0 <= i < |p| ==> p[i].leaf < o.terms.leaves && p[i].at < o.terms.deadline
  }

  ghost predicate BitsTell(st: Str, p: seq<Payment>, leaves: nat) {
    forall i :: 0 <= i < leaves ==> (LeafPaid(st, i) <==> InHistory(p, i))
  }

  ghost predicate WholeBlocks(st: Str, leaves: nat) {
    forall i, j :: 0 <= i < leaves && 0 <= j < leaves && i / 8 == j / 8 ==> LeafPaid(st, i) == LeafPaid(st, j)
  }

  ghost predicate Account(st: Str, o: Opening, paid: nat) {
    && |st| == HEADER + (o.terms.leaves + 7) / 8
    && var hd := ReadHeader(st);
      && hd.version == VERSION && hd.clawed == 0 && hd.payer == o.payer && hd.root == o.terms.root
      && hd.total == o.terms.total && hd.deadline == o.terms.deadline && hd.leaves == o.terms.leaves && hd.paid == paid
  }

  /** A live run: its bits and its paid total tell the same history. */
  ghost predicate Live(w: World, o: Opening, p: seq<Payment>) {
    && o.run in w.runs && Account(w.runs[o.run], o, Sum(p))
    && BitsTell(w.runs[o.run], p, o.terms.leaves) && WholeBlocks(w.runs[o.run], o.terms.leaves)
    && Once(p) && Timely(p, o)
  }

  // ---- opening ----

  lemma OpensLive(find: Finder, w: World, c: Call, o: Opening)
    requires c.Init? && c.outcome.Ok? && Opens(find, w, c.now, c.signed, c.accounts, c.data, c.outcome)
    requires o == Opening(c.accounts[2], c.accounts[3], c.accounts[0], ParseInit(c.data).value)
    ensures Live(c.outcome.value, o, []) && c.now < o.terms.deadline
  {
    var st := c.outcome.value.runs[o.run];
    forall i | 0 <= i < o.terms.leaves ensures !LeafPaid(st, i) {
      ZeroBits(i % 8);
    }
    hide Bit, FromLE;
  }

  // ---- paying ----

  lemma HeaderKept(st: Str, after: Str, block: nat, count: nat, sum: nat)
    requires Marked(st, after, block, count, sum) && |st| >= HEADER
    ensures ReadHeader(after) == ReadHeader(st).(paid := ReadHeader(st).paid + sum)
  {
    hide FromLE, I64, BitsUp;
    assert after[OFF_PAYER..OFF_PAYER + 32] == st[OFF_PAYER..OFF_PAYER + 32];
    assert after[OFF_MINT..OFF_MINT + 32] == st[OFF_MINT..OFF_MINT + 32];
    assert after[OFF_ROOT..OFF_ROOT + 32] == st[OFF_ROOT..OFF_ROOT + 32];
    assert after[OFF_TOTAL..OFF_TOTAL + 8] == st[OFF_TOTAL..OFF_TOTAL + 8];
    assert after[OFF_DEADLINE..OFF_DEADLINE + 8] == st[OFF_DEADLINE..OFF_DEADLINE + 8];
    assert after[OFF_LEAVES..OFF_LEAVES + 2] == st[OFF_LEAVES..OFF_LEAVES + 2];
  }

  lemma BitsAfter(st: Str, after: Str, block: nat, count: nat, sum: nat, i: nat)
    requires Marked(st, after, block, count, sum)
    ensures LeafPaid(after, i) == (LeafPaid(st, i) || (i / 8 == block && i % 8 < count))
  {
  }

  lemma HistoryAfter(p: seq<Payment>, now: int, b: PayCall, merchants: seq<Digest>, leaf: nat)
    requires |merchants| == |b.amounts| == |b.refs| <= 8
    ensures InHistory(p + Paying(now, b, merchants, |merchants|), leaf) == (InHistory(p, leaf) || (leaf / 8 == b.block && leaf % 8 < |merchants|))
  {
    var more := Paying(now, b, merchants, |merchants|);
    var all := p + more;
    if InHistory(p, leaf) {
      var k :| 0 <= k < |p| && p[k].leaf == leaf;
      assert all[k].leaf == leaf;
    }
    if leaf / 8 == b.block && leaf % 8 < |merchants| {
      assert all[|p| + leaf % 8] == more[leaf % 8];
    }
    if InHistory(all, leaf) {
      var k :| 0 <= k < |all| && all[k].leaf == leaf;
      if k < |p| {
        assert p[k].leaf == leaf;
      } else {
        assert all[k] == more[k - |p|];
      }
    }
  }

  lemma BlockWhole(leaves: nat, i: nat, block: nat, count: nat)
    requires i < leaves && count == (if leaves - block * 8 < 8 then leaves - block * 8 else 8)
    ensures i / 8 == block ==> i % 8 < count
  {
  }

  /** The account after a block was paid. */
  lemma AccountAfter(st: Str, after: Str, o: Opening, p: seq<Payment>, now: int, b: PayCall, merchants: seq<Digest>, sum: nat)
    requires |merchants| == |b.amounts| == |b.refs| <= 8 && b.block * BLOCK < o.terms.leaves
    requires |merchants| == if o.terms.leaves - b.block * BLOCK < BLOCK then o.terms.leaves - b.block * BLOCK else BLOCK
    requires BitsTell(st, p, o.terms.leaves) && WholeBlocks(st, o.terms.leaves)
    requires Marked(st, after, b.block, |merchants|, sum)
    ensures BitsTell(after, p + Paying(now, b, merchants, |merchants|), o.terms.leaves) && WholeBlocks(after, o.terms.leaves)
  {
    var leaves := o.terms.leaves;
    var all := p + Paying(now, b, merchants, |merchants|);
    forall i | 0 <= i < leaves
      ensures LeafPaid(after, i) <==> InHistory(all, i)
      ensures LeafPaid(after, i) == (LeafPaid(st, i) || i / 8 == b.block)
    {
      BitsAfter(st, after, b.block, |merchants|, sum, i);
      HistoryAfter(p, now, b, merchants, i);
      BlockWhole(leaves, i, b.block, |merchants|);
    }
  }

  lemma StillOnce(p: seq<Payment>, now: int, b: PayCall, merchants: seq<Digest>, st: Str, leaves: nat)
    requires Once(p) && BitsTell(st, p, leaves) && |merchants| == |b.amounts| == |b.refs| <= 8
    requires b.block * BLOCK + |merchants| <= leaves
    requires HEADER + b.block < |st| && !AnyPaid(st[HEADER + b.block], |merchants|)
    ensures Once(p + Paying(now, b, merchants, |merchants|))
  {
    var more := Paying(now, b, merchants, |merchants|);
    forall i, j | 0 <= i < |p| && 0 <= j < |more| ensures p[i].leaf != more[j].leaf {
      var leaf := more[j].leaf;
      assert leaf / 8 == b.block && leaf % 8 == j;
      assert !LeafPaid(st, leaf);
      assert !InHistory(p, leaf);
    }
  }

  lemma PayStep(st: Str, after: Str, o: Opening, p: seq<Payment>, now: int, b: PayCall, merchants: seq<Digest>, sum: nat)
    requires 0 < |merchants| == |b.amounts| == |b.refs| <= 8 && b.block * BLOCK < o.terms.leaves
    requires |merchants| == if o.terms.leaves - b.block * BLOCK < BLOCK then o.terms.leaves - b.block * BLOCK else BLOCK
    requires Account(st, o, Sum(p)) && BitsTell(st, p, o.terms.leaves) && WholeBlocks(st, o.terms.leaves) && Once(p) && Timely(p, o)
    requires HEADER + b.block < |st| && !AnyPaid(st[HEADER + b.block], |merchants|) && now < o.terms.deadline
    requires Marked(st, after, b.block, |merchants|, sum)
    requires Sum(p + Paying(now, b, merchants, |merchants|)) == Sum(p) + sum
    ensures var q := p + Paying(now, b, merchants, |merchants|);
      Account(after, o, Sum(q)) && BitsTell(after, q, o.terms.leaves) && WholeBlocks(after, o.terms.leaves) && Once(q) && Timely(q, o)
  {
    HeaderKept(st, after, b.block, |merchants|, sum);
    AccountAfter(st, after, o, p, now, b, merchants, sum);
    StillOnce(p, now, b, merchants, st, o.terms.leaves);
  }

  /** What a batch that went through tells about the run it was checked against. */
  ghost predicate Went(w: World, w2: World, o: Opening, now: int, vault: Digest, program: Digest, merchants: seq<Digest>, b: PayCall) {
    && o.run in w.runs && o.run in w2.runs && |w.runs[o.run]| > HEADER + b.block
    && 0 < |merchants| == |b.amounts| == |b.refs| <= 8
    && var st := w.runs[o.run];
      && now < ReadHeader(st).deadline && b.block * BLOCK < ReadHeader(st).leaves
      && |merchants| == (if ReadHeader(st).leaves - b.block * BLOCK < BLOCK then ReadHeader(st).leaves - b.block * BLOCK else BLOCK)
      && !AnyPaid(st[HEADER + b.block], |merchants|)
      && var moved := PayAll(w.programs, program, w.tokens, vault, merchants, b.amounts, o.run, |merchants|);
        moved.Ok? && w2.tokens == moved.value.0 && Marked(st, w2.runs[o.run], b.block, |merchants|, moved.value.1)
  }

  lemma WhatWent(h: Hasher, w: World, c: Call, o: Opening)
    requires c.Pay? && c.outcome.Ok? && Pays(h, w, c.now, c.accounts, c.data, c.outcome)
    requires |c.accounts| >= 3 && c.accounts[0] == o.run
    ensures ParseBatch(c.data).Some? && Went(w, c.outcome.value, o, c.now, c.accounts[1], c.accounts[2], c.accounts[3..], ParseBatch(c.data).value)
    ensures Paid(c, o) == Paying(c.now, ParseBatch(c.data).value, c.accounts[3..], |c.accounts| - 3)
  {
    hide RootOf, Marked, AnyPaid, PayAll, ReadHeader, DepthFor, Paying;
    var b := ParseBatch(c.data).value;
    assert Refusal(h, w, c.now, o.run, c.accounts[3..], b) == None;
    assert Settles(w, o.run, c.accounts[1], c.accounts[2], c.accounts[3..], b, c.outcome);
  }

  /** A batch that went through books exactly what it says it paid. */
  lemma WentSums(w: World, w2: World, o: Opening, now: int, vault: Digest, program: Digest, merchants: seq<Digest>, b: PayCall, p: seq<Payment>)
    requires Went(w, w2, o, now, vault, program, merchants, b)
    ensures PayAll(w.programs, program, w.tokens, vault, merchants, b.amounts, o.run, |merchants|).value.1 == SumOf(b.amounts, |merchants|)
    ensures Sum(p + Paying(now, b, merchants, |merchants|)) == Sum(p) + SumOf(b.amounts, |merchants|)
  {
    hide Marked, AnyPaid, ReadHeader, PayAll;
    PayAllSums(w.programs, program, w.tokens, vault, merchants, b.amounts, o.run, |merchants|);
    SumAppends(p, now, b, merchants, |merchants|);
  }

  lemma PaysLive(h: Hasher, w: World, c: Call, o: Opening, p: seq<Payment>)
    requires Live(w, o, p) && c.Pay? && c.outcome.Ok? && Pays(h, w, c.now, c.accounts, c.data, c.outcome)
    requires |c.accounts| >= 3 && c.accounts[0] == o.run
    ensures Live(c.outcome.value, o, p + Paid(c, o))
  {
    hide Pays, ReadHeader, Marked, PayAll, AnyPaid, BitsTell, WholeBlocks, Once, Timely, Sum, SumOf, Paying;
    WhatWent(h, w, c, o);
    var b, merchants := ParseBatch(c.data).value, c.accounts[3..];
    hide ParseBatch, Paid;
    WentSums(w, c.outcome.value, o, c.now, c.accounts[1], c.accounts[2], merchants, b, p);
    PayStep(w.runs[o.run], c.outcome.value.runs[o.run], o, p, c.now, b, merchants, SumOf(b.amounts, |merchants|));
  }

  // ---- everything else leaves the run alone ----

  /** Only the run's own pay_batch and its own clawback write its account. */
  lemma OthersLeaveTheRun(h: Hasher, find: Finder, w: World, c: Call, o: Opening)
    requires o.run in w.runs && Answered(h, find, w, c) && Kept(w, c)
    requires c.Pay? ==> |c.accounts| < 3 || c.accounts[0] != o.run || c.outcome.Err?
    requires !Closes(c, o)
    ensures o.run in After(w, c).runs && After(w, c).runs[o.run] == w.runs[o.run] && Paid(c, o) == []
  {
    hide RootOf, Marked, AnyPaid, PayAll, ReadHeader, DepthFor, Opened, ParseInit, FromLE, TransferBy, CloseBy;
    if c.Pay? && c.outcome.Ok? {
      EnoughAccounts(h, w, c);
      assert Settles(w, c.accounts[0], c.accounts[1], c.accounts[2], c.accounts[3..], ParseBatch(c.data).value, c.outcome);
    }
  }

  lemma EnoughAccounts(h: Hasher, w: World, c: Call)
    requires c.Pay? && c.outcome.Ok? && Pays(h, w, c.now, c.accounts, c.data, c.outcome)
    ensures |c.accounts| >= 3
  {
  }

  /** Whatever the call, its accounts and its answer, short of the run's own clawback, the run stays
      live and its history grows by exactly what the call booked. */
  lemma StepKeepsLive(h: Hasher, find: Finder, w: World, c: Call, o: Opening, p: seq<Payment>)
    requires Live(w, o, p) && Answered(h, find, w, c) && Kept(w, c) && !Closes(c, o)
    ensures Live(After(w, c), o, p + Paid(c, o))
  {
    if c.Pay? && c.outcome.Ok? && |c.accounts| >= 3 && c.accounts[0] == o.run {
      PaysLive(h, w, c, o, p);
    } else {
      OthersLeaveTheRun(h, find, w, c, o);
      assert p + Paid(c, o) == p;
    }
  }

  // ---- whole lives ----

  function Then(w: World, calls: seq<Call>): World {
    if calls == [] then w else After(Then(w, calls[..|calls| - 1]), calls[|calls| - 1])
  }

  ghost function History(calls: seq<Call>, o: Opening): seq<Payment> {
    if calls == [] then [] else History(calls[..|calls| - 1], o) + Paid(calls[|calls| - 1], o)
  }

  /** Calls in any order and number, of this run and of any other, naming any accounts and any token
      programs, each answered by the program; none of them this run's own clawback. */
  ghost predicate Life(h: Hasher, find: Finder, w: World, calls: seq<Call>, o: Opening) {
    calls == [] || (
      var before, last := calls[..|calls| - 1], calls[|calls| - 1];
      && Life(h, find, w, before, o)
      && Answered(h, find, Then(w, before), last) && Kept(Then(w, before), last) && !Closes(last, o))
  }

  /** Over every life of a run, each leaf is paid at most once and only before the deadline, a
      block's real bits are all set or all clear, a bit is set exactly when its leaf was paid, and
      `paid` is the sum of what was paid. */
  lemma {:induction false} LifeKeepsLive(h: Hasher, find: Finder, w: World, calls: seq<Call>, o: Opening)
    requires Live(w, o, []) && Life(h, find, w, calls, o)
    ensures Live(Then(w, calls), o, History(calls, o))
  {
    if calls != [] {
      var before := calls[..|calls| - 1];
      LifeKeepsLive(h, find, w, before, o);
      hide Live, Answered, Kept;
      StepKeepsLive(h, find, Then(w, before), calls[|calls| - 1], o, History(before, o));
    }
  }
}
