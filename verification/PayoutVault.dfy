/** What becomes of the money: the vault over every life of a run, and its clawback. */
module PayoutVault {
  import opened Bytes
  import opened PayoutMessage
  import opened PayoutProgram
  import opened PayoutLifetime

  // ---- what an authority can touch ----

  /** Every account of another owner is still that owner's and holds no less. */
  ghost predicate Spared(t: Tokens, u: Tokens, authority: Digest) {
    forall k :: k in t && t[k].owner != authority ==> k in u && u[k].owner == t[k].owner && u[k].amount >= t[k].amount
  }

  /** What another program does to token accounts it does through SPL Token, with the signatures it
      was handed: it spends nobody else's. */
  ghost predicate Sane(p: Programs) {
    && (forall program, t, from, to, authority, amount :: p.transfer(program, t, from, to, authority, amount).Some? ==>
          Spared(t, p.transfer(program, t, from, to, authority, amount).value, authority))
    && (forall program, t, account, to, authority :: p.close(program, t, account, to, authority).Some? ==>
          Spared(t, p.close(program, t, account, to, authority).value, authority))
  }

  lemma TransferSpares(p: Programs, program: Digest, t: Tokens, from: Digest, to: Digest, authority: Digest, amount: nat)
    requires Sane(p) && TransferBy(p, program, t, from, to, authority, amount).Some?
    ensures Spared(t, TransferBy(p, program, t, from, to, authority, amount).value, authority)
  {
  }

  lemma CloseSpares(p: Programs, program: Digest, t: Tokens, account: Digest, to: Digest, authority: Digest)
    requires Sane(p) && CloseBy(p, program, t, account, to, authority).Some?
    ensures Spared(t, CloseBy(p, program, t, account, to, authority).value, authority)
  {
  }

  lemma {:induction false} PayAllSpares(p: Programs, program: Digest, t: Tokens, vault: Digest, merchants: seq<Digest>, amounts: seq<nat>, authority: Digest, n: nat)
    requires Sane(p) && n <= |merchants| == |amounts|
    requires PayAll(p, program, t, vault, merchants, amounts, authority, n).Ok?
    ensures Spared(t, PayAll(p, program, t, vault, merchants, amounts, authority, n).value.0, authority)
  {
    hide TransferBy, Sane;
    if n > 0 {
      PayAllSpares(p, program, t, vault, merchants, amounts, authority, n - 1);
      var u := PayAll(p, program, t, vault, merchants, amounts, authority, n - 1).value.0;
      TransferSpares(p, program, u, vault, merchants[n - 1], authority, amounts[n - 1]);
    }
  }

  // ---- moving the money ----

  /** What account k was sent by the first n transfers. */
  function Credit(merchants: seq<Digest>, amounts: seq<nat>, k: Digest, n: nat): nat
    requires n <= |merchants| == |amounts|
  {
    if n == 0 then 0 else Credit(merchants, amounts, k, n - 1) + if merchants[n - 1] == k then amounts[n - 1] else 0
  }

  /** Same accounts, same owners and mints. */
  ghost predicate SameAccounts(t: Tokens, u: Tokens) {
    u.Keys == t.Keys && forall k :: k in t ==> u[k] == t[k].(amount := u[k].amount)
  }

  lemma PayAllUnfolds(p: Programs, program: Digest, t: Tokens, vault: Digest, merchants: seq<Digest>, amounts: seq<nat>, authority: Digest, n: nat)
    requires n <= |merchants| == |amounts|
    ensures PayAll(p, program, t, vault, merchants, amounts, authority, 0) == Ok((t, 0))
    ensures n > 0 ==>
      var before, now := PayAll(p, program, t, vault, merchants, amounts, authority, n - 1), PayAll(p, program, t, vault, merchants, amounts, authority, n);
      && (now.Ok? ==> before.Ok?)
      && (before.Ok? ==>
            var moved := TransferBy(p, program, before.value.0, vault, merchants[n - 1], authority, amounts[n - 1]);
            && (now.Ok? <==> moved.Some? && before.value.1 + amounts[n - 1] < U64)
            && (now.Ok? ==> now.value == (moved.value, before.value.1 + amounts[n - 1])))
  {
    hide TransferBy;
  }

  lemma TransferMoves(t: Tokens, from: Digest, to: Digest, authority: Digest, amount: nat)
    requires Transfer(t, from, to, authority, amount).Some?
    ensures var u := Transfer(t, from, to, authority, amount).value;
      && SameAccounts(t, u) && from in t && t[from].owner == authority
      && forall k :: k in t ==> u[k].amount + (if k == from then amount else 0) == t[k].amount + if k == to then amount else 0
  {
  }

  /** A batch that SPL Token carried takes its sum out of the vault it names, credits every listed
      account with exactly its own items, and changes nothing else. */
  lemma {:induction false} PayAllMoves(p: Programs, t: Tokens, vault: Digest, merchants: seq<Digest>, amounts: seq<nat>, authority: Digest, n: nat)
    requires n <= |merchants| == |amounts|
    requires PayAll(p, p.spl, t, vault, merchants, amounts, authority, n).Ok?
    ensures var (u, sum) := PayAll(p, p.spl, t, vault, merchants, amounts, authority, n).value;
      && sum == SumOf(amounts, n) && SameAccounts(t, u)
      && (n > 0 ==> vault in t && t[vault].owner == authority)
      && forall k :: k in t ==> u[k].amount + (if k == vault then sum else 0) == t[k].amount + Credit(merchants, amounts, k, n)
  {
    PayAllUnfolds(p, p.spl, t, vault, merchants, amounts, authority, n);
    if n > 0 {
      hide PayAll, Transfer;
      PayAllMoves(p, t, vault, merchants, amounts, authority, n - 1);
      TransferMoves(PayAll(p, p.spl, t, vault, merchants, amounts, authority, n - 1).value.0, vault, merchants[n - 1], authority, amounts[n - 1]);
    }
  }

  // ---- one call ----

  /** Everybody else: the run, a program-derived address, signs nothing; what is not one of these calls
      leaves the vault its owner and at least its tokens; and this run's own batches name SPL Token. */
  ghost predicate Fair(w: World, c: Call, o: Opening) {
    match c
    case Init(_, _, accounts, _, _) => |accounts| > 0 ==> accounts[0] != o.run
    case Pay(_, accounts, _, _) => |accounts| >= 3 && accounts[0] == o.run ==> accounts[2] == w.programs.spl
    case Claw(_, _, _) => true
    case Outside(after) => o.vault in w.tokens ==>
      o.vault in after.tokens && after.tokens[o.vault].owner == w.tokens[o.vault].owner && after.tokens[o.vault].amount >= w.tokens[o.vault].amount
  }

  /** The vault is the run's. */
  ghost predicate Held(w: World, o: Opening) {
    Sane(w.programs) && o.vault in w.tokens && w.tokens[o.vault].owner == o.run
  }

  /** A pay_batch of this run that went through. */
  predicate OwnBatch(c: Call, o: Opening) {
    c.Pay? && c.outcome.Ok? && |c.accounts| >= 3 && c.accounts[0] == o.run
    && ParseBatch(c.data).Some? && |ParseBatch(c.data).value.amounts| == |c.accounts| - 3
  }

  /** What such a batch books as paid. */
  function Booked(c: Call, o: Opening): nat
    requires OwnBatch(c, o)
  {
    SumOf(ParseBatch(c.data).value.amounts, |c.accounts| - 3)
  }

  /** By how much a call leaves the vault with more than its books say: what was booked as paid but
      drawn on another account, what came back to the vault, and what others paid in. */
  function Gain(w: World, c: Call, o: Opening): int {
    if OwnBatch(c, o) then
      (if c.accounts[1] == o.vault then 0 else Booked(c, o)) + Credit(c.accounts[3..], ParseBatch(c.data).value.amounts, o.vault, |c.accounts| - 3)
    else Holding(After(w, c), o) - Holding(w, o)
  }

  function Holding(w: World, o: Opening): nat {
    if o.vault in w.tokens then w.tokens[o.vault].amount else 0
  }

  lemma SparedHeld(w: World, u: Tokens, authority: Digest, o: Opening)
    requires Held(w, o) && Spared(w.tokens, u, authority) && authority != o.run
    ensures o.vault in u && u[o.vault].owner == o.run && u[o.vault].amount >= w.tokens[o.vault].amount
  {
  }

  /** Nobody but the run itself can take from the vault. */
  ghost predicate Safe(w: World, after: World, o: Opening) {
    Held(after, o) && after.programs == w.programs && Holding(after, o) >= Holding(w, o)
  }

  lemma KeepsPrograms(h: Hasher, w: World, c: Call)
    requires c.Pay? && c.outcome.Ok? && Pays(h, w, c.now, c.accounts, c.data, c.outcome)
    ensures c.outcome.value.programs == w.programs
  {
    hide RootOf, Marked, AnyPaid, PayAll, ReadHeader, DepthFor;
  }

  lemma OthersPaySafely(h: Hasher, w: World, c: Call, o: Opening)
    requires Held(w, o) && c.Pay? && c.outcome.Ok? && Pays(h, w, c.now, c.accounts, c.data, c.outcome)
    requires |c.accounts| >= 3 && c.accounts[0] != o.run
    ensures Safe(w, c.outcome.value, o)
  {
    hide Pays, Marked, AnyPaid, PayAll, ReadHeader, Sane, Spared, ParseBatch;
    WhatWent(h, w, c, o.(run := c.accounts[0]));
    KeepsPrograms(h, w, c);
    var b := ParseBatch(c.data).value;
    PayAllSpares(w.programs, c.accounts[2], w.tokens, c.accounts[1], c.accounts[3..], b.amounts, c.accounts[0], |b.amounts|);
    SparedHeld(w, c.outcome.value.tokens, c.accounts[0], o);
  }

  lemma OthersOpenSafely(find: Finder, w: World, c: Call, o: Opening)
    requires Held(w, o) && c.Init? && c.outcome.Ok? && Opens(find, w, c.now, c.signed, c.accounts, c.data, c.outcome) && Fair(w, c, o)
    ensures Safe(w, c.outcome.value, o)
  {
    hide Opened, ParseInit, TransferBy, Sane;
    var created := Created(w, c.accounts[5], c.accounts[3], c.accounts[4], c.accounts[2]);
    TransferSpares(w.programs, c.accounts[5], created.tokens, c.accounts[1], c.accounts[3], c.accounts[0], ParseInit(c.data).value.total);
    SparedHeld(created, c.outcome.value.tokens, c.accounts[0], o);
  }

  lemma OthersClawSafely(w: World, c: Call, o: Opening)
    requires Held(w, o) && c.Claw? && c.outcome.Ok? && ClawsBack(w, c.now, c.accounts, c.outcome) && c.accounts[0] != o.run
    ensures Safe(w, c.outcome.value, o)
  {
    hide ReadHeader, FromLE, Data, TransferBy, CloseBy, Sane;
    var run, vault, remaining := c.accounts[0], c.accounts[1], FromLE(Data(w, c.accounts[1])[64..72]);
    var moved := if remaining == 0 then Some(w.tokens) else TransferBy(w.programs, c.accounts[4], w.tokens, vault, c.accounts[2], run, remaining);
    if remaining > 0 {
      TransferSpares(w.programs, c.accounts[4], w.tokens, vault, c.accounts[2], run, remaining);
    }
    CloseSpares(w.programs, c.accounts[4], moved.value, vault, c.accounts[3], run);
    SparedHeld(w, moved.value, run, o);
    SparedHeld(w.(tokens := moved.value), c.outcome.value.tokens, run, o);
  }

  /** A call that is neither a batch nor the clawback of this run leaves its vault alone. */
  lemma OthersAreSafe(h: Hasher, find: Finder, w: World, c: Call, o: Opening)
    requires Held(w, o) && Answered(h, find, w, c) && Kept(w, c) && Fair(w, c, o) && !Closes(c, o)
    requires c.Pay? && c.outcome.Ok? ==> |c.accounts| >= 3 && c.accounts[0] != o.run
    ensures Safe(w, After(w, c), o)
  {
    hide Pays, Opens, ClawsBack, Sane;
    if !c.Outside? && c.outcome.Ok? {
      if c.Pay? {
        OthersPaySafely(h, w, c, o);
      } else if c.Init? {
        OthersOpenSafely(find, w, c, o);
      } else {
        ClawNamesARun(w, c);
        OthersClawSafely(w, c, o);
      }
    }
  }

  lemma ClawNamesARun(w: World, c: Call)
    requires c.Claw? && c.outcome.Ok? && ClawsBack(w, c.now, c.accounts, c.outcome)
    ensures |c.accounts| >= 5
  {
  }

  /** One call: the vault stays the run's, and its tokens and what was booked as paid add up to
      what they were and the call's gain, which is never negative. */
  ghost predicate Adds(w: World, c: Call, o: Opening) {
    && Held(After(w, c), o) && Gain(w, c, o) >= 0
    && Holding(After(w, c), o) + Sum(Paid(c, o)) == Holding(w, o) + Gain(w, c, o)
  }

  lemma NoneIsZero()
    ensures Sum([]) == 0
  {
  }

  lemma OwnBatchAdds(h: Hasher, w: World, c: Call, o: Opening)
    requires Held(w, o) && c.Pay? && c.outcome.Ok? && Pays(h, w, c.now, c.accounts, c.data, c.outcome)
    requires |c.accounts| >= 3 && c.accounts[0] == o.run && c.accounts[2] == w.programs.spl
    ensures Adds(w, c, o)
  {
    hide Pays, ReadHeader, Marked, AnyPaid, PayAll, Sane, SumOf, Sum, Credit, Paying, ParseBatch;
    WhatWent(h, w, c, o);
    var b, merchants := ParseBatch(c.data).value, c.accounts[3..];
    WentSums(w, c.outcome.value, o, c.now, c.accounts[1], c.accounts[2], merchants, b, []);
    assert [] + Paying(c.now, b, merchants, |merchants|) == Paying(c.now, b, merchants, |merchants|);
    NoneIsZero();
    PayAllMoves(w.programs, w.tokens, c.accounts[1], merchants, b.amounts, o.run, |merchants|);
    KeepsPrograms(h, w, c);
  }

  lemma StepAdds(h: Hasher, find: Finder, w: World, c: Call, o: Opening)
    requires Held(w, o) && Answered(h, find, w, c) && Kept(w, c) && Fair(w, c, o) && !Closes(c, o)
    ensures Adds(w, c, o)
  {
    hide Pays, Opens, ClawsBack, Sane, ParseBatch, SumOf, Credit, Sum;
    if c.Pay? && c.outcome.Ok? {
      EnoughAccounts(h, w, c);
    }
    if c.Pay? && c.outcome.Ok? && c.accounts[0] == o.run {
      OwnBatchAdds(h, w, c, o);
    } else {
      OthersAreSafe(h, find, w, c, o);
      NoneIsZero();
    }
  }

  // ---- whole lives ----

  ghost predicate AllFair(w: World, calls: seq<Call>, o: Opening) {
    calls == [] || (
      var before, last := calls[..|calls| - 1], calls[|calls| - 1];
      AllFair(w, before, o) && Fair(Then(w, before), last, o))
  }

  /** What a life leaves in the vault beyond its books. */
  function Gains(w: World, calls: seq<Call>, o: Opening): int {
    if calls == [] then 0
    else Gains(w, calls[..|calls| - 1], o) + Gain(Then(w, calls[..|calls| - 1]), calls[|calls| - 1], o)
  }

  lemma {:induction false} SumConcat(p: seq<Payment>, q: seq<Payment>)
    ensures Sum(p + q) == Sum(p) + Sum(q)
  {
    if q == [] {
      assert p + q == p;
    } else {
      SumConcat(p, q[..|q| - 1]);
      assert (p + q)[..|p + q| - 1] == p + q[..|q| - 1];
    }
  }

  /** A run that opened with SPL Token holds its whole total. */
  ghost predicate Full(w: World, o: Opening) {
    Held(w, o) && Holding(w, o) == o.terms.total && o.payer != o.run
  }

  lemma OpensFull(find: Finder, w: World, c: Call, o: Opening)
    requires c.Init? && c.outcome.Ok? && Opens(find, w, c.now, c.signed, c.accounts, c.data, c.outcome)
    requires o == Opening(c.accounts[2], c.accounts[3], c.accounts[0], ParseInit(c.data).value)
    requires Sane(w.programs) && c.accounts[5] == w.programs.spl && c.accounts[0] != o.run
    ensures Full(c.outcome.value, o)
  {
    hide Opened, ParseInit, Sane;
  }

  /** Over every life of a run, whatever accounts are named and whatever others do, the vault stays
      the run's and holds what is not yet paid, or more: exactly the gains of the life more. */
  lemma {:induction false} LifeAdds(h: Hasher, find: Finder, w: World, calls: seq<Call>, o: Opening)
    requires Full(w, o) && Life(h, find, w, calls, o) && AllFair(w, calls, o)
    ensures Held(Then(w, calls), o) && Gains(w, calls, o) >= 0
    ensures Holding(Then(w, calls), o) + Sum(History(calls, o)) == o.terms.total + Gains(w, calls, o)
  {
    if calls == [] {
      NoneIsZero();
    } else {
      var before, last := calls[..|calls| - 1], calls[|calls| - 1];
      LifeAdds(h, find, w, before, o);
      hide Held, Answered, Kept, Fair, Gain, Holding, Sum, Paid;
      StepAdds(h, find, Then(w, before), last, o);
      SumConcat(History(before, o), Paid(last, o));
    }
  }

  // ---- when the vault is exactly what is not yet paid ----

  /** A call that keeps the vault square: a batch of this run that pays anything draws on the run's own
      vault and sends it nothing, and nobody else pays in. */
  ghost predicate Square(w: World, c: Call, o: Opening) {
    if OwnBatch(c, o) then
      && (Booked(c, o) > 0 ==> c.accounts[1] == o.vault)
      && forall i :: 0 <= i < |c.accounts| - 3 && ParseBatch(c.data).value.amounts[i] > 0 ==> c.accounts[3 + i] != o.vault
    else Holding(After(w, c), o) == Holding(w, o)
  }

  ghost predicate AllSquare(w: World, calls: seq<Call>, o: Opening) {
    calls == [] || (
      var before, last := calls[..|calls| - 1], calls[|calls| - 1];
      AllSquare(w, before, o) && Square(Then(w, before), last, o))
  }

  lemma {:induction false} CreditIsNone(merchants: seq<Digest>, amounts: seq<nat>, k: Digest, n: nat)
    requires n <= |merchants| == |amounts|
    ensures Credit(merchants, amounts, k, n) == 0 <==> forall i :: 0 <= i < n && amounts[i] > 0 ==> merchants[i] != k
  {
    if n > 0 {
      CreditIsNone(merchants, amounts, k, n - 1);
    }
  }

  lemma SquareGainsNothing(w: World, c: Call, o: Opening)
    ensures Gain(w, c, o) == 0 <==> Square(w, c, o)
  {
    if OwnBatch(c, o) {
      hide ParseBatch, Credit, SumOf;
      var merchants, amounts := c.accounts[3..], ParseBatch(c.data).value.amounts;
      CreditIsNone(merchants, amounts, o.vault, |merchants|);
      assert forall i :: 0 <= i < |merchants| ==> merchants[i] == c.accounts[3 + i];
    }
  }

  lemma {:induction false} GainsAreNone(h: Hasher, find: Finder, w: World, calls: seq<Call>, o: Opening)
    requires Full(w, o) && Life(h, find, w, calls, o) && AllFair(w, calls, o)
    ensures Gains(w, calls, o) == 0 <==> AllSquare(w, calls, o)
  {
    if calls != [] {
      var before, last := calls[..|calls| - 1], calls[|calls| - 1];
      LifeAdds(h, find, w, before, o);
      GainsAreNone(h, find, w, before, o);
      hide Held, Answered, Kept, Fair, Gain, Holding, Sum, Paid, Square;
      StepAdds(h, find, Then(w, before), last, o);
      SquareGainsNothing(Then(w, before), last, o);
    }
  }

  /** The vault holds total minus paid exactly when every batch that paid anything drew on it and
      nobody paid in. */
  lemma VaultIsTheRest(h: Hasher, find: Finder, w: World, calls: seq<Call>, o: Opening)
    requires Full(w, o) && Life(h, find, w, calls, o) && AllFair(w, calls, o)
    ensures Holding(Then(w, calls), o) == o.terms.total - Sum(History(calls, o)) <==> AllSquare(w, calls, o)
  {
    hide *;
    LifeAdds(h, find, w, calls, o);
    GainsAreNone(h, find, w, calls, o);
  }

  // ---- batches that are booked and leave the vault alone ----

  /** The same batch asked of another token account or another token program. */
  function Redrawn(c: Call, vault: Digest, program: Digest, tokens: Tokens): Call
    requires c.Pay? && c.outcome.Ok? && |c.accounts| >= 3
  {
    Pay(c.now, [c.accounts[0], vault, program] + c.accounts[3..], c.data, Ok(c.outcome.value.(tokens := tokens)))
  }

  /** What the program answers to it hangs on the transfers alone. */
  lemma RedrawnGoes(h: Hasher, w: World, c: Call, vault: Digest, program: Digest, tokens: Tokens)
    requires c.Pay? && c.outcome.Ok? && |c.accounts| >= 3 && ParseBatch(c.data).Some? && |ParseBatch(c.data).value.amounts| == |c.accounts| - 3
    requires Pays(h, w, c.now, c.accounts, c.data, c.outcome)
    requires var amounts, run, merchants := ParseBatch(c.data).value.amounts, c.accounts[0], c.accounts[3..];
      var was := PayAll(w.programs, c.accounts[2], w.tokens, c.accounts[1], merchants, amounts, run, |amounts|);
      was.Ok? && PayAll(w.programs, program, w.tokens, vault, merchants, amounts, run, |amounts|) == Ok((tokens, was.value.1))
    ensures var r := Redrawn(c, vault, program, tokens); Pays(h, w, r.now, r.accounts, r.data, r.outcome)
  {
    hide RootOf, Marked, AnyPaid, PayAll, ReadHeader, DepthFor, ParseBatch;
    var r := Redrawn(c, vault, program, tokens);
    assert r.accounts[3..] == c.accounts[3..];
  }

  /** Account x of the run can carry what the vault would. */
  ghost predicate Carries(t: Tokens, o: Opening, x: Digest, sum: nat) {
    o.vault in t && x in t && x != o.vault && t[x].owner == o.run && t[x].mint == t[o.vault].mint && !t[x].frozen && t[x].amount >= sum
  }

  function Drawn(t: Tokens, u: Tokens, o: Opening, x: Digest, sum: nat): Tokens
    requires Carries(t, o, x, sum)
  {
    u[o.vault := t[o.vault]][x := t[x].(amount := t[x].amount - sum)]
  }

  lemma {:induction false} PayAllFrom(p: Programs, t: Tokens, o: Opening, x: Digest, merchants: seq<Digest>, amounts: seq<nat>, n: nat)
    requires n <= |merchants| == |amounts| && Carries(t, o, x, SumOf(amounts, n))
    requires forall i :: 0 <= i < n ==> merchants[i] != o.vault && merchants[i] != x
    requires PayAll(p, p.spl, t, o.vault, merchants, amounts, o.run, n).Ok?
    ensures var (u, sum) := PayAll(p, p.spl, t, o.vault, merchants, amounts, o.run, n).value;
      sum == SumOf(amounts, n) && PayAll(p, p.spl, t, x, merchants, amounts, o.run, n) == Ok((Drawn(t, u, o, x, sum), sum))
  {
    if n == 0 {
      assert Drawn(t, t, o, x, 0) == t;
    } else {
      hide PayAll, Credit, Carries, Drawn;
      FewerCarried(t, o, x, amounts, n);
      PayAllUnfolds(p, p.spl, t, o.vault, merchants, amounts, o.run, n);
      PayAllFrom(p, t, o, x, merchants, amounts, n - 1);
      NextFrom(p, t, o, x, merchants, amounts, n);
    }
  }

  lemma NextFrom(p: Programs, t: Tokens, o: Opening, x: Digest, merchants: seq<Digest>, amounts: seq<nat>, n: nat)
    requires 0 < n <= |merchants| == |amounts| && Carries(t, o, x, SumOf(amounts, n)) && Carries(t, o, x, SumOf(amounts, n - 1))
    requires forall i :: 0 <= i < n ==> merchants[i] != o.vault && merchants[i] != x
    requires PayAll(p, p.spl, t, o.vault, merchants, amounts, o.run, n).Ok? && PayAll(p, p.spl, t, o.vault, merchants, amounts, o.run, n - 1).Ok?
    requires var (u, sum) := PayAll(p, p.spl, t, o.vault, merchants, amounts, o.run, n - 1).value;
      sum == SumOf(amounts, n - 1) && PayAll(p, p.spl, t, x, merchants, amounts, o.run, n - 1) == Ok((Drawn(t, u, o, x, sum), sum))
    ensures var (u, sum) := PayAll(p, p.spl, t, o.vault, merchants, amounts, o.run, n).value;
      sum == SumOf(amounts, n) && PayAll(p, p.spl, t, x, merchants, amounts, o.run, n) == Ok((Drawn(t, u, o, x, sum), sum))
  {
    hide PayAll, Credit, Transfer, Drawn, SumOf;
    FewerCarried(t, o, x, amounts, n);
    PayAllUnfolds(p, p.spl, t, o.vault, merchants, amounts, o.run, n);
    PayAllUnfolds(p, p.spl, t, x, merchants, amounts, o.run, n);
    PayAllMoves(p, t, o.vault, merchants, amounts, o.run, n - 1);
    CreditIsNone(merchants, amounts, x, n - 1);
    OneFrom(t, PayAll(p, p.spl, t, o.vault, merchants, amounts, o.run, n - 1).value.0, o, x, merchants[n - 1], SumOf(amounts, n - 1), amounts[n - 1]);
  }

  lemma FewerCarried(t: Tokens, o: Opening, x: Digest, amounts: seq<nat>, n: nat)
    requires 0 < n <= |amounts| && Carries(t, o, x, SumOf(amounts, n))
    ensures SumOf(amounts, n) == SumOf(amounts, n - 1) + amounts[n - 1] && Carries(t, o, x, SumOf(amounts, n - 1))
    ensures o.vault in t && x in t && x != o.vault
  {
  }

  /** A transfer out of x to somebody else does what one out of the vault would. */
  lemma OneFrom(t: Tokens, u: Tokens, o: Opening, x: Digest, to: Digest, sum: nat, amount: nat)
    requires Carries(t, o, x, sum + amount) && SameAccounts(t, u) && to != o.vault && to != x && u[x] == t[x]
    requires Transfer(u, o.vault, to, o.run, amount).Some?
    ensures Transfer(Drawn(t, u, o, x, sum), x, to, o.run, amount) == Some(Drawn(t, Transfer(u, o.vault, to, o.run, amount).value, o, x, sum + amount))
  {
    var v, paid := Drawn(t, u, o, x, sum), u[to].(amount := u[to].amount + amount);
    assert v[to] == u[to] && v[x] == t[x].(amount := t[x].amount - sum) && u[o.vault].mint == t[o.vault].mint;
    assert Transfer(v, x, to, o.run, amount) == Some(v[x := v[x].(amount := v[x].amount - amount)][to := paid]);
    assert v[x := v[x].(amount := v[x].amount - amount)][to := paid]
        == Drawn(t, u[o.vault := u[o.vault].(amount := u[o.vault].amount - amount)][to := paid], o, x, sum + amount);
  }

  lemma RedrawnSame(c: Call, o: Opening, vault: Digest, program: Digest, tokens: Tokens)
    requires OwnBatch(c, o)
    ensures var r := Redrawn(c, vault, program, tokens);
      && OwnBatch(r, o) && Paid(r, o) == Paid(c, o) && Booked(r, o) == Booked(c, o)
      && r.accounts[1] == vault && r.accounts[2] == program && r.accounts[3..] == c.accounts[3..]
      && r.outcome == Ok(c.outcome.value.(tokens := tokens))
  {
    hide ParseBatch, SumOf, Paying;
    assert Redrawn(c, vault, program, tokens).accounts[3..] == c.accounts[3..];
  }

  /** A batch that goes through on the run's vault goes through just as well on any other account of the
      run that can carry it: the same leaves and the same sum are booked, and the vault keeps its tokens. */
  lemma StrayingBatch(h: Hasher, w: World, c: Call, o: Opening, x: Digest) returns (stray: Call)
    requires OwnBatch(c, o) && Pays(h, w, c.now, c.accounts, c.data, c.outcome)
    requires c.accounts[1] == o.vault && c.accounts[2] == w.programs.spl && Carries(w.tokens, o, x, Booked(c, o))
    requires forall i :: 3 <= i < |c.accounts| ==> c.accounts[i] != o.vault && c.accounts[i] != x
    ensures OwnBatch(stray, o) && Pays(h, w, stray.now, stray.accounts, stray.data, stray.outcome) && Fair(w, stray, o)
    ensures After(w, stray).runs == After(w, c).runs && Paid(stray, o) == Paid(c, o)
    ensures o.vault in After(w, stray).tokens && After(w, stray).tokens[o.vault] == w.tokens[o.vault]
    ensures Booked(c, o) > 0 ==> !Square(w, stray, o)
  {
    hide Pays, ParseBatch, PayAll, SumOf;
    WhatWent(h, w, c, o);
    var amounts, merchants := ParseBatch(c.data).value.amounts, c.accounts[3..];
    var tokens := Drawn(w.tokens, c.outcome.value.tokens, o, x, Booked(c, o));
    PayAllFrom(w.programs, w.tokens, o, x, merchants, amounts, |amounts|);
    RedrawnGoes(h, w, c, x, w.programs.spl, tokens);
    RedrawnSame(c, o, x, w.programs.spl, tokens);
    stray := Redrawn(c, x, w.programs.spl, tokens);
    hide Redrawn, Paid, Booked, OwnBatch, Went;
  }

  /** A token program that answers every transfer and moves nothing. */
  ghost predicate Idles(p: Programs, program: Digest) {
    program != p.spl && forall t, from, to, authority, amount :: p.transfer(program, t, from, to, authority, amount) == Some(t)
  }

  lemma {:induction false} PayAllIdles(p: Programs, program: Digest, idle: Digest, t: Tokens, vault: Digest, merchants: seq<Digest>, amounts: seq<nat>, authority: Digest, n: nat)
    requires n <= |merchants| == |amounts| && Idles(p, idle)
    requires PayAll(p, program, t, vault, merchants, amounts, authority, n).Ok?
    ensures PayAll(p, idle, t, vault, merchants, amounts, authority, n) == Ok((t, PayAll(p, program, t, vault, merchants, amounts, authority, n).value.1))
  {
    if n > 0 {
      PayAllIdles(p, program, idle, t, vault, merchants, amounts, authority, n - 1);
    }
  }

  /** A batch that goes through goes through just as well when it names such a program: the same leaves and
      the same sum are booked, and no token moves at all. */
  lemma IdleBatch(h: Hasher, w: World, c: Call, o: Opening, idle: Digest)
    requires OwnBatch(c, o) && Pays(h, w, c.now, c.accounts, c.data, c.outcome) && Idles(w.programs, idle)
    ensures var r := Redrawn(c, c.accounts[1], idle, w.tokens);
      && OwnBatch(r, o) && Pays(h, w, r.now, r.accounts, r.data, r.outcome)
      && After(w, r).runs == After(w, c).runs && Paid(r, o) == Paid(c, o) && After(w, r).tokens == w.tokens
      && (c.accounts[1] == o.vault && Booked(c, o) > 0 && o.vault !in c.accounts[3..] ==> !Adds(w, r, o))
  {
    hide Pays, ParseBatch, PayAll, SumOf;
    WhatWent(h, w, c, o);
    var amounts, merchants := ParseBatch(c.data).value.amounts, c.accounts[3..];
    PayAllIdles(w.programs, c.accounts[2], idle, w.tokens, c.accounts[1], merchants, amounts, o.run, |amounts|);
    RedrawnGoes(h, w, c, c.accounts[1], idle, w.tokens);
    RedrawnSame(c, o, c.accounts[1], idle, w.tokens);
    var r := Redrawn(c, c.accounts[1], idle, w.tokens);
    hide Paid, Booked, Went, Adds;
    if c.accounts[1] == o.vault && Booked(c, o) > 0 && o.vault !in c.accounts[3..] {
      NothingMoved(w, r, o);
    }
  }

  lemma RefEach(data: Str)
    requires ParseBatch(data).Some?
    ensures |ParseBatch(data).value.refs| == |ParseBatch(data).value.amounts|
  {
    hide Chunks, FromLE;
  }

  lemma PaidIsBooked(c: Call, o: Opening)
    requires OwnBatch(c, o)
    ensures Sum(Paid(c, o)) == Booked(c, o)
  {
    RefEach(c.data);
    hide ParseBatch, SumOf, Sum, Paying;
    PayingSums(c.now, ParseBatch(c.data).value, c.accounts[3..]);
  }

  lemma PayingSums(now: int, b: PayCall, merchants: seq<Digest>)
    requires |merchants| == |b.amounts| == |b.refs|
    ensures Sum(Paying(now, b, merchants, |merchants|)) == SumOf(b.amounts, |merchants|)
  {
    NoneIsZero();
    SumAppends([], now, b, merchants, |merchants|);
    hide Sum, SumOf, Paying;
    assert [] + Paying(now, b, merchants, |merchants|) == Paying(now, b, merchants, |merchants|);
  }

  lemma OwnVaultGainsNothing(w: World, c: Call, o: Opening)
    requires OwnBatch(c, o) && c.accounts[1] == o.vault && o.vault !in c.accounts[3..]
    ensures Gain(w, c, o) == 0
  {
    hide ParseBatch, Credit, SumOf;
    CreditIsNone(c.accounts[3..], ParseBatch(c.data).value.amounts, o.vault, |c.accounts| - 3);
  }

  lemma NothingMoved(w: World, c: Call, o: Opening)
    requires OwnBatch(c, o) && c.accounts[1] == o.vault && Booked(c, o) > 0 && o.vault !in c.accounts[3..] && c.outcome.value.tokens == w.tokens
    ensures !Adds(w, c, o)
  {
    PaidIsBooked(c, o);
    OwnVaultGainsNothing(w, c, o);
    hide ParseBatch, Booked, Paid, Sum, Gain, Held;
  }

  // ---- the clawback ----

  lemma FieldsOf(mint: Str, owner: Str, amount: Str, rest: Str)
    requires |mint| == |owner| == 32 && |amount| == 8
    ensures var d := mint + owner + amount + rest; d[32..64] == owner && d[64..72] == amount
  {
  }

  lemma TokenAmount(a: TokenAccount)
    ensures TokenData(a)[32..64] == a.owner && FromLE(TokenData(a)[64..72]) == a.amount
  {
    hide LE, FromLE, Pow256;
    WidthsAre();
    LERoundTrip(a.amount, 8);
    FieldsOf(a.mint, a.owner, LE(a.amount, 8), [if a.frozen then 2 else 1]);
  }

  /** The accounts once `vault` is closed and `rest` is in `dest`. */
  ghost predicate Returned(t: Tokens, u: Tokens, o: Opening, dest: Digest, rest: int) {
    && rest >= 0 && o.vault in t && o.vault !in u
    && (rest > 0 ==> dest in t && t[dest].owner == o.payer)
    && u.Keys == t.Keys - {o.vault}
    && forall k :: k in u ==> u[k] == t[k].(amount := u[k].amount) && u[k].amount == t[k].amount + if k == dest then rest else 0
  }

  lemma ClawReturnsAll(w: World, c: Call, o: Opening)
    requires Held(w, o) && o.payer != o.run && o.run in w.runs && |w.runs[o.run]| >= HEADER && ReadHeader(w.runs[o.run]).payer == o.payer
    requires Closes(c, o) && ClawsBack(w, c.now, c.accounts, c.outcome) && c.accounts[4] == w.programs.spl
    requires c.accounts[1] == o.vault
    ensures Returned(w.tokens, c.outcome.value.tokens, o, c.accounts[2], Holding(w, o)) && o.run !in c.outcome.value.runs
  {
    hide ReadHeader, FromLE, TokenData, Sane;
    TokenAmount(w.tokens[o.vault]);
    if c.accounts[2] in w.tokens {
      TokenAmount(w.tokens[c.accounts[2]]);
    }
  }

  /** A clawback that names another account of the run leaves the vault where it is. */
  lemma ClawElsewhereStrands(w: World, c: Call, o: Opening)
    requires Held(w, o)
    requires Closes(c, o) && ClawsBack(w, c.now, c.accounts, c.outcome) && c.accounts[4] == w.programs.spl
    requires c.accounts[1] != o.vault
    ensures Held(c.outcome.value, o) && Holding(c.outcome.value, o) >= Holding(w, o) && o.run !in c.outcome.value.runs
  {
    hide ReadHeader, FromLE, Data, Sane;
  }

  lemma OneRest(t: Tokens, u: Tokens, o: Opening, dest: Digest, rest: int, other: int)
    requires Returned(t, u, o, dest, rest) && Returned(t, u, o, dest, other)
    requires o.payer != o.run && t[o.vault].owner == o.run
    ensures rest == other
  {
  }

  /** What a clawback that goes through knows of a live run. */
  lemma ClawChecks(w: World, c: Call, o: Opening, p: seq<Payment>)
    requires Live(w, o, p) && Closes(c, o) && ClawsBack(w, c.now, c.accounts, c.outcome)
    ensures |c.accounts| >= 5 && c.accounts[3] == o.payer && c.now >= o.terms.deadline
    ensures |w.runs[o.run]| >= HEADER && ReadHeader(w.runs[o.run]).payer == o.payer
    ensures o.run !in c.outcome.value.runs
  {
    hide BitsTell, WholeBlocks, Once, Timely, Sum, FromLE, Data;
  }

  /** A clawback returns `rest` exactly when it names the run's own vault and that holds `rest`. */
  lemma ClawReturns(w: World, c: Call, o: Opening, rest: int)
    requires Held(w, o) && o.payer != o.run && o.run in w.runs && |w.runs[o.run]| >= HEADER && ReadHeader(w.runs[o.run]).payer == o.payer
    requires Closes(c, o) && ClawsBack(w, c.now, c.accounts, c.outcome) && |c.accounts| >= 5 && c.accounts[4] == w.programs.spl
    ensures Returned(w.tokens, c.outcome.value.tokens, o, c.accounts[2], rest) <==> c.accounts[1] == o.vault && rest == Holding(w, o)
  {
    hide ClawsBack, ReadHeader, Sane;
    var u := c.outcome.value.tokens;
    if c.accounts[1] == o.vault {
      ClawReturnsAll(w, c, o);
      if Returned(w.tokens, u, o, c.accounts[2], rest) {
        OneRest(w.tokens, u, o, c.accounts[2], Holding(w, o), rest);
      }
    } else {
      ClawElsewhereStrands(w, c, o);
    }
  }

  /** The clawback that ends a life comes at the deadline or later. It empties the run's vault into an
      account of the payer exactly when it names that vault, and what it returns is total minus paid
      exactly when, besides, the life kept the vault square. */
  lemma ClawbackReturnsTheRest(h: Hasher, find: Finder, w: World, calls: seq<Call>, c: Call, o: Opening)
    requires Live(w, o, []) && Full(w, o) && Life(h, find, w, calls, o) && AllFair(w, calls, o)
    requires var end := Then(w, calls); Closes(c, o) && ClawsBack(end, c.now, c.accounts, c.outcome) && |c.accounts| >= 5 && c.accounts[4] == end.programs.spl
    ensures c.now >= o.terms.deadline && c.accounts[3] == o.payer && o.run !in c.outcome.value.runs
    ensures var end, after := Then(w, calls), c.outcome.value;
      && (Returned(end.tokens, after.tokens, o, c.accounts[2], Holding(end, o)) <==> c.accounts[1] == o.vault)
      && (Returned(end.tokens, after.tokens, o, c.accounts[2], o.terms.total - Sum(History(calls, o)))
          <==> c.accounts[1] == o.vault && AllSquare(w, calls, o))
  {
    hide Live, Life, AllFair, AllSquare, ClawsBack, History, Sum, ReadHeader, Then, Held, Holding, Returned;
    var end := Then(w, calls);
    LifeKeepsLive(h, find, w, calls, o);
    LifeAdds(h, find, w, calls, o);
    VaultIsTheRest(h, find, w, calls, o);
    ClawChecks(end, c, o, History(calls, o));
    LiveHasRun(end, o, History(calls, o));
    ClawReturns(end, c, o, Holding(end, o));
    ClawReturns(end, c, o, o.terms.total - Sum(History(calls, o)));
  }

  lemma LiveHasRun(w: World, o: Opening, p: seq<Payment>)
    requires Live(w, o, p)
    ensures o.run in w.runs
  {
  }

  // ---- the clawback that strands the vault ----

  /** From any live run at its deadline: once the run owns another, empty token account (anybody can
      open one for it), a clawback that names that account goes through, and the vault keeps its tokens. */
  lemma StrandingClawback(w: World, o: Opening, p: seq<Payment>, now: int, x: Digest, dest: Digest)
    requires Live(w, o, p) && Held(w, o) && now >= o.terms.deadline
    requires x in w.tokens && x != o.vault && x != o.payer && w.tokens[x].owner == o.run && w.tokens[x].amount == 0
    requires dest in w.tokens && w.tokens[dest].owner == o.payer
    ensures var after := w.(runs := w.runs - {o.run}, tokens := w.tokens - {x});
      && ClawsBack(w, now, [o.run, x, dest, o.payer, w.programs.spl], Ok(after))
      && o.run !in after.runs && Held(after, o) && after.tokens[o.vault] == w.tokens[o.vault]
  {
    hide BitsTell, WholeBlocks, Once, Timely, Sum, FromLE, TokenData, I64, Sane;
    TokenAmount(w.tokens[x]);
    TokenAmount(w.tokens[dest]);
  }

  /** The vault is there and the run is not. */
  ghost predicate Stranded(find: Finder, w: World, o: Opening) {
    Held(w, o) && o.run !in w.runs && find(VaultSeeds(o.run)).0 == o.vault
  }

  /** Any calls, each answered by the program. */
  ghost predicate Traffic(h: Hasher, find: Finder, w: World, calls: seq<Call>) {
    calls == [] || (
      var before, last := calls[..|calls| - 1], calls[|calls| - 1];
      Traffic(h, find, w, before) && Answered(h, find, Then(w, before), last) && Kept(Then(w, before), last))
  }

  /** No call on a run that is gone goes through, and none opens it again over its vault. */
  lemma NothingBringsItBack(h: Hasher, find: Finder, w: World, c: Call, o: Opening)
    requires Stranded(find, w, o) && Answered(h, find, w, c) && Kept(w, c)
    ensures o.run !in After(w, c).runs && !Closes(c, o)
    ensures c.Pay? && c.outcome.Ok? ==> |c.accounts| >= 3 && c.accounts[0] != o.run
  {
    hide RootOf, Marked, AnyPaid, PayAll, ReadHeader, DepthFor, Opened, ParseInit, FromLE, TransferBy, CloseBy, Sane;
    if c.Pay? && c.outcome.Ok? {
      EnoughAccounts(h, w, c);
      assert Settles(w, c.accounts[0], c.accounts[1], c.accounts[2], c.accounts[3..], ParseBatch(c.data).value, c.outcome);
    }
  }

  /** From then on, over any traffic at all, the run never exists again and the vault never pays out. */
  lemma {:induction false} StrandedForever(h: Hasher, find: Finder, w: World, calls: seq<Call>, o: Opening)
    requires Stranded(find, w, o) && Traffic(h, find, w, calls) && AllFair(w, calls, o)
    ensures Stranded(find, Then(w, calls), o) && Holding(Then(w, calls), o) >= Holding(w, o)
  {
    if calls != [] {
      var before, last := calls[..|calls| - 1], calls[|calls| - 1];
      StrandedForever(h, find, w, before, o);
      hide Answered, Kept, Fair, Holding, Sane;
      NothingBringsItBack(h, find, Then(w, before), last, o);
      OthersAreSafe(h, find, Then(w, before), last, o);
    }
  }
}
