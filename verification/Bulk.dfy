/** One payout of a run, and how runs are cut into transactions. */
module Bulk {
  import opened Bits
  import opened Bytes

  /** A nil amount is 0 here: every reader refuses both alike. */
  datatype Payout = Payout(ref: Digest, merchant: Str, amount: int, newTokenAccount: bool)

  /** One resource of a transaction: so much to start with, so much per item and per level of
      proof, and never more than the cap. */
  datatype Rule = Rule(cap: nat, base: nat, item: nat, perLevel: nat)

  datatype Limits = Limits(rules: seq<Rule>, align: nat, prepareRules: seq<Rule>, newAccountRent: nat)

  datatype Usage = Usage(used: nat, cap: nat)

  datatype Batch = Batch(index: nat, items: seq<Payout>, used: seq<Usage>)

  datatype Plan = Plan(payouts: nat, batches: seq<Batch>, prepare: seq<Batch>, newAccounts: nat, rent: nat, levels: nat, proofHashes: nat)

  datatype PackError = NoPayouts | NoRules | ItemTooLarge | BlockTooLarge

  // ---- what a plan promises ----

  /** k items fit one transaction with this much overhead per rule. */
  predicate Fits(rules: seq<Rule>, levels: nat, k: nat) {
    forall j :: 0 <= j < |rules| ==> FitsRule(rules[j], levels, k)
  }

  predicate FitsRule(r: Rule, levels: nat, k: nat) {
    r.base + levels * r.perLevel + k * r.item <= r.cap
  }

  /** The items of all batches, in order. */
  function Items(batches: seq<Batch>): seq<Payout> {
    if batches == [] then [] else Items(batches[..|batches| - 1]) + batches[|batches| - 1].items
  }

  /** Batches count from one and record, per rule, what they use: never above the cap. */
  ghost predicate Recorded(rules: seq<Rule>, levels: nat, batches: seq<Batch>) {
    forall i :: 0 <= i < |batches| ==> RecordedAt(rules, levels, batches[i], i)
  }

  ghost predicate RecordedAt(rules: seq<Rule>, levels: nat, b: Batch, i: nat) {
    && b.index == i + 1 && b.items != [] && |b.used| == |rules|
    && forall j :: 0 <= j < |rules| ==>
      b.used[j] == Usage(rules[j].base + levels * rules[j].perLevel + |b.items| * rules[j].item, rules[j].cap) && b.used[j].used <= b.used[j].cap
  }

  /** All batches but the last are as full as the rules allow. */
  ghost predicate Full(rules: seq<Rule>, batches: seq<Batch>) {
    forall i :: 0 <= i < |batches| - 1 ==> !Fits(rules, 0, |batches[i].items| + 1)
  }

  ghost predicate Greedy(rules: seq<Rule>, items: seq<Payout>, batches: seq<Batch>) {
    Items(batches) == items && Recorded(rules, 0, batches) && Full(rules, batches)
  }

  lemma ItemsAppend(batches: seq<Batch>, b: Batch)
    ensures Items(batches + [b]) == Items(batches) + b.items
  {
    assert (batches + [b])[..|batches|] == batches;
  }

  lemma OneMore(k: nat, item: nat)
    ensures (k + 1) * item == k * item + item
  {
  }

  // ---- the greedy cut ----

  method FitsRules(used: seq<nat>, rules: seq<Rule>) returns (fits: bool)
    requires |used| == |rules|
    ensures fits <==> forall j :: 0 <= j < |rules| ==> rules[j].base + used[j] + rules[j].item <= rules[j].cap
  {
    for j := 0 to |rules|
      invariant forall k :: 0 <= k < j ==> rules[k].base + used[k] + rules[k].item <= rules[k].cap
    {
      if rules[j].base + used[j] + rules[j].item > rules[j].cap {
        return false;
      }
    }
    return true;
  }

  /** Record what the current batch uses. */
  method Seal(items: seq<Payout>, used: seq<nat>, rules: seq<Rule>, index: nat) returns (b: Batch)
    requires |used| == |rules|
    ensures b.index == index && b.items == items && |b.used| == |rules|
    ensures forall j :: 0 <= j < |rules| ==> b.used[j] == Usage(rules[j].base + used[j], rules[j].cap)
  {
    var recorded: seq<Usage> := [];
    for j := 0 to |rules|
      invariant |recorded| == j
      invariant forall k :: 0 <= k < j ==> recorded[k] == Usage(rules[k].base + used[k], rules[k].cap)
    {
      recorded := recorded + [Usage(rules[j].base + used[j], rules[j].cap)];
    }
    b := Batch(index, items, recorded);
  }

  method AddItem(used: seq<nat>, rules: seq<Rule>) returns (more: seq<nat>)
    requires |used| == |rules|
    ensures |more| == |rules| && forall j :: 0 <= j < |rules| ==> more[j] == used[j] + rules[j].item
  {
    more := used;
    for j := 0 to |rules|
      invariant |more| == |rules|
      invariant forall k :: 0 <= k < |rules| ==> more[k] == if k < j then used[k] + rules[k].item else used[k]
    {
      more := more[j := more[j] + rules[j].item];
    }
  }

  /** What the current batch of k items uses beyond the base. */
  ghost predicate Uses(used: seq<nat>, rules: seq<Rule>, k: nat) {
    |used| == |rules| && forall j :: 0 <= j < |rules| ==> used[j] == k * rules[j].item
  }

  lemma UsesFits(used: seq<nat>, rules: seq<Rule>, k: nat)
    requires Uses(used, rules, k)
    ensures (forall j :: 0 <= j < |rules| ==> rules[j].base + used[j] + rules[j].item <= rules[j].cap) <==> Fits(rules, 0, k + 1)
  {
    forall j | 0 <= j < |rules| ensures rules[j].base + used[j] + rules[j].item <= rules[j].cap <==> FitsRule(rules[j], 0, k + 1) {
      OneMore(k, rules[j].item);
    }
  }

  lemma UsesOneMore(used: seq<nat>, rules: seq<Rule>, k: nat, more: seq<nat>)
    requires Uses(used, rules, k) && |more| == |rules| && forall j :: 0 <= j < |rules| ==> more[j] == used[j] + rules[j].item
    ensures Uses(more, rules, k + 1)
  {
    forall j | 0 <= j < |rules| ensures more[j] == (k + 1) * rules[j].item {
      OneMore(k, rules[j].item);
    }
  }

  lemma SealedIsRecorded(rules: seq<Rule>, b: Batch, used: seq<nat>, i: nat)
    requires Uses(used, rules, |b.items|) && Fits(rules, 0, |b.items|) && b.items != [] && b.index == i + 1 && |b.used| == |rules|
    requires forall j :: 0 <= j < |rules| ==> b.used[j] == Usage(rules[j].base + used[j], rules[j].cap)
    ensures RecordedAt(rules, 0, b, i)
  {
    forall j | 0 <= j < |rules| ensures b.used[j].used <= b.used[j].cap {
      assert FitsRule(rules[j], 0, |b.items|);
    }
  }

  function Nothing(rules: seq<Rule>): (used: seq<nat>)
    ensures Uses(used, rules, 0)
  {
    seq(|rules|, _ => 0)
  }

  lemma NothingYet()
    ensures Items([]) == []
  {
  }

  /** Take items while they fit, then start anew. */
  method PackGreedy(rules: seq<Rule>, items: seq<Payout>) returns (r: Result<seq<Batch>, PackError>)
    requires items != []
    ensures if Fits(rules, 0, 1) then r.Ok? && r.value != [] && Greedy(rules, items, r.value) else r == Err(ItemTooLarge)
  {
    hide Uses, Fits, RecordedAt, Items;
    var batches: seq<Batch> := [];
    var current: seq<Payout> := [];
    var used := Nothing(rules);
    NothingYet();
    for i := 0 to |items|
      invariant Items(batches) + current == items[..i] && |used| == |rules| && Uses(used, rules, |current|)
      invariant Recorded(rules, 0, batches) && forall k :: 0 <= k < |batches| ==> !Fits(rules, 0, |batches[k].items| + 1)
      invariant i > 0 ==> Fits(rules, 0, 1) && current != [] && Fits(rules, 0, |current|)
    {
      UsesFits(Nothing(rules), rules, 0);
      var one := FitsRules(Nothing(rules), rules);
      if !one {
        return Err(ItemTooLarge);
      }
      UsesFits(used, rules, |current|);
      var fits := FitsRules(used, rules);
      if |current| > 0 && !fits {
        var sealed := Seal(current, used, rules, |batches| + 1);
        SealedIsRecorded(rules, sealed, used, |batches|);
        ItemsAppend(batches, sealed);
        batches := batches + [sealed];
        current := [];
        used := Nothing(rules);
      }
      var more := AddItem(used, rules);
      UsesOneMore(used, rules, |current|, more);
      used := more;
      assert items[..i + 1] == items[..i] + [items[i]];
      current := current + [items[i]];
    }
    assert items[..|items|] == items;
    var last := Seal(current, used, rules, |batches| + 1);
    SealedIsRecorded(rules, last, used, |batches|);
    ItemsAppend(batches, last);
    return Ok(batches + [last]);
  }

  // ---- the aligned cut ----

  predicate IsPower(n: nat, k: nat) { n == Pow2(k) }

  /** The least width 2^levels, from the block's own on, that holds n items. */
  ghost predicate Wide(align: nat, n: nat, levels: nat, proofHashes: nat) {
    exists block: nat :: IsPower(align, block) && levels == block + proofHashes && n <= Pow2(levels) && (proofHashes > 0 ==> Pow2(levels - 1) < n)
  }

  /** Blocks of exactly `align` items, the last of what is left. */
  ghost predicate Aligned(align: nat, items: seq<Payout>, batches: seq<Batch>) {
    && Items(batches) == items
    && forall i :: 0 <= i < |batches| ==> BlockAt(align, items, batches[i], i)
  }

  ghost predicate BlockAt(align: nat, items: seq<Payout>, b: Batch, i: nat) {
    var start := i * align;
    && start < |items|
    && b.items == items[start..if start + align > |items| then |items| else start + align]
  }

  method WidthOf(align: nat, n: nat) returns (levels: nat, proofHashes: nat)
    requires exists k :: IsPower(align, k)
    ensures Wide(align, n, levels, proofHashes)
  {
    ghost var block: nat :| IsPower(align, block);
    var width := align;
    proofHashes := 0;
    while width < n
      invariant width == Pow2(block + proofHashes) && (proofHashes > 0 ==> Pow2(block + proofHashes - 1) < n)
      decreases n - width
    {
      width := width * 2;
      proofHashes := proofHashes + 1;
    }
    var own := Log2(align, block);
    levels := own + proofHashes;
    assert IsPower(align, block);
  }

  /** The position of a power of two's only bit. */
  method Log2(n: nat, ghost k: nat) returns (log: nat)
    requires IsPower(n, k)
    ensures log == k
  {
    var rest := n;
    log := 0;
    while rest > 1
      invariant log <= k && rest == Pow2(k - log)
      decreases rest
    {
      assert Pow2(k - log) == 2 * Pow2(k - log - 1);
      rest := rest / 2;
      log := log + 1;
    }
    OnlyZero(k - log);
  }

  lemma OnlyZero(n: nat)
    ensures Pow2(n) == 1 <==> n == 0
  {
    if n > 0 {
      Pow2Grows(1, n);
    }
  }

  /** A full block does not fit; neither, when that is the complaint, does a single item. */
  predicate TooLarge(rules: seq<Rule>, align: nat, hashes: nat, e: PackError) {
    !Fits(rules, hashes, align) && (e == BlockTooLarge || (e == ItemTooLarge && !Fits(rules, hashes, 1)))
  }

  method PackAligned(rules: seq<Rule>, align: nat, items: seq<Payout>) returns (r: Result<(seq<Batch>, nat, nat), PackError>)
    requires items != [] && exists k :: IsPower(align, k)
    ensures r.Ok? ==> var (batches, levels, hashes) := r.value;
      Aligned(align, items, batches) && Recorded(rules, hashes, batches) && Wide(align, |items|, levels, hashes)
    ensures r.Ok? ==> Fits(rules, r.value.2, align) && Ceiling(align, |items|, |r.value.0|)
    ensures r.Err? ==> exists levels, hashes :: Wide(align, |items|, levels, hashes) && TooLarge(rules, align, hashes, r.error)
  {
    ghost var block: nat :| IsPower(align, block);
    var levels, hashes := WidthOf(align, |items|);
    for j := 0 to |rules|
      invariant forall k :: 0 <= k < j ==> FitsRule(rules[k], hashes, align)
    {
      var overhead := rules[j].base + hashes * rules[j].perLevel;
      if overhead + rules[j].item > rules[j].cap {
        AtLeast(align, rules[j].item);
        assert !FitsRule(rules[j], hashes, align) && !FitsRule(rules[j], hashes, 1);
        assert TooLarge(rules, align, hashes, ItemTooLarge);
        return Err(ItemTooLarge);
      }
      if overhead + align * rules[j].item > rules[j].cap {
        assert !FitsRule(rules[j], hashes, align);
        assert TooLarge(rules, align, hashes, BlockTooLarge);
        return Err(BlockTooLarge);
      }
    }
    var batches := CutBlocks(rules, align, hashes, items);
    return Ok((batches, levels, hashes));
  }

  /** ceil(n / align), said without dividing. */
  predicate Ceiling(align: nat, n: nat, count: nat) {
    count > 0 && (count - 1) * align < n <= count * align
  }

  lemma FewerFit(rules: seq<Rule>, levels: nat, k: nat, n: nat)
    requires Fits(rules, levels, n) && k <= n
    ensures Fits(rules, levels, k)
  {
    forall j | 0 <= j < |rules| ensures FitsRule(rules[j], levels, k) {
      assert FitsRule(rules[j], levels, n);
      NoMore(k, n, rules[j].item);
    }
  }

  lemma {:induction false} NoMore(k: nat, n: nat, item: nat)
    requires k <= n
    ensures k * item <= n * item
    decreases n
  {
    if k < n {
      NoMore(k, n - 1, item);
      OneMore(n - 1, item);
    }
  }

  method CutBlocks(rules: seq<Rule>, align: nat, hashes: nat, items: seq<Payout>) returns (batches: seq<Batch>)
    requires items != [] && align > 0 && Fits(rules, hashes, align)
    ensures Aligned(align, items, batches) && Recorded(rules, hashes, batches) && Ceiling(align, |items|, |batches|)
  {
    hide Items, Fits;
    NothingYet();
    batches := [];
    var start := 0;
    while start < |items|
      invariant start == |batches| * align && (batches == [] ==> start == 0)
      invariant start <= |items| ==> Items(batches) == items[..start]
      invariant start > |items| ==> Items(batches) == items
      invariant start > 0 ==> start - align < |items|
      invariant forall i :: 0 <= i < |batches| ==> BlockAt(align, items, batches[i], i)
      invariant Recorded(rules, hashes, batches)
      decreases |items| - start
    {
      var end := start + align;
      if end > |items| {
        end := |items|;
      }
      var part := items[start..end];
      var used := UsedBy(rules, hashes, |part|);
      FewerFit(rules, hashes, |part|, align);
      var b := Batch(|batches| + 1, part, used);
      BlockIsRecorded(rules, hashes, b, |batches|);
      assert BlockAt(align, items, b, |batches|);
      ItemsAppend(batches, b);
      assert items[..start] + part == items[..end];
      OneMore(|batches|, align);
      batches := batches + [b];
      start := start + align;
      assert items[..|items|] == items;
    }
    OneMore(|batches| - 1, align);
    assert items[..|items|] == items;
  }

  lemma BlockIsRecorded(rules: seq<Rule>, hashes: nat, b: Batch, i: nat)
    requires Fits(rules, hashes, |b.items|) && b.items != [] && b.index == i + 1 && |b.used| == |rules|
    requires forall j :: 0 <= j < |rules| ==> b.used[j] == Usage(rules[j].base + hashes * rules[j].perLevel + |b.items| * rules[j].item, rules[j].cap)
    ensures RecordedAt(rules, hashes, b, i)
  {
    forall j | 0 <= j < |rules| ensures b.used[j].used <= b.used[j].cap {
      assert FitsRule(rules[j], hashes, |b.items|);
    }
  }

  method UsedBy(rules: seq<Rule>, hashes: nat, n: nat) returns (used: seq<Usage>)
    ensures |used| == |rules|
    ensures forall j :: 0 <= j < |rules| ==> used[j] == Usage(rules[j].base + hashes * rules[j].perLevel + n * rules[j].item, rules[j].cap)
  {
    used := [];
    for j := 0 to |rules|
      invariant |used| == j
      invariant forall k :: 0 <= k < j ==> used[k] == Usage(rules[k].base + hashes * rules[k].perLevel + n * rules[k].item, rules[k].cap)
    {
      used := used + [Usage(rules[j].base + hashes * rules[j].perLevel + n * rules[j].item, rules[j].cap)];
    }
  }

  // ---- the whole plan ----

  /** Those that need an account opened first. */
  function NeedAccount(items: seq<Payout>): seq<Payout> {
    if items == [] then []
    else
      var before, last := NeedAccount(items[..|items| - 1]), items[|items| - 1];
      if last.newTokenAccount then before + [last] else before
  }

  method ListCreations(items: seq<Payout>) returns (c: seq<Payout>)
    ensures c == NeedAccount(items)
  {
    c := [];
    for i := 0 to |items|
      invariant c == NeedAccount(items[..i])
    {
      assert items[..i + 1][..i] == items[..i];
      if items[i].newTokenAccount {
        c := c + [items[i]];
      }
    }
    assert items[..|items|] == items;
  }

  /** Exactly the payouts that need a new token account, as often as they occur; and cutting the list short
      cuts this one short, so they stand in list order. */
  lemma {:induction false} NeedAccountSays(items: seq<Payout>, k: nat)
    requires k <= |items|
    ensures forall x :: multiset(NeedAccount(items))[x] == if x.newTokenAccount then multiset(items)[x] else 0
    ensures NeedAccount(items[..k]) <= NeedAccount(items)
  {
    if items != [] {
      var front, last := items[..|items| - 1], items[|items| - 1];
      assert items == front + [last];
      NeedAccountSays(front, if k < |items| then k else 0);
      assert k < |items| ==> front[..k] == items[..k];
      assert k == |items| ==> items[..k] == items;
    }
  }

  /** The rent is paid for every account opened, and accounts are opened, in list order, before
      anything is paid. */
  ghost predicate Prepared(l: Limits, items: seq<Payout>, p: Plan) {
    && p.newAccounts == |NeedAccount(items)| && p.rent == p.newAccounts * l.newAccountRent
    && if l.prepareRules == [] || NeedAccount(items) == [] then p.prepare == []
       else Greedy(l.prepareRules, NeedAccount(items), p.prepare)
  }

  ghost predicate IsPlan(l: Limits, items: seq<Payout>, p: Plan) {
    && p.payouts == |items| && Items(p.batches) == items && Recorded(l.rules, p.proofHashes, p.batches)
    && Prepared(l, items, p)
    && if l.align == 0 then Full(l.rules, p.batches) && p.levels == 0 && p.proofHashes == 0
       else && Aligned(l.align, items, p.batches) && Wide(l.align, |items|, p.levels, p.proofHashes) && Ceiling(l.align, |items|, |p.batches|)
            && Fits(l.rules, p.proofHashes, l.align)
  }

  /** The payments can be cut: one fits a transaction, or a whole block with its proof does. */
  ghost predicate Cuttable(l: Limits, n: nat) {
    if l.align == 0 then Fits(l.rules, 0, 1)
    else exists levels, hashes :: Wide(l.align, n, levels, hashes) && Fits(l.rules, hashes, l.align)
  }

  /** The accounts to open can be cut. */
  predicate Preparable(l: Limits, items: seq<Payout>) {
    l.prepareRules == [] || NeedAccount(items) == [] || Fits(l.prepareRules, 0, 1)
  }

  /** Why the payments cannot be cut. */
  ghost predicate Uncut(l: Limits, n: nat, e: PackError) {
    if l.align == 0 then e == ItemTooLarge && !Fits(l.rules, 0, 1)
    else exists levels, hashes :: Wide(l.align, n, levels, hashes) && TooLarge(l.rules, l.align, hashes, e)
  }

  lemma {:induction false} PowersDiffer(a: nat, b: nat)
    requires a < b
    ensures 2 * Pow2(a) <= Pow2(b)
    decreases b
  {
    if a < b - 1 {
      PowersDiffer(a, b - 1);
    }
  }

  /** A list has one width. */
  lemma OneWidth(align: nat, n: nat, levels: nat, hashes: nat, levels2: nat, hashes2: nat)
    requires Wide(align, n, levels, hashes) && Wide(align, n, levels2, hashes2)
    ensures levels == levels2 && hashes == hashes2
  {
    var block: nat :| IsPower(align, block) && levels == block + hashes;
    var block2: nat :| IsPower(align, block2) && levels2 == block2 + hashes2;
    if block < block2 {
      PowersDiffer(block, block2);
    } else if block2 < block {
      PowersDiffer(block2, block);
    }
    NoNarrower(n, levels, hashes, levels2, hashes2);
    NoNarrower(n, levels2, hashes2, levels, hashes);
  }

  lemma NoNarrower(n: nat, levels: nat, hashes: nat, levels2: nat, hashes2: nat)
    requires levels - hashes == levels2 - hashes2 && n <= Pow2(levels)
    requires hashes2 <= levels2 && (hashes2 > 0 ==> Pow2(levels2 - 1) < n)
    ensures levels >= levels2
  {
    if levels < levels2 - 1 {
      PowersDiffer(levels, levels2 - 1);
    }
  }

  lemma UncutIsNotCuttable(l: Limits, n: nat, e: PackError)
    requires Uncut(l, n, e)
    ensures !Cuttable(l, n)
  {
    if l.align > 0 && Cuttable(l, n) {
      var levels, hashes :| Wide(l.align, n, levels, hashes) && TooLarge(l.rules, l.align, hashes, e);
      var levels2, hashes2 :| Wide(l.align, n, levels2, hashes2) && Fits(l.rules, hashes2, l.align);
      OneWidth(l.align, n, levels, hashes, levels2, hashes2);
    }
  }

  /** An alignment, where there is one, is a power of two. */
  method Pack(items: seq<Payout>, l: Limits) returns (r: Result<Plan, PackError>)
    requires l.align > 0 ==> exists k :: IsPower(l.align, k)
    ensures items == [] ==> r == Err(NoPayouts)
    ensures items != [] && l.rules == [] ==> r == Err(NoRules)
    ensures r.Ok? ==> IsPlan(l, items, r.value)
    ensures items != [] && l.rules != [] ==> (r.Ok? <==> Cuttable(l, |items|) && Preparable(l, items))
    ensures items != [] && l.rules != [] && r.Err? ==> Uncut(l, |items|, r.error) || (r.error == ItemTooLarge && !Preparable(l, items))
  {
    hide Wide, Fits, Recorded, Aligned, Full, TooLarge;
    if |items| == 0 {
      return Err(NoPayouts);
    }
    if |l.rules| == 0 {
      return Err(NoRules);
    }
    var plan := Plan(|items|, [], [], 0, 0, 0, 0);
    if l.align == 0 {
      var cut := PackGreedy(l.rules, items);
      if cut.Err? {
        UncutIsNotCuttable(l, |items|, cut.error);
        return Err(cut.error);
      }
      plan := plan.(batches := cut.value);
    } else {
      var cut := PackAligned(l.rules, l.align, items);
      if cut.Err? {
        UncutIsNotCuttable(l, |items|, cut.error);
        return Err(cut.error);
      }
      plan := plan.(batches := cut.value.0, levels := cut.value.1, proofHashes := cut.value.2);
    }
    var creations := ListCreations(items);
    plan := plan.(newAccounts := |creations|);
    if |l.prepareRules| > 0 && |creations| > 0 {
      var prepare := PackGreedy(l.prepareRules, creations);
      if prepare.Err? {
        return Err(prepare.error);
      }
      plan := plan.(prepare := prepare.value);
    }
    return Ok(plan.(rent := plan.newAccounts * l.newAccountRent));
  }

  // ---- how many, and no fewer ----

  /** The rules that count items at all. */
  function Counting(rules: seq<Rule>): (c: seq<Rule>)
    ensures forall r :: r in c <==> r in rules && r.item > 0
  {
    if rules == [] then [] else (if rules[0].item > 0 then [rules[0]] else []) + Counting(rules[1..])
  }

  /** m items fit these rules and one more does not. */
  predicate Most(rules: seq<Rule>, m: nat) {
    Fits(rules, 0, m) && !Fits(rules, 0, m + 1)
  }

  /** How many items one counting rule allows. */
  function Allowed(r: Rule): nat
    requires r.item > 0
  {
    if r.cap < r.base then 0 else (r.cap - r.base) / r.item
  }

  /** What the tightest of them allows. */
  function Tightest(c: seq<Rule>): nat
    requires c != [] && forall r :: r in c ==> r.item > 0
  {
    assert c[0] in c;
    if |c| == 1 then Allowed(c[0])
    else
      assert forall r :: r in c[1..] ==> r in c;
      var rest := Tightest(c[1..]);
      if Allowed(c[0]) < rest then Allowed(c[0]) else rest
  }

  /** The number given out as the most one batch holds, with no proof counted in. */
  function MaxItemsOf(l: Limits): nat {
    if Counting(l.rules) == [] then 0
    else
      var m := Tightest(Counting(l.rules));
      if l.align > 0 && m > l.align then l.align else m
  }

  /** What the tightest rule allows fits them all, and no more does. */
  lemma {:induction false} TightestIsMost(c: seq<Rule>)
    requires c != [] && forall r :: r in c ==> r.item > 0
    ensures if Fits(c, 0, 0) then Most(c, Tightest(c)) else Tightest(c) == 0
  {
    assert c[0] in c;
    var m := Tightest(c);
    if c[0].cap >= c[0].base {
      MostFit(c[0], Allowed(c[0]));
    }
    if |c| > 1 {
      assert forall r :: r in c[1..] ==> r in c;
      TightestIsMost(c[1..]);
      FitsBoth(c, 0);
      if Fits(c, 0, 0) {
        if Allowed(c[0]) < Tightest(c[1..]) {
          FewerFit(c[1..], 0, m, Tightest(c[1..]));
        } else {
          NoMore(m, Allowed(c[0]), c[0].item);
        }
        FitsBoth(c, m);
        FitsBoth(c, m + 1);
      }
    }
  }

  lemma FitsBoth(c: seq<Rule>, k: nat)
    requires |c| > 0
    ensures Fits(c, 0, k) <==> FitsRule(c[0], 0, k) && Fits(c[1..], 0, k)
  {
    if FitsRule(c[0], 0, k) && Fits(c[1..], 0, k) {
      forall j | 0 <= j < |c| ensures FitsRule(c[j], 0, k) {
        if j > 0 {
          assert FitsRule(c[1..][j - 1], 0, k);
        }
      }
    }
  }

  lemma OneMost(rules: seq<Rule>, m: nat, n: nat)
    requires Most(rules, m) && Most(rules, n)
    ensures m == n
  {
    SmallerThanFull(rules, m, n);
    SmallerThanFull(rules, n, m);
  }

  lemma CountingFits(rules: seq<Rule>, k: nat)
    ensures Fits(Counting(rules), 0, k) <==> forall j :: 0 <= j < |rules| && rules[j].item > 0 ==> FitsRule(rules[j], 0, k)
  {
    var c := Counting(rules);
    if Fits(c, 0, k) {
      forall j | 0 <= j < |rules| && rules[j].item > 0 ensures FitsRule(rules[j], 0, k) {
        assert rules[j] in c;
      }
    } else {
      var i :| 0 <= i < |c| && !FitsRule(c[i], 0, k);
      assert c[i] in c;
    }
  }

  /** The most items the counting rules hold; 0 when none counts, and never above a block. */
  method MaxItems(l: Limits) returns (best: nat)
    ensures best == MaxItemsOf(l)
    ensures Counting(l.rules) == [] ==> best == 0
    ensures Counting(l.rules) != [] && !Fits(Counting(l.rules), 0, 0) ==> best == 0
    ensures Counting(l.rules) != [] && Fits(Counting(l.rules), 0, 0) && l.align == 0 ==> Most(Counting(l.rules), best)
    ensures Counting(l.rules) != [] && Fits(Counting(l.rules), 0, 0) && l.align > 0 ==>
      exists m: nat :: Most(Counting(l.rules), m) && best == if m > l.align then l.align else m
  {
    var found := LeastOf(l.rules);
    CountingFits(l.rules, 0);
    if Counting(l.rules) != [] {
      TightestIsMost(Counting(l.rules));
    }
    if found == -2 {
      SomeCounts(l.rules);
      return 0;
    }
    if found == -1 {
      NoneCounts(l.rules);
      return 0;
    }
    CountingFits(l.rules, found);
    CountingFits(l.rules, found + 1);
    SomeCounts(l.rules);
    OneMost(Counting(l.rules), found, Tightest(Counting(l.rules)));
    assert Most(Counting(l.rules), found);
    if l.align > 0 && found > l.align {
      return l.align;
    }
    return found;
  }

  lemma SomeCounts(rules: seq<Rule>)
    requires exists j :: 0 <= j < |rules| && rules[j].item > 0
    ensures Counting(rules) != []
  {
    var j :| 0 <= j < |rules| && rules[j].item > 0;
    assert rules[j] in Counting(rules);
  }

  lemma NoneCounts(rules: seq<Rule>)
    ensures (forall j :: 0 <= j < |rules| ==> rules[j].item == 0) ==> Counting(rules) == []
  {
    if Counting(rules) != [] {
      assert Counting(rules)[0] in Counting(rules);
    }
  }

  /** The least of what each counting rule allows: -1 when none counts, -2 when one of them has
      no room to start with. */
  method LeastOf(rules: seq<Rule>) returns (found: int)
    ensures found >= -2
    ensures found == -2 ==> exists j :: 0 <= j < |rules| && rules[j].item > 0 && !FitsRule(rules[j], 0, 0)
    ensures found == -1 ==> forall j :: 0 <= j < |rules| ==> rules[j].item == 0
    ensures found >= 0 ==> forall j :: 0 <= j < |rules| && rules[j].item > 0 ==> FitsRule(rules[j], 0, found) && FitsRule(rules[j], 0, 0)
    ensures found >= 0 ==> exists j :: 0 <= j < |rules| && rules[j].item > 0 && !FitsRule(rules[j], 0, found + 1)
  {
    found := -1;
    for j := 0 to |rules|
      invariant -1 <= found
      invariant found < 0 ==> forall k :: 0 <= k < j ==> rules[k].item == 0
      invariant found >= 0 ==> forall k :: 0 <= k < j && rules[k].item > 0 ==> FitsRule(rules[k], 0, found) && FitsRule(rules[k], 0, 0)
      invariant found >= 0 ==> exists k :: 0 <= k < j && rules[k].item > 0 && !FitsRule(rules[k], 0, found + 1)
    {
      var r := rules[j];
      if r.item == 0 {
        continue;
      }
      if r.cap < r.base {
        assert !FitsRule(rules[j], 0, 0);
        return -2;
      }
      var n := (r.cap - r.base) / r.item;
      MostFit(r, n);
      if found < 0 || n < found {
        LessFits(rules, j, n, found);
        found := n;
      } else {
        NoMore(found, n, r.item);
      }
    }
  }

  lemma LessFits(rules: seq<Rule>, j: nat, n: nat, found: int)
    requires j <= |rules| && (found >= 0 ==> n < found)
    requires found < 0 ==> forall k :: 0 <= k < j ==> rules[k].item == 0
    requires found >= 0 ==> forall k :: 0 <= k < j && rules[k].item > 0 ==> FitsRule(rules[k], 0, found)
    ensures forall k :: 0 <= k < j && rules[k].item > 0 ==> FitsRule(rules[k], 0, n)
  {
    forall k | 0 <= k < j && rules[k].item > 0 ensures FitsRule(rules[k], 0, n) {
      NoMore(n, found, rules[k].item);
    }
  }

  lemma MostFit(r: Rule, n: nat)
    requires r.item > 0 && r.base <= r.cap && n == (r.cap - r.base) / r.item
    ensures FitsRule(r, 0, n) && !FitsRule(r, 0, n + 1)
  {
    assert r.cap - r.base == n * r.item + (r.cap - r.base) % r.item;
    OneMore(n, r.item);
  }

  /** The sizes add up. */
  lemma {:induction false} FirstSizes(batches: seq<Batch>, k: nat)
    requires k < |batches|
    ensures |Items(batches[..k + 1])| == |Items(batches[..k])| + |batches[k].items|
  {
    assert batches[..k + 1][..k] == batches[..k];
  }

  lemma SmallerThanFull(rules: seq<Rule>, part: nat, full: nat)
    requires Fits(rules, 0, part) && !Fits(rules, 0, full + 1)
    ensures part <= full
  {
    if part > full {
      FewerFit(rules, 0, full + 1, part);
    }
  }

  /** A split of the list into parts, in order. */
  function Concatenated(parts: seq<seq<Payout>>): seq<Payout> {
    if parts == [] then [] else Concatenated(parts[..|parts| - 1]) + parts[|parts| - 1]
  }

  lemma {:induction false} SplitFallsBehind(rules: seq<Rule>, batches: seq<Batch>, parts: seq<seq<Payout>>, k: nat)
    requires k <= |parts| && k < |batches| && Full(rules, batches)
    requires forall i :: 0 <= i < |parts| ==> Fits(rules, 0, |parts[i]|)
    ensures |Concatenated(parts[..k])| <= |Items(batches[..k])|
  {
    if k > 0 {
      SplitFallsBehind(rules, batches, parts, k - 1);
      assert parts[..k][..k - 1] == parts[..k - 1];
      FirstSizes(batches, k - 1);
      SmallerThanFull(rules, |parts[k - 1]|, |batches[k - 1].items|);
    }
  }

  /** No split of the list that keeps its order and fits the rules has fewer parts. */
  lemma FewestBatches(rules: seq<Rule>, items: seq<Payout>, batches: seq<Batch>, parts: seq<seq<Payout>>)
    requires Greedy(rules, items, batches) && Concatenated(parts) == items
    requires forall i :: 0 <= i < |parts| ==> Fits(rules, 0, |parts[i]|)
    ensures |batches| <= |parts|
  {
    assert parts[..|parts|] == parts && batches[..|batches|] == batches;
    if |parts| < |batches| {
      SplitFallsBehind(rules, batches, parts, |parts|);
      RecordedFits(rules, batches, |parts|);
      FirstSizes(batches, |parts|);
      LongerPrefix(batches, |parts| + 1, |batches|);
    }
  }

  lemma {:induction false} LongerPrefix(batches: seq<Batch>, k: nat, n: nat)
    requires k <= n <= |batches|
    ensures |Items(batches[..k])| <= |Items(batches[..n])|
    decreases n
  {
    if k < n {
      LongerPrefix(batches, k, n - 1);
      FirstSizes(batches, n - 1);
    }
  }

  lemma {:induction false} FullSizes(rules: seq<Rule>, batches: seq<Batch>, m: nat, k: nat)
    requires Most(rules, m) && Full(rules, batches) && Recorded(rules, 0, batches) && k < |batches|
    ensures |Items(batches[..k])| == k * m
  {
    hide *;
    if k > 0 {
      FullSizes(rules, batches, m, k - 1);
      FirstSizes(batches, k - 1);
      FullSize(rules, batches, m, k - 1);
      OneMore(k - 1, m);
    } else {
      NoItems(batches);
    }
  }

  lemma NoItems(batches: seq<Batch>)
    ensures Items(batches[..0]) == []
  {
  }

  lemma FullSize(rules: seq<Rule>, batches: seq<Batch>, m: nat, k: nat)
    requires Most(rules, m) && Full(rules, batches) && Recorded(rules, 0, batches) && k + 1 < |batches|
    ensures |batches[k].items| == m
  {
    hide Fits;
    RecordedFits(rules, batches, k);
    SmallerThanFull(rules, |batches[k].items|, m);
    SmallerThanFull(rules, m, |batches[k].items|);
  }

  lemma RecordedFits(rules: seq<Rule>, batches: seq<Batch>, k: nat)
    requires Recorded(rules, 0, batches) && k < |batches|
    ensures Fits(rules, 0, |batches[k].items|) && batches[k].items != []
  {
    assert RecordedAt(rules, 0, batches[k], k);
  }

  /** The greedy cut makes ceil(n / m) batches, m being the most items a transaction holds. */
  lemma GreedyCount(rules: seq<Rule>, items: seq<Payout>, batches: seq<Batch>, m: nat)
    requires Greedy(rules, items, batches) && Most(rules, m) && batches != []
    ensures Ceiling(m, |items|, |batches|)
  {
    var last := |batches| - 1;
    FullSizes(rules, batches, m, last);
    FirstSizes(batches, last);
    assert batches[..|batches|] == batches;
    RecordedFits(rules, batches, last);
    SmallerThanFull(rules, |batches[last].items|, m);
    OneMore(last, m);
  }

  // ---- when MaxItems is the bound it is given out as ----

  lemma LessOverhead(rules: seq<Rule>, hashes: nat, k: nat)
    requires Fits(rules, hashes, k)
    ensures Fits(rules, 0, k)
  {
    forall j | 0 <= j < |rules| ensures FitsRule(rules[j], 0, k) {
      assert FitsRule(rules[j], hashes, k);
    }
  }

  /** Rules that count nothing have room for any number or for none. */
  lemma UncountedFit(r: Rule, k: nat, m: nat)
    requires r.item == 0 && FitsRule(r, 0, k)
    ensures FitsRule(r, 0, m)
  {
  }

  lemma CountingIsEnough(rules: seq<Rule>, k: nat, m: nat)
    requires Most(Counting(rules), m) && Fits(rules, 0, k)
    ensures Most(rules, m)
  {
    CountingFits(rules, m);
    CountingFits(rules, m + 1);
    hide Counting, FitsRule;
    forall j | 0 <= j < |rules| ensures FitsRule(rules[j], 0, m) {
      if rules[j].item == 0 {
        UncountedFit(rules[j], k, m);
      }
    }
  }

  /** What fits every rule is at most what the tightest allows; and, of rules that have room for
      something, the tightest decides for all. */
  lemma CountingDecides(rules: seq<Rule>, k: nat)
    requires Counting(rules) != [] && Fits(rules, 0, k)
    ensures k <= Tightest(Counting(rules)) && Most(rules, Tightest(Counting(rules)))
  {
    hide Tightest, FitsRule, Counting;
    var c := Counting(rules);
    CountingFits(rules, k);
    FewerFit(c, 0, 0, k);
    TightestIsMost(c);
    SmallerThanFull(c, k, Tightest(c));
    CountingIsEnough(rules, k, Tightest(c));
  }

  lemma RecordedBatchFits(rules: seq<Rule>, hashes: nat, b: Batch, i: nat)
    requires RecordedAt(rules, hashes, b, i)
    ensures Fits(rules, hashes, |b.items|) && b.items != []
  {
    forall j | 0 <= j < |rules| ensures FitsRule(rules[j], hashes, |b.items|) {
      assert b.used[j].used <= b.used[j].cap;
    }
  }

  /** A batch of a plan fits, and an aligned one is no longer than its block. */
  lemma PlannedBatchFits(l: Limits, items: seq<Payout>, p: Plan, i: nat)
    requires IsPlan(l, items, p) && i < |p.batches|
    ensures Fits(l.rules, 0, |p.batches[i].items|) && p.batches[i].items != []
    ensures l.align > 0 ==> |p.batches[i].items| <= l.align
  {
    hide Items, Wide, Prepared, Ceiling, Full, RecordedAt, Fits, Pow2;
    var b := p.batches[i];
    assert RecordedAt(l.rules, p.proofHashes, b, i);
    RecordedBatchFits(l.rules, p.proofHashes, b, i);
    LessOverhead(l.rules, p.proofHashes, |b.items|);
    if l.align > 0 {
      assert BlockAt(l.align, items, b, i);
    }
  }

  ghost predicate NoneAbove(p: Plan, m: nat) {
    forall i :: 0 <= i < |p.batches| ==> |p.batches[i].items| <= m
  }

  lemma SomeBatch(l: Limits, items: seq<Payout>, p: Plan)
    requires IsPlan(l, items, p) && items != []
    ensures p.batches != []
  {
  }

  /** Of every plan, in either mode: no batch holds more than MaxItems says, and there are ceil(n / MaxItems)
      of them, exactly when some rule counts items. */
  lemma MaxItemsBounds(l: Limits, items: seq<Payout>, p: Plan)
    requires IsPlan(l, items, p) && items != []
    ensures NoneAbove(p, MaxItemsOf(l)) <==> Counting(l.rules) != []
    ensures Ceiling(MaxItemsOf(l), |items|, |p.batches|) <==> Counting(l.rules) != []
  {
    SomeBatch(l, items, p);
    PlannedBatchFits(l, items, p, 0);
    if Counting(l.rules) != [] {
      forall i | 0 <= i < |p.batches| ensures |p.batches[i].items| <= MaxItemsOf(l) {
        PlannedBatchFits(l, items, p, i);
        CountingDecides(l.rules, |p.batches[i].items|);
      }
      CountingDecides(l.rules, |p.batches[0].items|);
      if l.align == 0 {
        GreedyCount(l.rules, items, p.batches, MaxItemsOf(l));
      } else {
        LessOverhead(l.rules, p.proofHashes, l.align);
        CountingDecides(l.rules, l.align);
      }
    }
  }

  /** One rule that counts nothing and one payment: one batch of one, where MaxItems says 0. */
  lemma UncountedPlan(item: Payout)
    requires !item.newTokenAccount
    ensures var l, p := Limits([Rule(10, 5, 0, 0)], 0, [], 0), Plan(1, [Batch(1, [item], [Usage(5, 10)])], [], 0, 0, 0, 0);
      IsPlan(l, [item], p) && |p.batches[0].items| == 1 && MaxItemsOf(l) == 0
  {
    var l, b := Limits([Rule(10, 5, 0, 0)], 0, [], 0), Batch(1, [item], [Usage(5, 10)]);
    assert [b][..0] == [] && Items([b]) == Items([]) + b.items;
    assert [item][..0] == [] && NeedAccount([item]) == [];
    assert RecordedAt(l.rules, 0, b, 0);
    NoneCounts(l.rules);
  }
}
