/** The balances projected from a journal: what is held, what is posted, and that
    neither creates nor destroys money. */
module Balances {
  import opened Bytes
  import opened Ledger
  import opened Journal

  datatype Key = Key(account: Str, asset: Asset)

  datatype Balance = Balance(pending: int, posted: int)

  /** What the legs move on one account. */
  function LegSum(legs: seq<Leg>, account: Str): int {
    if legs == [] then 0
    else LegSum(legs[..|legs| - 1], account)
         + (if legs[|legs| - 1].account == account then legs[|legs| - 1].amount else 0)
  }

  function Moves(e: Entry, k: Key): int {
    if e.asset == k.asset then LegSum(e.legs, k.account) else 0
  }

  // ---- the specification: a hold counts as pending until some row resolves it ----

  ghost predicate OpenAfter(j: seq<Row>, n: nat, i: nat)
    requires i < |j| && n <= |j|
  {
    j[i].entry.kind == Hold && forall r :: 0 <= r < n ==> !Resolves(j[r], j[i].entry.id)
  }

  /** The legs, on one account, of those of the first m rows that are holds and that none
      of the first n rows resolves. */
  ghost function OpenSum(j: seq<Row>, n: nat, m: nat, k: Key): int
    requires n <= |j| && m <= |j|
  {
    if m == 0 then 0
    else OpenSum(j, n, m - 1, k) + (if OpenAfter(j, n, m - 1) then Moves(j[m - 1].entry, k) else 0)
  }

  /** The legs, on one account, of the posts among the first n rows. */
  ghost function PostSum(j: seq<Row>, n: nat, k: Key): int
    requires n <= |j|
  {
    if n == 0 then 0
    else PostSum(j, n - 1, k) + (if j[n - 1].entry.kind == Post then Moves(j[n - 1].entry, k) else 0)
  }

  /** Holds that were there before row n keep their status when row n is not theirs;
      the one that row n resolves leaves the sum. */
  lemma {:induction false} OneMoreRow(j: seq<Row>, n: nat, m: nat, k: Key, p: int)
    requires n < |j| && m <= n && UniqueIds(j) && ResolvedOnce(j)
    requires 0 <= p ==> p < n && HoldsRow(j, n, p)
    requires (0 <= p) <==> j[n].entry.kind != Hold
    ensures OpenSum(j, n + 1, m, k) == OpenSum(j, n, m, k) - (if 0 <= p < m then Moves(j[p].entry, k) else 0)
  {
    if m > 0 {
      OneMoreRow(j, n, m - 1, k, p);
      if m - 1 == p {
        assert Resolves(j[n], j[p].entry.id);
        assert forall r :: 0 <= r < n && j[r].entry.kind != Hold ==> !Resolves(j[n], j[r].entry.holds);
      } else {
        assert !Resolves(j[n], j[m - 1].entry.id);
      }
    }
  }

  /** A hold is open when it is written: nothing earlier can point at it. */
  lemma FreshHoldIsOpen(j: seq<Row>, n: nat)
    requires n < |j| && UniqueIds(j) && BehindHold(j) && j[n].entry.kind == Hold
    ensures OpenAfter(j, n + 1, n)
  {
    forall r | 0 <= r <= n && j[r].entry.kind != Hold
      ensures j[r].entry.holds != j[n].entry.id
    {
      var k :| 0 <= k < r && HoldsRow(j, r, k);
    }
  }

  // ---- the fold ----

  function Get(out: map<Key, Balance>, k: Key): Balance {
    if k in out then out[k] else Balance(0, 0)
  }

  ghost predicate OnLeg(legs: seq<Leg>, account: Str) {
    exists i :: 0 <= i < |legs| && legs[i].account == account
  }

  method AddPending(out: map<Key, Balance>, legs: seq<Leg>, asset: Asset) returns (r: map<Key, Balance>)
    ensures forall k :: Get(r, k).posted == Get(out, k).posted
    ensures forall k :: Get(r, k).pending == Get(out, k).pending + (if asset == k.asset then LegSum(legs, k.account) else 0)
    ensures forall k :: k in r <==> k in out || (k.asset == asset && OnLeg(legs, k.account))
  {
    r := out;
    for i := 0 to |legs|
      invariant forall k :: Get(r, k).posted == Get(out, k).posted
      invariant forall k :: Get(r, k).pending
                            == Get(out, k).pending + (if asset == k.asset then LegSum(legs[..i], k.account) else 0)
      invariant forall k :: k in r <==> k in out || (k.asset == asset && OnLeg(legs[..i], k.account))
    {
      var key := Key(legs[i].account, asset);
      r := r[key := Balance(Get(r, key).pending + legs[i].amount, Get(r, key).posted)];
      OneMoreLeg(legs, i);
    }
    assert legs[..|legs|] == legs;
  }

  method SubPending(out: map<Key, Balance>, legs: seq<Leg>, asset: Asset) returns (r: map<Key, Balance>)
    ensures forall k :: Get(r, k).posted == Get(out, k).posted
    ensures forall k :: Get(r, k).pending == Get(out, k).pending - (if asset == k.asset then LegSum(legs, k.account) else 0)
    ensures forall k :: k in r <==> k in out || (k.asset == asset && OnLeg(legs, k.account))
  {
    r := out;
    for i := 0 to |legs|
      invariant forall k :: Get(r, k).posted == Get(out, k).posted
      invariant forall k :: Get(r, k).pending
                            == Get(out, k).pending - (if asset == k.asset then LegSum(legs[..i], k.account) else 0)
      invariant forall k :: k in r <==> k in out || (k.asset == asset && OnLeg(legs[..i], k.account))
    {
      var key := Key(legs[i].account, asset);
      r := r[key := Balance(Get(r, key).pending - legs[i].amount, Get(r, key).posted)];
      OneMoreLeg(legs, i);
    }
    assert legs[..|legs|] == legs;
  }

  method AddPosted(out: map<Key, Balance>, legs: seq<Leg>, asset: Asset) returns (r: map<Key, Balance>)
    ensures forall k :: Get(r, k).pending == Get(out, k).pending
    ensures forall k :: Get(r, k).posted == Get(out, k).posted + (if asset == k.asset then LegSum(legs, k.account) else 0)
    ensures forall k :: k in r <==> k in out || (k.asset == asset && OnLeg(legs, k.account))
  {
    r := out;
    for i := 0 to |legs|
      invariant forall k :: Get(r, k).pending == Get(out, k).pending
      invariant forall k :: Get(r, k).posted
                            == Get(out, k).posted + (if asset == k.asset then LegSum(legs[..i], k.account) else 0)
      invariant forall k :: k in r <==> k in out || (k.asset == asset && OnLeg(legs[..i], k.account))
    {
      var key := Key(legs[i].account, asset);
      r := r[key := Balance(Get(r, key).pending, Get(r, key).posted + legs[i].amount)];
      OneMoreLeg(legs, i);
    }
    assert legs[..|legs|] == legs;
  }

  lemma OneMoreLeg(legs: seq<Leg>, i: nat)
    requires i < |legs|
    ensures forall a :: LegSum(legs[..i + 1], a) == LegSum(legs[..i], a) + (if legs[i].account == a then legs[i].amount else 0)
    ensures forall a :: OnLeg(legs[..i + 1], a) <==> OnLeg(legs[..i], a) || a == legs[i].account
  {
    var x, y := legs[..i + 1], legs[..i];
    assert x[..|x| - 1] == y;
    forall a ensures OnLeg(x, a) <==> OnLeg(y, a) || a == legs[i].account {
      assert x[i] == legs[i];
      assert forall n :: 0 <= n < i ==> x[n] == y[n];
    }
  }

  ghost predicate Touched(j: seq<Row>, n: nat, k: Key)
    requires n <= |j|
  {
    exists i :: 0 <= i < n && j[i].entry.asset == k.asset && OnLeg(j[i].entry.legs, k.account)
  }

  lemma OneMoreTouched(j: seq<Row>, n: nat)
    requires n < |j|
    ensures forall k: Key :: Touched(j, n + 1, k) <==> Touched(j, n, k) || (j[n].entry.asset == k.asset && OnLeg(j[n].entry.legs, k.account))
  {
  }

  ghost predicate ProjectsAt(j: seq<Row>, n: nat, out: map<Key, Balance>, k: Key)
    requires n <= |j|
  {
    Get(out, k) == Balance(OpenSum(j, n, n, k), PostSum(j, n, k)) && (k in out <==> Touched(j, n, k))
  }

  /** out is the projection of the first n rows of j. */
  ghost predicate Projects(j: seq<Row>, n: nat, out: map<Key, Balance>)
    requires n <= |j|
  {
    forall k :: ProjectsAt(j, n, out, k)
  }

  lemma NothingProjected(j: seq<Row>)
    ensures Projects(j, 0, map[])
  {
  }

  lemma KindIsKnown(e: Entry)
    requires EntryError(e) == None
    ensures e.kind == Hold || e.kind == Post || (e.kind == Void && e.legs == [])
  {
  }

  lemma HoldMoves(j: seq<Row>, n: nat, out: map<Key, Balance>, r: map<Key, Balance>, k: Key)
    requires n < |j| && UniqueIds(j) && BehindHold(j) && ResolvedOnce(j)
    requires j[n].entry.kind == Hold && ProjectsAt(j, n, out, k)
    requires Get(r, k) == Balance(Get(out, k).pending + Moves(j[n].entry, k), Get(out, k).posted)
    requires k in r <==> k in out || (k.asset == j[n].entry.asset && OnLeg(j[n].entry.legs, k.account))
    ensures ProjectsAt(j, n + 1, r, k)
  {
    FreshHoldIsOpen(j, n);
    OneMoreRow(j, n, n, k, -1);
    OneMoreTouched(j, n);
  }

  lemma ResolverMoves(j: seq<Row>, n: nat, p: nat, out: map<Key, Balance>, r: map<Key, Balance>, k: Key)
    requires n < |j| && UniqueIds(j) && BehindHold(j) && ResolvedOnce(j)
    requires (j[n].entry.kind == Post || (j[n].entry.kind == Void && j[n].entry.legs == [])) && ProjectsAt(j, n, out, k)
    requires HoldsRow(j, n, p)
    requires Get(r, k) == Balance(Get(out, k).pending - Moves(j[p].entry, k), Get(out, k).posted + Moves(j[n].entry, k))
    requires k in r <==> || k in out
                         || (k.asset == j[p].entry.asset && OnLeg(j[p].entry.legs, k.account))
                         || (k.asset == j[n].entry.asset && OnLeg(j[n].entry.legs, k.account))
    ensures ProjectsAt(j, n + 1, r, k)
  {
    OneMoreRow(j, n, n, k, p);
    OneMoreTouched(j, n);
    assert k.asset == j[p].entry.asset && OnLeg(j[p].entry.legs, k.account) ==> Touched(j, n, k);
  }

  method ProjectHold(j: seq<Row>, n: nat, out: map<Key, Balance>) returns (r: map<Key, Balance>)
    requires n < |j| && UniqueIds(j) && BehindHold(j) && ResolvedOnce(j)
    requires j[n].entry.kind == Hold && Projects(j, n, out)
    ensures Projects(j, n + 1, r)
  {
    hide ProjectsAt;
    r := AddPending(out, j[n].entry.legs, j[n].entry.asset);
    ghost var m := n + 1;
    forall k ensures ProjectsAt(j, m, r, k) {
      HoldMoves(j, n, out, r, k);
    }
  }

  method ProjectResolver(j: seq<Row>, n: nat, out: map<Key, Balance>, hold: Entry, ghost p: nat) returns (r: map<Key, Balance>)
    requires n < |j| && UniqueIds(j) && BehindHold(j) && ResolvedOnce(j)
    requires j[n].entry.kind == Post || (j[n].entry.kind == Void && j[n].entry.legs == [])
    requires HoldsRow(j, n, p) && j[p].entry == hold
    requires Projects(j, n, out)
    ensures Projects(j, n + 1, r)
  {
    hide ProjectsAt, HoldsRow, BehindHold, UniqueIds, ResolvedOnce;
    var freed := SubPending(out, hold.legs, hold.asset);
    r := AddPosted(freed, j[n].entry.legs, j[n].entry.asset);
    ghost var m := n + 1;
    forall k ensures ProjectsAt(j, m, r, k) {
      ResolverMoves(j, n, p, out, r, k);
    }
  }

  /** Fold the rows into one balance per account and asset.  The result is the order-free
      sums above, it has an entry for exactly the accounts that some leg names, and the
      hold that a post or void releases is always there to be read. */
  method Project(j: seq<Row>) returns (out: map<Key, Balance>)
    requires AllValid(j) && UniqueIds(j) && BehindHold(j) && ResolvedOnce(j)
    ensures Projects(j, |j|, out)
  {
    hide EntryError, Projects, ResolvedOnce;
    NothingProjected(j);
    out := map[];
    var holds: map<Str, Entry> := map[];
    for i := 0 to |j|
      invariant Projects(j, i, out)
      invariant forall n :: 0 <= n < i && j[n].entry.kind == Hold ==> j[n].entry.id in holds && holds[j[n].entry.id] == j[n].entry
    {
      var e := j[i].entry;
      KindIsKnown(e);
      if e.kind == Hold {
        holds := holds[e.id := e];
        out := ProjectHold(j, i, out);
      } else if e.kind == Post || e.kind == Void {
        ghost var p :| 0 <= p < i && HoldsRow(j, i, p);
        out := ProjectResolver(j, i, out, holds[e.holds], p);
      }
    }
  }

  // ---- conservation ----

  ghost predicate Distinct(accounts: seq<Str>) {
    forall i, k :: 0 <= i < k < |accounts| ==> accounts[i] != accounts[k]
  }

  ghost function SumLegs(accounts: seq<Str>, legs: seq<Leg>): int {
    if accounts == [] then 0
    else SumLegs(accounts[..|accounts| - 1], legs) + LegSum(legs, accounts[|accounts| - 1])
  }

  lemma {:induction false} SumLegsStep(accounts: seq<Str>, legs: seq<Leg>)
    requires legs != [] && Distinct(accounts)
    ensures SumLegs(accounts, legs) == SumLegs(accounts, legs[..|legs| - 1])
            + (if legs[|legs| - 1].account in accounts then legs[|legs| - 1].amount else 0)
  {
    if accounts != [] {
      var front, a := accounts[..|accounts| - 1], accounts[|accounts| - 1];
      SumLegsStep(front, legs);
      var x := legs[|legs| - 1].account;
      assert x in accounts <==> x in front || x == a;
      assert x == a ==> x !in front;
    }
  }

  /** Over any list that names every account of the legs once, the legs sum to their total. */
  lemma {:induction false} SumLegsIsTotal(accounts: seq<Str>, legs: seq<Leg>)
    requires Distinct(accounts)
    requires forall i :: 0 <= i < |legs| ==> legs[i].account in accounts
    ensures SumLegs(accounts, legs) == Total(legs)
  {
    if legs == [] {
      SumNoLegs(accounts);
    } else {
      SumLegsStep(accounts, legs);
      SumLegsIsTotal(accounts, legs[..|legs| - 1]);
    }
  }

  lemma {:induction false} SumNoLegs(accounts: seq<Str>)
    ensures SumLegs(accounts, []) == 0
  {
    if accounts != [] {
      SumNoLegs(accounts[..|accounts| - 1]);
    }
  }

  /** The sum of one column of the projection over a list of accounts. */
  ghost function SumPending(accounts: seq<Str>, out: map<Key, Balance>, asset: Asset): int {
    if accounts == [] then 0
    else SumPending(accounts[..|accounts| - 1], out, asset) + Get(out, Key(accounts[|accounts| - 1], asset)).pending
  }

  ghost function SumPosted(accounts: seq<Str>, out: map<Key, Balance>, asset: Asset): int {
    if accounts == [] then 0
    else SumPosted(accounts[..|accounts| - 1], out, asset) + Get(out, Key(accounts[|accounts| - 1], asset)).posted
  }

  ghost function SumOpen(accounts: seq<Str>, j: seq<Row>, m: nat, asset: Asset): int
    requires m <= |j|
  {
    if accounts == [] then 0
    else SumOpen(accounts[..|accounts| - 1], j, m, asset) + OpenSum(j, |j|, m, Key(accounts[|accounts| - 1], asset))
  }

  ghost function SumPosts(accounts: seq<Str>, j: seq<Row>, m: nat, asset: Asset): int
    requires m <= |j|
  {
    if accounts == [] then 0
    else SumPosts(accounts[..|accounts| - 1], j, m, asset) + PostSum(j, m, Key(accounts[|accounts| - 1], asset))
  }

  /** One row's contribution to a column, summed over the accounts. */
  lemma {:induction false} SumOneRow(accounts: seq<Str>, j: seq<Row>, m: nat, asset: Asset)
    requires 0 < m <= |j|
    ensures SumOpen(accounts, j, m, asset) == SumOpen(accounts, j, m - 1, asset)
            + (if OpenAfter(j, |j|, m - 1) && j[m - 1].entry.asset == asset then SumLegs(accounts, j[m - 1].entry.legs) else 0)
    ensures SumPosts(accounts, j, m, asset) == SumPosts(accounts, j, m - 1, asset)
            + (if j[m - 1].entry.kind == Post && j[m - 1].entry.asset == asset then SumLegs(accounts, j[m - 1].entry.legs) else 0)
  {
    if accounts != [] {
      SumOneRow(accounts[..|accounts| - 1], j, m, asset);
    }
  }

  lemma {:induction false} RowsCancel(accounts: seq<Str>, j: seq<Row>, m: nat, asset: Asset)
    requires m <= |j| && AllValid(j) && Distinct(accounts)
    requires forall k: Key :: k.asset == asset && Touched(j, |j|, k) ==> k.account in accounts
    ensures SumOpen(accounts, j, m, asset) == 0 && SumPosts(accounts, j, m, asset) == 0
  {
    if m == 0 {
      NothingYet(accounts, j, asset);
    } else {
      RowsCancel(accounts, j, m - 1, asset);
      SumOneRow(accounts, j, m, asset);
      var e := j[m - 1].entry;
      assert EntryError(e) == None;
      if e.asset == asset && e.kind != Void {
        forall i | 0 <= i < |e.legs| ensures e.legs[i].account in accounts {
          assert OnLeg(e.legs, e.legs[i].account);
          assert Touched(j, |j|, Key(e.legs[i].account, asset));
        }
        SumLegsIsTotal(accounts, e.legs);
      }
    }
  }

  lemma {:induction false} NothingYet(accounts: seq<Str>, j: seq<Row>, asset: Asset)
    ensures SumOpen(accounts, j, 0, asset) == 0 && SumPosts(accounts, j, 0, asset) == 0
  {
    if accounts != [] {
      NothingYet(accounts[..|accounts| - 1], j, asset);
    }
  }

  lemma {:induction false} ColumnsAreSums(accounts: seq<Str>, j: seq<Row>, out: map<Key, Balance>, asset: Asset)
    requires Projects(j, |j|, out)
    ensures SumPending(accounts, out, asset) == SumOpen(accounts, j, |j|, asset)
    ensures SumPosted(accounts, out, asset) == SumPosts(accounts, j, |j|, asset)
  {
    if accounts != [] {
      ColumnsAreSums(accounts[..|accounts| - 1], j, out, asset);
      assert ProjectsAt(j, |j|, out, Key(accounts[|accounts| - 1], asset));
    }
  }

  /** Double entry, seen from the balances.  After any sequence of Append calls, and for
      any asset, the pending balances of all accounts cancel out and so do the posted
      ones.  `accounts` is any list that names each account in the projection once. */
  lemma Conservation(c: RowHasher, es: seq<Entry>, out: map<Key, Balance>, accounts: seq<Str>, asset: Asset)
    requires Projects(AppendAll(c, es), |AppendAll(c, es)|, out)
    requires Distinct(accounts)
    requires forall k :: k in out && k.asset == asset ==> k.account in accounts
    ensures SumPending(accounts, out, asset) == 0
    ensures SumPosted(accounts, out, asset) == 0
  {
    var j := AppendAll(c, es);
    ReachableWellFormed(c, es);
    assert forall k: Key :: ProjectsAt(j, |j|, out, k) ==> (k in out <==> Touched(j, |j|, k));
    RowsCancel(accounts, j, |j|, asset);
    ColumnsAreSums(accounts, j, out, asset);
  }
}
