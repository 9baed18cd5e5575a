/** The balances and the payments: what the journal's columns come to is what the payments owe. */
module SettlementBalances {
  import opened Bytes
  import opened Intent
  import opened Settlement
  import opened SettlementInvariant
  import opened Balances
  import SettlementSafety
  import Ledger
  import Journal

  // ---- what a payment owes to one balance ----

  /** A payment takes its amount from its payer's account and brings it to its merchant's, in its
      own token on its own chain. */
  function Due(it: Intent, k: Key): int {
    if k.asset.chain == it.chain && k.asset.token == it.token then
      (if k.account == Text("merchant:") + it.merchant then it.amount else 0) - (if k.account == Text("payer:") + it.payer then it.amount else 0)
    else 0
  }

  lemma TwoLegs(a: Ledger.Leg, b: Ledger.Leg, account: Str)
    ensures LegSum([a, b], account) == (if a.account == account then a.amount else 0) + (if b.account == account then b.amount else 0)
  {
    assert [a, b][..1] == [a];
    assert LegSum([a], account) == if a.account == account then a.amount else 0;
  }

  /** The hold of a payment and its post move exactly what it owes; its void moves nothing. */
  lemma EntriesMoveTheDue(it: Intent, e: Ledger.Entry, k: Key)
    requires EntryOf(it, e)
    ensures Moves(e, k) == if e.kind == Ledger.Void then 0 else Due(it, k)
    ensures e.ref == it.ref && (e.kind == Ledger.Void || (e.asset.chain == it.chain && e.asset.token == it.token))
  {
    assert e.legs == Strip(e).legs && e.asset == Strip(e).asset && e.kind == Strip(e).kind && e.ref == Strip(e).ref;
    if e.kind != Ledger.Void {
      TwoLegs(Ledger.Leg(Ledger.PayerAccount(it.payer), -it.amount), Ledger.Leg(Ledger.MerchantAccount(it.merchant), it.amount), k.account);
    }
  }

  // ---- sums over rows and sums over payments ----

  /** A row that stands in a column: posts in the posted one, holds nobody resolved in the pending one. */
  ghost predicate Stands(j: Books, i: nat, posted: bool)
    requires i < |j|
  {
    if posted then j[i].entry.kind == Ledger.Post else OpenAfter(j, |j|, i)
  }

  ghost function Column(j: Books, n: nat, posted: bool, k: Key): int
    requires n <= |j|
  {
    if n == 0 then 0 else Column(j, n - 1, posted, k) + if Stands(j, n - 1, posted) then Moves(j[n - 1].entry, k) else 0
  }

  function Name(id: Str, posted: bool): Str { id + if posted then POST else HOLD }

  /** One of the first n rows is this payment's and stands in the column. */
  ghost predicate Booked(j: Books, n: nat, id: Str, posted: bool)
    requires n <= |j|
  {
    exists i :: 0 <= i < n && Stands(j, i, posted) && j[i].entry.id == Name(id, posted)
  }

  ghost function Dues(m: map<Str, Intent>, j: Books, n: nat, ids: seq<Str>, posted: bool, k: Key): int
    requires n <= |j| && forall id :: id in ids ==> id in m
  {
    if ids == [] then 0
    else
      var last := ids[|ids| - 1];
      Dues(m, j, n, ids[..|ids| - 1], posted, k) + if Booked(j, n, last, posted) then Due(m[last], k) else 0
  }

  /** A row that stands in a column is some stored payment's own, and moves what that one owes. */
  lemma RowIsSomeones(m: map<Str, Intent>, j: Books, i: nat, posted: bool, k: Key) returns (id: Str)
    requires i < |j| && BooksOk(m, j) && (forall x :: x in m ==> m[x].id == x) && Stands(j, i, posted)
    ensures id in m && j[i].entry.id == Name(id, posted) && Moves(j[i].entry, k) == Due(m[id], k)
  {
    var e := j[i].entry;
    id :| id in m && EntryOf(m[id], e);
    assert e.kind == Strip(e).kind && e.id == Strip(e).id;
    EntriesMoveTheDue(m[id], e, k);
  }

  lemma Suffixed(a: Str, b: Str, posted: bool)
    ensures Name(a, posted) == Name(b, posted) ==> a == b
  {
    if Name(a, posted) == Name(b, posted) {
      SettlementSafety.SameSuffix(a, b, if posted then POST else HOLD);
    }
  }

  /** One more row books one more payment, its own, or none. */
  lemma OneMoreBooked(j: Books, n: nat, id: Str, owner: Str, posted: bool)
    requires n < |j| && Journal.UniqueIds(j)
    requires Stands(j, n, posted) ==> j[n].entry.id == Name(owner, posted)
    ensures Booked(j, n + 1, id, posted) <==> Booked(j, n, id, posted) || (Stands(j, n, posted) && id == owner)
    ensures Stands(j, n, posted) ==> !Booked(j, n, owner, posted)
  {
    Suffixed(id, owner, posted);
    if Booked(j, n, id, posted) {
      var i :| 0 <= i < n && Stands(j, i, posted) && j[i].entry.id == Name(id, posted);
      assert Booked(j, n + 1, id, posted);
    }
  }

  lemma {:induction false} OneMoreDue(m: map<Str, Intent>, j: Books, n: nat, ids: seq<Str>, owner: Str, posted: bool, k: Key)
    requires n < |j| && Journal.UniqueIds(j) && (forall id :: id in ids ==> id in m) && Distinct(ids) && owner in m
    requires Stands(j, n, posted) ==> j[n].entry.id == Name(owner, posted)
    ensures Dues(m, j, n + 1, ids, posted, k) == Dues(m, j, n, ids, posted, k) + if Stands(j, n, posted) && owner in ids then Due(m[owner], k) else 0
  {
    if ids != [] {
      var front, last := ids[..|ids| - 1], ids[|ids| - 1];
      assert forall id :: id in ids <==> id in front || id == last;
      assert last !in front;
      hide Due, Booked, Stands;
      OneMoreDue(m, j, n, front, owner, posted, k);
      OneMoreBooked(j, n, last, owner, posted);
    }
  }

  lemma {:induction false} NothingDue(m: map<Str, Intent>, j: Books, ids: seq<Str>, posted: bool, k: Key)
    requires forall id :: id in ids ==> id in m
    ensures Dues(m, j, 0, ids, posted, k) == 0
  {
    if ids != [] {
      NothingDue(m, j, ids[..|ids| - 1], posted, k);
    }
  }

  lemma OneMoreRowDue(m: map<Str, Intent>, j: Books, n: nat, ids: seq<Str>, posted: bool, k: Key)
    requires n < |j| && Journal.UniqueIds(j) && BooksOk(m, j) && (forall x :: x in m ==> m[x].id == x)
    requires Distinct(ids) && forall id :: id in ids <==> id in m
    ensures Dues(m, j, n + 1, ids, posted, k) == Dues(m, j, n, ids, posted, k) + if Stands(j, n, posted) then Moves(j[n].entry, k) else 0
  {
    hide BooksOk, Stands, Booked, Moves, Due, Name, Journal.UniqueIds;
    if Stands(j, n, posted) {
      var owner := RowIsSomeones(m, j, n, posted, k);
      OneMoreDue(m, j, n, ids, owner, posted, k);
    } else {
      OneMoreStill(m, j, n, ids, posted, k);
    }
  }

  lemma {:induction false} OneMoreStill(m: map<Str, Intent>, j: Books, n: nat, ids: seq<Str>, posted: bool, k: Key)
    requires n < |j| && !Stands(j, n, posted) && forall id :: id in ids ==> id in m
    ensures Dues(m, j, n + 1, ids, posted, k) == Dues(m, j, n, ids, posted, k)
  {
    if ids != [] {
      OneMoreStill(m, j, n, ids[..|ids| - 1], posted, k);
    }
  }

  lemma {:induction false} ColumnIsDues(m: map<Str, Intent>, j: Books, n: nat, ids: seq<Str>, posted: bool, k: Key)
    requires n <= |j| && Journal.UniqueIds(j) && BooksOk(m, j) && (forall x :: x in m ==> m[x].id == x)
    requires Distinct(ids) && forall id :: id in ids <==> id in m
    ensures Column(j, n, posted, k) == Dues(m, j, n, ids, posted, k)
  {
    hide *;
    ColumnStep(j, n, posted, k);
    if n == 0 {
      NothingDue(m, j, ids, posted, k);
    } else {
      ColumnIsDues(m, j, n - 1, ids, posted, k);
      OneMoreRowDue(m, j, n - 1, ids, posted, k);
    }
  }

  lemma ColumnStep(j: Books, n: nat, posted: bool, k: Key)
    requires n <= |j|
    ensures Column(j, n, posted, k) == if n == 0 then 0 else Column(j, n - 1, posted, k) + if Stands(j, n - 1, posted) then Moves(j[n - 1].entry, k) else 0
  {
    hide Stands, Moves;
  }

  lemma {:induction false} ColumnsOf(j: Books, n: nat, k: Key)
    requires n <= |j|
    ensures Column(j, n, true, k) == PostSum(j, n, k) && Column(j, n, false, k) == OpenSum(j, |j|, n, k)
  {
    if n > 0 {
      ColumnsOf(j, n - 1, k);
    }
  }

  // ---- over every run ----

  /** Over every interleaving, and for every account and asset: the posted balance is the sum of what
      the payments with a post owe it, and the pending balance the sum of what those owe it whose hold
      nobody has resolved. `ids` is any list that names each stored payment once. */
  lemma BalancesAreDues(c: Journal.RowHasher, h: Hasher, es: seq<Event>, out: map<Key, Balance>, ids: seq<Str>, k: Key)
    requires Projects(Run(c, h, es).books, |Run(c, h, es).books|, out)
    requires Distinct(ids) && forall id :: id in ids <==> id in Run(c, h, es).shelf.m
    ensures var m, j := Run(c, h, es).shelf.m, Run(c, h, es).books;
      && Get(out, k).posted == Dues(m, j, |j|, ids, true, k)
      && Get(out, k).pending == Dues(m, j, |j|, ids, false, k)
  {
    SettlementSafety.RunKeeps(c, h, es);
    var m, j := Run(c, h, es).shelf.m, Run(c, h, es).books;
    hide Run, Dues, Column, BooksOk, LocalsOk, ClaimsOk, UntouchedOk, Sound, PostedFor, Journal.Chained, Journal.BehindHold, Journal.ResolvedOnce;
    assert ProjectsAt(j, |j|, out, k);
    ColumnsOf(j, |j|, k);
    ColumnIsDues(m, j, |j|, ids, true, k);
    ColumnIsDues(m, j, |j|, ids, false, k);
  }

  /** What a payment the listener settled has on the books: behind its hold, its post, under the hash
      it is settled on and under its ref, each moving exactly what the payment owes to every account.
      It stands in the posted column and no longer in the pending one. */
  lemma SettledIsBooked(c: Journal.RowHasher, h: Hasher, es: seq<Event>, id: Str)
    requires id in Run(c, h, es).shelf.m && SettledByListener(Run(c, h, es).shelf.m[id])
    ensures var it, j := Run(c, h, es).shelf.m[id], Run(c, h, es).books;
      && Booked(j, |j|, id, true) && !Booked(j, |j|, id, false)
      && exists p, i :: 0 <= p < i < |j| && BooksPayment(it, j[p].entry, j[i].entry)
  {
    hide *;
    SettlementSafety.SettledMeansPaidOnce(c, h, es, id);
    SettlementSafety.RunKeeps(c, h, es);
    StoredAsItself(c, Run(c, h, es), id);
    var it, j := Run(c, h, es).shelf.m[id], Run(c, h, es).books;
    var p, i :| SettlementSafety.PaidOnce(j, it, p, i);
    PaidIsBooked(it, j, p, i);
  }

  lemma StoredAsItself(c: Journal.RowHasher, w: World, id: Str)
    requires Inv(c, w) && id in w.shelf.m
    ensures w.shelf.m[id].id == id
  {
  }

  /** These two entries are the payment's hold and its post. */
  ghost predicate BooksPayment(it: Intent, hold: Ledger.Entry, post: Ledger.Entry) {
    && hold.kind == Ledger.Hold && post.kind == Ledger.Post && post.holds == hold.id
    && hold.ref == it.ref == post.ref && post.txHash == it.txHash
    && forall k :: Moves(hold, k) == Due(it, k) == Moves(post, k)
  }

  lemma PaidIsBooked(it: Intent, j: Books, p: nat, i: nat)
    requires SettlementSafety.PaidOnce(j, it, p, i)
    ensures p < i < |j| && BooksPayment(it, j[p].entry, j[i].entry)
    ensures Booked(j, |j|, it.id, true) && !Booked(j, |j|, it.id, false)
  {
    var hold, post := j[p].entry, j[i].entry;
    assert hold.kind == Strip(hold).kind && hold.id == Strip(hold).id && hold.ref == Strip(hold).ref;
    assert post.kind == Strip(post).kind && post.id == Strip(post).id && post.holds == Strip(post).holds && post.ref == Strip(post).ref;
    assert Journal.Resolves(j[i], it.id + HOLD);
    forall k ensures Moves(hold, k) == Due(it, k) == Moves(post, k) {
      PairMoves(it, hold, k);
      PairMoves(it, post, k);
    }
    assert Stands(j, i, true) && post.id == Name(it.id, true);
  }

  lemma PairMoves(it: Intent, e: Ledger.Entry, k: Key)
    requires Strip(e) == Strip(HoldEntry(it)) || Strip(e) == Strip(PostEntry(it, it.amount))
    ensures Moves(e, k) == Due(it, k)
  {
    assert e.legs == Strip(e).legs && e.asset == Strip(e).asset;
    TwoLegs(Ledger.Leg(Ledger.PayerAccount(it.payer), -it.amount), Ledger.Leg(Ledger.MerchantAccount(it.merchant), it.amount), k.account);
  }

  /** A step that calls Send finds on the books a hold of exactly what the payment owes. */
  lemma SentIsCovered(c: Journal.RowHasher, h: Hasher, es: seq<Event>, e: Event, id: Str)
    requires var w, w' := Run(c, h, es), Next(c, h, Run(c, h, es), e);
      |w.broadcasts| < |w'.broadcasts| && w'.broadcasts[|w.broadcasts|] == Sent(id)
    ensures var w := Run(c, h, es);
      id in w.shelf.m && exists p :: 0 <= p < |w.books| && Covers(w.shelf.m[id], w.books[p].entry)
  {
    SettlementSafety.SentBehindItsHold(c, h, es, e, id);
    var w := Run(c, h, es);
    hide Run, Next;
    var it := w.shelf.m[id];
    var p :| 0 <= p < |w.books| && Strip(w.books[p].entry) == Strip(HoldEntry(it));
    var hold := w.books[p].entry;
    assert hold.kind == Strip(hold).kind && hold.ref == Strip(hold).ref;
    forall k ensures Moves(hold, k) == Due(it, k) {
      PairMoves(it, hold, k);
    }
    assert Covers(it, hold);
  }

  ghost predicate Covers(it: Intent, hold: Ledger.Entry) {
    hold.kind == Ledger.Hold && hold.ref == it.ref && forall k :: Moves(hold, k) == Due(it, k)
  }
}
