/** Which payment a transfer belongs to, what is said of it, and which transfer of a window settles. */
module ReconTerms {
  import opened Bytes
  import opened Intent
  import opened Listener
  import opened Recon
  import opened ReconSafety
  import opened ReconRuns
  import S = Settlement
  import Ledger
  import Journal
  import PaymentRef

  // ---- what is said of one transfer, by its fields ----

  /** The intent whose ref the transfer carries. */
  predicate Known(s: Records, t: Transfer) {
    t.ref != ZERO && t.ref in s.shelf.byRef && s.shelf.byRef[t.ref] in s.shelf.m
  }

  function Owner(s: Records, t: Transfer): Intent
    requires Known(s, t)
  {
    s.shelf.m[s.shelf.byRef[t.ref]]
  }

  /** With this ref, but moved on another chain, in another token, or between others. */
  predicate Differs(chain: Str, t: Transfer, it: Intent) {
    it.chain != chain || t.token != it.token || t.from != it.payer || t.to != it.merchant
  }

  /** Nobody off the chain waits for the money. */
  predicate NotAwaited(st: State) { st != Settling && st != Confirming && st != Settled }

  predicate Finds(r: Result<Note, Fail>, kind: Kind) { r.Ok? && r.value.Finding? && r.value.kind == kind }

  /** A transfer without a ref, or with one no intent has, touches nothing and is named as that; one that
      differs from its intent in chain, token, payer or merchant, whatever the intent's state, or that
      nobody waits for, touches nothing and is unexpected; and nothing else is any of the three. */
  lemma StrangersAreFindings(env: Env, chain: Str, s: Records, t: Transfer, watch: Watch, at: Time)
    ensures var (after, r) := Reconciled(env, chain, s, t, watch, at);
      && (Finds(r, Unreferenced) <==> t.ref == ZERO)
      && (Finds(r, UnknownRef) <==> t.ref != ZERO && !Known(s, t))
      && (Finds(r, Unexpected) <==> Known(s, t) && (Differs(chain, t, Owner(s, t)) || NotAwaited(Owner(s, t).state)))
      && (Finds(r, Unreferenced) || Finds(r, UnknownRef) || Finds(r, Unexpected) ==>
            after == s && r.value.transfer == t && r.value.id == if Known(s, t) then Owner(s, t).id else [])
  {
    hide CheckOf, AdvanceTo, Journal.Find, MerchantLeg;
  }

  /** The store keeps this intent under its own id and its own ref. */
  predicate OnFile(h: Hasher, s: Records, id: Str) {
    id in s.shelf.m && s.shelf.m[id].id == id && s.shelf.m[id].ref == PaymentRef.Derive(h, s.shelf.m[id].Terms())
  }

  /** Bringing evidence to an intent: one that is settling takes it; one that is confirming already is left
      as it is; any other has got away, which is no error. Nothing else is touched. */
  lemma EvidenceGoes(h: Hasher, s: Records, id: Str, hash: Str, at: Time)
    requires OnFile(h, s, id) && hash != []
    ensures var it, req := s.shelf.m[id], Request(Confirming, Actor.Listener, hash, [], at);
      var (after, r) := AdvanceTo(h, s, id, req);
      && r == Ok(it.state == Settling || it.state == Confirming) && after.books == s.books
      && after.shelf.m == (if it.state == Settling then s.shelf.m[id := Moved(it, req)] else s.shelf.m)
      && (it.state != Settling ==> after == s)
  {
    var it := s.shelf.m[id];
    assert Moved(it, Request(Confirming, Actor.Listener, hash, [], at)).Terms() == it.Terms();
    hide PaymentRef.Derive;
  }

  /** Taking a hash back: one that is confirming goes back to settling; one that is settling already is left
      as it is; of one that is authorized it is not the listener's to say; any other has got away. */
  lemma TakingBackGoes(h: Hasher, s: Records, id: Str, why: Str, at: Time)
    requires OnFile(h, s, id) && why != []
    ensures var it, req := s.shelf.m[id], Request(Settling, Actor.Listener, [], why, at);
      var (after, r) := AdvanceTo(h, s, id, req);
      && r == (if it.state == Authorized then Err(Fail.Stored(ForbiddenActor)) else Ok(it.state == Settling || it.state == Confirming))
      && after.books == s.books
      && after.shelf.m == (if it.state == Confirming then s.shelf.m[id := Moved(it, req)] else s.shelf.m)
      && (it.state != Confirming ==> after == s)
  {
    var it := s.shelf.m[id];
    assert Moved(it, Request(Settling, Actor.Listener, [], why, at)).Terms() == it.Terms();
    hide PaymentRef.Derive;
  }

  /** The merchant got this amount. */
  ghost predicate Got(e: Ledger.Entry, merchant: Str, amount: int) {
    exists i :: 0 <= i < |e.legs| && e.legs[i] == Ledger.Leg(Ledger.MerchantAccount(merchant), amount)
  }

  lemma {:induction false} LegIsGot(e: Ledger.Entry, legs: seq<Ledger.Leg>, n: nat, merchant: Str, amount: int)
    requires n <= |e.legs| && legs == e.legs[n..]
    requires forall i, j :: 0 <= i < j < |e.legs| ==> e.legs[i].account != e.legs[j].account
    requires forall i :: 0 <= i < n ==> e.legs[i].account != Ledger.MerchantAccount(merchant)
    ensures MerchantLeg(legs, merchant) == Some(amount) <==> Got(e, merchant, amount)
    decreases |legs|
  {
    if legs != [] {
      assert legs[0] == e.legs[n] && legs[1..] == e.legs[n + 1..];
      if legs[0].account != Ledger.MerchantAccount(merchant) {
        LegIsGot(e, legs[1..], n + 1, merchant, amount);
      }
    }
    hide Ledger.MerchantAccount;
  }

  /** The payment's post stands in row i. */
  predicate PostIn(j: S.Books, it: Intent, i: int) {
    0 <= i < |j| && j[i].entry.id == it.id + S.POST
  }

  /** Of a settled payment the books decide, and nothing is touched: paid twice when its post is on another
      hash; a match when it is on this hash and gave the merchant this amount; a mismatch when it gave
      another amount or there is no post. */
  lemma BooksDecide(env: Env, chain: Str, s: Records, t: Transfer, watch: Watch, at: Time)
    requires Known(s, t) && !Differs(chain, t, Owner(s, t)) && Owner(s, t).state == Settled
    requires Journal.WellFormed(env.c, s.books)
    ensures var it, j, (after, r) := Owner(s, t), s.books, Reconciled(env, chain, s, t, watch, at);
      && after == s
      && (r == Ok(Finding(PaidTwice, t, it.id)) <==> exists i :: PostIn(j, it, i) && j[i].entry.txHash != t.txHash)
      && (r == Ok(Match(t, it.id, PostMatches)) <==>
            exists i :: PostIn(j, it, i) && j[i].entry.txHash == t.txHash && Got(j[i].entry, it.merchant, t.amount))
      && (r == Ok(Finding(Mismatch, t, it.id)) <==>
            forall i :: PostIn(j, it, i) ==> j[i].entry.txHash == t.txHash && !Got(j[i].entry, it.merchant, t.amount))
  {
    var it, j := Owner(s, t), s.books;
    ThePost(env.c, j, it, t.amount);
    hide Journal.Find, MerchantLeg, Got, CheckNote, AdvanceTo, Adopt, Journal.WellFormed;
  }

  /** Searching the books for a payment's post, and the post for the merchant's leg, finds what stands there. */
  lemma ThePost(c: Journal.RowHasher, j: S.Books, it: Intent, amount: int)
    requires Journal.WellFormed(c, j)
    ensures var i := Journal.Find(j, it.id + S.POST);
      && (i.None? <==> forall k :: !PostIn(j, it, k))
      && (i.Some? ==> PostIn(j, it, i.value) && (forall k :: PostIn(j, it, k) ==> k == i.value)
                      && (MerchantLeg(j[i.value].entry.legs, it.merchant) == Some(amount) <==> Got(j[i.value].entry, it.merchant, amount)))
  {
    var i := Journal.Find(j, it.id + S.POST);
    if i.Some? {
      var e := j[i.value].entry;
      assert PostIn(j, it, i.value) && Ledger.EntryError(e) == None;
      LegIsGot(e, e.legs, 0, it.merchant, amount);
      hide MerchantLeg, Got, Journal.Find, Journal.AllValid, Journal.Chained;
      forall k | PostIn(j, it, k) ensures k == i.value {
        Journal.FindsTheRow(j, k);
      }
    }
  }

  // ---- the order of a window ----

  /** Byte by byte: the first difference decides, and a prefix comes first. */
  ghost predicate Lexical(a: Str, b: Str) {
    exists n :: LexicalAt(a, b, n)
  }

  predicate LexicalAt(a: Str, b: Str, n: int) {
    0 <= n <= |a| && n < |b| && a[..n] == b[..n] && (n == |a| || a[n] < b[n])
  }

  lemma {:induction false} BeforeIsLexical(a: Str, b: Str)
    ensures Before(a, b) <==> Lexical(a, b)
  {
    if b == [] {
    } else if a == [] {
      assert LexicalAt(a, b, 0);
    } else if a[0] < b[0] {
      assert LexicalAt(a, b, 0);
    } else {
      BeforeIsLexical(a[1..], b[1..]);
      if Lexical(a[1..], b[1..]) && a[0] == b[0] {
        var n :| LexicalAt(a[1..], b[1..], n);
        assert a[..n + 1] == [a[0]] + a[1..][..n] && b[..n + 1] == [b[0]] + b[1..][..n];
        assert LexicalAt(a, b, n + 1);
      }
      if Lexical(a, b) {
        var n :| LexicalAt(a, b, n);
        assert n > 0 ==> a[..n][0] == b[..n][0];
        assert n > 0 ==> a[1..][..n - 1] == a[..n][1..] && b[1..][..n - 1] == b[..n][1..];
        assert n > 0 ==> LexicalAt(a[1..], b[1..], n - 1);
      }
    }
  }

  /** t comes no later on the chain than u: lower, or at one height with a hash that is not greater. */
  ghost predicate NoLater(t: Transfer, u: Transfer) {
    t.height < u.height || (t.height == u.height && !Lexical(u.txHash, t.txHash))
  }

  lemma OrderedIsNoLater(ts: seq<Transfer>, o: seq<Transfer>, i: nat, u: Transfer)
    requires Ordered(ts, o) && i < |o| && u in ts
    requires forall j :: 0 <= j < i ==> o[j] != u
    ensures NoLater(o[i], u)
  {
    assert u in multiset(o);
    var j :| 0 <= j < |o| && o[j] == u;
    BeforeIsLexical(u.txHash, o[i].txHash);
    BeforeIsLexical(o[i].txHash, u.txHash);
    if j > i {
      assert !Earlier(o[j], o[i]);
    } else {
      NotBeforeItself(u.txHash);
    }
  }

  lemma {:induction false} NotBeforeItself(a: Str)
    ensures !Before(a, a)
  {
    if a != [] {
      NotBeforeItself(a[1..]);
    }
  }

  // ---- which transfer settles ----

  /** Before the payment's first transfer it stays live; from there on it is settled on that one's hash. */
  lemma {:induction false} WalkSettles(k: Case, s: Records, o: seq<Transfer>, first: nat, n: nat, from: nat, to: nat, watch: Watch, at: Time)
    requires n <= |o| && first < |o| && Ours(k, o[first]) && forall i :: 0 <= i < first ==> !Ours(k, o[i])
    requires Bookable(k) && Live(k, s) && WindowOk(k, o, watch, at) && at != 0
    requires Walk(k.env, k.chain, s, o, n, from, to, watch, at).1.Ok?
    ensures Fine(k, Walk(k.env, k.chain, s, o, n, from, to, watch, at).0, if n <= first then None else Some(o[first].txHash))
  {
    hide *;
    if n == 0 {
      WalkNone(k, s, o, from, to, watch, at, None);
      LiveIsFine(k, s);
    } else {
      var t := o[n - 1];
      WalkStep(k.env, k.chain, s, o, n, from, to, watch, at);
      WalkSettles(k, s, o, first, n - 1, from, to, watch, at);
      WindowAt(k, o, watch, at, n - 1);
      var mid := Walk(k.env, k.chain, s, o, n - 1, from, to, watch, at).0;
      assert Walk(k.env, k.chain, s, o, n, from, to, watch, at).0 == Reconciled(k.env, k.chain, mid, t, watch, at).0;
      assert Reconciled(k.env, k.chain, mid, t, watch, at).1.Ok?;
      StepSettles(k, mid, t, watch, at, if n - 1 <= first then None else Some(o[first].txHash));
    }
  }

  lemma LiveIsFine(k: Case, s: Records)
    requires Live(k, s)
    ensures Fine(k, s, None)
  {
    hide Live;
  }

  lemma StepSettles(k: Case, s: Records, t: Transfer, watch: Watch, at: Time, was: Option<Str>)
    requires Bookable(k) && Fine(k, s, was) && Truthful(k, watch, at) && at != 0
    requires Ours(k, t) ==> Correct(k, t) && SeesHash(k, watch, at, t.txHash)
    ensures var (after, r) := Reconciled(k.env, k.chain, s, t, watch, at);
      && (was.Some? || !Ours(k, t) ==> Fine(k, after, was))
      && (was.None? && Ours(k, t) && r.Ok? ==> Fine(k, after, Some(t.txHash)))
  {
    hide *;
    FineIsBase(k, s, was);
    if !Ours(k, t) {
      ForeignTransfer(k, s, t, watch, at);
      UntouchedIsFine(k, s, Reconciled(k.env, k.chain, s, t, watch, at).0, was);
    } else if was.None? {
      FineIsLive(k, s);
      var paid := TransferWhenLive(k, s, t, watch, at);
    } else {
      var paid := TransferKeeps(k, s, t, watch, at, was);
    }
  }

  lemma FineIsLive(k: Case, s: Records)
    requires Fine(k, s, None)
    ensures Live(k, s)
  {
    hide Live;
  }

  /** Of the transfers a window shows of a payment that is live when its walk begins, a walk that goes
      through settles it on the one at the least height and, of those at that height, of the least hash. */
  lemma FirstTransferSettles(k: Case, s: Records, ts: seq<Transfer>, o: seq<Transfer>, from: nat, to: nat, watch: Watch, at: Time)
    returns (t: Transfer)
    requires Ordered(ts, o) && (exists u :: u in ts && Ours(k, u))
    requires Bookable(k) && Live(k, s) && WindowOk(k, o, watch, at) && at != 0
    requires Walk(k.env, k.chain, s, o, |o|, from, to, watch, at).1.Ok?
    ensures t in ts && Ours(k, t) && Done(k, Walk(k.env, k.chain, s, o, |o|, from, to, watch, at).0, t.txHash)
    ensures forall u :: u in ts && Ours(k, u) ==> NoLater(t, u)
  {
    hide Walk, Ordered, WindowOk, Bookable, Live, Done, NoLater;
    var u :| u in ts && Ours(k, u);
    SameTransfers(ts, o);
    var first := FirstOurs(k, o);
    t := o[first];
    WalkSettles(k, s, o, first, |o|, from, to, watch, at);
    forall u | u in ts && Ours(k, u) ensures NoLater(t, u) {
      OrderedIsNoLater(ts, o, first, u);
    }
  }

  lemma SameTransfers(ts: seq<Transfer>, o: seq<Transfer>)
    requires Ordered(ts, o)
    ensures forall u :: u in ts <==> u in o
  {
    forall u ensures u in ts <==> u in o {
      assert u in ts <==> u in multiset(ts);
      assert u in o <==> u in multiset(o);
    }
  }

  lemma {:induction false} FirstOurs(k: Case, o: seq<Transfer>) returns (i: nat)
    requires exists u :: u in o && Ours(k, u)
    ensures i < |o| && Ours(k, o[i]) && forall j :: 0 <= j < i ==> !Ours(k, o[j])
  {
    hide Ours;
    if Ours(k, o[0]) {
      i := 0;
    } else {
      var rest := FirstOurs(k, o[1..]);
      i := rest + 1;
      forall j | 0 <= j < i ensures !Ours(k, o[j]) {
        assert j > 0 ==> o[1..][j - 1] == o[j];
      }
    }
  }
}
