/** Undisturbed reconciliation: however many transfers carry one live payment's reference,
    one settles it and every other is reported as paid twice. */
module ReconSafety {
  import opened Bytes
  import opened Intent
  import opened Listener
  import opened Recon
  import S = Settlement
  import PaymentRef
  import Ledger
  import Journal

  /** One payment under observation: its terms as opened, and the hashes of the transfers that
      carry its reference. */
  datatype Case = Case(env: Env, chain: Str, it: Intent, hashes: set<Str>)

  predicate Ours(k: Case, t: Transfer) { t.ref == k.it.ref }

  /** Token, payer, merchant and amount are the payment's own. */
  predicate Correct(k: Case, t: Transfer) {
    OwnTerms(k.chain, t, k.it) && t.amount == k.it.amount && t.txHash != [] && t.txHash in k.hashes
  }

  // ---- the state ----

  ghost predicate StoreOk(k: Case, s: Shelf) {
    && (forall id :: id in s.m ==> s.m[id].id == id && s.m[id].ref == PaymentRef.Derive(k.env.h, s.m[id].Terms()))
    && (forall r :: r in s.byRef ==> s.byRef[r] in s.m && s.m[s.byRef[r]].ref == r)
    && k.it.id in s.m && s.m[k.it.id].SameTerms(k.it) && s.m[k.it.id].updatedAt != 0
    && k.it.ref in s.byRef
    && (forall id :: id in s.m && s.m[id].ref == k.it.ref ==> id == k.it.id)
  }

  function HoldId(k: Case): Str { k.it.id + S.HOLD }

  function PostId(k: Case): Str { k.it.id + S.POST }

  ghost predicate HoldThere(k: Case, j: S.Books) {
    var i := Journal.Find(j, HoldId(k));
    i.Some? && Journal.HoldFits(j[i.value].entry, S.PostEntry(k.it, k.it.amount))
  }

  /** The hold stands, and nothing has resolved it. */
  ghost predicate HoldOpen(k: Case, j: S.Books) {
    HoldThere(k, j) && !Journal.Resolved(j, HoldId(k)) && Journal.Find(j, PostId(k)).None?
  }

  /** The payment's own post, on this hash, resolves the hold. */
  ghost predicate PostedOn(k: Case, j: S.Books, hash: Str) {
    var i := Journal.Find(j, PostId(k));
    i.Some? && j[i.value].entry.txHash == hash && j[i.value].entry.kind == Ledger.Post
    && j[i.value].entry.holds == HoldId(k) && j[i.value].entry.legs == S.PayLegs(k.it, k.it.amount)
  }

  ghost predicate Base(k: Case, s: Records) {
    StoreOk(k, s.shelf) && Journal.WellFormed(k.env.c, s.books)
  }

  ghost predicate Live(k: Case, s: Records) {
    Base(k, s) && HoldOpen(k, s.books)
    && var it := s.shelf.m[k.it.id]; it.state == Settling || (it.state == Confirming && it.txHash != [])
  }

  ghost predicate Done(k: Case, s: Records, hash: Str) {
    Base(k, s) && PostedOn(k, s.books, hash) && hash in k.hashes
    && s.shelf.m[k.it.id].state == Settled && s.shelf.m[k.it.id].txHash == hash
  }

  /** Live, or settled on the hash named. */
  ghost predicate Fine(k: Case, s: Records, paid: Option<Str>) {
    match paid case None => Live(k, s) case Some(hash) => Done(k, s, hash)
  }

  /** What the payment is made of is acceptable to the books. */
  ghost predicate Bookable(k: Case) {
    k.it.id != [] && k.it.ref != ZERO && k.it.chain == k.chain && k.it.chain != [] && k.it.token != [] && k.it.amount != 0
  }

  // ---- the watcher ----

  function VerdictOf(k: Case, it: Intent, watch: Watch, at: Time): Option<Judgement> {
    if k.env.policy(it.chain).None? || watch(it).None? then None
    else Some(Judged(k.env.policy(it.chain).value, it, watch(it).value, at))
  }

  predicate IsCopy(k: Case, it: Intent) { it.SameTerms(k.it) && it.state == Confirming }

  /** The watcher agrees with the source: it calls this payment paid only on a transfer of it,
      and never calls it wrong. */
  ghost predicate Truthful(k: Case, watch: Watch, at: Time) {
    forall it {:trigger VerdictOf(k, it, watch, at)} :: IsCopy(k, it) ==>
      var v := VerdictOf(k, it, watch, at);
      v == None || v == Some(Wait) || v == Some(Lost) || (v == Some(Paid) && it.txHash in k.hashes)
  }

  // ---- the books ----

  lemma SuffixTells(a: Str, b: Str, x: Str, y: Str)
    requires a + x == b + y && |x| == |y|
    ensures a == b && x == y
  {
    assert (a + x)[..|a|] == a && (b + y)[..|b|] == b;
    assert (a + x)[|a|..] == x && (b + y)[|b|..] == y;
  }

  lemma FindAfter(j: S.Books, r: Journal.Row, id: Str)
    ensures Journal.Find(j + [r], id) == if r.entry.id == id then Some(|j|) else Journal.Find(j, id)
  {
    assert (j + [r])[..|j|] == j;
  }

  lemma SuffixLengths()
    ensures |S.HOLD| == 5 && |S.POST| == 5 && S.HOLD != S.POST
  {
    assert S.HOLD[1] == 'h' as int && S.POST[1] == 'p' as int;
  }

  /** Another payment's post leaves this payment's hold and post as they were. */
  lemma ForeignPost(k: Case, j: S.Books, o: Intent, amount: int)
    requires o.id != k.it.id && Journal.WellFormed(k.env.c, j)
    requires Journal.AppendTo(k.env.c, j, S.PostEntry(o, amount)).Ok?
    ensures var a := Journal.AppendTo(k.env.c, j, S.PostEntry(o, amount)).value.journal;
      && Journal.WellFormed(k.env.c, a)
      && (HoldOpen(k, j) ==> HoldOpen(k, a))
      && forall hash :: PostedOn(k, j, hash) ==> PostedOn(k, a, hash)
  {
    var e := S.PostEntry(o, amount);
    Journal.AppendKeepsWellFormed(k.env.c, j, e);
    var appended := Journal.AppendTo(k.env.c, j, e).value;
    SuffixLengths();
    if e.id == HoldId(k) { SuffixTells(o.id, k.it.id, S.POST, S.HOLD); }
    if e.id == PostId(k) { SuffixTells(o.id, k.it.id, S.POST, S.POST); }
    if e.holds == HoldId(k) { SuffixTells(o.id, k.it.id, S.HOLD, S.HOLD); }
    if appended.applied {
      hide Journal.WellFormed, Journal.AppendTo, Journal.Find, Journal.Resolved;
      FindAfter(j, appended.row, HoldId(k));
      FindAfter(j, appended.row, PostId(k));
      Journal.ResolvedExtends(j, appended.row, HoldId(k));
    }
  }

  lemma PostIsValid(k: Case, it: Intent)
    requires Bookable(k) && it.SameTerms(k.it) && it.updatedAt != 0
    ensures Ledger.EntryError(S.PostEntry(it, it.amount)) == None
  {
    var legs := S.PayLegs(it, it.amount);
    assert legs[0].account[0] == 'p' as int && legs[1].account[0] == 'm' as int;
    assert Ledger.Total(legs) == 0 by {
      assert legs[..1] == [legs[0]] && legs[..1][..0] == [];
      assert Ledger.Total([]) == 0;
      assert Ledger.Total(legs[..1]) == Ledger.Total(legs[..1][..0]) + legs[0].amount;
      assert legs[..|legs| - 1] == legs[..1];
    }
  }

  /** The payment's own post goes on the books of an open hold. */
  lemma OwnPost(k: Case, j: S.Books, it: Intent)
    requires Bookable(k) && it.SameTerms(k.it) && it.updatedAt != 0 && HoldOpen(k, j) && Journal.WellFormed(k.env.c, j)
    ensures var r := Journal.AppendTo(k.env.c, j, S.PostEntry(it, it.amount));
      r.Ok? && Journal.WellFormed(k.env.c, r.value.journal) && PostedOn(k, r.value.journal, it.txHash)
  {
    var e := S.PostEntry(it, it.amount);
    PostIsValid(k, it);
    hide Ledger.EntryError, Journal.Find, Journal.Resolved, Journal.WellFormed;
    var r := Journal.AppendTo(k.env.c, j, e);
    assert r.Ok?;
    Journal.AppendKeepsWellFormed(k.env.c, j, e);
    FindAfter(j, r.value.row, PostId(k));
  }

  // ---- the store ----

  /** Another payment's move leaves this payment alone. */
  lemma ForeignMove(k: Case, s: Shelf, it: Intent, req: Request)
    requires StoreOk(k, s) && it.id in s.m && s.m[it.id] == it && it.id != k.it.id && Applied(it, req).Ok? && Applied(it, req).value.1
    requires Saved(k.env.h, s, Applied(it, req).value.0, it.version).Ok?
    ensures var w := Saved(k.env.h, s, Applied(it, req).value.0, it.version).value;
      StoreOk(k, w) && w.m[k.it.id] == s.m[k.it.id]
  {
    hide PaymentRef.Derive, Moved, Applied;
    AppliedIsMoved(it, req);
    MovedKeepsTerms(it, req);
  }

  lemma AppliedIsMoved(it: Intent, req: Request)
    requires Applied(it, req).Ok? && Applied(it, req).value.1
    ensures Applied(it, req).value.0 == Moved(it, req)
  {
    hide Moved;
  }

  lemma MovedKeepsTerms(it: Intent, req: Request)
    ensures var to := Moved(it, req);
      to.id == it.id && to.ref == it.ref && to.Terms() == it.Terms() && to.version == it.version + 1 && to.updatedAt == req.at
      && forall other: Intent :: it.SameTerms(other) ==> to.SameTerms(other)
  {
  }

  /** This payment's own move, with nobody in between, is written. */
  lemma OwnMove(k: Case, s: Shelf, req: Request)
    requires StoreOk(k, s) && req.at != 0
    requires Applied(s.m[k.it.id], req).Ok? && Applied(s.m[k.it.id], req).value.1
    ensures var it, to := s.m[k.it.id], Applied(s.m[k.it.id], req).value.0;
      var r := Saved(k.env.h, s, to, it.version);
      r.Ok? && StoreOk(k, r.value) && r.value.m[k.it.id] == to && to == Moved(it, req)
  {
    hide PaymentRef.Derive, Moved, Applied;
    AppliedIsMoved(s.m[k.it.id], req);
    MovedKeepsTerms(s.m[k.it.id], req);
  }

  // ---- one check ----

  /** Whatever is done to another payment, this one stays as it is. */
  ghost predicate Untouched(k: Case, s: Records, after: Records) {
    && k.it.id in s.shelf.m && Base(k, after) && after.shelf.m[k.it.id] == s.shelf.m[k.it.id]
    && (HoldOpen(k, s.books) ==> HoldOpen(k, after.books))
    && forall hash :: PostedOn(k, s.books, hash) ==> PostedOn(k, after.books, hash)
  }

  lemma UntouchedIsFine(k: Case, s: Records, after: Records, paid: Option<Str>)
    requires Base(k, s) && Fine(k, s, paid) && Untouched(k, s, after)
    ensures Fine(k, after, paid)
  {
    hide Base, HoldOpen, PostedOn;
    assert Base(k, after);
  }

  lemma ForeignPush(k: Case, s: Records, it: Intent, req: Request, out: Outcome)
    requires Base(k, s) && it.id in s.shelf.m && s.shelf.m[it.id] == it && it.id != k.it.id
    ensures Untouched(k, s, Pushed(k.env.h, s, it, req, out).0)
  {
    hide Journal.WellFormed, HoldOpen, PostedOn, Applied, Saved;
    assert k.it.id in s.shelf.m;
    hide StoreOk;
    var applied := Applied(it, req);
    if applied.Ok? && applied.value.1 && Saved(k.env.h, s.shelf, applied.value.0, it.version).Ok? {
      ForeignMove(k, s.shelf, it, req);
    }
  }

  lemma ForeignPaid(k: Case, s: Records, it: Intent, at: Time)
    requires Base(k, s) && it.id in s.shelf.m && s.shelf.m[it.id] == it && it.id != k.it.id
    requires Journal.AppendTo(k.env.c, s.books, S.PostEntry(it, it.amount)).Ok?
    ensures var mid := s.(books := Journal.AppendTo(k.env.c, s.books, S.PostEntry(it, it.amount)).value.journal);
      Untouched(k, s, Pushed(k.env.h, mid, it, Request(Settled, Actor.Listener, it.txHash, [], at), Closed).0)
  {
    ForeignPost(k, s.books, it, it.amount);
    hide Journal.WellFormed, HoldOpen, PostedOn, StoreOk, Pushed, Journal.AppendTo, S.PostEntry;
    var mid := s.(books := Journal.AppendTo(k.env.c, s.books, S.PostEntry(it, it.amount)).value.journal);
    ForeignPush(k, mid, it, Request(Settled, Actor.Listener, it.txHash, [], at), Closed);
  }

  lemma ForeignCheck(k: Case, s: Records, id: Str, watch: Watch, at: Time)
    requires Base(k, s) && id != k.it.id
    ensures Untouched(k, s, CheckOf(k.env, s, id, watch, at).0)
  {
    hide *;
    UntouchedSelf(k, s);
    if id in s.shelf.m {
      var it := s.shelf.m[id];
      IdsMatch(k, s, id);
      ForeignPush(k, s, it, Request(Settling, Actor.Listener, [], WHY, at), HandedBack);
      ForeignPush(k, s, it, Request(NeedsReview, Actor.Listener, [], WHY, at), SentToReview);
      var booked := Journal.AppendTo(k.env.c, s.books, S.PostEntry(it, it.amount));
      if booked.Ok? {
        ForeignPaid(k, s, it, at);
      }
      CheckEnds(k.env, s, id, watch, at);
    } else {
      CheckMisses(k.env, s, id, watch, at);
    }
  }

  lemma CheckMisses(env: Env, s: Records, id: Str, watch: Watch, at: Time)
    requires id !in s.shelf.m
    ensures CheckOf(env, s, id, watch, at).0 == s
  {
  }

  /** The places a check can leave the store and the books. */
  lemma CheckEnds(env: Env, s: Records, id: Str, watch: Watch, at: Time)
    requires id in s.shelf.m
    ensures var it, after := s.shelf.m[id], CheckOf(env, s, id, watch, at).0;
      var booked := Journal.AppendTo(env.c, s.books, S.PostEntry(it, it.amount));
      || after == s
      || after == Pushed(env.h, s, it, Request(Settling, Actor.Listener, [], WHY, at), HandedBack).0
      || after == Pushed(env.h, s, it, Request(NeedsReview, Actor.Listener, [], WHY, at), SentToReview).0
      || (booked.Ok? && after == Pushed(env.h, s.(books := booked.value.journal), it, Request(Settled, Actor.Listener, it.txHash, [], at), Closed).0)
  {
    hide Pushed, Judged, Journal.AppendTo, S.PostEntry;
  }

  lemma IdsMatch(k: Case, s: Records, id: Str)
    requires Base(k, s) && id in s.shelf.m
    ensures s.shelf.m[id].id == id
  {
  }

  /** The listener's own move of this payment, as read. */
  lemma OwnPush(k: Case, s: Records, req: Request, out: Outcome)
    requires StoreOk(k, s.shelf) && req.at != 0
    requires Applied(s.shelf.m[k.it.id], req).Ok? && Applied(s.shelf.m[k.it.id], req).value.1
    ensures var (after, r) := Pushed(k.env.h, s, s.shelf.m[k.it.id], req, out);
      r == Ok(out) && StoreOk(k, after.shelf) && after.books == s.books && after.shelf.m[k.it.id] == Moved(s.shelf.m[k.it.id], req)
  {
    OwnMove(k, s.shelf, req);
  }

  lemma HandingBackApplies(it: Intent, at: Time)
    requires it.state == Confirming
    ensures Applied(it, Request(Settling, Actor.Listener, [], WHY, at)) == Ok((Moved(it, Request(Settling, Actor.Listener, [], WHY, at)), true))
  {
    assert |WHY| > 0;
  }

  /** A live payment whose transaction is lost goes back to the relayer. */
  lemma OwnLost(k: Case, s: Records, watch: Watch, at: Time)
    requires Live(k, s) && at != 0 && s.shelf.m[k.it.id].state == Confirming && VerdictOf(k, s.shelf.m[k.it.id], watch, at) == Some(Lost)
    ensures var (after, r) := CheckOf(k.env, s, k.it.id, watch, at); r == Ok(HandedBack) && Live(k, after)
  {
    var req := Request(Settling, Actor.Listener, [], WHY, at);
    HandingBackApplies(s.shelf.m[k.it.id], at);
    OwnPush(k, s, req, HandedBack);
    assert CheckOf(k.env, s, k.it.id, watch, at) == Pushed(k.env.h, s, s.shelf.m[k.it.id], req, HandedBack) by {
      hide Pushed, Judged, StoreOk, HoldOpen, Journal.WellFormed, Applied;
    }
    hide StoreOk, HoldOpen, Journal.WellFormed, Pushed, Judged, CheckOf, VerdictOf, Applied;
  }

  /** A check of the live payment leaves it live, or settles it on the hash it carries. */
  lemma OwnCheck(k: Case, s: Records, watch: Watch, at: Time) returns (paid: Option<Str>)
    requires Bookable(k) && Live(k, s) && Truthful(k, watch, at) && at != 0
    ensures var (after, r) := CheckOf(k.env, s, k.it.id, watch, at);
      && Fine(k, after, paid) && (r == Ok(Closed) <==> paid.Some?) && r != Err(Stored(VersionConflict))
      && (paid.Some? ==> s.shelf.m[k.it.id].state == Confirming && paid.value == s.shelf.m[k.it.id].txHash)
      && (s.shelf.m[k.it.id].state == Confirming && VerdictOf(k, s.shelf.m[k.it.id], watch, at) == Some(Paid) ==> paid.Some?)
      && (s.shelf.m[k.it.id].state == Confirming && VerdictOf(k, s.shelf.m[k.it.id], watch, at) == None ==> r.Err?)
  {
    var it := s.shelf.m[k.it.id];
    paid := None;
    if it.state == Confirming {
      assert IsCopy(k, it);
      var v := VerdictOf(k, it, watch, at);
      if v == Some(Lost) {
        OwnLost(k, s, watch, at);
        hide Live, PostedOn, Journal.WellFormed, Pushed, Judged, Truthful, CheckOf;
      } else if v == Some(Paid) {
        paid := Some(it.txHash);
        OwnSettle(k, s, watch, at);
        hide StoreOk, HoldOpen, PostedOn, Journal.WellFormed, Pushed, Judged, Truthful, CheckOf;
      } else {
        hide StoreOk, HoldOpen, Journal.WellFormed, Pushed, Judged;
      }
    }
  }

  lemma SettlingApplies(it: Intent, at: Time)
    requires it.state == Confirming && it.txHash != []
    ensures var req := Request(Settled, Actor.Listener, it.txHash, [], at); Applied(it, req) == Ok((Moved(it, req), true))
  {
  }

  lemma OwnSettle(k: Case, s: Records, watch: Watch, at: Time)
    requires Bookable(k) && Live(k, s) && at != 0 && s.shelf.m[k.it.id].state == Confirming
    requires VerdictOf(k, s.shelf.m[k.it.id], watch, at) == Some(Paid) && s.shelf.m[k.it.id].txHash in k.hashes
    ensures var (after, r) := CheckOf(k.env, s, k.it.id, watch, at);
      r == Ok(Closed) && Done(k, after, s.shelf.m[k.it.id].txHash)
  {
    var it := s.shelf.m[k.it.id];
    OwnPost(k, s.books, it);
    var mid := s.(books := Journal.AppendTo(k.env.c, s.books, S.PostEntry(it, it.amount)).value.journal);
    SettlingApplies(it, at);
    OwnPush(k, mid, Request(Settled, Actor.Listener, it.txHash, [], at), Closed);
    CheckPays(k, s, watch, at);
    hide StoreOk, HoldOpen, PostedOn, Journal.WellFormed, Journal.AppendTo, S.PostEntry, Pushed, Judged, CheckOf, VerdictOf, Applied;
  }

  lemma CheckPays(k: Case, s: Records, watch: Watch, at: Time)
    requires k.it.id in s.shelf.m && s.shelf.m[k.it.id].state == Confirming
    requires VerdictOf(k, s.shelf.m[k.it.id], watch, at) == Some(Paid)
    ensures var it := s.shelf.m[k.it.id];
      var booked := Journal.AppendTo(k.env.c, s.books, S.PostEntry(it, it.amount));
      var paid := Request(Settled, Actor.Listener, it.txHash, [], at);
      booked.Ok? ==> CheckOf(k.env, s, k.it.id, watch, at) == Pushed(k.env.h, s.(books := booked.value.journal), it, paid, Closed)
  {
    hide Journal.AppendTo, S.PostEntry, Pushed, Judged;
  }

  // ---- one transfer ----

  lemma ForeignAdvance(k: Case, s: Records, id: Str, req: Request)
    requires Base(k, s) && id != k.it.id
    ensures Untouched(k, s, AdvanceTo(k.env.h, s, id, req).0)
  {
    hide Journal.WellFormed, HoldOpen, PostedOn;
    if id in s.shelf.m && AdvanceResult(k.env.h, s.shelf, id, req).Ok? && AdvanceResult(k.env.h, s.shelf, id, req).value.1 {
      ForeignMove(k, s.shelf, s.shelf.m[id], req);
    }
    hide StoreOk;
  }

  lemma UntouchedTwice(k: Case, s: Records, mid: Records, after: Records)
    requires Untouched(k, s, mid) && Untouched(k, mid, after)
    ensures Untouched(k, s, after)
  {
    hide Base, HoldOpen, PostedOn;
  }

  lemma UntouchedSelf(k: Case, s: Records)
    requires Base(k, s)
    ensures Untouched(k, s, s)
  {
  }

  lemma ForeignAdopt(k: Case, s: Records, t: Transfer, id: Str, watch: Watch, at: Time)
    requires Base(k, s) && id != k.it.id
    ensures Untouched(k, s, Adopt(k.env, s, t, id, watch, at).0)
  {
    var req := Request(Confirming, Actor.Listener, t.txHash, [], at);
    ForeignAdvance(k, s, id, req);
    var mid := AdvanceTo(k.env.h, s, id, req).0;
    ForeignCheck(k, mid, id, watch, at);
    UntouchedTwice(k, s, mid, CheckOf(k.env, mid, id, watch, at).0);
    hide Base, Untouched, AdvanceTo, CheckOf;
  }

  /** A transfer of another payment, or of none, leaves this one alone. */
  lemma ForeignTransfer(k: Case, s: Records, t: Transfer, watch: Watch, at: Time)
    requires Base(k, s) && !Ours(k, t)
    ensures Untouched(k, s, Reconciled(k.env, k.chain, s, t, watch, at).0)
  {
    hide *;
    UntouchedSelf(k, s);
    ReconciledEnds(k.env, k.chain, s, t, watch, at);
    if t.ref in s.shelf.byRef && s.shelf.byRef[t.ref] in s.shelf.m {
      var id := s.shelf.byRef[t.ref];
      NotOurs(k, s, t, id);
      var back := Request(Settling, Actor.Listener, [], WHY, at);
      ForeignAdvance(k, s, id, back);
      var mid := AdvanceTo(k.env.h, s, id, back).0;
      UntouchedIsBase(k, s, mid);
      ForeignAdopt(k, mid, t, id, watch, at);
      UntouchedTwice(k, s, mid, Adopt(k.env, mid, t, id, watch, at).0);
      ForeignAdopt(k, s, t, id, watch, at);
      ForeignCheck(k, s, id, watch, at);
      CheckNoteKeeps(k.env, s, t, id, watch, at);
    }
  }

  lemma NotOurs(k: Case, s: Records, t: Transfer, id: Str)
    requires Base(k, s) && !Ours(k, t) && t.ref in s.shelf.byRef && s.shelf.byRef[t.ref] == id && id in s.shelf.m
    ensures id != k.it.id && s.shelf.m[id].id == id
  {
    hide Journal.WellFormed;
  }

  lemma UntouchedIsBase(k: Case, s: Records, after: Records)
    requires Untouched(k, s, after)
    ensures Base(k, after)
  {
    hide Base, HoldOpen, PostedOn;
  }

  lemma CheckNoteKeeps(env: Env, s: Records, t: Transfer, id: Str, watch: Watch, at: Time)
    ensures CheckNote(env, s, t, id, watch, at).0 == CheckOf(env, s, id, watch, at).0
  {
    hide CheckOf;
  }

  /** The places reconciling a transfer can leave the store and the books. */
  lemma ReconciledEnds(env: Env, chain: Str, s: Records, t: Transfer, watch: Watch, at: Time)
    ensures var after := Reconciled(env, chain, s, t, watch, at).0;
      || after == s
      || (t.ref in s.shelf.byRef && s.shelf.byRef[t.ref] in s.shelf.m
          && var id := s.shelf.m[s.shelf.byRef[t.ref]].id;
            var back := AdvanceTo(env.h, s, id, Request(Settling, Actor.Listener, [], WHY, at)).0;
            || after == CheckNote(env, s, t, id, watch, at).0
            || after == back
            || after == Adopt(env, back, t, id, watch, at).0
            || after == Adopt(env, s, t, id, watch, at).0)
  {
    hide AgainstPost, OwnTerms, CheckNote, AdvanceTo, Adopt;
  }

  /** What a run must say of a transfer once the payment is settled on `hash`. */
  ghost predicate Noted(k: Case, t: Transfer, note: Note, hash: Str) {
    if t.txHash == hash then note == Match(t, k.it.id, PostMatches) || note == Match(t, k.it.id, Checked(Closed))
    else note == Finding(PaidTwice, t, k.it.id)
  }

  lemma MerchantLegOf(it: Intent, amount: int)
    ensures MerchantLeg(S.PayLegs(it, amount), it.merchant) == Some(amount)
  {
    var legs := S.PayLegs(it, amount);
    assert legs[0].account[0] == 'p' as int && Ledger.MerchantAccount(it.merchant)[0] == 'm' as int;
    assert legs[1..] == [legs[1]];
  }

  lemma OwnRef(k: Case, s: Records, t: Transfer)
    requires StoreOk(k, s.shelf) && Ours(k, t)
    ensures t.ref in s.shelf.byRef && s.shelf.byRef[t.ref] == k.it.id && s.shelf.m[k.it.id].id == k.it.id && s.shelf.m[k.it.id].SameTerms(k.it)
  {
  }

  lemma TransferWhenDone(k: Case, s: Records, hash: Str, t: Transfer, watch: Watch, at: Time)
    requires Bookable(k) && Done(k, s, hash) && Ours(k, t) && Correct(k, t)
    ensures var (after, r) := Reconciled(k.env, k.chain, s, t, watch, at); after == s && r.Ok? && Noted(k, t, r.value, hash)
  {
    OwnRef(k, s, t);
    MerchantLegOf(k.it, k.it.amount);
    hide StoreOk, Journal.WellFormed, AdvanceTo, Adopt, CheckNote, S.PayLegs, Journal.Find;
  }

  /** This payment's own move, written: nothing else changes. */
  lemma OwnAdvance(k: Case, s: Records, req: Request)
    requires StoreOk(k, s.shelf) && req.at != 0 && Applied(s.shelf.m[k.it.id], req) == Ok((Moved(s.shelf.m[k.it.id], req), true))
    ensures var (after, r) := AdvanceTo(k.env.h, s, k.it.id, req);
      r == Ok(true) && StoreOk(k, after.shelf) && after.books == s.books && after.shelf.m[k.it.id] == Moved(s.shelf.m[k.it.id], req)
  {
    OwnMove(k, s.shelf, req);
    hide Applied, Moved, Saved;
  }

  lemma BackAndForth(k: Case, s: Records, at: Time)
    requires Live(k, s) && at != 0 && s.shelf.m[k.it.id].state == Confirming
    ensures var (after, r) := AdvanceTo(k.env.h, s, k.it.id, Request(Settling, Actor.Listener, [], WHY, at));
      r == Ok(true) && Live(k, after) && after.shelf.m[k.it.id].state == Settling
  {
    HandingBackApplies(s.shelf.m[k.it.id], at);
    OwnAdvance(k, s, Request(Settling, Actor.Listener, [], WHY, at));
    hide StoreOk, HoldOpen, Journal.WellFormed, Applied, AdvanceTo;
  }

  lemma ConfirmingApplies(it: Intent, hash: Str, at: Time)
    requires it.state == Settling && hash != []
    ensures var req := Request(Confirming, Actor.Listener, hash, [], at); Applied(it, req) == Ok((Moved(it, req), true))
  {
  }

  lemma Adopted(k: Case, s: Records, hash: Str, at: Time)
    requires Live(k, s) && at != 0 && s.shelf.m[k.it.id].state == Settling && hash != []
    ensures var (after, r) := AdvanceTo(k.env.h, s, k.it.id, Request(Confirming, Actor.Listener, hash, [], at));
      r == Ok(true) && Live(k, after) && after.shelf.m[k.it.id].state == Confirming && after.shelf.m[k.it.id].txHash == hash
  {
    ConfirmingApplies(s.shelf.m[k.it.id], hash, at);
    OwnAdvance(k, s, Request(Confirming, Actor.Listener, hash, [], at));
    hide StoreOk, HoldOpen, Journal.WellFormed, Applied, AdvanceTo;
  }

  ghost predicate SeesHash(k: Case, watch: Watch, at: Time, hash: Str) {
    forall it {:trigger VerdictOf(k, it, watch, at)} :: IsCopy(k, it) && it.txHash == hash ==>
      var v := VerdictOf(k, it, watch, at); v == None || v == Some(Paid)
  }

  /** Checking the payment on a hash the watcher sees either settles it or fails the run. */
  lemma CheckOnHash(k: Case, s: Records, t: Transfer, watch: Watch, at: Time) returns (paid: Option<Str>)
    requires Bookable(k) && Live(k, s) && Truthful(k, watch, at) && SeesHash(k, watch, at, t.txHash) && at != 0
    requires s.shelf.m[k.it.id].state == Confirming && s.shelf.m[k.it.id].txHash == t.txHash
    ensures var (after, r) := CheckNote(k.env, s, t, k.it.id, watch, at);
      Fine(k, after, paid) && (r.Ok? ==> paid == Some(t.txHash) && r.value == Match(t, k.it.id, Checked(Closed))) && (paid.Some? ==> paid.value == t.txHash)
  {
    paid := OwnCheck(k, s, watch, at);
    assert IsCopy(k, s.shelf.m[k.it.id]);
    hide Fine, CheckOf, Truthful, StoreOk, HoldOpen, Journal.WellFormed;
  }

  lemma AdoptOurs(k: Case, s: Records, t: Transfer, watch: Watch, at: Time) returns (paid: Option<Str>)
    requires Bookable(k) && Live(k, s) && Truthful(k, watch, at) && SeesHash(k, watch, at, t.txHash) && at != 0
    requires s.shelf.m[k.it.id].state == Settling && t.txHash != []
    ensures var (after, r) := Adopt(k.env, s, t, k.it.id, watch, at);
      Fine(k, after, paid) && (r.Ok? ==> paid == Some(t.txHash) && r.value == Match(t, k.it.id, Checked(Closed))) && (paid.Some? ==> paid.value == t.txHash)
  {
    Adopted(k, s, t.txHash, at);
    var mid := AdvanceTo(k.env.h, s, k.it.id, Request(Confirming, Actor.Listener, t.txHash, [], at)).0;
    paid := CheckOnHash(k, mid, t, watch, at);
    hide Fine, Live, CheckNote, AdvanceTo;
  }

  /** A correct transfer of a live payment is checked, or adopted, after taking another hash back. */
  lemma LiveGoes(k: Case, s: Records, t: Transfer, watch: Watch, at: Time)
    requires Live(k, s) && Ours(k, t) && Correct(k, t) && at != 0
    ensures k.it.id in s.shelf.m && t.txHash != []
    ensures var it := s.shelf.m[k.it.id];
      && (it.state == Confirming || it.state == Settling)
      && Reconciled(k.env, k.chain, s, t, watch, at) ==
           if it.state == Settling then Adopt(k.env, s, t, k.it.id, watch, at)
           else if it.txHash == t.txHash then CheckNote(k.env, s, t, k.it.id, watch, at)
           else Adopt(k.env, AdvanceTo(k.env.h, s, k.it.id, Request(Settling, Actor.Listener, [], WHY, at)).0, t, k.it.id, watch, at)
  {
    LiveIsOwn(k, s, t);
    if s.shelf.m[k.it.id].state == Confirming {
      BackAndForth(k, s, at);
    }
    hide Live, Ours, Correct, OwnTerms, CheckNote, AdvanceTo, Adopt, AgainstPost;
  }

  lemma LiveIsOwn(k: Case, s: Records, t: Transfer)
    requires Live(k, s) && Ours(k, t) && Correct(k, t)
    ensures t.ref != ZERO && t.ref in s.shelf.byRef && s.shelf.byRef[t.ref] == k.it.id && k.it.id in s.shelf.m && t.txHash != []
    ensures var it := s.shelf.m[k.it.id]; it.id == k.it.id && OwnTerms(k.chain, t, it) && (it.state == Confirming || it.state == Settling)
  {
    OwnRef(k, s, t);
    hide StoreOk, HoldOpen, Journal.WellFormed;
  }

  /** The first transfer of a live payment settles it on its own hash, or fails the run. */
  lemma TransferWhenLive(k: Case, s: Records, t: Transfer, watch: Watch, at: Time) returns (paid: Option<Str>)
    requires Bookable(k) && Live(k, s) && Ours(k, t) && Correct(k, t)
    requires Truthful(k, watch, at) && SeesHash(k, watch, at, t.txHash) && at != 0
    ensures var (after, r) := Reconciled(k.env, k.chain, s, t, watch, at);
      Fine(k, after, paid) && (r.Ok? ==> paid == Some(t.txHash) && r.value == Match(t, k.it.id, Checked(Closed))) && (paid.Some? ==> paid.value == t.txHash)
  {
    LiveGoes(k, s, t, watch, at);
    hide *;
    var it := s.shelf.m[k.it.id];
    if it.state == Confirming && it.txHash == t.txHash {
      paid := CheckOnHash(k, s, t, watch, at);
    } else if it.state == Confirming {
      BackAndForth(k, s, at);
      paid := AdoptOurs(k, AdvanceTo(k.env.h, s, k.it.id, Request(Settling, Actor.Listener, [], WHY, at)).0, t, watch, at);
    } else {
      paid := AdoptOurs(k, s, t, watch, at);
    }
  }
}
