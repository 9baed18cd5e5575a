/** What every interleaving of the settlement protocol keeps: the invariant that ties the
    actors' stale copies to the store and to the books. */
module SettlementInvariant {
  import opened Bytes
  import opened Intent
  import opened Settlement
  import Ledger
  import Journal

  // ---- copies ----

  /** `it` was read from this shelf at some earlier time. */
  ghost predicate Copy(m: map<Str, Intent>, it: Intent) {
    && Sound(it)
    && it.id in m
    && m[it.id].SameTerms(it)
    && it.version <= m[it.id].version
    && (it.version == m[it.id].version ==> it == m[it.id])
    && (m[it.id].state.Untouched() ==> it.state.Untouched())
  }

  predicate OnBooks(j: Books, e: Ledger.Entry) {
    exists i :: 0 <= i < |j| && j[i].entry == e
  }

  /** What actor `l` knows at its program counter. */
  ghost predicate Knows(m: map<Str, Intent>, j: Books, l: Local) {
    match l
    case Idle => true
    case Claiming(it) => Copy(m, it) && it.state == Authorized
    case Holding(it) => Copy(m, it) && it.state == Settling
    case Sending(it) => Copy(m, it) && it.state == Settling && OnBooks(j, HoldEntry(it))
    case Rescuing(it) => Copy(m, it) && it.state == Settling
    case Voiding(it, _) => Copy(m, it) && it.state == Settling
    case Posting(it) => Copy(m, it) && it.state == Confirming
    case Saving(it, req) =>
      && Copy(m, it)
      && (req.actor == Relayer ==> req.to == Confirming || req.to == NeedsReview || req.to == Failed)
      && (req.to == Settled && req.actor == Listener ==> req.txHash == it.txHash && OnBooks(j, PostEntry(it, it.amount)))
  }

  // ---- the books ----

  function Strip(e: Ledger.Entry): Ledger.Entry { e.(at := 0, txHash := []) }

  /** e is the hold, the post or the void of this payment, in full, for its own amount. */
  predicate EntryOf(it: Intent, e: Ledger.Entry) {
    || (Strip(e) == Strip(HoldEntry(it)) && e.txHash == [])
    || Strip(e) == Strip(PostEntry(it, it.amount))
    || Strip(e) == Strip(VoidEntry(it))
  }

  ghost predicate Belongs(m: map<Str, Intent>, e: Ledger.Entry) {
    exists id :: id in m && EntryOf(m[id], e)
  }

  predicate SettledByListener(it: Intent) {
    it.state == Settled && it.history != [] && it.history[|it.history| - 1].actor == Listener
  }

  /** The post of a settled payment: its hash is the intent's, its legs move the amount. */
  ghost predicate PostedFor(j: Books, it: Intent) {
    exists i :: 0 <= i < |j| && Strip(j[i].entry) == Strip(PostEntry(it, it.amount)) && j[i].entry.txHash == it.txHash
  }

  // ---- claims ----

  predicate Claims(l: Local, id: Str) {
    (l.Holding? || l.Sending?) && l.it.id == id
  }

  ghost predicate ShelfOk(m: map<Str, Intent>, j: Books) {
    && (forall id :: id in m ==> m[id].id == id && Sound(m[id]))
    && (forall id :: id in m && SettledByListener(m[id]) ==> PostedFor(j, m[id]))
  }

  ghost predicate LocalsOk(m: map<Str, Intent>, j: Books, locals: map<nat, Local>) {
    forall a :: a in locals ==> Knows(m, j, locals[a])
  }

  ghost predicate BooksOk(m: map<Str, Intent>, j: Books) {
    forall i :: 0 <= i < |j| ==> Belongs(m, j[i].entry)
  }

  /** At most one actor carries the claim on an intent, and it has not sent yet. */
  ghost predicate ClaimsOk(locals: map<nat, Local>, broadcasts: seq<Broadcast>) {
    && (forall a, b, id :: a in locals && b in locals && Claims(locals[a], id) && Claims(locals[b], id) ==> a == b)
    && (forall a, id :: a in locals && Claims(locals[a], id) ==> Sent(id) !in broadcasts)
    && (forall i, k :: 0 <= i < k < |broadcasts| && broadcasts[i].Sent? ==> broadcasts[i] != broadcasts[k])
  }

  /** Nothing was ever sent for an intent that no relayer has claimed. */
  ghost predicate UntouchedOk(m: map<Str, Intent>, locals: map<nat, Local>, broadcasts: seq<Broadcast>) {
    && (forall b :: b in broadcasts ==> b.id in m && !m[b.id].state.Untouched())
    && (forall a, id :: a in locals && Claims(locals[a], id) ==> id in m && !m[id].state.Untouched())
  }

  ghost predicate Inv(c: Journal.RowHasher, w: World) {
    && Journal.WellFormed(c, w.books)
    && ShelfOk(w.shelf.m, w.books)
    && LocalsOk(w.shelf.m, w.books, w.locals)
    && BooksOk(w.shelf.m, w.books)
    && ClaimsOk(w.locals, w.broadcasts)
    && UntouchedOk(w.shelf.m, w.locals, w.broadcasts)
  }

  // ---- growing the books ----

  lemma OnBooksStays(j: Books, k: Books, e: Ledger.Entry)
    requires j <= k && OnBooks(j, e)
    ensures OnBooks(k, e)
  {
    var i :| 0 <= i < |j| && j[i].entry == e;
    assert k[i].entry == e;
  }

  lemma KnowsStays(m: map<Str, Intent>, j: Books, k: Books, l: Local)
    requires j <= k && Knows(m, j, l)
    ensures Knows(m, k, l)
  {
    if l.Sending? {
      OnBooksStays(j, k, HoldEntry(l.it));
    } else if l.Saving? && l.req.to == Settled && l.req.actor == Listener {
      OnBooksStays(j, k, PostEntry(l.it, l.it.amount));
    }
  }

  lemma ShelfStays(m: map<Str, Intent>, j: Books, k: Books)
    requires j <= k && ShelfOk(m, j)
    ensures ShelfOk(m, k)
  {
    forall id | id in m && SettledByListener(m[id])
      ensures PostedFor(k, m[id])
    {
      var i :| 0 <= i < |j| && Strip(j[i].entry) == Strip(PostEntry(m[id], m[id].amount)) && j[i].entry.txHash == m[id].txHash;
      assert k[i] == j[i];
    }
  }

  /** Appending an entry of a payment that is on the shelf keeps all but the program counters. */
  lemma AppendKeeps(c: Journal.RowHasher, w: World, it: Intent, e: Ledger.Entry)
    requires Inv(c, w) && Copy(w.shelf.m, it) && EntryOf(it, e) && Journal.AppendTo(c, w.books, e).Ok?
    ensures Inv(c, w.(books := Journal.AppendTo(c, w.books, e).value.journal))
    ensures OnBooks(Journal.AppendTo(c, w.books, e).value.journal, e)
  {
    hide Journal.WellFormed, Journal.AppendTo, Knows, ShelfOk, PostedFor;
    var a := Journal.AppendTo(c, w.books, e).value;
    Journal.AppendKeepsWellFormed(c, w.books, e);
    var m := w.shelf.m;
    ShelfStays(m, w.books, a.journal);
    forall l: Local | Knows(m, w.books, l) ensures Knows(m, a.journal, l) {
      KnowsStays(m, w.books, a.journal, l);
    }
    EntryOfTerms(it, m[it.id], e);
    assert Belongs(m, a.row.entry);
  }

  lemma EntryOfTerms(a: Intent, b: Intent, e: Ledger.Entry)
    requires a.SameTerms(b) || b.SameTerms(a)
    ensures EntryOf(a, e) <==> EntryOf(b, e)
    ensures Strip(PostEntry(a, a.amount)) == Strip(PostEntry(b, b.amount))
  {
  }

  // ---- moving an actor ----

  lemma MoveKeeps(c: Journal.RowHasher, w: World, a: nat, l: Local)
    requires Inv(c, w) && Knows(w.shelf.m, w.books, l)
    requires forall id :: Claims(l, id) ==> a in w.locals && Claims(w.locals[a], id)
    ensures Inv(c, w.(locals := w.locals[a := l]))
  {
    hide Journal.WellFormed, Knows, ShelfOk, BooksOk;
  }

  // ---- compare and swap ----

  /** A winning write: the new intent is the stored one moved along the table. */
  lemma SwapMoves(h: Hasher, s: Shelf, it: Intent, req: Request)
    requires Copy(s.m, it) && CompareAndSwap(h, s, it, req).Some?
    ensures var (s', it') := CompareAndSwap(h, s, it, req).value;
      && it == s.m[it.id] && it' == Moved(it, req) && s'.m == s.m[it.id := it']
      && Applied(it, req) == Ok((it', true)) && Sound(it') && it'.SameTerms(it) && it'.state == req.to
      && it'.version == it.version + 1 && !it.state.Terminal()
      && (it'.state.Untouched() ==> it.state.Untouched())
  {
    AppliedKeepsSound(it, req);
  }

  lemma CopyStays(m: map<Str, Intent>, it: Intent, it': Intent, other: Intent)
    requires it.id in m && m[it.id] == it && it'.SameTerms(it) && it'.version == it.version + 1
    requires it'.state.Untouched() ==> it.state.Untouched()
    requires Copy(m, other)
    ensures Copy(m[it.id := it'], other)
  {
  }

  lemma KnowsStaysSwapped(m: map<Str, Intent>, j: Books, it: Intent, it': Intent, l: Local)
    requires it.id in m && m[it.id] == it && it'.SameTerms(it) && it'.version == it.version + 1
    requires it'.state.Untouched() ==> it.state.Untouched()
    requires Knows(m, j, l)
    ensures Knows(m[it.id := it'], j, l)
  {
    hide Copy;
    if !l.Idle? {
      CopyStays(m, it, it', l.it);
    }
  }

  /** it' is what the shelf holds for a payment after a winning write over `it`. */
  ghost predicate Replaces(m: map<Str, Intent>, it: Intent, it': Intent) {
    && it.id in m && m[it.id] == it && Sound(it') && it'.SameTerms(it) && it'.version == it.version + 1
    && !it.state.Terminal() && (it'.state.Untouched() ==> it.state.Untouched())
  }

  lemma BooksStaySwapped(m: map<Str, Intent>, j: Books, it: Intent, it': Intent)
    requires Replaces(m, it, it') && BooksOk(m, j)
    ensures BooksOk(m[it.id := it'], j)
  {
    forall i | 0 <= i < |j| ensures Belongs(m[it.id := it'], j[i].entry) {
      var id :| id in m && EntryOf(m[id], j[i].entry);
      EntryOfTerms(it', it, j[i].entry);
      assert EntryOf(m[it.id := it'][id], j[i].entry);
    }
  }

  lemma ShelfStaysSwapped(m: map<Str, Intent>, j: Books, it: Intent, it': Intent)
    requires Replaces(m, it, it') && ShelfOk(m, j)
    requires SettledByListener(it') ==> PostedFor(j, it')
    ensures ShelfOk(m[it.id := it'], j)
  {
    hide Sound, PostedFor;
  }

  lemma PostIsPosted(j: Books, it: Intent, it': Intent)
    requires OnBooks(j, PostEntry(it, it.amount)) && it'.SameTerms(it) && it'.txHash == it.txHash
    ensures PostedFor(j, it')
  {
    var i :| 0 <= i < |j| && j[i].entry == PostEntry(it, it.amount);
    EntryOfTerms(it', it, j[i].entry);
    assert Strip(j[i].entry) == Strip(PostEntry(it', it'.amount));
  }

  lemma PostIfSettled(j: Books, it: Intent, req: Request)
    requires req.to == Settled && req.actor == Listener ==> req.txHash == it.txHash && OnBooks(j, PostEntry(it, it.amount))
    ensures SettledByListener(Moved(it, req)) ==> PostedFor(j, Moved(it, req))
  {
    hide PostedFor, OnBooks, PostEntry;
    if SettledByListener(Moved(it, req)) {
      PostIsPosted(j, it, Moved(it, req));
    }
  }

  lemma SwapKeeps(c: Journal.RowHasher, h: Hasher, w: World, it: Intent, req: Request)
    requires Inv(c, w) && Copy(w.shelf.m, it) && CompareAndSwap(h, w.shelf, it, req).Some?
    requires req.to == Settled && req.actor == Listener ==> req.txHash == it.txHash && OnBooks(w.books, PostEntry(it, it.amount))
    ensures Inv(c, w.(shelf := CompareAndSwap(h, w.shelf, it, req).value.0))
    ensures Copy(CompareAndSwap(h, w.shelf, it, req).value.0.m, CompareAndSwap(h, w.shelf, it, req).value.1)
  {
    hide Journal.WellFormed, Knows, CompareAndSwap, Sound, ClaimsOk, ShelfOk, BooksOk, PostedFor, SettledByListener, Applied, Moved;
    SwapMoves(h, w.shelf, it, req);
    var (s', it') := CompareAndSwap(h, w.shelf, it, req).value;
    PostIfSettled(w.books, it, req);
    BooksStaySwapped(w.shelf.m, w.books, it, it');
    ShelfStaysSwapped(w.shelf.m, w.books, it, it');
    forall l: Local | Knows(w.shelf.m, w.books, l) ensures Knows(s'.m, w.books, l) {
      KnowsStaysSwapped(w.shelf.m, w.books, it, it', l);
    }
  }
}
