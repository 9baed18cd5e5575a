/** What the journal takes and what it holds, said in the fields of the entries. */
module JournalRows {
  import opened Bytes
  import opened Ledger
  import opened Journal

  // ---- one entry ----

  function Sum(legs: seq<Leg>): int {
    if legs == [] then 0 else legs[0].amount + Sum(legs[1..])
  }

  lemma {:induction false} SumGrows(legs: seq<Leg>, last: Leg)
    ensures Sum(legs + [last]) == Sum(legs) + last.amount
  {
    if legs != [] {
      assert (legs + [last])[1..] == legs[1..] + [last];
      SumGrows(legs[1..], last);
    }
  }

  lemma {:induction false} TotalIsSum(legs: seq<Leg>)
    ensures Total(legs) == Sum(legs)
  {
    if legs != [] {
      TotalIsSum(legs[..|legs| - 1]);
      SumGrows(legs[..|legs| - 1], legs[|legs| - 1]);
      assert legs[..|legs| - 1] + [legs[|legs| - 1]] == legs;
    }
  }

  /** Somebody wrote it at some time about some payment in some asset. */
  predicate Attributed(e: Entry) {
    e.id != [] && e.ref != ZERO && e.asset.chain != [] && e.asset.token != [] && e.actor != [] && e.at != 0
  }

  /** Two accounts or more, each named once, and something moved on every one of them. */
  ghost predicate Legged(legs: seq<Leg>) {
    && |legs| >= 2
    && (forall leg :: leg in legs ==> leg.account != [] && leg.amount != 0)
    && (forall i, k :: 0 <= i < |legs| && 0 <= k < |legs| && legs[i].account == legs[k].account ==> i == k)
  }

  /** A hold points at nothing; a post and a void point at a hold, and a void moves nothing. */
  ghost predicate Shaped(e: Entry) {
    match e.kind
    case Hold => e.holds == [] && Legged(e.legs)
    case Post => e.holds != [] && Legged(e.legs)
    case Void => e.holds != [] && e.legs == []
    case Other(_) => false
  }

  lemma LegsSay(legs: seq<Leg>)
    ensures WellShaped(legs) <==> Legged(legs)
    ensures Total(legs) == Sum(legs)
  {
    TotalIsSum(legs);
    if Legged(legs) {
      forall i | 0 <= i < |legs| ensures legs[i].account != [] && legs[i].amount != 0 {
        assert legs[i] in legs;
      }
    }
  }

  /** An entry is sound when it is attributed, shaped as its kind is, and its legs cancel out. */
  ghost predicate SoundEntry(e: Entry) { Attributed(e) && Shaped(e) && Sum(e.legs) == 0 }

  lemma EntrySays(e: Entry)
    ensures EntryError(e) == None <==> SoundEntry(e)
    ensures EntryError(e) == Some(Unbalanced) <==> Attributed(e) && Shaped(e) && Sum(e.legs) != 0
    ensures EntryError(e) == Some(InvalidEntry) <==> !(Attributed(e) && Shaped(e))
  {
    LegsSay(e.legs);
    hide WellShaped, Legged, Total;
  }

  // ---- one call ----

  ghost predicate Taken(j: seq<Row>, id: Str) {
    exists i :: 0 <= i < |j| && j[i].entry.id == id
  }

  /** Row k is the hold that this post or void points at: of the same payment, in the same asset. */
  predicate HoldOf(j: seq<Row>, k: int, e: Entry) {
    && 0 <= k < |j| && j[k].entry.kind == Hold && j[k].entry.id == e.holds
    && j[k].entry.ref == e.ref && j[k].entry.asset.chain == e.asset.chain && j[k].entry.asset.token == e.asset.token
  }

  ghost predicate Held(j: seq<Row>, e: Entry) { exists k :: HoldOf(j, k, e) }

  /** A post or a void of this hold is on the books. */
  ghost predicate Spent(j: seq<Row>, hold: Str) {
    exists i :: 0 <= i < |j| && (j[i].entry.kind == Post || j[i].entry.kind == Void) && j[i].entry.holds == hold
  }

  lemma FindSays(j: seq<Row>, id: Str)
    ensures Find(j, id).Some? <==> Taken(j, id)
  {
  }

  lemma FitsSays(j: seq<Row>, e: Entry)
    requires UniqueIds(j)
    ensures Find(j, e.holds).Some? && HoldFits(j[Find(j, e.holds).value].entry, e) <==> Held(j, e)
  {
    var at := Find(j, e.holds);
    if at.Some? && HoldFits(j[at.value].entry, e) {
      assert HoldOf(j, at.value, e);
    }
    if k :| HoldOf(j, k, e) {
      FindsTheRow(j, k);
      assert j[k].entry.asset == e.asset;
    }
  }

  lemma ResolvedSays(j: seq<Row>, hold: Str)
    requires AllValid(j)
    ensures Resolved(j, hold) <==> Spent(j, hold)
  {
    forall i | 0 <= i < |j| ensures j[i].entry.kind == Hold || j[i].entry.kind == Post || j[i].entry.kind == Void {
      KindKnown(j[i].entry);
    }
    if i :| 0 <= i < |j| && (j[i].entry.kind == Post || j[i].entry.kind == Void) && j[i].entry.holds == hold {
      assert Resolves(j[i], hold);
    }
    hide EntryError;
  }

  /** What Append answers about a new entry, on a well-formed journal: it is written exactly when it is
      sound, its id is free, and, unless it is a hold, its hold is there and nobody has resolved it. */
  lemma AppendSays(c: RowHasher, j: seq<Row>, e: Entry)
    requires WellFormed(c, j)
    ensures var r, free := AppendTo(c, j, e), SoundEntry(e) && !Taken(j, e.id);
      && (r.Ok? && r.value.applied <==> free && (e.kind == Hold || (Held(j, e) && !Spent(j, e.holds))))
      && (r.Ok? && !r.value.applied <==> SoundEntry(e) && exists i :: 0 <= i < |j| && j[i].entry == e)
      && (r == Err(Conflict) <==> SoundEntry(e) && Taken(j, e.id) && forall i :: 0 <= i < |j| ==> j[i].entry != e)
      && (r == Err(NoSuchHold) <==> free && e.kind != Hold && !Held(j, e))
      && (r == Err(AlreadyResolved) <==> free && e.kind != Hold && Held(j, e) && Spent(j, e.holds))
      && (r == Err(Unbalanced) <==> Attributed(e) && Shaped(e) && Sum(e.legs) != 0)
      && (r == Err(InvalidEntry) <==> !(Attributed(e) && Shaped(e)))
  {
    EntrySays(e);
    FindSays(j, e.id);
    FitsSays(j, e);
    ResolvedSays(j, e.holds);
    SameEntry(j, e);
    hide EntryError, HoldFits, Resolved, Held, Spent, Shaped, Attributed, Taken, Chained, BehindHold, ResolvedOnce, AllValid, UniqueIds;
  }

  lemma SameEntry(j: seq<Row>, e: Entry)
    requires UniqueIds(j)
    ensures (exists i :: 0 <= i < |j| && j[i].entry == e) <==> Find(j, e.id).Some? && j[Find(j, e.id).value].entry == e
  {
    if i :| 0 <= i < |j| && j[i].entry == e {
      FindsTheRow(j, i);
    }
  }

  // ---- every journal ----

  ghost predicate RowSays(j: seq<Row>, i: nat)
    requires i < |j|
  {
    var e := j[i].entry;
    && SoundEntry(e)
    && (forall k :: 0 <= k < |j| && j[k].entry.id == e.id ==> k == i)
    && (e.kind != Hold ==> Held(j[..i], e) && forall k :: 0 <= k < |j| && j[k].entry.kind != Hold && j[k].entry.holds == e.holds ==> k == i)
  }

  lemma WellFormedSays(c: RowHasher, j: seq<Row>, i: nat)
    requires WellFormed(c, j) && i < |j|
    ensures RowSays(j, i)
  {
    EntrySays(j[i].entry);
    hide EntryError, SoundEntry, Chained;
    if j[i].entry.kind != Hold {
      var k :| 0 <= k < i && HoldsRow(j, i, k);
      assert HoldOf(j[..i], k, j[i].entry);
      forall n | 0 <= n < |j| && j[n].entry.kind != Hold && j[n].entry.holds == j[i].entry.holds ensures n == i {
        assert Resolves(j[n], j[i].entry.holds) && Resolves(j[i], j[n].entry.holds);
      }
    }
  }

  lemma {:induction false} RowsWereAsked(c: RowHasher, es: seq<Entry>)
    ensures forall i :: 0 <= i < |AppendAll(c, es)| ==> AppendAll(c, es)[i].entry in es
  {
    if es != [] {
      RowsWereAsked(c, es[..|es| - 1]);
      hide EntryError, Find;
    }
  }

  /** After any sequence of calls: every row is an entry somebody asked to append, sound, under an id of
      its own; a post or a void stands behind the hold of its payment, and is the only one of it. */
  lemma RowsSay(c: RowHasher, es: seq<Entry>, i: nat)
    requires i < |AppendAll(c, es)|
    ensures AppendAll(c, es)[i].entry in es && RowSays(AppendAll(c, es), i)
  {
    ReachableWellFormed(c, es);
    RowsWereAsked(c, es);
    hide AppendAll;
    WellFormedSays(c, AppendAll(c, es), i);
  }
}
