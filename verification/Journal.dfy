/** The append-only journal.  A row's digest covers its link, its position and its
    content; the digest function is a parameter, LedgerHash.RowHash in the product. */
module Journal {
  import opened Bytes
  import opened Ledger
  import LedgerHash

  type RowHasher = (Digest, nat, Entry) -> Digest

  /** An entry with the half that the journal fills in. */
  datatype Row = Row(entry: Entry, seqno: nat, prevHash: Digest, hash: Digest)

  // ---- the hash chain ----

  function PrevHash(j: seq<Row>, i: nat): Digest
    requires i <= |j|
  {
    if i == 0 then ZERO else j[i - 1].hash
  }

  predicate LinkOk(c: RowHasher, j: seq<Row>, i: nat)
    requires i < |j|
  {
    && j[i].seqno == i + 1
    && j[i].prevHash == PrevHash(j, i)
    && j[i].hash == c(j[i].prevHash, j[i].seqno, j[i].entry)
  }

  ghost predicate Chained(c: RowHasher, j: seq<Row>) {
    forall i :: 0 <= i < |j| ==> LinkOk(c, j, i)
  }

  /** Recompute the chain from the first row; report the first row that does not fit. */
  method Verify(c: RowHasher, j: seq<Row>) returns (broken: Option<nat>)
    ensures broken.None? <==> Chained(c, j)
    ensures broken.Some? ==> exists k :: 0 <= k < |j| && broken.value == j[k].seqno && !LinkOk(c, j, k)
                                        && forall i :: 0 <= i < k ==> LinkOk(c, j, i)
  {
    var prev: Digest := ZERO;
    var want := 1;
    for i := 0 to |j|
      invariant want == i + 1
      invariant prev == PrevHash(j, i)
      invariant forall k :: 0 <= k < i ==> LinkOk(c, j, k)
    {
      var e := j[i];
      if e.seqno != want || e.prevHash != prev || c(prev, e.seqno, e.entry) != e.hash {
        assert !LinkOk(c, j, i);
        return Some(e.seqno);
      }
      prev := e.hash;
      want := want + 1;
    }
    return None;
  }

  predicate SameRow(st: LedgerHash.Stamp, a: Row, b: Row) {
    a.seqno == b.seqno && a.prevHash == b.prevHash && a.hash == b.hash && LedgerHash.SameHashed(st, a.entry, b.entry)
  }

  function RowPreimage(st: LedgerHash.Stamp, r: Row): Str {
    LedgerHash.Preimage(st, r.prevHash, r.seqno, r.entry)
  }

  /** The hash does not give the same digest to two different preimages of these rows. */
  ghost predicate NoClash(h: Hasher, st: LedgerHash.Stamp, x: Row, y: Row) {
    h(RowPreimage(st, x)) == h(RowPreimage(st, y)) ==> RowPreimage(st, x) == RowPreimage(st, y)
  }

  ghost predicate NoClashes(h: Hasher, st: LedgerHash.Stamp, a: seq<Row>, b: seq<Row>) {
    forall m, n {:trigger NoClash(h, st, a[m], b[n])} :: 0 <= m < |a| && 0 <= n < |b| ==> NoClash(h, st, a[m], b[n])
  }

  /** Rows of two journals that carry the same digest are the same row. */
  ghost predicate DigestsPin(c: RowHasher, st: LedgerHash.Stamp, a: seq<Row>, b: seq<Row>) {
    forall m, n {:trigger SameRow(st, a[m], b[n])} ::
      0 <= m < |a| && 0 <= n < |b| && LinkOk(c, a, m) && LinkOk(c, b, n) && a[m].hash == b[n].hash
      ==> SameRow(st, a[m], b[n])
  }

  lemma {:induction false} WalkBack(c: RowHasher, st: LedgerHash.Stamp, a: seq<Row>, b: seq<Row>, i: nat)
    requires |a| == |b| && i < |a|
    requires Chained(c, a) && Chained(c, b) && DigestsPin(c, st, a, b)
    requires a[i].hash == b[i].hash
    ensures forall k :: 0 <= k <= i ==> SameRow(st, a[k], b[k])
  {
    assert LinkOk(c, a, i) && LinkOk(c, b, i);
    assert SameRow(st, a[i], b[i]);
    if i > 0 {
      WalkBack(c, st, a, b, i - 1);
    }
  }

  /** Tamper evidence: one digest kept in a safe place pins down the whole journal.
      Two journals that verify and end in the same digest have the same length and agree
      in every hashed field of every row, unless the hash collides on a row of each. */
  lemma LastHashPinsJournal(h: Hasher, st: LedgerHash.Stamp, a: seq<Row>, b: seq<Row>)
    requires a != [] && b != []
    requires Chained(LedgerHash.RowHash(h, st), a) && Chained(LedgerHash.RowHash(h, st), b)
    requires a[|a| - 1].hash == b[|b| - 1].hash
    requires NoClashes(h, st, a, b)
    ensures |a| == |b|
    ensures forall i :: 0 <= i < |a| ==> SameRow(st, a[i], b[i])
  {
    var c := LedgerHash.RowHash(h, st);
    assert LinkOk(c, a, |a| - 1) && LinkOk(c, b, |b| - 1);
    forall m, n | 0 <= m < |a| && 0 <= n < |b| && LinkOk(c, a, m) && LinkOk(c, b, n) && a[m].hash == b[n].hash
      ensures SameRow(st, a[m], b[n])
    {
      assert NoClash(h, st, a[m], b[n]);
      SameDigestSameRow(h, st, a, m, b, n);
    }
    hide LedgerHash.RowHash, SameRow, NoClashes;
    assert SameRow(st, a[|a| - 1], b[|b| - 1]);
    SameRowSamePlace(st, a[|a| - 1], b[|b| - 1]);
    assert |a| == |b|;
    WalkBack(c, st, a, b, |a| - 1);
  }

  lemma SameRowSamePlace(st: LedgerHash.Stamp, a: Row, b: Row)
    requires SameRow(st, a, b)
    ensures a.seqno == b.seqno
  {
  }

  lemma SameDigestSameRow(h: Hasher, st: LedgerHash.Stamp, a: seq<Row>, m: nat, b: seq<Row>, n: nat)
    requires m < |a| && n < |b| && LinkOk(LedgerHash.RowHash(h, st), a, m) && LinkOk(LedgerHash.RowHash(h, st), b, n)
    requires a[m].hash == b[n].hash && NoClash(h, st, a[m], b[n])
    ensures SameRow(st, a[m], b[n])
  {
    hide LedgerHash.Preimage, LedgerHash.SameHashed;
    LedgerHash.PreimageInjective(st, a[m].prevHash, a[m].seqno, a[m].entry, b[n].prevHash, b[n].seqno, b[n].entry);
  }

  // ---- appending ----

  function Find(j: seq<Row>, id: Str): (r: Option<nat>)
    ensures r.Some? ==> r.value < |j| && j[r.value].entry.id == id
    ensures r.None? ==> forall i :: 0 <= i < |j| ==> j[i].entry.id != id
  {
    if j == [] then None
    else if j[|j| - 1].entry.id == id then Some(|j| - 1)
    else Find(j[..|j| - 1], id)
  }

  predicate Resolves(r: Row, hold: Str) {
    r.entry.kind != Hold && r.entry.holds == hold
  }

  predicate Resolved(j: seq<Row>, hold: Str) {
    exists i :: 0 <= i < |j| && Resolves(j[i], hold)
  }

  predicate HoldFits(hold: Entry, e: Entry) {
    hold.kind == Hold && hold.ref == e.ref && hold.asset == e.asset
  }

  function Link(c: RowHasher, j: seq<Row>, e: Entry): Row {
    Row(e, |j| + 1, PrevHash(j, |j|), c(PrevHash(j, |j|), |j| + 1, e))
  }

  datatype Appended = Appended(journal: seq<Row>, row: Row, applied: bool)

  /** What one call of Append does to a journal. */
  function AppendTo(c: RowHasher, j: seq<Row>, e: Entry): Result<Appended, Error> {
    if EntryError(e).Some? then Err(EntryError(e).value)
    else if Find(j, e.id).Some? then
      var row := j[Find(j, e.id).value];
      if row.entry == e then Ok(Appended(j, row, false)) else Err(Conflict)
    else if e.kind == Hold then Ok(Appended(j + [Link(c, j, e)], Link(c, j, e), true))
    else
      var target := Find(j, e.holds);
      if target.None? || !HoldFits(j[target.value].entry, e) then Err(NoSuchHold)
      else if Resolved(j, e.holds) then Err(AlreadyResolved)
      else Ok(Appended(j + [Link(c, j, e)], Link(c, j, e), true))
  }

  ghost predicate AllValid(j: seq<Row>) {
    forall i :: 0 <= i < |j| ==> EntryError(j[i].entry) == None
  }

  ghost predicate UniqueIds(j: seq<Row>) {
    forall i, k :: 0 <= i < k < |j| ==> j[i].entry.id != j[k].entry.id
  }

  predicate HoldsRow(j: seq<Row>, i: nat, k: nat) {
    k < i < |j| && j[k].entry.id == j[i].entry.holds && HoldFits(j[k].entry, j[i].entry)
  }

  /** Every post or void stands behind the hold it resolves. */
  ghost predicate BehindHold(j: seq<Row>) {
    forall i :: 0 <= i < |j| && j[i].entry.kind != Hold ==> exists k :: 0 <= k < i && HoldsRow(j, i, k)
  }

  /** A hold is resolved at most once, by a post or by a void. */
  ghost predicate ResolvedOnce(j: seq<Row>) {
    forall i, k :: 0 <= i < k < |j| && j[i].entry.kind != Hold ==> !Resolves(j[k], j[i].entry.holds)
  }

  ghost predicate WellFormed(c: RowHasher, j: seq<Row>) {
    AllValid(j) && UniqueIds(j) && Chained(c, j) && BehindHold(j) && ResolvedOnce(j)
  }

  lemma BehindHoldExtends(j: seq<Row>, r: Row)
    requires BehindHold(j)
    requires r.entry.kind != Hold ==> exists k :: 0 <= k < |j| && HoldsRow(j + [r], |j|, k)
    ensures BehindHold(j + [r])
  {
    var j' := j + [r];
    forall i | 0 <= i < |j'| && j'[i].entry.kind != Hold
      ensures exists k :: 0 <= k < i && HoldsRow(j', i, k)
    {
      if i < |j| {
        var k :| 0 <= k < i && HoldsRow(j, i, k);
        assert HoldsRow(j', i, k);
      }
    }
  }

  lemma ResolvedOnceExtends(j: seq<Row>, r: Row)
    requires ResolvedOnce(j)
    requires r.entry.kind != Hold ==> !Resolved(j, r.entry.holds)
    ensures ResolvedOnce(j + [r])
  {
    var j' := j + [r];
    forall i | 0 <= i < |j| && j[i].entry.kind != Hold
      ensures !Resolves(j'[|j|], j[i].entry.holds)
    {
      if r.entry.kind != Hold {
        assert !Resolves(j[i], r.entry.holds);
      }
    }
  }

  lemma ChainedExtends(c: RowHasher, j: seq<Row>, e: Entry)
    requires Chained(c, j)
    ensures Chained(c, j + [Link(c, j, e)])
  {
    var j' := j + [Link(c, j, e)];
    assert forall i :: 0 <= i < |j| ==> LinkOk(c, j, i) ==> LinkOk(c, j', i);
    assert LinkOk(c, j', |j|);
  }

  /** One Append, refused, replayed or written, keeps a journal well formed and only
      ever adds rows at its end. */
  lemma AppendKeepsWellFormed(c: RowHasher, j: seq<Row>, e: Entry)
    requires WellFormed(c, j) && AppendTo(c, j, e).Ok?
    ensures var a := AppendTo(c, j, e).value;
      && WellFormed(c, a.journal)
      && j <= a.journal
      && a.row in a.journal && a.row.entry == e
      && (a.applied <==> a.journal == j + [a.row]) && (!a.applied <==> a.journal == j)
  {
    var a := AppendTo(c, j, e).value;
    if a.applied {
      ChainedExtends(c, j, e);
      if e.kind != Hold {
        assert HoldsRow(a.journal, |j|, Find(j, e.holds).value);
      }
      BehindHoldExtends(j, a.row);
      ResolvedOnceExtends(j, a.row);
    }
  }

  /** The journal after any sequence of calls, refused ones included. */
  function AppendAll(c: RowHasher, es: seq<Entry>): seq<Row> {
    if es == [] then []
    else
      var j := AppendAll(c, es[..|es| - 1]);
      var r := AppendTo(c, j, es[|es| - 1]);
      if r.Ok? then r.value.journal else j
  }

  /** Every journal that Append can reach is well formed; in particular it verifies. */
  lemma {:induction false} ReachableWellFormed(c: RowHasher, es: seq<Entry>)
    ensures WellFormed(c, AppendAll(c, es))
  {
    if es != [] {
      ReachableWellFormed(c, es[..|es| - 1]);
      if AppendTo(c, AppendAll(c, es[..|es| - 1]), es[|es| - 1]).Ok? {
        AppendKeepsWellFormed(c, AppendAll(c, es[..|es| - 1]), es[|es| - 1]);
      }
    }
  }

  /** Ids are unique, so looking one up finds the only row that carries it. */
  lemma FindsTheRow(j: seq<Row>, i: nat)
    requires UniqueIds(j) && i < |j|
    ensures Find(j, j[i].entry.id) == Some(i)
  {
    var r := Find(j, j[i].entry.id);
    assert r.Some?;
    assert !(r.value < i) && !(i < r.value);
  }

  lemma ResolvedExtends(j: seq<Row>, r: Row, id: Str)
    ensures Resolved(j + [r], id) <==> Resolved(j, id) || Resolves(r, id)
  {
    var j' := j + [r];
    assert Resolves(j'[|j|], id) <==> Resolves(r, id);
    assert forall i :: 0 <= i < |j| ==> (Resolves(j'[i], id) <==> Resolves(j[i], id));
  }

  /** The two indexes say what a search of the rows would say. */
  ghost predicate Indexed(j: seq<Row>, byID: map<Str, nat>, resolved: set<Str>) {
    && (forall i :: 0 <= i < |j| ==> j[i].entry.id in byID && byID[j[i].entry.id] == i)
    && (forall id :: id in byID ==> byID[id] < |j| && j[byID[id]].entry.id == id)
    && (forall id :: id in resolved <==> Resolved(j, id))
  }

  lemma IndexedExtends(j: seq<Row>, byID: map<Str, nat>, resolved: set<Str>, r: Row)
    requires Indexed(j, byID, resolved) && r.entry.id !in byID
    ensures Indexed(j + [r], byID[r.entry.id := |j|], if r.entry.kind == Hold then resolved else resolved + {r.entry.holds})
  {
    forall id ensures Resolved(j + [r], id) <==> Resolved(j, id) || Resolves(r, id) {
      ResolvedExtends(j, r, id);
    }
  }

  lemma KindKnown(e: Entry)
    ensures EntryError(e) == None ==> e.kind == Hold || e.kind == Post || e.kind == Void
  {
  }

  /** The in-memory journal: the rows and the two indexes that Append consults. */
  class MemoryJournal {
    const c: RowHasher
    var entries: seq<Row>
    var byID: map<Str, nat>
    var resolved: set<Str>

    ghost predicate Valid()
      reads this
    {
      WellFormed(c, entries) && Indexed(entries, byID, resolved)
    }

    constructor (c: RowHasher)
      ensures Valid() && entries == [] && this.c == c
    {
      this.c := c;
      entries, byID, resolved := [], map[], {};
    }

    /** What the indexes answer is what a search of the rows would find. */
    lemma Lookup(id: Str)
      requires Valid()
      ensures id in byID ==> Find(entries, id) == Some(byID[id])
      ensures id !in byID ==> Find(entries, id) == None
      ensures id in byID ==> byID[id] < |entries|
      ensures id in resolved <==> Resolved(entries, id)
    {
      hide Resolved;
      if id in byID {
        FindsTheRow(entries, byID[id]);
      }
    }

    method Append(e: Entry) returns (r: Result<(Row, bool), Error>)
      requires Valid()
      modifies this
      ensures Valid()
      ensures match AppendTo(c, old(entries), e)
              case Ok(a) => entries == a.journal && r == Ok((a.row, a.applied))
              case Err(x) => entries == old(entries) && r == Err(x)
    {
      hide WellFormed, Indexed, Resolved, EntryError;
      var err := Validate(e);
      if err.Some? {
        return Err(err.value);
      }
      KindKnown(e);
      Lookup(e.id);
      Lookup(e.holds);
      if e.id in byID {
        var row := entries[byID[e.id]];
        if row.entry == e {
          return Ok((row, false));
        }
        return Err(Conflict);
      }
      if e.kind == Post || e.kind == Void {
        if e.holds !in byID {
          return Err(NoSuchHold);
        }
        var hold := entries[byID[e.holds]].entry;
        if hold.kind != Hold || hold.ref != e.ref || hold.asset != e.asset {
          return Err(NoSuchHold);
        }
        if e.holds in resolved {
          return Err(AlreadyResolved);
        }
      }
      var row := Write(e);
      return Ok((row, true));
    }

    /** The last step of Append: number the row, link it, index it. */
    method Write(e: Entry) returns (row: Row)
      requires Valid() && AppendTo(c, entries, e).Ok? && e.id !in byID
      modifies this
      ensures Valid()
      ensures AppendTo(c, old(entries), e) == Ok(Appended(entries, row, true))
    {
      hide WellFormed;
      hide Indexed;
      Lookup(e.id);
      AppendKeepsWellFormed(c, entries, e);
      ghost var appended := AppendTo(c, entries, e).value;
      var prev: Digest := ZERO;
      if |entries| > 0 {
        prev := entries[|entries| - 1].hash;
      }
      row := Row(e, |entries| + 1, prev, c(prev, |entries| + 1, e));
      IndexedExtends(entries, byID, resolved, row);
      entries := entries + [row];
      byID := byID[e.id := |entries| - 1];
      if e.kind != Hold {
        resolved := resolved + {e.holds};
      }
      assert appended == Appended(entries, row, true);
    }
  }
}
