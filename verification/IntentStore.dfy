/** The store among callers that know nothing of each other: who wins a write, and what is ever stored. */
module IntentStore {
  import opened Bytes
  import opened Intent
  import PaymentRef

  /** One call of Save: what to store, and the version it is to replace. */
  datatype Write = Write(it: Intent, expected: nat)

  function SaveAll(h: Hasher, ws: seq<Write>): Shelf {
    if ws == [] then Shelf(map[], map[])
    else
      var s, w := SaveAll(h, ws[..|ws| - 1]), ws[|ws| - 1];
      var r := Saved(h, s, w.it, w.expected);
      if r.Ok? then r.value else s
  }

  predicate Won(h: Hasher, ws: seq<Write>, i: nat)
    requires i < |ws|
  {
    Saved(h, SaveAll(h, ws[..i]), ws[i].it, ws[i].expected).Ok?
  }

  /** The ref is the digest of these seven fields. */
  predicate OwnRef(h: Hasher, it: Intent) {
    it.ref == h(PaymentRef.PutAll([PaymentRef.DOMAIN, it.id, it.chain, it.token, it.payer, it.merchant, Decimal(it.amount)]))
  }

  /** The version stored under an id; 0 when there is none. */
  function VersionOf(s: Shelf, id: Str): nat { if id in s.m then s.m[id].version else 0 }

  /** What every sequence of writes keeps: each intent under its own id and its own ref, and each ref leading
      to an intent that has it. */
  ghost predicate Proper(h: Hasher, s: Shelf) {
    && (forall id :: id in s.m ==> s.m[id].id == id && OwnRef(h, s.m[id]) && s.m[id].ref in s.byRef)
    && (forall ref :: ref in s.byRef ==> s.byRef[ref] in s.m)
  }

  /** A write wins exactly when it names the version that is there and carries the ref of its own terms; and
      it then changes that one intent. */
  lemma WinsWhen(h: Hasher, s: Shelf, it: Intent, expected: nat)
    requires Versioned(s)
    ensures var r := Saved(h, s, it, expected);
      && (r.Ok? <==> expected == VersionOf(s, it.id) && OwnRef(h, it))
      && (r == Err(VersionConflict) <==> expected != VersionOf(s, it.id))
      && (r.Ok? ==> r.value == Shelf(s.m[it.id := it], s.byRef[it.ref := it.id]))
  {
  }

  ghost predicate Counted(ws: seq<Write>) {
    forall i :: 0 <= i < |ws| ==> ws[i].it.version == ws[i].expected + 1
  }

  lemma SaveAllStep(h: Hasher, ws: seq<Write>)
    requires ws != []
    ensures var s, w := SaveAll(h, ws[..|ws| - 1]), ws[|ws| - 1];
      var r := Saved(h, s, w.it, w.expected); SaveAll(h, ws) == if r.Ok? then r.value else s
  {
    hide Saved;
  }

  lemma StaysProper(h: Hasher, s: Shelf, it: Intent)
    requires Proper(h, s) && OwnRef(h, it)
    ensures Proper(h, Shelf(s.m[it.id := it], s.byRef[it.ref := it.id]))
  {
    hide OwnRef;
  }

  ghost predicate Versioned(s: Shelf) { forall id :: id in s.m ==> s.m[id].version > 0 }

  /** Whatever is written, well versioned or not, what is stored is proper. */
  lemma {:induction false} StoredIsProper(h: Hasher, ws: seq<Write>)
    ensures Proper(h, SaveAll(h, ws)) && (Counted(ws) ==> Versioned(SaveAll(h, ws)))
  {
    hide *;
    if ws == [] {
      NothingSaved(h);
    } else {
      var w, s := ws[|ws| - 1], SaveAll(h, ws[..|ws| - 1]);
      StoredIsProper(h, ws[..|ws| - 1]);
      CountedFront(ws);
      SaveAllStep(h, ws);
      SavedSays(h, s, w.it, w.expected);
      if Saved(h, s, w.it, w.expected).Ok? {
        StaysProper(h, s, w.it);
        StaysVersioned(s, w.it);
      }
    }
  }

  lemma NothingSaved(h: Hasher)
    ensures Proper(h, SaveAll(h, [])) && Versioned(SaveAll(h, []))
  {
  }

  lemma StaysVersioned(s: Shelf, it: Intent)
    ensures Versioned(s) && it.version > 0 ==> Versioned(Shelf(s.m[it.id := it], s.byRef[it.ref := it.id]))
  {
  }

  lemma SavedSays(h: Hasher, s: Shelf, it: Intent, expected: nat)
    ensures var r := Saved(h, s, it, expected); r.Ok? ==> OwnRef(h, it) && r.value == Shelf(s.m[it.id := it], s.byRef[it.ref := it.id])
  {
  }

  /** As long as every writer steps the version it read by one, an id's version never falls, and a write that
      wins leaves it above the version it replaced. */
  lemma {:induction false} VersionsRise(h: Hasher, ws: seq<Write>, i: nat, id: Str)
    requires i <= |ws| && Counted(ws)
    ensures VersionOf(SaveAll(h, ws[..i]), id) <= VersionOf(SaveAll(h, ws), id)
    ensures i < |ws| && Won(h, ws, i) && ws[i].it.id == id ==>
      VersionOf(SaveAll(h, ws[..i]), id) == ws[i].expected < VersionOf(SaveAll(h, ws), id)
    decreases |ws|
  {
    hide *;
    if i == |ws| {
      assert ws[..i] == ws;
    } else {
      var front, w := ws[..|ws| - 1], ws[|ws| - 1];
      assert front[..i] == ws[..i];
      CountedFront(ws);
      StoredIsProper(h, front);
      VersionsRise(h, front, i, id);
      SaveAllStep(h, ws);
      WinsWhen(h, SaveAll(h, front), w.it, w.expected);
      VersionMoves(SaveAll(h, front), w.it, id);
      WonIs(h, ws, i);
      if i < |front| {
        WonIs(h, front, i);
      } else {
        assert ws[..i] == front;
      }
    }
  }

  lemma WonIs(h: Hasher, ws: seq<Write>, i: nat)
    requires i < |ws|
    ensures Won(h, ws, i) <==> Saved(h, SaveAll(h, ws[..i]), ws[i].it, ws[i].expected).Ok?
  {
    hide Saved, SaveAll;
  }

  lemma CountedFront(ws: seq<Write>)
    requires ws != []
    ensures Counted(ws) ==> Counted(ws[..|ws| - 1]) && ws[|ws| - 1].it.version == ws[|ws| - 1].expected + 1
  {
  }

  lemma VersionMoves(s: Shelf, it: Intent, id: Str)
    ensures VersionOf(Shelf(s.m[it.id := it], s.byRef[it.ref := it.id]), id) == if id == it.id then it.version else VersionOf(s, id)
  {
  }

  /** So of all the writers that read the same version of an intent at most one wins, in whatever order
      they write: nobody's move is lost under another's. */
  lemma OneWins(h: Hasher, ws: seq<Write>, i: nat, j: nat)
    requires Counted(ws) && i < |ws| && j < |ws| && ws[i].it.id == ws[j].it.id && ws[i].expected == ws[j].expected
    requires Won(h, ws, i) && Won(h, ws, j)
    ensures i == j
  {
    if i < j {
      LaterLoses(h, ws, i, j);
    } else if j < i {
      LaterLoses(h, ws, j, i);
    }
  }

  lemma LaterLoses(h: Hasher, ws: seq<Write>, i: nat, j: nat)
    requires Counted(ws) && i < j < |ws| && ws[i].it.id == ws[j].it.id && ws[i].expected == ws[j].expected && Won(h, ws, i)
    ensures !Won(h, ws, j)
  {
    var front := ws[..j];
    assert front[..i] == ws[..i] && Counted(front);
    hide *;
    WonIs(h, ws, i);
    WonIs(h, ws, j);
    WonIs(h, front, i);
    VersionsRise(h, front, i, ws[i].it.id);
    StoredIsProper(h, front);
    WinsWhen(h, SaveAll(h, front), ws[j].it, ws[j].expected);
  }
}
