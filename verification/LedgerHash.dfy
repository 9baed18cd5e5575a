/** The bytes that a journal row's digest covers, and why no two rows share them. */
module LedgerHash {
  import opened Bytes
  import opened Ledger

  /** How an instant is printed into the preimage (RFC 3339 with nanoseconds). */
  type Stamp = Time -> Str

  const DOMAIN: Str := Text("stablecoin-settlement-engine/ledger-journal/v1")

  function LegBytes(leg: Leg): Str {
    Put(leg.account) + Put(Decimal(leg.amount))
  }

  function LegsBytes(legs: seq<Leg>): Str {
    if legs == [] then [] else LegBytes(legs[0]) + LegsBytes(legs[1..])
  }

  function Tail(st: Stamp, e: Entry): Str {
    Put(e.actor) + (Put(st(e.at)) + (Put(e.txHash) + (Put(e.memo) + [])))
  }

  function Body(st: Stamp, e: Entry): Str {
    Put(e.kind.Name()) + (Put(e.holds) + (Put(e.asset.chain) + (Put(e.asset.token)
    + (Uvarint(|e.legs|) + (LegsBytes(e.legs) + Tail(st, e))))))
  }

  /** What is hashed: the domain, the previous digest, the sequence number and every
      field the caller filled in, each variable-length field behind its length. */
  function Preimage(st: Stamp, prev: Digest, seqno: nat, e: Entry): Str {
    Put(DOMAIN) + (prev + (Uvarint(seqno) + (Put(e.id) + (e.ref + Body(st, e)))))
  }

  /** The digest of a row, as a function of its link, its position and its content. */
  function RowHash(h: Hasher, st: Stamp): (Digest, nat, Entry) -> Digest {
    (prev: Digest, seqno: nat, e: Entry) => h(Preimage(st, prev, seqno, e))
  }

  // ---- the encoder ----

  lemma Assoc(a: Str, b: Str, c: Str)
    ensures (a + b) + c == a + (b + c)
  {
  }

  lemma {:induction false} LegsBytesSplit(legs: seq<Leg>, i: nat)
    requires i < |legs|
    ensures LegsBytes(legs[i..]) == LegBytes(legs[i]) + LegsBytes(legs[i + 1..])
  {
    assert legs[i..][1..] == legs[i + 1..];
  }

  /** Appending field by field builds exactly the bytes above. */
  method AppendPreimage(st: Stamp, prev: Digest, seqno: nat, e: Entry) returns (b: Str)
    ensures b == Preimage(st, prev, seqno, e)
  {
    b := Put(DOMAIN);
    b := Add(b, prev, Uvarint(seqno) + (Put(e.id) + (e.ref + Body(st, e))));
    b := Add(b, Uvarint(seqno), Put(e.id) + (e.ref + Body(st, e)));
    b := Add(b, Put(e.id), e.ref + Body(st, e));
    b := Add(b, e.ref, Body(st, e));
    ghost var head := b;
    var body := AppendBody(st, e);
    b := b + body;
  }

  method AppendBody(st: Stamp, e: Entry) returns (b: Str)
    ensures b == Body(st, e)
  {
    ghost var legs := Uvarint(|e.legs|) + (LegsBytes(e.legs) + Tail(st, e));
    b := Put(e.kind.Name());
    b := Add(b, Put(e.holds), Put(e.asset.chain) + (Put(e.asset.token) + legs));
    b := Add(b, Put(e.asset.chain), Put(e.asset.token) + legs);
    b := Add(b, Put(e.asset.token), legs);
    b := Add(b, Uvarint(|e.legs|), LegsBytes(e.legs) + Tail(st, e));
    assert e.legs[0..] == e.legs;
    for i := 0 to |e.legs|
      invariant b + (LegsBytes(e.legs[i..]) + Tail(st, e)) == Body(st, e)
    {
      LegsBytesSplit(e.legs, i);
      ghost var rest := LegsBytes(e.legs[i + 1..]);
      Assoc(LegBytes(e.legs[i]), rest, Tail(st, e));
      b := Add(b, LegBytes(e.legs[i]), rest + Tail(st, e));
    }
    assert [] + Tail(st, e) == Tail(st, e);
    b := Add(b, Put(e.actor), Put(st(e.at)) + (Put(e.txHash) + (Put(e.memo) + [])));
    b := Add(b, Put(st(e.at)), Put(e.txHash) + (Put(e.memo) + []));
    b := Add(b, Put(e.txHash), Put(e.memo) + []);
    b := b + (Put(e.memo) + []);
  }

  method Add(b: Str, field: Str, ghost rest: Str) returns (r: Str)
    ensures r == b + field
    ensures r + rest == b + (field + rest)
  {
    Assoc(b, field, rest);
    r := b + field;
  }

  // ---- no two rows share a preimage ----

  lemma RawPrefix(a: Str, b: Str, x: Str, y: Str)
    requires |a| == |b| && a + x == b + y
    ensures a == b && x == y
  {
    assert a == (a + x)[..|a|] && b == (b + y)[..|b|];
    assert x == (a + x)[|a|..] && y == (b + y)[|b|..];
  }

  lemma LegPrefix(a: Leg, b: Leg, x: Str, y: Str)
    requires LegBytes(a) + x == LegBytes(b) + y
    ensures a == b && x == y
  {
    Assoc(Put(a.account), Put(Decimal(a.amount)), x);
    Assoc(Put(b.account), Put(Decimal(b.amount)), y);
    PutPrefix(a.account, b.account, Put(Decimal(a.amount)) + x, Put(Decimal(b.amount)) + y);
    PutPrefix(Decimal(a.amount), Decimal(b.amount), x, y);
    DecimalInjective(a.amount, b.amount);
  }

  lemma {:induction false} LegsPrefix(a: seq<Leg>, b: seq<Leg>, x: Str, y: Str)
    requires |a| == |b| && LegsBytes(a) + x == LegsBytes(b) + y
    ensures a == b && x == y
  {
    if a == [] {
      assert [] + x == x && [] + y == y;
    } else {
      Assoc(LegBytes(a[0]), LegsBytes(a[1..]), x);
      Assoc(LegBytes(b[0]), LegsBytes(b[1..]), y);
      LegPrefix(a[0], b[0], LegsBytes(a[1..]) + x, LegsBytes(b[1..]) + y);
      LegsPrefix(a[1..], b[1..], x, y);
      assert a == [a[0]] + a[1..] && b == [b[0]] + b[1..];
    }
  }

  /** The fields that the hash covers are the same; the instant only as it is printed. */
  predicate SameHashed(st: Stamp, a: Entry, b: Entry) {
    && a.id == b.id && a.ref == b.ref && a.kind.Name() == b.kind.Name() && a.holds == b.holds
    && a.asset == b.asset && a.legs == b.legs && a.actor == b.actor && st(a.at) == st(b.at)
    && a.txHash == b.txHash && a.memo == b.memo
  }

  lemma TailInjective(st: Stamp, a: Entry, b: Entry)
    requires Tail(st, a) == Tail(st, b)
    ensures a.actor == b.actor && st(a.at) == st(b.at) && a.txHash == b.txHash && a.memo == b.memo
  {
    var ma, mb := Put(a.memo) + [], Put(b.memo) + [];
    var ta, tb := Put(a.txHash) + ma, Put(b.txHash) + mb;
    PutPrefix(a.actor, b.actor, Put(st(a.at)) + ta, Put(st(b.at)) + tb);
    PutPrefix(st(a.at), st(b.at), ta, tb);
    PutPrefix(a.txHash, b.txHash, ma, mb);
    PutPrefix(a.memo, b.memo, [], []);
  }

  lemma BodyInjective(st: Stamp, a: Entry, b: Entry)
    requires Body(st, a) == Body(st, b)
    ensures a.kind.Name() == b.kind.Name() && a.holds == b.holds && a.asset == b.asset && a.legs == b.legs
    ensures Tail(st, a) == Tail(st, b)
  {
    var la, lb := LegsBytes(a.legs) + Tail(st, a), LegsBytes(b.legs) + Tail(st, b);
    var na, nb := Uvarint(|a.legs|) + la, Uvarint(|b.legs|) + lb;
    var ta, tb := Put(a.asset.token) + na, Put(b.asset.token) + nb;
    var ca, cb := Put(a.asset.chain) + ta, Put(b.asset.chain) + tb;
    PutPrefix(a.kind.Name(), b.kind.Name(), Put(a.holds) + ca, Put(b.holds) + cb);
    PutPrefix(a.holds, b.holds, ca, cb);
    PutPrefix(a.asset.chain, b.asset.chain, ta, tb);
    PutPrefix(a.asset.token, b.asset.token, na, nb);
    UvarintPrefix(|a.legs|, |b.legs|, la, lb);
    LegsPrefix(a.legs, b.legs, Tail(st, a), Tail(st, b));
  }

  /** Field boundaries cannot blur: equal preimages mean equal fields, position and link. */
  lemma PreimageInjective(st: Stamp, p: Digest, m: nat, a: Entry, q: Digest, n: nat, b: Entry)
    requires Preimage(st, p, m, a) == Preimage(st, q, n, b)
    ensures p == q && m == n && SameHashed(st, a, b)
  {
    var ra, rb := a.ref + Body(st, a), b.ref + Body(st, b);
    var ia, ib := Put(a.id) + ra, Put(b.id) + rb;
    var sa, sb := Uvarint(m) + ia, Uvarint(n) + ib;
    PutPrefix(DOMAIN, DOMAIN, p + sa, q + sb);
    RawPrefix(p, q, sa, sb);
    UvarintPrefix(m, n, ia, ib);
    PutPrefix(a.id, b.id, ra, rb);
    RawPrefix(a.ref, b.ref, Body(st, a), Body(st, b));
    BodyInjective(st, a, b);
    TailInjective(st, a, b);
  }
}
