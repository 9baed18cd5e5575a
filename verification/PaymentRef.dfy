/** The tracking key of a payment: a digest of the payment's own terms. */
module PaymentRef {
  import opened Bytes

  datatype Terms = Terms(intentID: Str, chain: Str, token: Str, payer: Str, merchant: Str, amount: Str)

  const DOMAIN: Str := Text("stablecoin-settlement-engine/payment-ref/v1")

  function Fields(t: Terms): seq<Str> {
    [DOMAIN, t.intentID, t.chain, t.token, t.payer, t.merchant, t.amount]
  }

  function PutAll(fields: seq<Str>): Str {
    if fields == [] then [] else PutAll(fields[..|fields| - 1]) + Put(fields[|fields| - 1])
  }

  /** The bytes that are hashed: every field behind its own length. */
  method Preimage(t: Terms) returns (b: Str)
    ensures b == PutAll(Fields(t))
  {
    var fields := Fields(t);
    b := [];
    for i := 0 to |fields|
      invariant b == PutAll(fields[..i])
    {
      b := b + Uvarint(|fields[i]|);
      b := b + fields[i];
      assert fields[..i + 1][..i] == fields[..i];
    }
    assert fields[..|fields|] == fields;
  }

  function Derive(h: Hasher, t: Terms): Digest {
    h(PutAll(Fields(t)))
  }

  /** The order in which the encoder appends is the order in which a reader splits. */
  lemma {:induction false} PutAllFront(fields: seq<Str>)
    requires fields != []
    ensures PutAll(fields) == Put(fields[0]) + PutAll(fields[1..])
  {
    if |fields| > 1 {
      var front := fields[..|fields| - 1];
      PutAllFront(front);
      assert front[1..] == fields[1..][..|fields| - 2];
    }
  }

  lemma {:induction false} PutAllInjective(a: seq<Str>, b: seq<Str>)
    requires |a| == |b| && PutAll(a) == PutAll(b)
    ensures a == b
  {
    if a != [] {
      PutAllFront(a);
      PutAllFront(b);
      PutPrefix(a[0], b[0], PutAll(a[1..]), PutAll(b[1..]));
      PutAllInjective(a[1..], b[1..]);
      assert a == [a[0]] + a[1..] && b == [b[0]] + b[1..];
    }
  }

  /** No two different sets of terms have the same preimage. */
  lemma PreimageInjective(s: Terms, t: Terms)
    requires PutAll(Fields(s)) == PutAll(Fields(t))
    ensures s == t
  {
    PutAllInjective(Fields(s), Fields(t));
    var x, y := Fields(s), Fields(t);
    assert x[1] == y[1] && x[2] == y[2] && x[3] == y[3] && x[4] == y[4] && x[5] == y[5] && x[6] == y[6];
  }

  /** A ref commits to the terms: two payments share one only if the hash collides on them. */
  lemma RefCommitsToTerms(h: Hasher, s: Terms, t: Terms)
    requires NoCollision(h, {PutAll(Fields(s)), PutAll(Fields(t))})
    ensures Derive(h, s) == Derive(h, t) <==> s == t
  {
    if Derive(h, s) == Derive(h, t) {
      assert PutAll(Fields(s)) == PutAll(Fields(t));
      PreimageInjective(s, t);
    }
  }
}
