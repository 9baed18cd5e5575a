/** What is proved of growing chains, of the chains the network makes. */
module TonRuns {
  import opened Bytes
  import opened Finality
  import opened TonMessage
  import opened TonTrace
  import opened TonLookup
  import opened TonNetwork

  lemma LookAt(ns: seq<Net>, at: seq<nat>, i: nat)
    requires Rising(at, ns) && i < 4
    ensures at[0] <= at[i] <= at[3] && Looks(ns, at)[i] == ns[at[i]].byIn
  {
  }

  lemma LooksGrow(h: Hasher, parse: AddressParser, acc: Accounts, home: Home, ns: seq<Net>, at: seq<nat>, later: seq<nat>)
    requires Run(h, parse, acc, home, ns) && Rising(at, ns) && Rising(later, ns) && at[3] <= later[0]
    ensures GrowsTo(Looks(ns, at), Looks(ns, later))
  {
    var v, w := Looks(ns, at), Looks(ns, later);
    hide Run, Grows, Looks;
    forall i, j | 0 <= i < 4 && 0 <= j < 4 ensures Grows(v[i], w[j]) {
      LookAt(ns, at, i);
      LookAt(ns, later, j);
      RunGrows(h, parse, acc, home, ns, at[i], later[j]);
    }
  }

  /** Tracing a payment of ours never fails, whenever the looks are taken. */
  lemma TraceSucceeds(h: Hasher, parse: AddressParser, acc: Accounts, home: Home, ns: seq<Net>, at: seq<nat>, external: Digest, ref: Digest)
    requires Run(h, parse, acc, home, ns) && Rising(at, ns) && OurPayment(ns[at[3]], external, ref)
    ensures TraceOf(Looks(ns, at), external, ref).Ok?
  {
    if external in ns[at[3]].byIn {
      DeliveredIsCredited(h, parse, acc, home, ns, at, external, ref);
    } else {
      RunGrows(h, parse, acc, home, ns, at[0], at[3]);
      NotSeenIsNotAccepted(Looks(ns, at), external, ref);
    }
    hide *;
  }

  lemma OursBefore(h: Hasher, parse: AddressParser, acc: Accounts, home: Home, ns: seq<Net>, i: nat, j: nat, external: Digest, ref: Digest)
    requires Run(h, parse, acc, home, ns) && i <= j < |ns| && OurPayment(ns[j], external, ref)
    ensures OurPayment(ns[i], external, ref)
  {
    RunGrows(h, parse, acc, home, ns, i, j);
    hide Run, First;
    if external in ns[i].byIn {
      assert SameTx(ns[i].byIn[external], ns[j].byIn[external]);
    }
  }

  /** Two traces of one payment while the network runs: both succeed, and the later is never behind. */
  lemma TracesMoveOn(h: Hasher, parse: AddressParser, acc: Accounts, home: Home, ns: seq<Net>, at: seq<nat>, later: seq<nat>, external: Digest, ref: Digest)
    requires Run(h, parse, acc, home, ns) && Rising(at, ns) && Rising(later, ns) && at[3] <= later[0]
    requires OurPayment(ns[later[3]], external, ref)
    ensures TraceOf(Looks(ns, at), external, ref).Ok? && TraceOf(Looks(ns, later), external, ref).Ok?
    ensures Progress(TraceOf(Looks(ns, at), external, ref).value, TraceOf(Looks(ns, later), external, ref).value)
  {
    hide Run, OurPayment, TraceOf, Progress, GrowsTo, Looks;
    OursBefore(h, parse, acc, home, ns, at[3], later[3], external, ref);
    TraceSucceeds(h, parse, acc, home, ns, at, external, ref);
    TraceSucceeds(h, parse, acc, home, ns, later, external, ref);
    LooksGrow(h, parse, acc, home, ns, at, later);
    TraceOnlyMovesOn(Looks(ns, at), Looks(ns, later), external, ref);
  }

  /** What the listener is told about a payment while the network runs: once included never missing,
      once irreversible the same ever after, and a verdict of final or failed never overturned. */
  lemma VerdictsHold(h: Hasher, parse: AddressParser, acc: Accounts, home: Home, ns: seq<Net>, at: seq<nat>, later: seq<nat>, external: Digest, ref: Digest,
                     p: Policy, head: nat, age: int, higher: nat, older: int)
    requires Run(h, parse, acc, home, ns) && Rising(at, ns) && Rising(later, ns) && at[3] <= later[0]
    requires OurPayment(ns[later[3]], external, ref) && head <= higher && p.requireMarker
    ensures TraceOf(Looks(ns, at), external, ref).Ok? && TraceOf(Looks(ns, later), external, ref).Ok?
    ensures var a, b := Seen(head, TraceOf(Looks(ns, at), external, ref).value), Seen(higher, TraceOf(Looks(ns, later), external, ref).value);
      && (a.seen.included ==> b.seen.included) && Settled(a.seen, b.seen) && (a.seen.final ==> b.received == a.received)
      && (Judge(p, a.seen, age) == Final || Judge(p, a.seen, age) == Failed ==> Judge(p, b.seen, older) == Judge(p, a.seen, age))
  {
    hide Run, OurPayment, TraceOf, Progress, GrowsTo, Looks, Seen, Judge, Settled;
    TracesMoveOn(h, parse, acc, home, ns, at, later, external, ref);
    LooksGrow(h, parse, acc, home, ns, at, later);
    var v, w := Looks(ns, at), Looks(ns, later);
    LookupsAgree(head, v, higher, w, external, ref);
    var verdict := Judge(p, Seen(head, TraceOf(v, external, ref).value).seen, age);
    if verdict == Final || verdict == Failed {
      VerdictStands(p, head, v, age, higher, w, older, external, ref);
    }
  }
}
