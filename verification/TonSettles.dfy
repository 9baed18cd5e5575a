/** The listener on TON: what it settles on, the merchant got. */
module TonSettles {
  import opened Bytes
  import opened Intent
  import opened Listener
  import opened ListenerVerdicts
  import TonMessage
  import TonReader
  import TonTrace
  import TonLookup
  import TonNetwork
  import TonOutcomes

  /** The watcher's answer is what a trace of the intent's request, taken during the run, is told as. */
  predicate WatchesRun(ns: seq<TonNetwork.Net>, at: seq<nat>, external: Digest, head: nat, it: Intent, watch: Watch)
    requires TonNetwork.Rising(at, ns)
  {
    var traced := TonTrace.TraceOf(TonNetwork.Looks(ns, at), external, it.ref);
    traced.Ok?
    && var told := TonLookup.Seen(head, traced.value);
      watch(it) == Some(Seen(told.seen, if told.received.Some? then Some(told.received.value) else None))
  }

  /** Whenever the looks are taken during a run of the network, a check that settles an intent on TON finds
      the merchant's own jetton wallet credited, for this very transfer, with exactly the intent's amount. */
  lemma SettledIsCredited(h: Hasher, parse: TonMessage.AddressParser, acc: TonMessage.Accounts, home: TonNetwork.Home, ns: seq<TonNetwork.Net>, at: seq<nat>,
                          external: Digest, head: nat, env: Env, s: Records, id: Str, watch: Watch, time: Time)
    requires TonNetwork.Run(h, parse, acc, home, ns) && TonNetwork.Rising(at, ns)
    requires id in s.shelf.m && s.shelf.m[id].id == id && WatchesRun(ns, at, external, head, s.shelf.m[id], watch)
    requires external in ns[at[3]].byIn && TonNetwork.OurPayment(ns[at[3]], external, s.shelf.m[id].ref)
    requires CheckOf(env, s, id, watch, time).1 == Ok(Closed)
    ensures var transfer := TonNetwork.PaymentOf(ns[at[3]], external, s.shelf.m[id].ref);
      && transfer.body.Some? && TonReader.ReadTransfer(transfer.body.value).Some?
      && var t := TonReader.ReadTransfer(transfer.body.value).value;
        t.amount == s.shelf.m[id].amount && TonNetwork.CreditedAs(ns[at[2]], home, transfer, t)
  {
    hide TonNetwork.Run, TonTrace.TraceOf, TonNetwork.OurPayment, TonNetwork.PaymentOf, TonNetwork.CreditedAs, TonNetwork.CreditedFor;
    hide TonReader.ReadTransfer, CheckOf, Kept, Booking, TonNetwork.Looks, TonLookup.HighestOf;
    CheckSays(env, s, id, watch, time);
    TonNetwork.DeliveredIsCredited(h, parse, acc, home, ns, at, external, s.shelf.m[id].ref);
  }

  // ---- what the watcher is told ----

  /** The payment failed for good: our jetton wallet aborted it, or the merchant's did, and what came back landed. */
  ghost predicate Failed(v: seq<TonTrace.View>, external: Digest, transfer: TonReader.Message)
    requires |v| == 4
  {
    && external in v[0]
    && ((TonOutcomes.Refused(v[1], transfer) && TonOutcomes.Landed(v[2], v[1][transfer.hash]))
        || exists m :: TonOutcomes.SentOnAs(v[1], transfer, m) && TonOutcomes.Refused(v[2], m) && TonOutcomes.Landed(v[3], v[2][m.hash]))
  }

  /** Whenever the looks are taken during a run: a payment is reported included exactly when its request was
      handled by the first look; succeeded exactly when the merchant was credited by the third, and then with
      the amount credited and in no other case with any; final exactly when, besides having a place in the
      masterchain, it succeeded or failed for good. */
  lemma ToldIsWhatWas(h: Hasher, parse: TonMessage.AddressParser, acc: TonMessage.Accounts, home: TonNetwork.Home, ns: seq<TonNetwork.Net>, at: seq<nat>,
                      external: Digest, ref: Digest, head: nat)
    requires TonNetwork.Run(h, parse, acc, home, ns) && TonNetwork.Rising(at, ns)
    requires external in ns[at[3]].byIn && TonNetwork.OurPayment(ns[at[3]], external, ref)
    ensures var v, transfer := TonNetwork.Looks(ns, at), TonNetwork.PaymentOf(ns[at[3]], external, ref);
      && TonTrace.TraceOf(v, external, ref).Ok? && transfer.body.Some? && TonReader.ReadTransfer(transfer.body.value).Some?
      && var told, t := TonLookup.Seen(head, TonTrace.TraceOf(v, external, ref).value), TonReader.ReadTransfer(transfer.body.value).value;
        && told.seen.head == head && (told.seen.included <==> external in v[0])
        && (told.seen.succeeded <==> external in v[0] && transfer.hash in ns[at[1]].byIn && TonNetwork.CreditedFor(ns[at[2]], transfer))
        && told.received == (if told.seen.succeeded then Some(t.amount) else None)
        && (told.seen.succeeded ==> TonNetwork.CreditedAs(ns[at[2]], home, transfer, t))
        && (told.seen.final <==> told.seen.height != 0 && (told.seen.succeeded || Failed(v, external, transfer)))
  {
    hide *;
    TonOutcomes.LooksAre(ns, at);
    var v, transfer := TonNetwork.Looks(ns, at), TonNetwork.PaymentOf(ns[at[3]], external, ref);
    TonNetwork.DeliveredIsCredited(h, parse, acc, home, ns, at, external, ref);
    TonOutcomes.OutcomeIsWhatWas(h, parse, acc, home, ns, at, external, ref);
    EndsSay(acc, home, ns[at[1]], ns[at[2]], v, external, ref, transfer);
    TraceShape(v, external, ref);
    ToldSays(head, TonTrace.TraceOf(v, external, ref).value);
    FailedSays(v, external, ref, transfer);
  }

  lemma EndsSay(acc: TonMessage.Accounts, home: TonNetwork.Home, n: TonNetwork.Net, w: TonNetwork.Net, v: seq<TonTrace.View>, external: Digest, ref: Digest, transfer: TonReader.Message)
    requires |v| == 4 && transfer.body.Some? && TonReader.ReadTransfer(transfer.body.value).Some?
    requires TonNetwork.EndsWell(acc, home, n, w, v, external, ref, transfer)
    ensures TonTrace.TraceOf(v, external, ref).Ok?
    ensures var tr, t := TonTrace.TraceOf(v, external, ref).value, TonReader.ReadTransfer(transfer.body.value).value;
      && (tr.outcome == TonTrace.Delivered <==> external in v[0] && transfer.hash in n.byIn && TonNetwork.CreditedFor(w, transfer))
      && (tr.outcome == TonTrace.Delivered ==> tr.received == Some(t.amount) && TonNetwork.CreditedAs(w, home, transfer, t))
  {
    hide TonTrace.TraceOf, TonNetwork.CreditedFor, TonNetwork.CreditedAs, TonReader.ReadTransfer;
  }

  /** A trace starts with the request's handling and ends exactly with a transaction. */
  lemma TraceShape(v: seq<TonTrace.View>, external: Digest, ref: Digest)
    requires |v| == 4 && TonTrace.TraceOf(v, external, ref).Ok?
    ensures var tr := TonTrace.TraceOf(v, external, ref).value;
      (tr.outcome == TonTrace.NotAccepted <==> external !in v[0]) && (TonTrace.Ended(tr) <==> tr.terminal.Some?)
  {
    hide TonTrace.First, TonTrace.FromTransfer, TonReader.CarriesRef;
    var wallet := TonTrace.Looked(v[0], external);
    if wallet.Some? {
      TonTrace.LaterStarted(v, [TonTrace.Step("wallet", "external", wallet)],
                            wallet.value.out[TonTrace.First(wallet.value.out, TonTrace.Bearing(ref))]);
    }
  }

  lemma ToldSays(head: nat, tr: TonTrace.Trace)
    requires TonTrace.Ended(tr) <==> tr.terminal.Some?
    ensures var told := TonLookup.Seen(head, tr);
      && told.seen.head == head && (told.seen.included <==> tr.outcome != TonTrace.NotAccepted)
      && (told.seen.succeeded <==> tr.outcome == TonTrace.Delivered)
      && told.received == (if tr.outcome == TonTrace.Delivered then tr.received else None)
      && (told.seen.final <==> told.seen.height != 0 && TonTrace.Ended(tr))
  {
    hide TonLookup.HighestOf;
  }

  lemma FailedSays(v: seq<TonTrace.View>, external: Digest, ref: Digest, transfer: TonReader.Message)
    requires |v| == 4 && TonOutcomes.SaysWhatWas(v, external, ref, transfer)
    ensures TonTrace.TraceOf(v, external, ref).Ok?
    ensures var tr := TonTrace.TraceOf(v, external, ref).value;
      TonTrace.Ended(tr) <==> tr.outcome == TonTrace.Delivered || Failed(v, external, transfer)
  {
    hide TonTrace.TraceOf, TonOutcomes.SentOnAs, TonOutcomes.Landed;
  }
}
