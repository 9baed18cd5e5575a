/** Whole sequences of reconciliation runs, failed ones and their repetitions included. */
module ReconRuns {
  import opened Bytes
  import opened Intent
  import opened Listener
  import opened Recon
  import opened ReconSafety
  import Ledger
  import Journal

  // ---- one sweep ----

  /** A sweep leaves the payment live or settles it; a settled payment stays on its hash. */
  lemma {:induction false} SweepKeeps(k: Case, s: Records, ids: seq<Str>, n: nat, watch: Watch, at: Time, was: Option<Str>) returns (paid: Option<Str>)
    requires n <= |ids| && Bookable(k) && Fine(k, s, was) && Truthful(k, watch, at) && at != 0
    ensures Fine(k, Sweep(k.env, k.chain, s, ids, n, watch, at).0, paid)
    ensures was.Some? ==> paid == was
  {
    hide *;
    paid := was;
    if n == 0 {
      SweepNone(k.env, k.chain, s, ids, watch, at);
    } else {
      var before := SweepKeeps(k, s, ids, n - 1, watch, at, was);
      var mid := Sweep(k.env, k.chain, s, ids, n - 1, watch, at).0;
      SweepStep(k.env, k.chain, s, ids, n, watch, at);
      paid := before;
      if Sweep(k.env, k.chain, s, ids, n, watch, at).0 != mid {
        paid := CheckKeeps(k, mid, ids[n - 1], watch, at, before);
      }
    }
  }

  lemma SweepNone(env: Env, chain: Str, s: Records, ids: seq<Str>, watch: Watch, at: Time)
    ensures Sweep(env, chain, s, ids, 0, watch, at).0 == s
  {
  }

  lemma SweepStep(env: Env, chain: Str, s: Records, ids: seq<Str>, n: nat, watch: Watch, at: Time)
    requires 0 < n <= |ids|
    ensures var mid := Sweep(env, chain, s, ids, n - 1, watch, at).0;
      Sweep(env, chain, s, ids, n, watch, at).0 == mid || Sweep(env, chain, s, ids, n, watch, at).0 == CheckOf(env, mid, ids[n - 1], watch, at).0
  {
    hide CheckOf;
  }

  lemma FineIsBase(k: Case, s: Records, was: Option<Str>)
    requires Fine(k, s, was)
    ensures Base(k, s)
  {
  }

  lemma CheckKeeps(k: Case, s: Records, id: Str, watch: Watch, at: Time, was: Option<Str>) returns (paid: Option<Str>)
    requires Bookable(k) && Fine(k, s, was) && Truthful(k, watch, at) && at != 0
    ensures Fine(k, CheckOf(k.env, s, id, watch, at).0, paid) && (was.Some? ==> paid == was)
  {
    paid := was;
    FineIsBase(k, s, was);
    if id != k.it.id {
      hide *;
      ForeignCheck(k, s, id, watch, at);
      UntouchedIsFine(k, s, CheckOf(k.env, s, id, watch, at).0, was);
    } else if was.None? {
      hide Truthful, CheckOf, Base, HoldOpen;
      paid := OwnCheck(k, s, watch, at);
    } else {
      hide StoreOk, PostedOn, Judged, Truthful;
    }
  }

  // ---- one window ----

  /** This payment's transfers in a window are its own, and the watcher sees them. */
  ghost predicate WindowOk(k: Case, ts: seq<Transfer>, watch: Watch, at: Time) {
    && Truthful(k, watch, at)
    && forall i :: 0 <= i < |ts| && Ours(k, ts[i]) ==> Correct(k, ts[i]) && SeesHash(k, watch, at, ts[i].txHash)
  }

  /** Every transfer of the payment is noted as the one that settled it or as paid twice. */
  ghost predicate AllNoted(k: Case, ts: seq<Transfer>, notes: seq<Note>, paid: Option<Str>) {
    |notes| <= |ts| && forall i :: 0 <= i < |notes| && Ours(k, ts[i]) ==> paid.Some? && Noted(k, ts[i], notes[i], paid.value)
  }

  lemma TransferKeeps(k: Case, s: Records, t: Transfer, watch: Watch, at: Time, was: Option<Str>) returns (paid: Option<Str>)
    requires Bookable(k) && Fine(k, s, was) && Truthful(k, watch, at) && at != 0
    requires Ours(k, t) ==> Correct(k, t) && SeesHash(k, watch, at, t.txHash)
    ensures var (after, r) := Reconciled(k.env, k.chain, s, t, watch, at);
      && Fine(k, after, paid) && (was.Some? ==> paid == was)
      && (r.Ok? && Ours(k, t) ==> paid.Some? && Noted(k, t, r.value, paid.value))
  {
    paid := was;
    FineIsBase(k, s, was);
    if !Ours(k, t) {
      hide *;
      ForeignTransfer(k, s, t, watch, at);
      UntouchedIsFine(k, s, Reconciled(k.env, k.chain, s, t, watch, at).0, was);
    } else if was.None? {
      hide Truthful, SeesHash, Reconciled, Base, HoldOpen, Correct;
      paid := TransferWhenLive(k, s, t, watch, at);
    } else {
      hide Truthful, SeesHash, Reconciled, Base, PostedOn, Correct, Noted;
      TransferWhenDone(k, s, was.value, t, watch, at);
    }
  }

  lemma NotedLasts(k: Case, ts: seq<Transfer>, notes: seq<Note>, was: Option<Str>, paid: Option<Str>)
    requires AllNoted(k, ts, notes, was) && (was.Some? ==> paid == was)
    ensures AllNoted(k, ts, notes, paid)
  {
    hide Noted;
  }

  lemma NotedExtends(k: Case, ts: seq<Transfer>, notes: seq<Note>, note: Note, was: Option<Str>, paid: Option<Str>)
    requires AllNoted(k, ts, notes, was) && (was.Some? ==> paid == was) && |notes| < |ts|
    requires Ours(k, ts[|notes|]) ==> paid.Some? && Noted(k, ts[|notes|], note, paid.value)
    ensures AllNoted(k, ts, notes + [note], paid)
  {
    hide Noted, Ours;
    NotedLasts(k, ts, notes, was, paid);
  }

  /** One more transfer: the walk stops where it was, or takes the transfer's step. */
  lemma WalkStep(env: Env, chain: Str, s: Records, ts: seq<Transfer>, n: nat, from: nat, to: nat, watch: Watch, at: Time)
    requires 0 < n <= |ts|
    ensures var (mid, done) := Walk(env, chain, s, ts, n - 1, from, to, watch, at);
      var (after, r) := Walk(env, chain, s, ts, n, from, to, watch, at);
      var (next, note) := Reconciled(env, chain, mid, ts[n - 1], watch, at);
      || (after == mid && r.Err?)
      || (done.Ok? && after == next && r == if note.Err? then Err(note.error) else Ok(done.value + [note.value]))
  {
    hide Reconciled;
  }

  lemma {:induction false} WalkKeeps(k: Case, s: Records, ts: seq<Transfer>, n: nat, from: nat, to: nat, watch: Watch, at: Time, was: Option<Str>) returns (paid: Option<Str>)
    requires n <= |ts| && Bookable(k) && Fine(k, s, was) && WindowOk(k, ts, watch, at) && at != 0
    ensures var (after, r) := Walk(k.env, k.chain, s, ts, n, from, to, watch, at);
      && Fine(k, after, paid) && (was.Some? ==> paid == was)
      && (r.Ok? ==> |r.value| == n && AllNoted(k, ts, r.value, paid))
  {
    hide *;
    if n == 0 {
      paid := was;
      WalkNone(k, s, ts, from, to, watch, at, was);
    } else {
      var before := WalkKeeps(k, s, ts, n - 1, from, to, watch, at, was);
      var (mid, done) := Walk(k.env, k.chain, s, ts, n - 1, from, to, watch, at);
      WalkStep(k.env, k.chain, s, ts, n, from, to, watch, at);
      WindowAt(k, ts, watch, at, n - 1);
      paid := TransferKeeps(k, mid, ts[n - 1], watch, at, before);
      var r := Reconciled(k.env, k.chain, mid, ts[n - 1], watch, at).1;
      if done.Ok? && r.Ok? {
        NotedExtends(k, ts, done.value, r.value, before, paid);
      }
      var (after, all) := Walk(k.env, k.chain, s, ts, n, from, to, watch, at);
      if after == mid && all.Err? {
        paid := before;
      }
    }
  }

  lemma WalkNone(k: Case, s: Records, ts: seq<Transfer>, from: nat, to: nat, watch: Watch, at: Time, paid: Option<Str>)
    ensures Walk(k.env, k.chain, s, ts, 0, from, to, watch, at) == (s, Ok([])) && AllNoted(k, ts, [], paid)
  {
  }

  lemma WindowAt(k: Case, ts: seq<Transfer>, watch: Watch, at: Time, i: nat)
    requires WindowOk(k, ts, watch, at) && i < |ts|
    ensures Truthful(k, watch, at) && (Ours(k, ts[i]) ==> Correct(k, ts[i]) && SeesHash(k, watch, at, ts[i].txHash))
  {
  }

  // ---- one run ----

  ghost predicate InputsOk(k: Case, r: Inputs) {
    r.at != 0 && Truthful(k, r.sweeping, r.at) && WindowOk(k, r.ordered, r.watch, r.at)
  }

  /** Where a run can end: after its sweep with nothing said of transfers, or after its walk. */
  lemma RunEnds(env: Env, chain: Str, s: Records, cursor: nat, r: Inputs)
    ensures var (swept, sweeps) := Sweep(env, chain, s, r.ids, |r.ids|, r.sweeping, r.at);
      var (after, next, report) := RunOf(env, chain, s, cursor, r);
      if sweeps.Err? || r.finalized.None? || r.finalized.value <= cursor || r.fetched.None? then
        after == swept && (report.Ok? ==> report.value.notes == [])
      else
        var (walked, notes) := Walk(env, chain, swept, r.ordered, |r.ordered|, cursor + 1, r.finalized.value, r.watch, r.at);
        after == walked && (report.Ok? ==> notes == Ok(report.value.notes))
  {
    hide Sweep, Walk;
  }

  lemma RunKeeps(k: Case, s: Records, cursor: nat, r: Inputs, was: Option<Str>) returns (paid: Option<Str>)
    requires Bookable(k) && Fine(k, s, was) && InputsOk(k, r)
    ensures var (after, next, report) := RunOf(k.env, k.chain, s, cursor, r);
      && Fine(k, after, paid) && (was.Some? ==> paid == was)
      && (report.Ok? ==> AllNoted(k, r.ordered, report.value.notes, paid) && (report.value.notes == [] || |report.value.notes| == |r.ordered|))
  {
    RunEnds(k.env, k.chain, s, cursor, r);
    hide RunOf, Sweep, Walk, Fine, Bookable, Truthful, WindowOk, Noted;
    paid := SweepKeeps(k, s, r.ids, |r.ids|, r.sweeping, r.at, was);
    var (swept, sweeps) := Sweep(k.env, k.chain, s, r.ids, |r.ids|, r.sweeping, r.at);
    if !(sweeps.Err? || r.finalized.None? || r.finalized.value <= cursor || r.fetched.None?) {
      paid := WalkKeeps(k, swept, r.ordered, |r.ordered|, cursor + 1, r.finalized.value, r.watch, r.at, paid);
    }
  }

  // ---- any number of runs ----

  /** The records and the cursor after the first n runs. */
  function Then(k: Case, s: Records, cursor: nat, rs: seq<Inputs>, n: nat): (Records, nat)
    requires n <= |rs|
  {
    if n == 0 then (s, cursor)
    else
      var (mid, at) := Then(k, s, cursor, rs, n - 1);
      var (after, next, _) := RunOf(k.env, k.chain, mid, at, rs[n - 1]);
      (after, next)
  }

  function ReportOf(k: Case, s: Records, cursor: nat, rs: seq<Inputs>, i: nat): Result<Report, Fail>
    requires i < |rs|
  {
    var (mid, at) := Then(k, s, cursor, rs, i);
    RunOf(k.env, k.chain, mid, at, rs[i]).2
  }

  ghost predicate ReportsAgree(k: Case, s: Records, cursor: nat, rs: seq<Inputs>, n: nat, paid: Option<Str>)
    requires n <= |rs|
  {
    forall i :: 0 <= i < n ==> ReportAgrees(k, s, cursor, rs, i, paid)
  }

  ghost predicate ReportAgrees(k: Case, s: Records, cursor: nat, rs: seq<Inputs>, i: nat, paid: Option<Str>)
    requires i < |rs|
  {
    var r := ReportOf(k, s, cursor, rs, i);
    r.Ok? ==> AllNoted(k, rs[i].ordered, r.value.notes, paid)
  }

  /** Over any sequence of undisturbed runs, failed and repeated ones among them, the live
      payment ends live or settled on one of its transfers' hashes, and every successful report
      agrees: a transfer of the payment is the one that settled it exactly when it carries that
      hash, and paid twice otherwise. */
  lemma {:induction false} RunsAgree(k: Case, s: Records, cursor: nat, rs: seq<Inputs>, n: nat) returns (paid: Option<Str>)
    requires n <= |rs| && Bookable(k) && Live(k, s) && forall i :: 0 <= i < |rs| ==> InputsOk(k, rs[i])
    ensures Fine(k, Then(k, s, cursor, rs, n).0, paid)
    ensures ReportsAgree(k, s, cursor, rs, n, paid)
  {
    hide *;
    paid := None;
    if n == 0 {
      NoReports(k, s, cursor, rs, paid);
    } else {
      var was := RunsAgree(k, s, cursor, rs, n - 1);
      var (mid, at) := Then(k, s, cursor, rs, n - 1);
      paid := RunKeeps(k, mid, at, rs[n - 1], was);
      LastAgrees(k, s, cursor, rs, n, paid);
      MoreReports(k, s, cursor, rs, n, was, paid);
    }
  }

  lemma NoReports(k: Case, s: Records, cursor: nat, rs: seq<Inputs>, paid: Option<Str>)
    ensures Then(k, s, cursor, rs, 0) == (s, cursor) && ReportsAgree(k, s, cursor, rs, 0, paid) && (Live(k, s) ==> Fine(k, s, None))
  {
    hide Live;
  }

  lemma MoreReports(k: Case, s: Records, cursor: nat, rs: seq<Inputs>, n: nat, was: Option<Str>, paid: Option<Str>)
    requires 0 < n <= |rs| && ReportsAgree(k, s, cursor, rs, n - 1, was) && (was.Some? ==> paid == was)
    requires ReportAgrees(k, s, cursor, rs, n - 1, paid)
    ensures ReportsAgree(k, s, cursor, rs, n, paid)
    ensures Then(k, s, cursor, rs, n).0 == RunOf(k.env, k.chain, Then(k, s, cursor, rs, n - 1).0, Then(k, s, cursor, rs, n - 1).1, rs[n - 1]).0
  {
    hide ReportAgrees, RunOf;
    forall i | 0 <= i < n - 1 ensures ReportAgrees(k, s, cursor, rs, i, paid) {
      AgreementLasts(k, s, cursor, rs, i, was, paid);
    }
  }

  lemma AgreementLasts(k: Case, s: Records, cursor: nat, rs: seq<Inputs>, i: nat, was: Option<Str>, paid: Option<Str>)
    requires i < |rs| && ReportAgrees(k, s, cursor, rs, i, was) && (was.Some? ==> paid == was)
    ensures ReportAgrees(k, s, cursor, rs, i, paid)
  {
    hide AllNoted, ReportOf;
    if ReportOf(k, s, cursor, rs, i).Ok? {
      NotedLasts(k, rs[i].ordered, ReportOf(k, s, cursor, rs, i).value.notes, was, paid);
    }
  }

  lemma LastAgrees(k: Case, s: Records, cursor: nat, rs: seq<Inputs>, n: nat, paid: Option<Str>)
    requires 0 < n <= |rs|
    requires var (mid, at) := Then(k, s, cursor, rs, n - 1);
      var report := RunOf(k.env, k.chain, mid, at, rs[n - 1]).2; report.Ok? ==> AllNoted(k, rs[n - 1].ordered, report.value.notes, paid)
    ensures ReportAgrees(k, s, cursor, rs, n - 1, paid)
  {
    hide RunOf, AllNoted;
  }

  // ---- one post ----

  /** Settled means exactly one row resolves the hold, and it is the payment's post on that hash. */
  lemma OnePost(k: Case, s: Records, hash: Str)
    requires Done(k, s, hash)
    ensures exists i :: 0 <= i < |s.books| && Journal.Resolves(s.books[i], HoldId(k)) && s.books[i].entry.kind == Ledger.Post && s.books[i].entry.txHash == hash
    ensures forall i, j :: 0 <= i < |s.books| && 0 <= j < |s.books| && Journal.Resolves(s.books[i], HoldId(k)) && Journal.Resolves(s.books[j], HoldId(k)) ==> i == j
  {
    var i := Journal.Find(s.books, PostId(k)).value;
    assert Journal.Resolves(s.books[i], HoldId(k));
  }

  // ---- windows ----

  /** The heights a run's successful window covers. */
  predicate Covers(k: Case, s: Records, cursor: nat, rs: seq<Inputs>, i: nat, height: nat)
    requires i < |rs|
  {
    var r := ReportOf(k, s, cursor, rs, i);
    r.Ok? && r.value.from <= height <= r.value.to
  }

  lemma RunWindow(env: Env, chain: Str, s: Records, cursor: nat, r: Inputs)
    ensures var (after, next, report) := RunOf(env, chain, s, cursor, r);
      && next >= cursor
      && (report.Ok? ==> report.value.from == cursor + 1 && (report.value.to > cursor ==> next == report.value.to) && (report.value.to <= cursor ==> next == cursor))
      && (report.Err? ==> next == cursor)
  {
    hide Sweep, Walk;
  }

  lemma {:induction false} CursorRises(k: Case, s: Records, cursor: nat, rs: seq<Inputs>, i: nat, n: nat)
    requires i <= n <= |rs|
    ensures Then(k, s, cursor, rs, i).1 <= Then(k, s, cursor, rs, n).1
    decreases n
  {
    if i < n {
      CursorRises(k, s, cursor, rs, i, n - 1);
      hide RunOf;
      RunWindow(k.env, k.chain, Then(k, s, cursor, rs, n - 1).0, Then(k, s, cursor, rs, n - 1).1, rs[n - 1]);
    }
  }

  lemma CoversExactly(k: Case, s: Records, cursor: nat, rs: seq<Inputs>, i: nat, height: nat)
    requires i < |rs|
    ensures Covers(k, s, cursor, rs, i, height) <==> Then(k, s, cursor, rs, i).1 < height <= Then(k, s, cursor, rs, i + 1).1
  {
    hide RunOf;
    RunWindow(k.env, k.chain, Then(k, s, cursor, rs, i).0, Then(k, s, cursor, rs, i).1, rs[i]);
  }

  lemma {:induction false} SomeWindow(k: Case, s: Records, cursor: nat, rs: seq<Inputs>, n: nat, height: nat) returns (i: nat)
    requires n <= |rs| && cursor < height <= Then(k, s, cursor, rs, n).1
    ensures i < n && Covers(k, s, cursor, rs, i, height)
  {
    hide RunOf;
    if height <= Then(k, s, cursor, rs, n - 1).1 {
      i := SomeWindow(k, s, cursor, rs, n - 1, height);
    } else {
      i := n - 1;
      CoversExactly(k, s, cursor, rs, i, height);
    }
  }

  /** The successful windows tile: every height the cursor has passed lies in exactly one. */
  lemma WindowsTile(k: Case, s: Records, cursor: nat, rs: seq<Inputs>, height: nat)
    requires cursor < height <= Then(k, s, cursor, rs, |rs|).1
    ensures exists i :: 0 <= i < |rs| && Covers(k, s, cursor, rs, i, height)
    ensures forall i, j :: 0 <= i < |rs| && 0 <= j < |rs| && Covers(k, s, cursor, rs, i, height) && Covers(k, s, cursor, rs, j, height) ==> i == j
  {
    hide Covers, Then;
    var w := SomeWindow(k, s, cursor, rs, |rs|, height);
    forall i, j | 0 <= i < |rs| && 0 <= j < |rs| && Covers(k, s, cursor, rs, i, height) && Covers(k, s, cursor, rs, j, height)
      ensures i == j
    {
      CoversExactly(k, s, cursor, rs, i, height);
      CoversExactly(k, s, cursor, rs, j, height);
      if i < j {
        CursorRises(k, s, cursor, rs, i + 1, j);
      } else if j < i {
        CursorRises(k, s, cursor, rs, j + 1, i);
      }
    }
  }

  // ---- every transfer, once ----

  /** The source shows a window exactly the payment's transfers at its heights, each once. */
  ghost predicate Shows(k: Case, all: set<Transfer>, ts: seq<Transfer>, from: nat, to: nat) {
    && (forall t :: t in all && from <= t.height <= to ==> t in ts)
    && (forall i :: 0 <= i < |ts| && Ours(k, ts[i]) ==> ts[i] in all && from <= ts[i].height <= to)
    && forall i, j :: 0 <= i < j < |ts| && Ours(k, ts[i]) ==> ts[i] != ts[j]
  }

  ghost predicate Shown(k: Case, s: Records, cursor: nat, rs: seq<Inputs>, all: set<Transfer>) {
    forall i :: 0 <= i < |rs| ==> WindowShown(k, s, cursor, rs, all, i)
  }

  ghost predicate WindowShown(k: Case, s: Records, cursor: nat, rs: seq<Inputs>, all: set<Transfer>, i: nat)
    requires i < |rs|
  {
    var r := ReportOf(k, s, cursor, rs, i);
    r.Ok? && r.value.from <= r.value.to ==> Shows(k, all, rs[i].ordered, r.value.from, r.value.to)
  }

  /** Run i's report speaks of transfer t at position a. */
  ghost predicate Speaks(k: Case, s: Records, cursor: nat, rs: seq<Inputs>, i: nat, a: nat, t: Transfer) {
    i < |rs| && a < |rs[i].ordered| && rs[i].ordered[a] == t
    && var r := ReportOf(k, s, cursor, rs, i); r.Ok? && a < |r.value.notes|
  }

  lemma {:induction false} WalkLength(env: Env, chain: Str, s: Records, ts: seq<Transfer>, n: nat, from: nat, to: nat, watch: Watch, at: Time)
    requires n <= |ts| && Walk(env, chain, s, ts, n, from, to, watch, at).1.Ok?
    ensures |Walk(env, chain, s, ts, n, from, to, watch, at).1.value| == n
  {
    if n > 0 {
      WalkStep(env, chain, s, ts, n, from, to, watch, at);
      WalkLength(env, chain, s, ts, n - 1, from, to, watch, at);
      hide Walk, Reconciled;
    }
  }

  lemma WindowSpeaks(k: Case, s: Records, cursor: nat, rs: seq<Inputs>, i: nat)
    requires i < |rs| && ReportOf(k, s, cursor, rs, i).Ok?
    ensures var r := ReportOf(k, s, cursor, rs, i).value; if r.from <= r.to then |r.notes| == |rs[i].ordered| else r.notes == []
  {
    var (mid, at) := Then(k, s, cursor, rs, i);
    var r := rs[i];
    var swept := Sweep(k.env, k.chain, mid, r.ids, |r.ids|, r.sweeping, r.at).0;
    if r.finalized.Some? && Walk(k.env, k.chain, swept, r.ordered, |r.ordered|, at + 1, r.finalized.value, r.watch, r.at).1.Ok? {
      WalkLength(k.env, k.chain, swept, r.ordered, |r.ordered|, at + 1, r.finalized.value, r.watch, r.at);
    }
    hide Sweep, Walk, Then;
  }

  /** Every transfer of the payment at a height the cursor has passed is spoken of by exactly one
      successful report, exactly once. */
  lemma EachTransferOnce(k: Case, s: Records, cursor: nat, rs: seq<Inputs>, all: set<Transfer>, t: Transfer)
    requires Shown(k, s, cursor, rs, all) && t in all && Ours(k, t) && cursor < t.height <= Then(k, s, cursor, rs, |rs|).1
    ensures exists i, a :: Speaks(k, s, cursor, rs, i, a, t)
    ensures forall i, a, j, b :: Speaks(k, s, cursor, rs, i, a, t) && Speaks(k, s, cursor, rs, j, b, t) ==> i == j && a == b
  {
    hide Then, ReportOf;
    WindowsTile(k, s, cursor, rs, t.height);
    var w :| 0 <= w < |rs| && Covers(k, s, cursor, rs, w, t.height);
    assert WindowShown(k, s, cursor, rs, all, w);
    WindowSpeaks(k, s, cursor, rs, w);
    var p :| 0 <= p < |rs[w].ordered| && rs[w].ordered[p] == t;
    assert Speaks(k, s, cursor, rs, w, p, t);
    forall i, a, j, b | Speaks(k, s, cursor, rs, i, a, t) && Speaks(k, s, cursor, rs, j, b, t) ensures i == j && a == b {
      SpokenIsCovered(k, s, cursor, rs, all, i, a, t);
      SpokenIsCovered(k, s, cursor, rs, all, j, b, t);
      assert WindowShown(k, s, cursor, rs, all, i);
    }
  }

  lemma SpokenIsCovered(k: Case, s: Records, cursor: nat, rs: seq<Inputs>, all: set<Transfer>, i: nat, a: nat, t: Transfer)
    requires Shown(k, s, cursor, rs, all) && Ours(k, t) && Speaks(k, s, cursor, rs, i, a, t)
    ensures Covers(k, s, cursor, rs, i, t.height)
  {
    hide Then, ReportOf;
    assert WindowShown(k, s, cursor, rs, all, i);
    WindowSpeaks(k, s, cursor, rs, i);
  }

  predicate Settles(note: Note) { note.Match? && (note.how == PostMatches || note.how == Checked(Closed)) }

  /** Of transfers with distinct hashes, at most one is ever matched as settled, in whatever
      reports; any other is paid twice; and once some transfer was walked past, exactly one post
      stands on the books, on the hash of the one matched. */
  lemma OneSettlesOthersPaidTwice(k: Case, s: Records, cursor: nat, rs: seq<Inputs>, i: nat, a: nat, t: Transfer, j: nat, b: nat, u: Transfer)
    requires Bookable(k) && Live(k, s) && forall r :: 0 <= r < |rs| ==> InputsOk(k, rs[r])
    requires Ours(k, t) && Ours(k, u) && t.txHash != u.txHash
    requires Speaks(k, s, cursor, rs, i, a, t) && Speaks(k, s, cursor, rs, j, b, u)
    ensures var x, y := ReportOf(k, s, cursor, rs, i).value.notes[a], ReportOf(k, s, cursor, rs, j).value.notes[b];
      && (Settles(x) || x == Finding(PaidTwice, t, k.it.id)) && (Settles(y) || y == Finding(PaidTwice, u, k.it.id))
      && !(Settles(x) && Settles(y))
    ensures exists hash :: Done(k, Then(k, s, cursor, rs, |rs|).0, hash)
              && (Settles(ReportOf(k, s, cursor, rs, i).value.notes[a]) <==> t.txHash == hash)
  {
    hide Then, ReportOf, Done, Live, InputsOk, Bookable, ReportAgrees, ReportsAgree, Ours;
    var paid := RunsAgree(k, s, cursor, rs, |rs|);
    SpokenIsNoted(k, s, cursor, rs, paid, i, a, t);
    SpokenIsNoted(k, s, cursor, rs, paid, j, b, u);
    assert Done(k, Then(k, s, cursor, rs, |rs|).0, paid.value);
  }

  /** Where a transfer was spoken of: a run, and a position in its window. */
  datatype Place = Place(run: nat, at: nat, t: Transfer)

  ghost predicate SpokenAt(k: Case, s: Records, cursor: nat, rs: seq<Inputs>, p: Place) {
    Ours(k, p.t) && Speaks(k, s, cursor, rs, p.run, p.at, p.t)
  }

  function NoteAt(k: Case, s: Records, cursor: nat, rs: seq<Inputs>, p: Place): Note
    requires p.run < |rs| && ReportOf(k, s, cursor, rs, p.run).Ok? && p.at < |ReportOf(k, s, cursor, rs, p.run).value.notes|
  {
    ReportOf(k, s, cursor, rs, p.run).value.notes[p.at]
  }

  /** What was said there: that this transfer settled the payment, or that it paid it twice. */
  ghost predicate MatchedAt(k: Case, s: Records, cursor: nat, rs: seq<Inputs>, p: Place) {
    SpokenAt(k, s, cursor, rs, p) && Settles(NoteAt(k, s, cursor, rs, p))
  }

  ghost predicate TwiceAt(k: Case, s: Records, cursor: nat, rs: seq<Inputs>, p: Place) {
    SpokenAt(k, s, cursor, rs, p) && NoteAt(k, s, cursor, rs, p) == Finding(PaidTwice, p.t, k.it.id)
  }

  /** Once all the payment's transfers were walked past, exactly one of them is matched as the one
      that settled it, and every other is paid twice. */
  lemma ExactlyOneSettles(k: Case, s: Records, cursor: nat, rs: seq<Inputs>, places: seq<Place>) returns (one: nat)
    requires Bookable(k) && Live(k, s) && forall r :: 0 <= r < |rs| ==> InputsOk(k, rs[r])
    requires places != [] && forall p :: 0 <= p < |places| ==> SpokenAt(k, s, cursor, rs, places[p])
    requires forall p, q :: 0 <= p < q < |places| ==> places[p].t.txHash != places[q].t.txHash
    requires forall hash :: hash in k.hashes ==> exists p :: 0 <= p < |places| && places[p].t.txHash == hash
    ensures one < |places| && Done(k, Then(k, s, cursor, rs, |rs|).0, places[one].t.txHash)
    ensures forall p :: 0 <= p < |places| ==> if p == one then MatchedAt(k, s, cursor, rs, places[p]) else TwiceAt(k, s, cursor, rs, places[p])
  {
    hide *;
    var paid := RunsAgree(k, s, cursor, rs, |rs|);
    PlaceIsNoted(k, s, cursor, rs, paid, places[0]);
    FineIsDone(k, Then(k, s, cursor, rs, |rs|).0, paid);
    one :| 0 <= one < |places| && places[one].t.txHash == paid.value;
    forall p | 0 <= p < |places|
      ensures if p == one then MatchedAt(k, s, cursor, rs, places[p]) else TwiceAt(k, s, cursor, rs, places[p])
    {
      PlaceIsNoted(k, s, cursor, rs, paid, places[p]);
    }
  }

  lemma PlaceIsNoted(k: Case, s: Records, cursor: nat, rs: seq<Inputs>, paid: Option<Str>, p: Place)
    requires ReportsAgree(k, s, cursor, rs, |rs|, paid) && SpokenAt(k, s, cursor, rs, p)
    ensures paid.Some? && if p.t.txHash == paid.value then MatchedAt(k, s, cursor, rs, p) else TwiceAt(k, s, cursor, rs, p)
  {
    hide Then, ReportOf, ReportsAgree, Ours;
    SpokenIsNoted(k, s, cursor, rs, paid, p.run, p.at, p.t);
  }

  lemma FineIsDone(k: Case, s: Records, paid: Option<Str>)
    requires Fine(k, s, paid) && paid.Some?
    ensures Done(k, s, paid.value) && paid.value in k.hashes
  {
    hide Base, PostedOn;
  }

  lemma SpokenIsNoted(k: Case, s: Records, cursor: nat, rs: seq<Inputs>, paid: Option<Str>, i: nat, a: nat, t: Transfer)
    requires ReportsAgree(k, s, cursor, rs, |rs|, paid) && Ours(k, t) && Speaks(k, s, cursor, rs, i, a, t)
    ensures paid.Some? && Noted(k, t, ReportOf(k, s, cursor, rs, i).value.notes[a], paid.value)
  {
    hide Then, ReportOf, Noted, Ours;
    assert ReportAgrees(k, s, cursor, rs, i, paid);
  }
}
