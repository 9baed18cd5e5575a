/** Handing out nonces, one at a time per account, and what is never handed out again. */
module Counter {
  import opened Bytes

  datatype Error = Gap(at: nat) | NoGap | Stale | Busy(out: nat)

  /** Did the transaction leave?  Unknown counts as used. */
  datatype Sent = Yes | No | Unknown

  datatype Reservation = Reservation(account: Str, value: nat, ordered: bool, fill: bool)

  /** token: nobody holds the account; out: handed out and not resolved; gap: unaccounted for. */
  datatype Account = Account(token: bool, next: nat, out: Option<nat>, gap: Option<nat>)

  const NEW := Account(true, 0, None, None)

  // ---- what each call does to an account ----

  function Reserved(a: Account): (Account, Result<nat, Error>) {
    if a.gap.Some? then (a.(token := true), Err(Gap(a.gap.value)))
    else (a.(next := a.next + 1, out := Some(a.next)), Ok(a.next))
  }

  function GapReserved(a: Account): (Account, Result<nat, Error>) {
    if a.gap.None? then (a.(token := true), Err(NoGap))
    else (a.(out := a.gap), Ok(a.gap.value))
  }

  function Resolved(a: Account, value: nat, fill: bool, s: Sent): (Account, Option<Error>) {
    if a.out != Some(value) then (a, Some(Stale))
    else
      var b := if fill then (if s == Yes then a.(gap := None) else a)
               else if s == No then a.(next := value)
               else if s == Unknown then a.(gap := Some(value))
               else a;
      (b.(out := None, token := true), None)
  }

  function Synced(a: Account, next: nat): (Account, Option<Error>) {
    if a.out.Some? then (a, Some(Busy(a.out.value)))
    else (a.(next := next, gap := if a.gap.Some? && next > a.gap.value then None else a.gap), None)
  }

  // ---- the counter ----

  class Sequencer {
    var accounts: map<Str, Account>

    constructor ()
      ensures accounts == map[]
    {
      accounts := map[];
    }

    function Of(name: Str): Account
      reads this
    {
      if name in accounts then accounts[name] else NEW
    }

    /** Find the account, or open it with its token in place. */
    method Find(name: Str)
      modifies this
      ensures name in accounts && accounts == old(accounts)[name := old(Of(name))]
    {
      if name !in accounts {
        accounts := accounts[name := NEW];
      }
    }

    /** Wait for the account's token; false when the caller gave up instead. */
    method Take(name: Str, patient: bool) returns (taken: bool)
      modifies this
      ensures taken <==> patient && old(Of(name)).token
      ensures accounts == old(accounts)[name := if taken then old(Of(name)).(token := false) else old(Of(name))]
    {
      Find(name);
      taken := patient && accounts[name].token;
      if taken {
        accounts := accounts[name := accounts[name].(token := false)];
      }
    }

    /** Under the lock, with the token in hand: the next number, or the token back on a gap. */
    method Reserve(name: Str) returns (r: Result<Reservation, Error>)
      requires name in accounts && !accounts[name].token
      modifies this
      ensures var (a, v) := Reserved(old(accounts[name]));
        accounts == old(accounts)[name := a] && r == if v.Ok? then Ok(Reservation(name, v.value, true, false)) else Err(v.error)
    {
      var a := accounts[name];
      if a.gap.Some? {
        accounts := accounts[name := a.(token := true)];
        return Err(Gap(a.gap.value));
      }
      var v := a.next;
      accounts := accounts[name := a.(next := a.next + 1, out := Some(v))];
      return Ok(Reservation(name, v, true, false));
    }

    method ReserveGap(name: Str) returns (r: Result<Reservation, Error>)
      requires name in accounts && !accounts[name].token
      modifies this
      ensures var (a, v) := GapReserved(old(accounts[name]));
        accounts == old(accounts)[name := a] && r == if v.Ok? then Ok(Reservation(name, v.value, true, true)) else Err(v.error)
    {
      var a := accounts[name];
      if a.gap.None? {
        accounts := accounts[name := a.(token := true)];
        return Err(NoGap);
      }
      accounts := accounts[name := a.(out := a.gap)];
      return Ok(Reservation(name, a.gap.value, true, true));
    }

    method Resolve(r: Reservation, s: Sent) returns (err: Option<Error>)
      modifies this
      ensures !r.ordered ==> accounts == old(accounts) && err == None
      ensures r.ordered && r.account !in old(accounts) ==> accounts == old(accounts) && err == Some(Stale)
      ensures r.ordered && r.account in old(accounts) ==>
        var (a, e) := Resolved(old(accounts[r.account]), r.value, r.fill, s); accounts == old(accounts)[r.account := a] && err == e
    {
      if !r.ordered {
        return None;
      }
      if r.account !in accounts || accounts[r.account].out.None? || accounts[r.account].out.value != r.value {
        return Some(Stale);
      }
      var a := accounts[r.account];
      if r.fill {
        if s == Yes {
          a := a.(gap := None);
        }
      } else if s == No {
        a := a.(next := r.value);
      } else if s == Unknown {
        a := a.(gap := Some(r.value));
      }
      accounts := accounts[r.account := a.(out := None, token := true)];
      return None;
    }

    method Sync(name: Str, next: nat) returns (err: Option<Error>)
      modifies this
      ensures var (a, e) := Synced(old(Of(name)), next); accounts == old(accounts)[name := a] && err == e
    {
      Find(name);
      var a := accounts[name];
      if a.out.Some? {
        return Some(Busy(a.out.value));
      }
      a := a.(next := next);
      if a.gap.Some? && next > a.gap.value {
        a := a.(gap := None);
      }
      accounts := accounts[name := a];
      return None;
    }
  }

  // ---- any number of callers on one account ----

  datatype Event = Given(value: nat, fill: bool) | Settled(value: nat, fill: bool, sent: Sent) | Aligned(next: nat)

  /** inside: callers with the token who have not reached the lock; held: unresolved reservations. */
  datatype World = World(a: Account, inside: set<nat>, held: map<nat, (nat, bool)>, log: seq<Event>)

  datatype Step = TakeToken(caller: nat) | Lock(caller: nat, fill: bool) | Finish(caller: nat, sent: Sent) | Align(next: nat)

  /** A step that is not possible now changes nothing.  Each holder resolves at most once. */
  function Next(w: World, s: Step): World {
    match s
    case TakeToken(c) =>
      if !w.a.token || c in w.inside || c in w.held then w else w.(a := w.a.(token := false), inside := w.inside + {c})
    case Lock(c, fill) =>
      if c !in w.inside then w
      else
        var (a, v) := if fill then GapReserved(w.a) else Reserved(w.a);
        if v.Err? then w.(a := a, inside := w.inside - {c})
        else World(a, w.inside - {c}, w.held[c := (v.value, fill)], w.log + [Given(v.value, fill)])
    case Finish(c, sent) =>
      if c !in w.held then w
      else
        var (v, fill) := w.held[c];
        var (a, e) := Resolved(w.a, v, fill, sent);
        World(a, w.inside, w.held - {c}, if e.None? then w.log + [Settled(v, fill, sent)] else w.log)
    case Align(n) =>
      var (a, e) := Synced(w.a, n);
      w.(a := a, log := if e.None? then w.log + [Aligned(n)] else w.log)
  }

  const START := World(NEW, {}, map[], [])

  function RunFrom(w: World, steps: seq<Step>): World {
    if steps == [] then w else Next(RunFrom(w, steps[..|steps| - 1]), steps[|steps| - 1])
  }

  function Run(steps: seq<Step>): World { RunFrom(START, steps) }

  /** The number most recently given up for lost by an ordinary reservation. */
  function LastUnknown(log: seq<Event>): Option<nat> {
    if log == [] then None
    else
      var e := log[|log| - 1];
      if e.Settled? && !e.fill && e.sent == Unknown then Some(e.value) else LastUnknown(log[..|log| - 1])
  }

  predicate Uses(e: Event, v: nat) { e.Settled? && e.value == v && e.sent != No }

  ghost predicate Used(log: seq<Event>, v: nat) {
    exists i :: 0 <= i < |log| && Uses(log[i], v)
  }

  /** An alignment that repeats nothing: refused, since a number is out, or above every number used. */
  ghost predicate SafeAlign(w: World, n: nat) {
    w.a.out.Some? || forall v: nat :: Used(w.log, v) ==> v < n
  }

  ghost predicate SafeFrom(w: World, steps: seq<Step>) {
    steps == [] || (
      var before, s := steps[..|steps| - 1], steps[|steps| - 1];
      SafeFrom(w, before) && (s.Align? ==> SafeAlign(RunFrom(w, before), s.next)))
  }

  ghost predicate AtMostOne(w: World) {
    && (w.a.token <==> w.inside == {} && w.held == map[])
    && (forall c, d :: c in w.inside && d in w.inside ==> c == d)
    && (forall c, d :: c in w.held && d in w.held ==> c == d)
    && (w.inside != {} ==> w.held == map[])
    && (w.a.out.Some? <==> w.held != map[])
    && (forall c :: c in w.held ==> w.a.out == Some(w.held[c].0))
  }

  ghost predicate Numbers(w: World) {
    && (forall v: nat :: Used(w.log, v) ==> v < w.a.next)
    && (forall c :: c in w.held && !w.held[c].1 ==> w.a.gap.None? && w.held[c].0 + 1 == w.a.next && !Used(w.log, w.held[c].0))
    && (forall c :: c in w.held && w.held[c].1 ==> w.a.gap == Some(w.held[c].0))
    && (w.a.gap.Some? ==> w.a.gap == LastUnknown(w.log) && w.a.gap.value < w.a.next)
  }

  /** What the log shows of every number handed out so far. */
  ghost predicate LogOk(log: seq<Event>) {
    forall i :: 0 <= i < |log| && log[i].Given? ==>
      if log[i].fill then LastUnknown(log[..i]) == Some(log[i].value) else !Used(log[..i], log[i].value)
  }

  lemma UsedAfter(log: seq<Event>, e: Event, v: nat)
    ensures Used(log + [e], v) <==> Used(log, v) || Uses(e, v)
  {
    var all := log + [e];
    if Used(log, v) {
      var i :| 0 <= i < |log| && Uses(log[i], v);
      assert all[i] == log[i];
    }
    assert all[|log|] == e;
  }

  lemma LogAfter(log: seq<Event>, e: Event)
    requires LogOk(log)
    requires e.Given? ==> if e.fill then LastUnknown(log) == Some(e.value) else !Used(log, e.value)
    ensures LogOk(log + [e])
    ensures LastUnknown(log + [e]) == if e.Settled? && !e.fill && e.sent == Unknown then Some(e.value) else LastUnknown(log)
    ensures forall v: nat :: Used(log + [e], v) <==> Used(log, v) || Uses(e, v)
  {
    var all := log + [e];
    assert all[..|log|] == log;
    forall v: nat ensures Used(all, v) <==> Used(log, v) || Uses(e, v) {
      UsedAfter(log, e, v);
    }
    hide Used, LastUnknown;
    forall i | 0 <= i < |all| && all[i].Given?
      ensures if all[i].fill then LastUnknown(all[..i]) == Some(all[i].value) else !Used(all[..i], all[i].value)
    {
      assert i < |log| ==> all[..i] == log[..i] && all[i] == log[i];
    }
  }

  lemma LockKeeps(w: World, c: nat, fill: bool)
    requires AtMostOne(w) && Numbers(w) && LogOk(w.log) && c in w.inside
    ensures AtMostOne(Next(w, Lock(c, fill))) && Numbers(Next(w, Lock(c, fill))) && LogOk(Next(w, Lock(c, fill)).log)
  {
    var after := Next(w, Lock(c, fill));
    assert w.held == map[] && !w.a.token && w.inside - {c} == {};
    var (a, v) := if fill then GapReserved(w.a) else Reserved(w.a);
    if v.Ok? {
      var e := Given(v.value, fill);
      assert !Used(w.log, w.a.next);
      LogAfter(w.log, e);
      assert c in after.held;
    }
    hide Used, LastUnknown, LogOk;
  }

  lemma FinishKeeps(w: World, c: nat, sent: Sent)
    requires AtMostOne(w) && Numbers(w) && LogOk(w.log) && c in w.held
    ensures AtMostOne(Next(w, Finish(c, sent))) && Numbers(Next(w, Finish(c, sent))) && LogOk(Next(w, Finish(c, sent)).log)
  {
    var after := Next(w, Finish(c, sent));
    var (v, fill) := w.held[c];
    assert Resolved(w.a, v, fill, sent).1.None? && !w.a.token && w.inside == {};
    LogAfter(w.log, Settled(v, fill, sent));
    hide Used, LastUnknown, LogOk;
    assert after.held.Keys == {};
    assert after.held == map[];
  }

  lemma AlignKeeps(w: World, n: nat)
    requires AtMostOne(w) && Numbers(w) && LogOk(w.log) && w.a.out.None? && SafeAlign(w, n)
    ensures AtMostOne(Next(w, Align(n))) && Numbers(Next(w, Align(n))) && LogOk(Next(w, Align(n)).log)
  {
    hide Used, LastUnknown, LogOk, Next, Numbers, AtMostOne;
    AlignMoves(w, n);
    if w.a.gap.Some? {
      GapIsUsed(w);
    }
    LogAfter(w.log, Aligned(n));
    AlignedIsOne(w, Next(w, Align(n)));
    AlignedNumbers(w, Next(w, Align(n)), n);
  }

  lemma AlignMoves(w: World, n: nat)
    requires w.a.out.None?
    ensures var gap := if w.a.gap.Some? && n > w.a.gap.value then None else w.a.gap;
      Next(w, Align(n)) == w.(a := w.a.(next := n, gap := gap), log := w.log + [Aligned(n)])
  {
  }

  lemma GapIsUsed(w: World)
    requires Numbers(w) && w.a.gap.Some?
    ensures Used(w.log, w.a.gap.value)
  {
    LastUnknownIsUsed(w.log);
    hide Used, LastUnknown;
  }

  lemma AlignedIsOne(w: World, v: World)
    requires AtMostOne(w) && v.a.token == w.a.token && v.a.out == w.a.out && v.inside == w.inside && v.held == w.held
    ensures AtMostOne(v)
  {
  }

  lemma AlignedNumbers(w: World, v: World, n: nat)
    requires AtMostOne(w) && Numbers(w) && w.a.out.None? && v.held == w.held && v.a.next == n
    requires v.a.gap == (if w.a.gap.Some? && n > w.a.gap.value then None else w.a.gap)
    requires (w.a.gap.Some? ==> w.a.gap.value < n) && LastUnknown(v.log) == LastUnknown(w.log)
    requires forall x: nat :: Used(v.log, x) ==> x < n
    ensures Numbers(v)
  {
    hide Used, LastUnknown;
    assert w.held == map[];
  }

  lemma {:induction false} LastUnknownIsUsed(log: seq<Event>)
    requires LastUnknown(log).Some?
    ensures Used(log, LastUnknown(log).value)
  {
    var e := log[|log| - 1];
    if e.Settled? && !e.fill && e.sent == Unknown {
      assert Uses(log[|log| - 1], e.value);
    } else {
      LastUnknownIsUsed(log[..|log| - 1]);
      var i :| 0 <= i < |log| - 1 && Uses(log[..|log| - 1][i], LastUnknown(log).value);
      assert Uses(log[i], LastUnknown(log).value);
    }
  }

  lemma NextKeeps(w: World, s: Step)
    requires AtMostOne(w) && Numbers(w) && LogOk(w.log) && (s.Align? ==> SafeAlign(w, s.next))
    ensures AtMostOne(Next(w, s)) && Numbers(Next(w, s)) && LogOk(Next(w, s).log)
  {
    match s {
      case Lock(c, fill) =>
        if c in w.inside { LockKeeps(w, c, fill); }
      case Finish(c, sent) =>
        if c in w.held { FinishKeeps(w, c, sent); }
      case Align(n) =>
        if w.a.out.None? { AlignKeeps(w, n); }
      case TakeToken(_) =>
    }
  }

  /** One at most at work, and what was handed out and used so far is in order. */
  ghost predicate Good(w: World) { AtMostOne(w) && Numbers(w) && LogOk(w.log) }

  lemma {:induction false} GoodFrom(w: World, steps: seq<Step>)
    requires Good(w) && SafeFrom(w, steps)
    ensures Good(RunFrom(w, steps))
  {
    if steps != [] {
      var before := steps[..|steps| - 1];
      GoodFrom(w, before);
      hide AtMostOne, Numbers, LogOk, SafeAlign;
      NextKeeps(RunFrom(w, before), steps[|steps| - 1]);
    }
  }

  /** Over every interleaving of any number of callers whose alignments, where they are not refused,
      stay above every used number: one reservation at most is outstanding, Reserve never hands out
      a number that was sent or may have been, and ReserveGap hands out only the number last given
      up for lost. */
  lemma NoNonceTwice(steps: seq<Step>)
    requires SafeFrom(START, steps)
    ensures AtMostOne(Run(steps)) && Numbers(Run(steps)) && LogOk(Run(steps).log)
  {
    GoodFrom(START, steps);
  }

  /** Giving the token back never finds the place taken, so no caller blocks under the lock. */
  lemma TokenHasRoom(steps: seq<Step>, caller: nat)
    requires SafeFrom(START, steps) && (caller in Run(steps).inside || caller in Run(steps).held)
    ensures !Run(steps).a.token
  {
    NoNonceTwice(steps);
    hide RunFrom;
  }

  // ---- exactly which alignments repeat a number ----

  lemma Appended(w: World, steps: seq<Step>, s: Step)
    requires SafeFrom(w, steps) && !s.Align?
    ensures SafeFrom(w, steps + [s]) && RunFrom(w, steps + [s]) == Next(RunFrom(w, steps), s)
  {
    assert (steps + [s])[..|steps|] == steps;
  }

  /** Nobody at work, nothing lost. */
  predicate Idle(w: World, next: nat) {
    w.a == Account(true, next, None, None) && w.inside == {} && w.held == map[]
  }

  lemma ReserveIdle(w: World, c: nat, next: nat)
    requires Idle(w, next)
    ensures Next(Next(w, TakeToken(c)), Lock(c, false)) == World(Account(false, next + 1, Some(next), None), {}, map[c := (next, false)], w.log + [Given(next, false)])
  {
    assert {} + {c} - {c} == {};
  }

  lemma RoundIdle(w: World, c: nat, next: nat)
    requires Idle(w, next)
    ensures Next(Next(Next(w, TakeToken(c)), Lock(c, false)), Finish(c, Yes)) == World(Account(true, next + 1, None, None), {}, map[], w.log + [Given(next, false), Settled(next, false, Yes)])
  {
    ReserveIdle(w, c, next);
    var v := World(Account(false, next + 1, Some(next), None), {}, map[c := (next, false)], w.log + [Given(next, false)]);
    assert v.held - {c} == map[];
    assert w.log + [Given(next, false)] + [Settled(next, false, Yes)] == w.log + [Given(next, false), Settled(next, false, Yes)];
  }

  /** What was logged stays logged. */
  lemma UsedStays(log: seq<Event>, more: seq<Event>, v: nat)
    requires Used(log, v)
    ensures Used(log + more, v)
  {
    var i :| 0 <= i < |log| && Uses(log[i], v);
    assert (log + more)[i] == log[i];
  }

  /** Reservation after reservation, the counter reaches any number above it. */
  lemma {:induction false} Rounds(w: World, steps: seq<Step>, c: nat, next: nat, v: nat) returns (more: seq<Step>)
    requires SafeFrom(w, steps) && Idle(RunFrom(w, steps), next) && next <= v && Used(RunFrom(w, steps).log, v)
    ensures SafeFrom(w, more) && Idle(RunFrom(w, more), v) && Used(RunFrom(w, more).log, v)
    decreases v - next
  {
    if next == v {
      return steps;
    }
    var idle := RunFrom(w, steps);
    Appended(w, steps, TakeToken(c));
    Appended(w, steps + [TakeToken(c)], Lock(c, false));
    Appended(w, steps + [TakeToken(c)] + [Lock(c, false)], Finish(c, Yes));
    RoundIdle(idle, c, next);
    UsedStays(idle.log, [Given(next, false), Settled(next, false, Yes)], v);
    hide Used, Next, RunFrom, SafeFrom;
    more := Rounds(w, steps + [TakeToken(c)] + [Lock(c, false)] + [Finish(c, Yes)], c, next + 1, v);
  }

  /** A caller who has the token, or takes it, clears the gap if there is one. */
  lemma Clears(w: World, v: nat) returns (c: nat, steps: seq<Step>)
    requires AtMostOne(w) && w.a.out.None? && Used(w.log, v)
    ensures SafeFrom(w, steps) && Idle(RunFrom(w, steps), w.a.next) && Used(RunFrom(w, steps).log, v)
  {
    hide *;
    c, steps := Enters(w);
    var t := RunFrom(w, steps);
    Appended(w, steps, Lock(c, true));
    Appended(w, steps + [Lock(c, true)], Finish(c, Yes));
    LocksGap(t, c, v);
    steps := if t.a.gap.None? then steps + [Lock(c, true)] else steps + [Lock(c, true)] + [Finish(c, Yes)];
  }

  /** Somebody is inside with the token, or somebody takes it. */
  lemma Enters(w: World) returns (c: nat, steps: seq<Step>)
    requires AtMostOne(w) && w.a.out.None?
    ensures SafeFrom(w, steps)
    ensures var t := RunFrom(w, steps); t.inside == {c} && t.held == map[] && t.log == w.log && t.a == w.a.(token := false)
  {
    steps := [];
    if w.inside == {} {
      c := 0;
      Appended(w, [], TakeToken(c));
      steps := [] + [TakeToken(c)];
    } else {
      c :| c in w.inside;
    }
  }

  lemma LocksGap(t: World, c: nat, v: nat)
    requires t.inside == {c} && t.held == map[] && !t.a.token && t.a.out.None? && Used(t.log, v)
    ensures t.a.gap.None? ==> Idle(Next(t, Lock(c, true)), t.a.next) && Used(Next(t, Lock(c, true)).log, v)
    ensures t.a.gap.Some? ==> var u := Next(Next(t, Lock(c, true)), Finish(c, Yes)); Idle(u, t.a.next) && Used(u.log, v)
  {
    hide Used;
    assert {c} - {c} == {};
    if t.a.gap.Some? {
      var g := t.a.gap.value;
      var u := Next(t, Lock(c, true));
      assert u.held == map[c := (g, true)] && u.held - {c} == map[];
      UsedStays(t.log, [Given(g, true)], v);
      UsedStays(t.log + [Given(g, true)], [Settled(g, true, Yes)], v);
    }
  }

  /** Aligned at or below a used number, the counter hands that number out again. */
  lemma AlignsBack(w: World, n: nat, v: nat) returns (later: seq<Step>)
    requires Good(w) && w.a.out.None? && Used(w.log, v) && n <= v
    ensures SafeFrom(Next(w, Align(n)), later) && !LogOk(RunFrom(Next(w, Align(n)), later).log)
  {
    var start := Next(w, Align(n));
    UsedStays(w.log, [Aligned(n)], v);
    assert AtMostOne(start) && start.a.next == n && start.a.out.None? && Used(start.log, v) by {
      hide Used, Numbers, LogOk;
    }
    hide Good, AtMostOne, Next, Used, LogOk, RunFrom, SafeFrom;
    var c, steps := Clears(start, v);
    var more := Rounds(start, steps, c, n, v);
    Appended(start, more, TakeToken(c));
    Appended(start, more + [TakeToken(c)], Lock(c, false));
    later := more + [TakeToken(c)] + [Lock(c, false)];
    var idle := RunFrom(start, more);
    ReserveIdle(idle, c, v);
    GivenTwice(idle.log, v);
  }

  lemma GivenTwice(log: seq<Event>, v: nat)
    requires Used(log, v)
    ensures !LogOk(log + [Given(v, false)])
  {
    var all := log + [Given(v, false)];
    assert all[..|log|] == log && all[|log|] == Given(v, false);
    hide Used;
  }

  /** After an alignment that is not refused, no continuation of safe alignments ever hands out a used
      number again exactly when it was above every used number. */
  lemma AlignRepeatsNothing(before: seq<Step>, n: nat)
    requires SafeFrom(START, before) && Run(before).a.out.None?
    ensures (forall later :: SafeFrom(Next(Run(before), Align(n)), later) ==> LogOk(RunFrom(Next(Run(before), Align(n)), later).log))
            <==> forall v: nat :: Used(Run(before).log, v) ==> v < n
  {
    var w := Run(before);
    GoodFrom(START, before);
    hide Run, RunFrom, SafeFrom, Next, Used, AtMostOne, Numbers, LogOk;
    if v: nat :| Used(w.log, v) && v >= n {
      var later := AlignsBack(w, n, v);
    } else {
      NextKeeps(w, Align(n));
      forall later | SafeFrom(Next(w, Align(n)), later) ensures LogOk(RunFrom(Next(w, Align(n)), later).log) {
        GoodFrom(Next(w, Align(n)), later);
      }
    }
  }

  /** The shortest such run: aligned back to zero, the counter repeats a sent number. */
  lemma AligningBackRepeats()
    ensures var steps := [TakeToken(1), Lock(1, false), Finish(1, Yes), Align(0), TakeToken(1), Lock(1, false)];
      Run(steps).log == [Given(0, false), Settled(0, false, Yes), Aligned(0), Given(0, false)] && !LogOk(Run(steps).log)
  {
    var t, l, f, a := TakeToken(1), Lock(1, false), Finish(1, Yes), Align(0);
    FirstSend();
    var w3 := Run([t, l, f]);
    RunOn([t, l, f], a);
    RunOn([t, l, f, a], t);
    RunOn([t, l, f, a, t], l);
    assert [t, l, f] + [a] == [t, l, f, a] && [t, l, f, a] + [t] == [t, l, f, a, t] && [t, l, f, a, t] + [l] == [t, l, f, a, t, l];
    AlignsIdle(w3, 0);
    hide Run, RunFrom, Next;
    var w4 := Run([t, l, f, a]);
    ReserveIdle(w4, 1, 0);
    assert Uses(w4.log[1], 0);
    GivenTwice(w4.log, 0);
  }

  /** The first send of an account: number zero, taken and used. */
  lemma FirstSend()
    ensures var w := Run([TakeToken(1), Lock(1, false), Finish(1, Yes)]);
      Idle(w, 1) && w.log == [Given(0, false), Settled(0, false, Yes)]
  {
    var t, l, f := TakeToken(1), Lock(1, false), Finish(1, Yes);
    RunOn([], t);
    RunOn([t], l);
    RunOn([t, l], f);
    assert [] + [t] == [t] && [t] + [l] == [t, l] && [t, l] + [f] == [t, l, f];
    assert START.log + [Given(0, false), Settled(0, false, Yes)] == [Given(0, false), Settled(0, false, Yes)];
    RoundIdle(START, 1, 0);
    hide Run, RunFrom, Next;
  }

  lemma AlignsIdle(w: World, n: nat)
    requires Idle(w, w.a.next)
    ensures Idle(Next(w, Align(n)), n) && Next(w, Align(n)).log == w.log + [Aligned(n)]
  {
  }

  lemma RunOn(steps: seq<Step>, s: Step)
    ensures Run(steps + [s]) == Next(Run(steps), s)
  {
    assert (steps + [s])[..|steps|] == steps;
  }
}
