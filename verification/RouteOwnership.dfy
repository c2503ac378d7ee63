/** The controller finalizer guards the shared route tables: while a path is in a table, the shell it belongs to still
    carries the finalizer, whatever the interleaving of syncs, expiry and deletion and whichever API call fails.

    A sync works on a copy from the lister, which may be old but never older than the copy of the previous sync of the
    same shell, and its writes carry the resource version of that copy.  Whether a copy has expired depends on the
    clock: on the wall clock when the shell has a schedule time, and on the time that passes between two readings in the
    sync itself when it has none.  The result needs that a copy on which a sync has expired the shell expires again. */
module RouteOwnership {
  import opened OrderedSet
  import opened RoutePaths
  import Expiry

  // ----- the protocol, as far as one shell goes -----

  /** One version of a shell object: `filled` says that the spec has its defaults, `ttl` is the time to live in seconds
      and `last` the schedule time. */
  datatype Version =
    Version(rv: nat, finalizer: bool, filled: bool, deleting: bool, ttl: Option<int>, last: Option<int>)

  /** How far the sync of a shell has come, and the copy it works on. */
  datatype Progress =
    | Ensuring(v: Version)                 // about to make sure of the finalizer and the defaults
    | Checking(v: Version)                 // made sure of them, about to look at the TTL
    | Routing(v: Version)                  // not expired: may write the route
    | Removing(v: Version, unrouted: bool) // deleted or expired: first the route, then the finalizer

  /** A shell: the object in the API server, every version it ever had, the versions on which a sync has expired it, the
      resource version that its last sync read, and the running sync. */
  datatype Local =
    Local(cur: Option<Version>, log: set<Version>, expired: set<Version>, seen: nat, sync: Option<Progress>)

  datatype Action =
    | New(ttl: Option<int>, filled: bool)
    | Edit(ttl: Option<int>, last: Option<int>, filled: bool)  // a user edit or a status update
    | Delete
    | Read(v: Version)               // a sync starts on a copy from the lister
    | Ensure
    | Decide(gap: nat, until: int)   // the time since the start of the sync, and the wall clock
    | Touch(last: Option<int>)       // another write of the sync to its own shell
    | AddRoute
    | RemoveRoute
    | RemoveFinalizer
    | Stop                           // the sync ends here, done or failed

  /** nextRequeueTimeDuration is negative. */
  predicate Expires(ttl: Option<int>, last: Option<int>, gap: nat, until: int) {
    && ttl.Some?
    && if last.Some? then last.value + Expiry.Duration(ttl.value) < until else Expiry.Duration(ttl.value) < gap
  }

  /** It is the expiry that a sync of module Expiry finds with the same readings. */
  lemma ExpiresAgrees(s: Expiry.Shell, c: Expiry.Clock)
    requires c.start <= c.until
    ensures Expires(s.ttl, s.last, c.until - c.start, c.until) <==> Expiry.Expires(s, c)
  {}

  /** An update based on `v` is accepted only while `v` is current. */
  predicate Fits(l: Local, v: Version) { l.cur.Some? && l.cur.value.rv == v.rv }

  /** A copy that needs no write before the sync goes on. */
  predicate Complete(v: Version) { v.finalizer && v.filled }

  predicate LocalEnabled(l: Local, a: Action) {
    match a
    case New(_, _) => l.cur.None?
    case Edit(_, _, _) => l.cur.Some?
    case Delete => l.cur.Some?
    case Read(v) => l.sync.None? && v in l.log && l.seen <= v.rv
    case Ensure => l.sync.Some? && l.sync.value.Ensuring? && (Complete(l.sync.value.v) || Fits(l, l.sync.value.v))
    case Decide(_, _) => l.sync.Some? && l.sync.value.Checking?
    case Touch(_) => l.sync.Some? && l.sync.value.Routing? && Fits(l, l.sync.value.v)
    case AddRoute => l.sync.Some? && l.sync.value.Routing?
    case RemoveRoute => l.sync.Some? && l.sync.value.Removing? && !l.sync.value.unrouted
    case RemoveFinalizer => l.sync.Some? && l.sync.value.Removing? && l.sync.value.unrouted && l.sync.value.v.finalizer
                            && Fits(l, l.sync.value.v)
    case Stop => l.sync.Some?
  }

  function Write(l: Local, rev: nat, v: Version): Local {
    var w := v.(rv := rev + 1);
    l.(cur := Some(w), log := l.log + {w})
  }

  function LocalDo(l: Local, rev: nat, a: Action): Local
    requires LocalEnabled(l, a)
  {
    match a
    case New(ttl, filled) => Write(l, rev, Version(0, false, filled, false, ttl, None))
    case Edit(ttl, last, filled) => Write(l, rev, l.cur.value.(ttl := ttl, last := last, filled := filled))
    case Delete => if l.cur.value.finalizer then Write(l, rev, l.cur.value.(deleting := true)) else l.(cur := None)
    case Read(v) => l.(seen := v.rv, sync := Some(if v.deleting then Removing(v, false) else Ensuring(v)))
    case Ensure =>
      var v := l.sync.value.v;
      var w := v.(finalizer := true, filled := true);
      if Complete(v) then l.(sync := Some(Checking(v)))
      else Write(l, rev, w).(sync := Some(Checking(w.(rv := rev + 1))))
    case Decide(gap, until) =>
      var v := l.sync.value.v;
      if Expires(v.ttl, v.last, gap, until) then l.(expired := l.expired + {v}, sync := Some(Removing(v, false)))
      else l.(sync := Some(Routing(v)))
    case Touch(last) =>
      var v := l.sync.value.v.(last := last);
      Write(l, rev, v).(sync := Some(Routing(v.(rv := rev + 1))))
    case AddRoute => l
    case RemoveRoute => l.(sync := Some(Removing(l.sync.value.v, true)))
    case RemoveFinalizer =>
      var v := l.sync.value.v;
      (if v.deleting then l.(cur := None) else Write(l, rev, v.(finalizer := false))).(sync := None)
    case Stop => l.(sync := None)
  }

  /** Whether the path of the shell is in the table afterwards. */
  predicate RoutedAfter(routed: bool, a: Action) {
    a.AddRoute? || (routed && !a.RemoveRoute?)
  }

  /** The hypothesis: a copy on which a sync has expired the shell expires again. */
  predicate LocalExpiresAgain(l: Local, a: Action) {
    a.Decide? && LocalEnabled(l, a) && l.sync.value.v in l.expired ==>
      Expires(l.sync.value.v.ttl, l.sync.value.v.last, a.gap, a.until)
  }

  // ----- the invariant of one shell -----

  predicate Held(l: Local) { l.cur.Some? && l.cur.value.finalizer }

  predicate Readable(l: Local, v: Version) { v in l.log && l.seen <= v.rv }

  ghost predicate Ledger(l: Local, rev: nat) {
    && (forall v :: v in l.log ==> v.rv <= rev)
    && (forall v, w :: v in l.log && w in l.log && v.rv == w.rv ==> v == w)
    && (l.cur.Some? ==> l.cur.value in l.log && forall v :: v in l.log ==> v.rv <= l.cur.value.rv)
    && (l.seen <= rev)
  }

  /** A version that a sync may still read and route on, without a write of its own, says the truth about the
      finalizer. */
  ghost predicate Truthful(l: Local) {
    forall v :: Readable(l, v) && Complete(v) && !v.deleting && v !in l.expired ==> Held(l)
  }

  /** Up to the copy `v` of a running sync, `v` is the only complete version that could still be read. */
  ghost predicate OnlyCopy(l: Local, v: Version) {
    forall w :: Readable(l, w) && w.rv <= v.rv ==> w == v || !Complete(w)
  }

  ghost predicate SyncOk(l: Local, routed: bool) {
    l.sync.Some? ==>
      var v := l.sync.value.v;
      match l.sync.value
      case Ensuring(_) => v in l.log && l.seen == v.rv && !v.deleting
      case Checking(_) => Readable(l, v) && Complete(v) && !v.deleting && OnlyCopy(l, v)
      case Routing(_) => v in l.log && v.finalizer && Held(l)
      case Removing(_, unrouted) =>
        Readable(l, v) && (v.deleting || v in l.expired) && OnlyCopy(l, v) && (unrouted ==> !routed)
  }

  ghost predicate LocalInv(l: Local, rev: nat, routed: bool) {
    Ledger(l, rev) && Truthful(l) && SyncOk(l, routed) && (routed ==> Held(l))
  }

  lemma LedgerKept(l: Local, rev: nat, routed: bool, a: Action)
    requires LocalInv(l, rev, routed) && LocalEnabled(l, a)
    ensures Ledger(LocalDo(l, rev, a), rev + 1)
  {
    match a
    case New(ttl, filled) => WriteKeepsLedger(l, rev, Version(0, false, filled, false, ttl, None));
    case Edit(ttl, last, filled) =>
      WriteKeepsLedger(l, rev, l.cur.value.(ttl := ttl, last := last, filled := filled));
    case Delete => WriteKeepsLedger(l, rev, l.cur.value.(deleting := true));
    case Ensure => WriteKeepsLedger(l, rev, l.sync.value.v.(finalizer := true, filled := true));
    case Touch(last) => WriteKeepsLedger(l, rev, l.sync.value.v.(last := last));
    case RemoveFinalizer => WriteKeepsLedger(l, rev, l.sync.value.v.(finalizer := false));
    case _ =>
  }

  lemma WriteKeepsLedger(l: Local, rev: nat, v: Version)
    requires Ledger(l, rev)
    ensures Ledger(Write(l, rev, v), rev + 1)
  {}

  lemma TruthfulKept(l: Local, rev: nat, routed: bool, a: Action)
    requires LocalInv(l, rev, routed) && LocalEnabled(l, a)
    ensures Truthful(LocalDo(l, rev, a))
  {
    var t := LocalDo(l, rev, a);
    forall v | Readable(t, v) && Complete(v) && !v.deleting && v !in t.expired ensures Held(t) {
      if Readable(l, v) { assert Held(l); }
    }
  }

  /** The world acts on the object while the sync, if any, stands still. */
  lemma WorldKeepsSyncOk(l: Local, rev: nat, routed: bool, a: Action)
    requires LocalInv(l, rev, routed) && LocalEnabled(l, a) && (a.New? || a.Edit? || a.Delete?)
    ensures SyncOk(LocalDo(l, rev, a), RoutedAfter(routed, a))
  {
    var t := LocalDo(l, rev, a);
    assert forall w :: Readable(t, w) && w.rv <= rev ==> Readable(l, w);
    assert l.sync.Some? ==> l.sync.value.v.rv <= rev;
  }

  lemma SyncKeepsSyncOk(l: Local, rev: nat, routed: bool, a: Action)
    requires LocalInv(l, rev, routed) && LocalEnabled(l, a) && !a.New? && !a.Edit? && !a.Delete?
    requires LocalExpiresAgain(l, a)
    ensures SyncOk(LocalDo(l, rev, a), RoutedAfter(routed, a))
  {
    match a
    case Read(_) =>
    case Ensure =>
    case Decide(_, _) => assert Readable(l, l.sync.value.v);
    case Touch(_) =>
    case _ =>
  }

  lemma HeldKept(l: Local, rev: nat, routed: bool, a: Action)
    requires LocalInv(l, rev, routed) && LocalEnabled(l, a)
    ensures RoutedAfter(routed, a) ==> Held(LocalDo(l, rev, a))
  {}

  /** One step of one shell. */
  lemma LocalInvKept(l: Local, rev: nat, routed: bool, a: Action)
    requires LocalInv(l, rev, routed) && LocalEnabled(l, a) && LocalExpiresAgain(l, a)
    ensures LocalInv(LocalDo(l, rev, a), rev + 1, RoutedAfter(routed, a))
  {
    LedgerKept(l, rev, routed, a);
    TruthfulKept(l, rev, routed, a);
    if a.New? || a.Edit? || a.Delete? {
      WorldKeepsSyncOk(l, rev, routed, a);
    } else {
      SyncKeepsSyncOk(l, rev, routed, a);
    }
    HeldKept(l, rev, routed, a);
  }

  /** Other shells' writes do no harm. */
  lemma LocalInvWaits(l: Local, rev: nat, routed: bool, rev': nat)
    requires LocalInv(l, rev, routed) && rev <= rev'
    ensures LocalInv(l, rev', routed)
  {}

  // ----- all shells and the table -----

  /** `clock` is the last reading of the wall clock. */
  datatype State = State(clock: int, rev: nat, shells: map<Shell, Local>, table: set<string>)

  datatype Step = On(x: Shell, a: Action)

  predicate Enabled(s: State, step: Step) {
    step.x in s.shells && LocalEnabled(s.shells[step.x], step.a)
  }

  function Do(s: State, step: Step): State
    requires Enabled(s, step)
  {
    var x, a := step.x, step.a;
    State(if a.Decide? then a.until else s.clock, s.rev + 1, s.shells[x := LocalDo(s.shells[x], s.rev, a)],
          if a.AddRoute? then s.table + {RoutePath(x)}
          else if a.RemoveRoute? then s.table - {RoutePath(x)}
          else s.table)
  }

  /** No object yet, for any of the shells that will take part, and an empty table. */
  predicate Init(s: State) {
    s.table == {} && forall x :: x in s.shells ==> s.shells[x] == Local(None, {}, {}, 0, None)
  }

  /** The shells that share the table have different paths. */
  ghost predicate DistinctPaths(s: State) {
    forall x, y :: x in s.shells && y in s.shells && RoutePath(x) == RoutePath(y) ==> x == y
  }

  ghost predicate Inv(s: State) {
    && (forall x :: x in s.shells ==> LocalInv(s.shells[x], s.rev, RoutePath(x) in s.table))
    && (forall p :: p in s.table ==> exists x :: x in s.shells && RoutePath(x) == p)
  }

  predicate ExpiresAgain(s: State, step: Step) {
    step.x in s.shells ==> LocalExpiresAgain(s.shells[step.x], step.a)
  }

  lemma InvKept(s: State, step: Step)
    requires Inv(s) && DistinctPaths(s) && Enabled(s, step) && ExpiresAgain(s, step)
    ensures Inv(Do(s, step)) && Do(s, step).shells.Keys == s.shells.Keys
  {
    var t := Do(s, step);
    forall y | y in t.shells ensures LocalInv(t.shells[y], t.rev, RoutePath(y) in t.table) {
      if step.x == y {
        LocalInvKept(s.shells[y], s.rev, RoutePath(y) in s.table, step.a);
      } else {
        LocalInvWaits(s.shells[y], s.rev, RoutePath(y) in s.table, t.rev);
      }
    }
    TableKept(s, step);
  }

  lemma TableKept(s: State, step: Step)
    requires Enabled(s, step) && forall p :: p in s.table ==> exists x :: x in s.shells && RoutePath(x) == p
    ensures Do(s, step).shells.Keys == s.shells.Keys
    ensures forall p :: p in Do(s, step).table ==> exists x :: x in Do(s, step).shells && RoutePath(x) == p
  {
    var t := Do(s, step);
    forall p | p in t.table ensures exists x :: x in t.shells && RoutePath(x) == p {
      if p in s.table {
        var x :| x in s.shells && RoutePath(x) == p;
        assert x in t.shells;
      } else {
        assert step.x in t.shells;
      }
    }
  }

  /** `steps` leads from `s` to `t`, and `hyp` holds of every step. */
  ghost predicate RunUnder(hyp: (State, Step) -> bool, s: State, steps: seq<Step>, t: State)
    decreases |steps|
  {
    if steps == [] then s == t
    else Enabled(s, steps[0]) && hyp(s, steps[0]) && RunUnder(hyp, Do(s, steps[0]), steps[1..], t)
  }

  lemma {:induction false} RunKeepsInv(s: State, steps: seq<Step>, t: State)
    requires Inv(s) && DistinctPaths(s) && RunUnder(ExpiresAgain, s, steps, t)
    ensures Inv(t)
    decreases |steps|
  {
    if steps != [] {
      InvKept(s, steps[0]);
      RunKeepsInv(Do(s, steps[0]), steps[1..], t);
    }
  }

  /** In every reachable state, every path in the table is the path of a shell that exists and carries the finalizer, if
      copies that expired once expire again. */
  lemma RoutedShellsHoldFinalizer(s: State, steps: seq<Step>, t: State, p: string) returns (x: Shell)
    requires Init(s) && DistinctPaths(s) && RunUnder(ExpiresAgain, s, steps, t) && p in t.table
    ensures x in t.shells && RoutePath(x) == p && Held(t.shells[x])
  {
    RunKeepsInv(s, steps, t);
    x :| x in t.shells && RoutePath(x) == p;
  }

  // ----- when copies expire again -----

  /** The wall clock does not step back. */
  predicate ClockRunsOn(s: State, step: Step) {
    step.a.Decide? ==> s.clock <= step.a.until
  }

  /** With a wall clock that does not step back, what expires once expires at every later reading. */
  ghost predicate Steady(ttl: Option<int>, last: Option<int>) {
    forall gap: nat, until, gap': nat, until' :: until <= until' && Expires(ttl, last, gap, until) ==>
                                          Expires(ttl, last, gap', until')
  }

  /** That is so exactly for shells without a time to live, with a schedule time, or with a negative duration. */
  lemma SteadyIff(ttl: Option<int>, last: Option<int>)
    ensures Steady(ttl, last) <==> ttl.None? || last.Some? || Expiry.Duration(ttl.value) < 0
  {
    if ttl.Some? && last.None? && Expiry.Duration(ttl.value) >= 0 {
      var d := Expiry.Duration(ttl.value);
      assert Expires(ttl, last, d + 1, 0) && !Expires(ttl, last, 0, 0);
    }
  }

  /** The part of the hypothesis that a forward clock leaves open: a sync that was slower than the time to live of a
      shell without a schedule time is followed only by syncs on that copy that are slower, too. */
  predicate SlowAgain(s: State, step: Step) {
    step.x in s.shells && step.a.Decide? && LocalEnabled(s.shells[step.x], step.a) ==>
      var v := s.shells[step.x].sync.value.v;
      v in s.shells[step.x].expired && v.ttl.Some? && v.last.None? ==> Expiry.Duration(v.ttl.value) < step.a.gap
  }

  predicate ForwardAndSlowAgain(s: State, step: Step) { ClockRunsOn(s, step) && SlowAgain(s, step) }

  /** Copies that expired by a schedule time did so before the last reading of the clock. */
  ghost predicate ExpiredByNow(s: State) {
    forall x, v :: x in s.shells && v in s.shells[x].expired ==> v.ttl.Some? && (v.last.Some? ==>
                     v.last.value + Expiry.Duration(v.ttl.value) < s.clock)
  }

  lemma ExpiredByNowKept(s: State, step: Step)
    requires ExpiredByNow(s) && Enabled(s, step) && ClockRunsOn(s, step)
    ensures ExpiredByNow(Do(s, step))
  {
    var t := Do(s, step);
    forall x, v | x in t.shells && v in t.shells[x].expired
      ensures v.ttl.Some? && (v.last.Some? ==> v.last.value + Expiry.Duration(v.ttl.value) < t.clock)
    {
      assert x in s.shells;
      if x == step.x { ExpiredGrows(s.shells[x], s.rev, step.a, v); }
    }
  }

  lemma ExpiredGrows(l: Local, rev: nat, a: Action, v: Version)
    requires LocalEnabled(l, a) && v in LocalDo(l, rev, a).expired
    ensures v in l.expired || (a.Decide? && Expires(v.ttl, v.last, a.gap, a.until))
  {
    match a
    case New(_, _) =>
    case _ =>
  }

  lemma {:induction false} ForwardRunExpiresAgain(s: State, steps: seq<Step>, t: State)
    requires RunUnder(ForwardAndSlowAgain, s, steps, t) && ExpiredByNow(s)
    ensures RunUnder(ExpiresAgain, s, steps, t)
    decreases |steps|
  {
    if steps != [] {
      ExpiredByNowKept(s, steps[0]);
      ForwardRunExpiresAgain(Do(s, steps[0]), steps[1..], t);
    }
  }

  /** With a clock that does not step back the result holds for all shells, if syncs that outran the time to live of an
      unscheduled shell do so again. */
  lemma ForwardClockSuffices(s: State, steps: seq<Step>, t: State, p: string) returns (x: Shell)
    requires Init(s) && DistinctPaths(s) && RunUnder(ForwardAndSlowAgain, s, steps, t) && p in t.table
    ensures x in t.shells && RoutePath(x) == p && Held(t.shells[x])
  {
    ForwardRunExpiresAgain(s, steps, t);
    x := RoutedShellsHoldFinalizer(s, steps, t, p);
  }

  /** A clock that does not step back, and copies without a time to live, with a schedule time or with a negative
      duration. */
  predicate ForwardAndSteady(s: State, step: Step) {
    && ClockRunsOn(s, step)
    && (step.x in s.shells && step.a.Decide? && LocalEnabled(s.shells[step.x], step.a) ==>
          var v := s.shells[step.x].sync.value.v;
          v.ttl.None? || v.last.Some? || Expiry.Duration(v.ttl.value) < 0)
  }

  lemma {:induction false} SteadyRunIsSlowAgain(s: State, steps: seq<Step>, t: State)
    requires RunUnder(ForwardAndSteady, s, steps, t)
    ensures RunUnder(ForwardAndSlowAgain, s, steps, t)
    decreases |steps|
  {
    if steps != [] { SteadyRunIsSlowAgain(Do(s, steps[0]), steps[1..], t); }
  }

  /** For those copies nothing more is needed. */
  lemma SteadyShellsNeedNoMore(s: State, steps: seq<Step>, t: State, p: string) returns (x: Shell)
    requires Init(s) && DistinctPaths(s) && RunUnder(ForwardAndSteady, s, steps, t) && p in t.table
    ensures x in t.shells && RoutePath(x) == p && Held(t.shells[x])
  {
    SteadyRunIsSlowAgain(s, steps, t);
    x := ForwardClockSuffices(s, steps, t, p);
  }

  // ----- what a sync can always achieve -----

  /** Kept by every step: the versions are in order, the running sync works on one of them, and an object that is being
      deleted is held by the finalizer. */
  ghost predicate Orderly(l: Local, rev: nat) {
    && Ledger(l, rev)
    && (l.sync.Some? ==> l.sync.value.v in l.log)
    && (l.cur.Some? ==> l.seen <= l.cur.value.rv && (l.cur.value.deleting ==> l.cur.value.finalizer))
  }

  lemma WriteKeepsOrderly(l: Local, rev: nat, v: Version, sync: Option<Progress>)
    requires Orderly(l, rev) && (v.deleting ==> v.finalizer)
    requires sync.Some? ==> sync.value.v in l.log || sync.value.v == v.(rv := rev + 1)
    ensures Orderly(Write(l, rev, v).(sync := sync), rev + 1)
  {
    WriteKeepsLedger(l, rev, v);
  }

  lemma OrderlyKept(l: Local, rev: nat, a: Action)
    requires Orderly(l, rev) && LocalEnabled(l, a)
    ensures Orderly(LocalDo(l, rev, a), rev + 1)
  {
    match a
    case New(ttl, filled) => WriteKeepsOrderly(l, rev, Version(0, false, filled, false, ttl, None), l.sync);
    case Edit(ttl, last, filled) =>
      WriteKeepsOrderly(l, rev, l.cur.value.(ttl := ttl, last := last, filled := filled), l.sync);
    case Delete => if l.cur.value.finalizer { WriteKeepsOrderly(l, rev, l.cur.value.(deleting := true), l.sync); }
    case Ensure =>
      var w := l.sync.value.v.(finalizer := true, filled := true);
      WriteKeepsOrderly(l, rev, w, Some(Checking(w.(rv := rev + 1))));
    case Touch(last) =>
      var v := l.sync.value.v.(last := last);
      WriteKeepsOrderly(l, rev, v, Some(Routing(v.(rv := rev + 1))));
    case RemoveFinalizer =>
      var v := l.sync.value.v;
      if !v.deleting { WriteKeepsOrderly(l, rev, v.(finalizer := false), None); }
    case _ =>
  }

  ghost predicate AllOrderly(s: State) {
    forall x :: x in s.shells ==> Orderly(s.shells[x], s.rev)
  }

  lemma {:induction false} RunKeepsOrderly(hyp: (State, Step) -> bool, s: State, steps: seq<Step>, t: State)
    requires AllOrderly(s) && RunUnder(hyp, s, steps, t)
    ensures AllOrderly(t)
    decreases |steps|
  {
    if steps != [] {
      var m := Do(s, steps[0]);
      forall y | y in m.shells ensures Orderly(m.shells[y], m.rev) {
        if y == steps[0].x { OrderlyKept(s.shells[y], s.rev, steps[0].a); }
      }
      RunKeepsOrderly(hyp, m, steps[1..], t);
    }
  }

  /** From `s` the shell `x` alone can go on to `t`, with a clock that does not step back. */
  ghost predicate CanReach(s: State, x: Shell, t: State) {
    exists steps: seq<Step> :: RunUnder(If(true), s, steps, t) && forall i :: 0 <= i < |steps| ==> steps[i].x == x
  }

  lemma Further(s: State, x: Shell, m: State, a: Action) returns (t: State)
    requires CanReach(s, x, m) && Enabled(m, On(x, a)) && ClockRunsOn(m, On(x, a))
    ensures t == Do(m, On(x, a)) && CanReach(s, x, t)
  {
    t := Do(m, On(x, a));
    var steps: seq<Step> :| RunUnder(If(true), s, steps, m) && forall i :: 0 <= i < |steps| ==> steps[i].x == x;
    UnderSnoc(If(true), s, steps, m, On(x, a));
    var longer := steps + [On(x, a)];
    assert forall i :: 0 <= i < |longer| ==> longer[i].x == x;
  }

  /** A sync that runs stops, and the next one reads the current object. */
  lemma ReadsCurrent(s: State, x: Shell) returns (t: State)
    requires AllOrderly(s) && x in s.shells && s.shells[x].cur.Some?
    ensures CanReach(s, x, t) && x in t.shells && t.table == s.table && t.clock == s.clock
    ensures var v := s.shells[x].cur.value;
            && t.shells[x].cur == Some(v) && v in t.shells[x].log
            && t.shells[x].sync == Some(if v.deleting then Removing(v, false) else Ensuring(v))
  {
    assert RunUnder(If(true), s, [], s);
    assert CanReach(s, x, s);
    var m := s;
    if s.shells[x].sync.Some? { m := Further(s, x, s, Stop); }
    t := Further(s, x, m, Read(s.shells[x].cur.value));
  }

  /** From every reachable state, a shell that is being deleted can be brought to its end: its syncs take its route off
      the table and then let the object go. */
  lemma DeletionCompletes(hyp: (State, Step) -> bool, s: State, steps: seq<Step>, t: State, x: Shell) returns (u: State)
    requires Init(s) && RunUnder(hyp, s, steps, t)
    requires x in t.shells && t.shells[x].cur.Some? && t.shells[x].cur.value.deleting
    ensures CanReach(t, x, u) && x in u.shells && u.shells[x].cur.None? && u.table == t.table - {RoutePath(x)}
  {
    RunKeepsOrderly(hyp, s, steps, t);
    assert Orderly(t.shells[x], t.rev);
    var m1 := ReadsCurrent(t, x);
    var m2 := Further(t, x, m1, RemoveRoute);
    u := Further(t, x, m2, RemoveFinalizer);
  }

  /** A shell that is not being deleted can always be ensured and looked at. */
  lemma DecidesCurrent(s: State, x: Shell, gap: nat, until: int) returns (t: State)
    requires AllOrderly(s) && x in s.shells && s.shells[x].cur.Some? && !s.shells[x].cur.value.deleting
    requires s.clock <= until
    ensures CanReach(s, x, t) && x in t.shells && t.table == s.table && t.shells[x].cur.Some? && Held(t.shells[x])
    ensures var v, w := s.shells[x].cur.value, t.shells[x].cur.value;
            && w.ttl == v.ttl && w.last == v.last && !w.deleting
            && t.shells[x].sync == Some(if Expires(v.ttl, v.last, gap, until) then Removing(w, false) else Routing(w))
  {
    var m1 := ReadsCurrent(s, x);
    var m2 := Further(s, x, m1, Ensure);
    t := Further(s, x, m2, Decide(gap, until));
  }

  /** From every reachable state, a shell that exists and does not expire at the coming readings can get its route, and
      holds the finalizer then; one that does expire can lose its route and the finalizer. */
  lemma SyncSettles(hyp: (State, Step) -> bool, s: State, steps: seq<Step>, t: State, x: Shell, gap: nat, until: int)
    returns (u: State)
    requires Init(s) && RunUnder(hyp, s, steps, t) && t.clock <= until
    requires x in t.shells && t.shells[x].cur.Some? && !t.shells[x].cur.value.deleting
    ensures CanReach(t, x, u) && x in u.shells
    ensures var v := t.shells[x].cur.value;
            if Expires(v.ttl, v.last, gap, until)
            then u.table == t.table - {RoutePath(x)} && u.shells[x].cur.Some? && !Held(u.shells[x])
            else u.table == t.table + {RoutePath(x)} && Held(u.shells[x])
  {
    RunKeepsOrderly(hyp, s, steps, t);
    var m := DecidesCurrent(t, x, gap, until);
    var v := t.shells[x].cur.value;
    if Expires(v.ttl, v.last, gap, until) {
      var m1 := Further(t, x, m, RemoveRoute);
      u := Further(t, x, m1, RemoveFinalizer);
    } else {
      u := Further(t, x, m, AddRoute);
    }
  }

  // ----- a copy that does not expire again -----

  /** Any run, or any run with a clock that does not step back. */
  function If(forward: bool): (State, Step) -> bool {
    (s, step) => forward ==> ClockRunsOn(s, step)
  }

  /** One shell that does not exist yet. */
  function Alone(x: Shell, clock: int): State {
    State(clock, 0, map[x := Local(None, {}, {}, 0, None)], {})
  }

  ghost predicate Reached(forward: bool, x: Shell, clock: int, t: State) {
    exists steps :: RunUnder(If(forward), Alone(x, clock), steps, t)
  }

  lemma {:induction false} UnderSnoc(hyp: (State, Step) -> bool, s: State, steps: seq<Step>, m: State, step: Step)
    requires RunUnder(hyp, s, steps, m) && Enabled(m, step) && hyp(m, step)
    ensures RunUnder(hyp, s, steps + [step], Do(m, step))
    decreases |steps|
  {
    if steps == [] {
      assert steps + [step] == [step] && [step][1..] == [];
    } else {
      UnderSnoc(hyp, Do(s, steps[0]), steps[1..], m, step);
      assert (steps + [step])[1..] == steps[1..] + [step];
    }
  }

  lemma Go(forward: bool, x: Shell, clock: int, m: State, a: Action) returns (t: State)
    requires Reached(forward, x, clock, m) && Enabled(m, On(x, a)) && (forward ==> ClockRunsOn(m, On(x, a)))
    ensures t == Do(m, On(x, a)) && Reached(forward, x, clock, t)
  {
    t := Do(m, On(x, a));
    var steps :| RunUnder(If(forward), Alone(x, clock), steps, m);
    UnderSnoc(If(forward), Alone(x, clock), steps, m, On(x, a));
  }

  /** The copy `v` may still be read, and the sync stands at `sync`. */
  predicate Stage(s: State, x: Shell, v: Version, sync: Option<Progress>) {
    && x in s.shells && v in s.shells[x].log && s.shells[x].seen <= v.rv && s.shells[x].sync == sync
    && Complete(v) && !v.deleting
  }

  /** A shell gets its finalizer. */
  lemma ToChecking(forward: bool, x: Shell, clock: int, ttl: Option<int>, last: Option<int>)
    returns (t: State, v: Version)
    ensures Reached(forward, x, clock, t) && Stage(t, x, v, Some(Checking(v))) && Fits(t.shells[x], v)
    ensures v.ttl == ttl && v.last == last && t.clock == clock
  {
    assert RunUnder(If(forward), Alone(x, clock), [], Alone(x, clock));
    var s1 := Go(forward, x, clock, Alone(x, clock), New(ttl, true));
    var s2 := Go(forward, x, clock, s1, Edit(ttl, last, true));
    var s3 := Go(forward, x, clock, s2, Read(s2.shells[x].cur.value));
    t := Go(forward, x, clock, s3, Ensure);
    v := t.shells[x].cur.value;
  }

  /** A sync expires it and removes the finalizer, which the lister does not show yet. */
  lemma ToRemoved(forward: bool, x: Shell, clock: int, s: State, v: Version, gap: nat) returns (t: State)
    requires Reached(forward, x, clock, s) && Stage(s, x, v, Some(Checking(v))) && Fits(s.shells[x], v)
    requires s.clock == clock && Expires(v.ttl, v.last, gap, clock)
    ensures Reached(forward, x, clock, t) && Stage(t, x, v, None) && !Held(t.shells[x]) && t.clock == clock
  {
    var s1 := Go(forward, x, clock, s, Decide(gap, clock));
    var s2 := Go(forward, x, clock, s1, RemoveRoute);
    t := Go(forward, x, clock, s2, RemoveFinalizer);
  }

  /** The next sync reads the same copy and routes the shell. */
  lemma ToRouted(forward: bool, x: Shell, clock: int, s: State, v: Version, gap: nat, until: int) returns (t: State)
    requires Reached(forward, x, clock, s) && Stage(s, x, v, None) && !Held(s.shells[x]) && s.clock == clock
    requires !Expires(v.ttl, v.last, gap, until) && (forward ==> clock <= until)
    ensures Reached(forward, x, clock, t) && x in t.shells && RoutePath(x) in t.table && !Held(t.shells[x])
  {
    var s1 := Go(forward, x, clock, s, Read(v));
    var s2 := Go(forward, x, clock, s1, Ensure);
    var s3 := Go(forward, x, clock, s2, Decide(gap, until));
    t := Go(forward, x, clock, s3, AddRoute);
  }

  /** The hypothesis is needed for every time to live and schedule time: from two readings of which the first expires
      the shell and the second does not, there is a run that ends with a route of a shell without the finalizer.  If the
      second reading of the wall clock is not before the first, the clock never steps back in that run. */
  lemma UnrepeatedExpiryLeavesARoute(x: Shell, ttl: Option<int>, last: Option<int>,
                                     gap: nat, until: int, gap': nat, until': int) returns (t: State)
    requires Expires(ttl, last, gap, until) && !Expires(ttl, last, gap', until')
    ensures Init(Alone(x, until)) && DistinctPaths(Alone(x, until)) && Reached(until <= until', x, until, t)
    ensures x in t.shells && RoutePath(x) in t.table && !Held(t.shells[x])
  {
    var s, v := ToChecking(until <= until', x, until, ttl, last);
    var m := ToRemoved(until <= until', x, until, s, v, gap);
    t := ToRouted(until <= until', x, until, m, v, gap', until');
  }

  /** And for all others such a run exists, with a clock that does not step back. */
  lemma UnsteadyShellLeavesARoute(x: Shell, ttl: Option<int>, last: Option<int>) returns (clock: int, t: State)
    requires !Steady(ttl, last)
    ensures Reached(true, x, clock, t) && x in t.shells && RoutePath(x) in t.table && !Held(t.shells[x])
  {
    var gap: nat, until, gap': nat, until' :|
      until <= until' && Expires(ttl, last, gap, until) && !Expires(ttl, last, gap', until');
    clock := until;
    t := UnrepeatedExpiryLeavesARoute(x, ttl, last, gap, until, gap', until');
  }
}
