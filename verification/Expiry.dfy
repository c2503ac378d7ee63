/** The time to live of a shell: when a sync expires it, when the next sync is due, and what expiry is worth.  Times are
    nanoseconds. */
module Expiry {
  import opened OrderedSet

  const SECOND := 1_000_000_000
  const TWO63 := 0x8000_0000_0000_0000

  /** int64 arithmetic wraps around. */
  function Wrap64(n: int): int {
    (n + TWO63) % (2 * TWO63) - TWO63
  }

  /** time.Second * time.Duration(ttl) */
  function Duration(ttl: int): int { Wrap64(ttl * SECOND) }

  lemma WrapIsIdentity(n: int)
    ensures Wrap64(n) == n <==> -TWO63 <= n < TWO63
  {}

  /** The product of seconds and nanoseconds per second is right exactly up to 9223372036 seconds either way. */
  lemma DurationIsExact(ttl: int)
    ensures Duration(ttl) == ttl * SECOND <==> -9223372036 <= ttl <= 9223372036
  {
    WrapIsIdentity(ttl * SECOND);
  }

  /** The duration is negative exactly when an odd number of whole periods of 2^63 nanoseconds fit into the TTL: from
      9223372037 to 18446744073 seconds, then again one period later, and so on; and for small negative TTLs. */
  lemma DurationIsNegativeIff(ttl: int)
    ensures Duration(ttl) < 0 <==> ttl * SECOND / TWO63 % 2 == 1
  {}

  /** Up to three periods, the negative durations are one stretch. */
  lemma FirstNegativeStretch(ttl: int)
    requires 0 <= ttl <= 27670116110
    ensures Duration(ttl) < 0 <==> 9223372037 <= ttl <= 18446744073
  {}

  // ----- one shell -----

  datatype Phase = Fresh | Ready | Complete

  /** `last` is status.lastScheduleTime; `bound` that the pod label is set. */
  datatype Shell = Shell(ttl: Option<int>, cleanup: bool, last: Option<int>, phase: Phase, bound: bool, deleted: bool)

  /** The clock readings of one sync: the start time when there is no schedule time yet, the reading of time.Until, the
      reading that becomes the schedule time, that reading as the API server stores it (cut to full seconds), and the
      moment the key is put on the delayed queue. */
  datatype Clock = Clock(start: int, until: int, scheduled: int, stored: int, queued: int)

  predicate Sound(c: Clock, now: int) {
    && now <= c.start <= c.until <= c.scheduled <= c.queued
    && c.scheduled - SECOND < c.stored <= c.scheduled
  }

  /** nextRequeueTimeDuration: None without a TTL. */
  function NextRequeue(s: Shell, c: Clock): Option<int> {
    if s.ttl.None? then None
    else
      var start := if s.last.Some? then s.last.value else c.start;
      Some(start + Duration(s.ttl.value) - c.until)
  }

  /** How the API calls of a sync turn out.  Expired: the removal fails, or it succeeds and the final delete or status
      write fails or succeeds; the label is cleared only when it names a listed pod.  Otherwise: no worker yet, a
      failure, or all done; a sync that finds its worker unready clears the label before it asks for another. */
  datatype Outcome =
    | RemovalFails(unbound: bool)
    | Removed(listed: bool, ok: bool)
    | NoWorker(cleared: bool)
    | Fails(change: Change)
    | Serves

  /** What a failing sync has done to the pod label. */
  datatype Change = Kept | Cleared | Set

  predicate Expires(s: Shell, c: Clock) {
    NextRequeue(s, c).Some? && NextRequeue(s, c).value < 0
  }

  predicate Possible(s: Shell, c: Clock, o: Outcome) {
    Expires(s, c) <==> o.RemovalFails? || o.Removed?
  }

  /** syncCloudShell on the current object. */
  function Sync(s: Shell, c: Clock, o: Outcome): Shell {
    match o
    case RemovalFails(unbound) => if unbound then s.(bound := false) else s
    case Removed(listed, ok) =>
      var t := if listed then s.(bound := false) else s;
      if !ok then t else if s.cleanup then t.(deleted := true) else t.(phase := Complete)
    case NoWorker(cleared) => if cleared then s.(bound := false) else s
    case Fails(change) => if change.Kept? then s else s.(bound := change.Set?)
    case Serves => s.(bound := true, phase := Ready, last := if s.last.Some? then s.last else Some(c.stored))
  }

  /** The moment at which the delayed queue hands the key out again after a served sync. */
  function Wake(s: Shell, c: Clock): Option<int> {
    if NextRequeue(s, c).Some? then Some(c.queued + NextRequeue(s, c).value) else None
  }

  // ----- runs of syncs -----

  datatype Event = Event(c: Clock, o: Outcome)

  /** The syncs of one shell follow each other and the clock does not run backwards. */
  ghost predicate Run(s: Shell, now: int, events: seq<Event>, s': Shell, now': int)
    decreases |events|
  {
    if events == [] then s' == s && now <= now'
    else
      var e := events[0];
      Sound(e.c, now) && Possible(s, e.c, e.o) && Run(Sync(s, e.c, e.o), e.c.queued, events[1..], s', now')
  }

  /** Which outcomes change what.  Only a served sync makes the shell Ready and sets the schedule time, and it leaves the
      shell bound; only a removal that goes through to its end makes it Complete or deletes it. */
  lemma OutcomeDecides(s: Shell, c: Clock, o: Outcome)
    ensures var t := Sync(s, c, o);
            && t.ttl == s.ttl && t.cleanup == s.cleanup
            && t.phase == (if o.Serves? then Ready else if o.Removed? && o.ok && !s.cleanup then Complete else s.phase)
            && (t.deleted <==> s.deleted || (o.Removed? && o.ok && s.cleanup))
            && (t.last == if o.Serves? && s.last.None? then Some(c.stored) else s.last)
            && (t.bound <==> o.Serves? || o == Fails(Set)
                             || (s.bound && o != RemovalFails(true) && !(o.Removed? && o.listed) && o != NoWorker(true)
                                 && o != Fails(Cleared)))
  {}

  /** A removal went through to its end and left a Complete shell. */
  predicate Completes(cleanup: bool, e: Event) { e.o.Removed? && e.o.ok && !cleanup }

  predicate NoneCompletes(cleanup: bool, events: seq<Event>) {
    forall j :: 0 <= j < |events| ==> !Completes(cleanup, events[j])
  }

  predicate NoneServes(events: seq<Event>) {
    forall j :: 0 <= j < |events| ==> !events[j].o.Serves?
  }

  /** The shell was served and no removal has completed since. */
  predicate ServedLast(cleanup: bool, events: seq<Event>) {
    exists i :: 0 <= i < |events| && events[i].o.Serves? && NoneCompletes(cleanup, events[i + 1..])
  }

  predicate CompletedLast(cleanup: bool, events: seq<Event>) {
    exists i :: 0 <= i < |events| && Completes(cleanup, events[i]) && NoneServes(events[i + 1..])
  }

  /** Over any run, the shell is Ready exactly when it was served and no removal has completed since, or was Ready before
      and none has completed; and Complete exactly when a removal has and no sync has served it since, or it was
      Complete before and none has served it. */
  lemma {:induction false} PhaseTellsTheRun(s: Shell, now: int, events: seq<Event>, s': Shell, now': int)
    requires Run(s, now, events, s', now')
    ensures s'.phase == Ready <==>
            ServedLast(s.cleanup, events) || (s.phase == Ready && NoneCompletes(s.cleanup, events))
    ensures s'.phase == Complete <==>
            CompletedLast(s.cleanup, events) || (s.phase == Complete && NoneServes(events))
    decreases |events|
  {
    if events != [] {
      var e, rest := events[0], events[1..];
      OutcomeDecides(s, e.c, e.o);
      PhaseTellsTheRun(Sync(s, e.c, e.o), e.c.queued, rest, s', now');
      assert events == [e] + rest;
      NoneOf(s.cleanup, e, rest);
      ServedLastOf(s.cleanup, e, rest);
      CompletedLastOf(s.cleanup, e, rest);
    }
  }

  lemma NoneOf(cleanup: bool, e: Event, rest: seq<Event>)
    ensures NoneCompletes(cleanup, [e] + rest) <==> !Completes(cleanup, e) && NoneCompletes(cleanup, rest)
    ensures NoneServes([e] + rest) <==> !e.o.Serves? && NoneServes(rest)
  {
    assert ([e] + rest)[0] == e;
    assert forall j :: 0 <= j < |rest| ==> ([e] + rest)[j + 1] == rest[j];
  }

  lemma ServedLastOf(cleanup: bool, e: Event, rest: seq<Event>)
    ensures ServedLast(cleanup, [e] + rest) <==>
            (e.o.Serves? && NoneCompletes(cleanup, rest)) || ServedLast(cleanup, rest)
  {
    var events := [e] + rest;
    assert events[0] == e && events[1..] == rest;
    if i :| 0 <= i < |events| && events[i].o.Serves? && NoneCompletes(cleanup, events[i + 1..]) {
      if i > 0 { assert rest[i - 1] == events[i] && rest[i..] == events[i + 1..]; }
    }
    if i :| 0 <= i < |rest| && rest[i].o.Serves? && NoneCompletes(cleanup, rest[i + 1..]) {
      assert events[i + 1] == rest[i] && events[i + 2..] == rest[i + 1..];
    }
  }

  lemma CompletedLastOf(cleanup: bool, e: Event, rest: seq<Event>)
    ensures CompletedLast(cleanup, [e] + rest) <==>
            (Completes(cleanup, e) && NoneServes(rest)) || CompletedLast(cleanup, rest)
  {
    var events := [e] + rest;
    assert events[0] == e && events[1..] == rest;
    if i :| 0 <= i < |events| && Completes(cleanup, events[i]) && NoneServes(events[i + 1..]) {
      if i > 0 { assert rest[i - 1] == events[i] && rest[i..] == events[i + 1..]; }
    }
    if i :| 0 <= i < |rest| && Completes(cleanup, rest[i]) && NoneServes(rest[i + 1..]) {
      assert events[i + 1] == rest[i] && events[i + 2..] == rest[i + 1..];
    }
  }

  /** The schedule time is written once and never again. */
  lemma {:induction false} ScheduleTimeIsWriteOnce(s: Shell, now: int, events: seq<Event>, s': Shell, now': int)
    requires Run(s, now, events, s', now') && s.last.Some?
    ensures s'.last == s.last && s'.ttl == s.ttl
    decreases |events|
  {
    if events != [] {
      var e := events[0];
      ScheduleTimeIsWriteOnce(Sync(s, e.c, e.o), e.c.queued, events[1..], s', now');
    }
  }

  /** A shell that was never scheduled expires at its first sync, however quick, exactly for those TTLs. */
  lemma NewShellExpiresAtOnceIff(s: Shell, now: int)
    requires s.ttl.Some? && s.last.None?
    ensures (forall c :: Sound(c, now) ==> Expires(s, c)) <==> s.ttl.value * SECOND / TWO63 % 2 == 1
  {
    DurationIsNegativeIff(s.ttl.value);
    var c := Clock(now, now, now, now, now);
    assert Sound(c, now) && NextRequeue(s, c) == Some(Duration(s.ttl.value));
  }

  /** The deadline has passed, or the TTL is negative to begin with. */
  predicate Dead(s: Shell, now: int) {
    s.ttl.Some? && if s.last.Some? then s.last.value + Duration(s.ttl.value) < now else Duration(s.ttl.value) < 0
  }

  /** From then on every sync expires the shell: it never becomes Ready again, and is never bound again. */
  lemma {:induction false} DeadStaysDead(s: Shell, now: int, events: seq<Event>, s': Shell, now': int)
    requires Run(s, now, events, s', now') && Dead(s, now)
    ensures Dead(s', now') && (s'.phase == Ready ==> s.phase == Ready) && (s'.bound ==> s.bound)
    ensures (s.phase == Complete ==> s'.phase == Complete) && (s.deleted ==> s'.deleted)
    decreases |events|
  {
    if events != [] {
      var e := events[0];
      assert Expires(s, e.c);
      DeadStaysDead(Sync(s, e.c, e.o), e.c.queued, events[1..], s', now');
    }
  }

  /** No later run serves the shell or binds a worker to it. */
  ghost predicate OutOfService(s: Shell, now: int) {
    forall events, s', now' :: Run(s, now, events, s', now') ==> s'.phase != Ready && !s'.bound
  }

  /** Expiry is final if and only if the deadline has passed (or the TTL is negative): a Complete shell stays out of
      service in every later run exactly then. */
  lemma ExpiryIsFinal(s: Shell, now: int)
    requires s.phase == Complete && !s.bound
    ensures Dead(s, now) <==> OutOfService(s, now)
  {
    if Dead(s, now) {
      forall events, s', now' | Run(s, now, events, s', now') ensures s'.phase != Ready && !s'.bound {
        DeadStaysDead(s, now, events, s', now');
      }
    } else {
      var c := Clock(now, now, now, now, now);
      var events := [Event(c, Serves)];
      var t := Sync(s, c, Serves);
      assert events[1..] == [];
      assert Run(t, now, [], t, now);
      assert Run(s, now, events, t, now) && t.phase == Ready;
      assert !OutOfService(s, now);
    }
  }

  /** A shell that a run marks Complete had its deadline pass, or has a negative TTL, or was never scheduled and the
      clock ran on by more than the TTL between the first two readings of a sync. */
  lemma CompleteMeansExpired(s: Shell, now: int, c: Clock, o: Outcome)
    requires Sound(c, now) && Possible(s, c, o) && s.phase != Complete && Sync(s, c, o).phase == Complete
    ensures s.ttl.Some?
    ensures Dead(Sync(s, c, o), c.until) || (s.last.None? && 0 <= Duration(s.ttl.value) < c.until - c.start)
  {}

  /** The last case exists: with TTL 0 a shell can be marked Complete at its first sync and become Ready later. */
  lemma ZeroTtlComesBack() returns (s: Shell, events: seq<Event>, s': Shell)
    ensures s.ttl == Some(0) && Run(s, 0, events, s', 20) && |events| == 2
    ensures Sync(s, events[0].c, events[0].o).phase == Complete && s'.phase == Ready
  {
    s := Shell(Some(0), false, None, Fresh, false, false);
    var a := Event(Clock(0, 5, 5, 5, 5), Removed(true, true));
    var b := Event(Clock(10, 10, 10, 10, 10), Serves);
    events := [a, b];
    var m := Sync(s, a.c, a.o);
    s' := Sync(m, b.c, b.o);
    assert Run(s', 10, [], s', 20);
    assert Run(m, 5, [b], s', 20) by { assert [b][1..] == []; }
    assert events[1..] == [b];
  }

  // ----- the wake-up -----

  function Deadline(s: Shell): int
    requires s.ttl.Some? && s.last.Some?
  {
    s.last.value + Duration(s.ttl.value)
  }

  /** After a served sync of a shell that has its schedule time, the key comes back at the deadline plus the part of
      the sync that came after reading the clock; after the first served sync it comes back at most that and the
      cut-off fraction of a second after the deadline, and at most the time between two clock readings before it. */
  lemma WakesAtDeadline(s: Shell, now: int, c: Clock)
    requires Sound(c, now) && Possible(s, c, Serves) && s.ttl.Some?
    ensures Sync(s, c, Serves).last.Some? && Wake(s, c).Some?
    ensures var late := Wake(s, c).value - Deadline(Sync(s, c, Serves));
            && (s.last.Some? ==> late == c.queued - c.until)
            && (s.last.None? ==> late == (c.queued - c.scheduled) + (c.scheduled - c.stored) - (c.until - c.start))
            && c.start - c.until <= late < (c.queued - c.start) + SECOND
  {}

  /** The syncs that the wake-ups of a shell start, as long as each of them serves the shell: each begins when the key
      comes back or later, and a sync takes time after reading the clock. */
  ghost predicate ServedByWakeUps(s: Shell, now: int, events: seq<Event>)
    requires s.ttl.Some?
    decreases |events|
  {
    events == [] ||
    var e := events[0];
    && Sound(e.c, now) && e.c.until < e.c.queued && Possible(s, e.c, e.o) && e.o.Serves?
    && ServedByWakeUps(Sync(s, e.c, e.o), Wake(s, e.c).value, events[1..])
  }

  /** A scheduled shell that was served expires at the next wake-up, and a new one at the second at the latest. */
  lemma {:induction false} WakeUpsExpire(s: Shell, now: int, events: seq<Event>)
    requires s.ttl.Some? && ServedByWakeUps(s, now, events)
    ensures |events| <= if s.last.Some? then 1 else 2
    decreases |events|
  {
    if |events| >= 2 {
      var e, m := events[0], Sync(s, events[0].c, events[0].o);
      WakesAtDeadline(s, now, e.c);
      WakeUpsExpire(m, Wake(s, e.c).value, events[1..]);
    }
  }

  /** What an expiring sync leaves: nothing that a later sync would serve, and no label that names a listed worker. */
  lemma ExpiryEndsService(s: Shell, now: int, c: Clock, o: Outcome, events: seq<Event>, s': Shell, now': int)
    requires Sound(c, now) && Possible(s, c, o) && o.Removed? && o.ok && s.last.Some?
    requires Run(Sync(s, c, o), c.queued, events, s', now')
    ensures if s.cleanup then s'.deleted else s'.phase == Complete
    ensures s'.bound ==> s.bound && !o.listed
  {
    DeadStaysDead(Sync(s, c, o), c.queued, events, s', now');
  }
}
