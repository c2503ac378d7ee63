/** The queue locks and the signal channel of the pool.

    Every queue has a write-preferring RWMutex: once a writer has announced itself, a reader that arrives later waits
    for that writer, and the writer waits for the readers that were there before it.  `matchRequestSignal` is an
    unbuffered channel with one receiver, the handler loop (thread 0), which on every signal runs a finite piece of
    work that takes queue locks and never sends.  All other threads, any number of them, take queue locks and send. */
module LockHandshake {
  /** One operation of a thread.  `Nested` is a reader that takes the read lock a second time while holding it. */
  datatype Op = Read(lock: nat) | Write(lock: nat) | Nested(lock: nat) | Send

  /** How far the operation at the head of a thread has come. */
  datatype Pc = Free | ReadWait | Reading | InnerWait | Inner | Announced | Writing

  datatype Thread = Thread(todo: seq<Op>, pc: Pc)

  /** `writer[l]` is the thread that has announced itself on lock `l`, waiting or writing. */
  datatype State = State(threads: seq<Thread>, writer: map<nat, nat>)

  /** `Move(t)`: thread `t` goes on.  `Meet(t, work)`: the receiver takes the signal of thread `t`.  `Tick(work)`: the
      receiver is woken by its ticker. */
  datatype Step = Move(t: nat) | Meet(t: nat, work: seq<Op>) | Tick(work: seq<Op>)

  predicate At(th: Thread, l: nat) {
    th.todo != [] && !th.todo[0].Send? && th.todo[0].lock == l
  }

  /** The thread holds a read lock on `l`. */
  predicate HoldsRead(th: Thread, l: nat) {
    At(th, l) && (th.pc.Reading? || th.pc.InnerWait? || th.pc.Inner?)
  }

  predicate NoReader(threads: seq<Thread>, l: nat) {
    forall i :: 0 <= i < |threads| ==> !HoldsRead(threads[i], l)
  }

  predicate Silent(work: seq<Op>) {
    forall i :: 0 <= i < |work| ==> !work[i].Send?
  }

  predicate AtSelect(s: State) {
    |s.threads| > 0 && s.threads[0].todo == []
  }

  predicate CanMove(s: State, t: nat) {
    t < |s.threads| && s.threads[t].todo != [] &&
    var th := s.threads[t];
    match th.pc
    case Free => th.todo[0].Read? || th.todo[0].Nested? || (th.todo[0].Write? && th.todo[0].lock !in s.writer)
    case ReadWait => false
    case Reading => true
    case InnerWait => false
    case Inner => true
    case Announced => th.todo[0].Write? && NoReader(s.threads, th.todo[0].lock)
    case Writing => th.todo[0].Write?
  }

  predicate Enabled(s: State, step: Step) {
    match step
    case Move(t) => CanMove(s, t)
    case Meet(t, work) => AtSelect(s) && 0 < t < |s.threads| && s.threads[t].todo != [] && s.threads[t].todo[0].Send?
                          && s.threads[t].pc.Free? && Silent(work)
    case Tick(work) => AtSelect(s) && Silent(work)
  }

  function Done(th: Thread): Thread
    requires th.todo != []
  {
    Thread(th.todo[1..], Free)
  }

  /** A writer that unlocks lets in every reader that waited for it. */
  function Woken(th: Thread, l: nat): Thread {
    if At(th, l) && th.pc.ReadWait? then th.(pc := Reading)
    else if At(th, l) && th.pc.InnerWait? then th.(pc := Inner)
    else th
  }

  function WakeAll(threads: seq<Thread>, l: nat): seq<Thread> {
    seq(|threads|, i requires 0 <= i < |threads| => Woken(threads[i], l))
  }

  function DoMove(s: State, t: nat): State
    requires CanMove(s, t)
  {
    var th := s.threads[t];
    match th.pc
    case Free =>
      (match th.todo[0]
       case Write(l) => State(s.threads[t := th.(pc := Announced)], s.writer[l := t])
       case op => s.(threads := s.threads[t := th.(pc := if op.lock in s.writer then ReadWait else Reading)]))
    case Reading =>
      if th.todo[0].Nested?
      then s.(threads := s.threads[t := th.(pc := if th.todo[0].lock in s.writer then InnerWait else Inner)])
      else s.(threads := s.threads[t := Done(th)])
    case Inner => s.(threads := s.threads[t := Done(th)])
    case Announced => s.(threads := s.threads[t := th.(pc := Writing)])
    case Writing => State(WakeAll(s.threads[t := Done(th)], th.todo[0].lock), s.writer - {th.todo[0].lock})
  }

  function Do(s: State, step: Step): State
    requires Enabled(s, step)
  {
    match step
    case Move(t) => DoMove(s, t)
    case Meet(t, work) => s.(threads := s.threads[t := Done(s.threads[t])][0 := Thread(work, Free)])
    case Tick(work) => s.(threads := s.threads[0 := Thread(work, Free)])
  }

  // ----- the invariant -----

  predicate ThreadOk(th: Thread) {
    match th.pc
    case Free => true
    case ReadWait => th.todo != [] && (th.todo[0].Read? || th.todo[0].Nested?)
    case Reading => th.todo != [] && (th.todo[0].Read? || th.todo[0].Nested?)
    case InnerWait => th.todo != [] && th.todo[0].Nested?
    case Inner => th.todo != [] && th.todo[0].Nested?
    case Announced => th.todo != [] && th.todo[0].Write?
    case Writing => th.todo != [] && th.todo[0].Write?
  }

  predicate WritesAt(th: Thread, l: nat) {
    At(th, l) && (th.pc.Announced? || th.pc.Writing?)
  }

  predicate WaitsAt(th: Thread, l: nat) {
    At(th, l) && (th.pc.ReadWait? || th.pc.InnerWait?)
  }

  predicate WritingAt(th: Thread, l: nat) {
    At(th, l) && th.pc.Writing?
  }

  ghost predicate Shape(threads: seq<Thread>) {
    && |threads| > 0 && Silent(threads[0].todo)
    && forall i :: 0 <= i < |threads| ==> ThreadOk(threads[i])
  }

  /** `writer` names exactly the announced writers, and whoever waits for a read lock waits for one of them. */
  ghost predicate Writers(threads: seq<Thread>, writer: map<nat, nat>) {
    && (forall l :: l in writer ==> writer[l] < |threads| && WritesAt(threads[writer[l]], l))
    && (forall i, l :: 0 <= i < |threads| && WritesAt(threads[i], l) ==> l in writer && writer[l] == i)
    && (forall i, l :: 0 <= i < |threads| && WaitsAt(threads[i], l) ==> l in writer)
  }

  /** Nobody reads what somebody writes. */
  ghost predicate Exclusive(threads: seq<Thread>) {
    forall i, j, l :: 0 <= i < |threads| && 0 <= j < |threads| && WritingAt(threads[i], l) ==> !HoldsRead(threads[j], l)
  }

  ghost predicate Inv(s: State) {
    Shape(s.threads) && Writers(s.threads, s.writer) && Exclusive(s.threads)
  }

  predicate Init(s: State) {
    && |s.threads| > 0 && s.writer == map[] && Silent(s.threads[0].todo)
    && forall i :: 0 <= i < |s.threads| ==> s.threads[i].pc.Free?
  }

  lemma MoveKeepsShape(s: State, t: nat)
    requires Inv(s) && CanMove(s, t)
    ensures Shape(DoMove(s, t).threads)
  {}

  lemma MoveKeepsWriters(s: State, t: nat)
    requires Inv(s) && CanMove(s, t)
    ensures Writers(DoMove(s, t).threads, DoMove(s, t).writer)
  {
    var th := s.threads[t];
    if th.pc.Writing? {
      UnlockKeepsWriters(s, t);
    } else if th.pc.Free? && th.todo[0].Write? {
      AnnouncementKeepsWriters(s.threads, s.writer, t, th.(pc := Announced), th.todo[0].lock);
    } else {
      ChangeKeepsWriters(s.threads, s.writer, t, DoMove(s, t).threads[t]);
    }
  }

  /** A thread that goes on as it was, as far as writing is concerned, and waits only for an announced writer. */
  lemma ChangeKeepsWriters(threads: seq<Thread>, writer: map<nat, nat>, t: nat, th: Thread)
    requires Writers(threads, writer) && t < |threads|
    requires forall l :: WritesAt(th, l) <==> WritesAt(threads[t], l)
    requires forall l :: WaitsAt(th, l) ==> l in writer
    ensures Writers(threads[t := th], writer)
  {}

  lemma AnnouncementKeepsWriters(threads: seq<Thread>, writer: map<nat, nat>, t: nat, th: Thread, l: nat)
    requires Writers(threads, writer) && t < |threads| && l !in writer
    requires threads[t].pc.Free? && forall l' :: WritesAt(th, l') <==> l' == l
    requires forall l' :: !WaitsAt(th, l')
    ensures Writers(threads[t := th], writer[l := t])
  {}

  lemma UnlockKeepsWriters(s: State, t: nat)
    requires Inv(s) && CanMove(s, t) && s.threads[t].pc.Writing?
    ensures Writers(DoMove(s, t).threads, DoMove(s, t).writer)
  {
    var l := s.threads[t].todo[0].lock;
    var threads := s.threads[t := Done(s.threads[t])];
    assert WritesAt(s.threads[t], l);
    forall i, l' | 0 <= i < |threads| && WritesAt(threads[i], l')
      ensures l' != l && l' in s.writer && s.writer[l'] == i
    {
      assert s.writer[l] == t && i != t;
      assert WritesAt(s.threads[i], l');
    }
    forall l' | l' in s.writer && l' != l ensures s.writer[l'] < |threads| && WritesAt(threads[s.writer[l']], l') {
      assert WritesAt(s.threads[s.writer[l']], l');
    }
    WakingKeepsWriters(threads, s.writer, l);
  }

  /** Without the writer that left, and with its readers let in. */
  lemma WakingKeepsWriters(threads: seq<Thread>, writer: map<nat, nat>, l: nat)
    requires forall l' :: l' in writer && l' != l ==> writer[l'] < |threads| && WritesAt(threads[writer[l']], l')
    requires forall i, l' :: 0 <= i < |threads| && WritesAt(threads[i], l') ==>
                               l' != l && l' in writer && writer[l'] == i
    requires forall i, l' :: 0 <= i < |threads| && WaitsAt(threads[i], l') ==> l' in writer
    ensures Writers(WakeAll(threads, l), writer - {l})
  {}

  lemma MoveKeepsExclusive(s: State, t: nat)
    requires Inv(s) && CanMove(s, t)
    ensures Exclusive(DoMove(s, t).threads)
  {
    var s' := DoMove(s, t);
    forall i, j, l | 0 <= i < |s'.threads| && 0 <= j < |s'.threads| && WritingAt(s'.threads[i], l)
      ensures !HoldsRead(s'.threads[j], l)
    {
      assert WritesAt(s.threads[i], l) && l in s.writer && s.writer[l] == i;
    }
  }

  /** A thread that waits for no lock and holds none is replaced by another such thread. */
  lemma FreeChangeKeepsInv(s: State, t: nat, th: Thread)
    requires Inv(s) && t < |s.threads| && s.threads[t].pc.Free? && th.pc.Free? && (t == 0 ==> Silent(th.todo))
    ensures Inv(s.(threads := s.threads[t := th]))
  {
    ChangeKeepsWriters(s.threads, s.writer, t, th);
  }

  lemma StepKeepsInv(s: State, step: Step)
    requires Inv(s) && Enabled(s, step)
    ensures Inv(Do(s, step))
  {
    match step
    case Move(t) =>
      MoveKeepsShape(s, t);
      MoveKeepsWriters(s, t);
      MoveKeepsExclusive(s, t);
    case Meet(t, work) =>
      FreeChangeKeepsInv(s, t, Done(s.threads[t]));
      FreeChangeKeepsInv(s.(threads := s.threads[t := Done(s.threads[t])]), 0, Thread(work, Free));
    case Tick(work) => FreeChangeKeepsInv(s, 0, Thread(work, Free));
  }

  // ----- progress -----

  predicate Finished(s: State) {
    forall i :: 0 <= i < |s.threads| ==> s.threads[i].todo == []
  }

  /** A thread that holds the read lock and asks for it again behind a writer that waits for it. */
  predicate SelfBlocked(th: Thread) { th.pc.InnerWait? }

  /** An announced writer is a thread, and a waiting reader waits for one. */
  lemma WriterIsAnnounced(s: State, l: nat)
    requires Inv(s) && l in s.writer
    ensures s.writer[l] < |s.threads|
    ensures s.threads[s.writer[l]].pc.Announced? || s.threads[s.writer[l]].pc.Writing?
  {
    assert WritesAt(s.threads[s.writer[l]], l);
  }

  lemma ReaderWaitsForWriter(s: State, i: nat) returns (l: nat)
    requires Inv(s) && i < |s.threads| && s.threads[i].pc.ReadWait?
    ensures l in s.writer
  {
    assert ThreadOk(s.threads[i]);
    l := s.threads[i].todo[0].lock;
    assert WaitsAt(s.threads[i], l);
  }

  /** With nobody holding or announced, every thread is between operations and no lock is taken. */
  lemma NobodyIsInside(s: State)
    requires Inv(s)
    requires forall i :: 0 <= i < |s.threads| ==> s.threads[i].pc.Free? || s.threads[i].pc.ReadWait?
    ensures forall l :: l !in s.writer
    ensures forall i :: 0 <= i < |s.threads| ==> s.threads[i].pc.Free?
  {
    forall l ensures l !in s.writer {
      if l in s.writer { WriterIsAnnounced(s, l); assert false; }
    }
    forall i | 0 <= i < |s.threads| ensures s.threads[i].pc.Free? {
      if s.threads[i].pc.ReadWait? { var l := ReaderWaitsForWriter(s, i); assert false; }
    }
  }

  /** The step that some thread can always take, unless a nested reader blocks itself: lock holders leave, then an
      announced writer gets in, then nobody is announced and anybody may go on, then the receiver is at its select. */
  lemma SomeStepIsEnabled(s: State, work: seq<Op>) returns (step: Step)
    requires Inv(s) && !Finished(s) && Silent(work)
    requires forall i :: 0 <= i < |s.threads| ==> !SelfBlocked(s.threads[i])
    ensures Enabled(s, step) && !step.Tick? && (step.Meet? ==> step.work == work)
  {
    if i :| 0 <= i < |s.threads| && (s.threads[i].pc.Reading? || s.threads[i].pc.Inner? || s.threads[i].pc.Writing?) {
      step := Move(i);
    } else if i :| 0 <= i < |s.threads| && s.threads[i].pc.Announced? {
      step := Move(i);
    } else {
      forall i | 0 <= i < |s.threads| ensures s.threads[i].pc.Free? || s.threads[i].pc.ReadWait? {
        assert !SelfBlocked(s.threads[i]);
      }
      NobodyIsInside(s);
      if i :| 0 <= i < |s.threads| && s.threads[i].todo != [] && !s.threads[i].todo[0].Send? {
        step := Move(i);
      } else {
        var i :| 0 <= i < |s.threads| && s.threads[i].todo != [];
        assert i != 0 && AtSelect(s);
        step := Meet(i, work);
      }
    }
  }

  // ----- termination -----

  function SendCount(todo: seq<Op>): nat {
    if todo == [] then 0 else (if todo[0].Send? then 1 else 0) + SendCount(todo[1..])
  }

  function Rank(pc: Pc): nat {
    match pc
    case Free => 0
    case ReadWait => 1
    case Reading => 2
    case InnerWait => 3
    case Inner => 4
    case Announced => 1
    case Writing => 2
  }

  /** An upper bound on the moves that a thread still has to make. */
  function Left(th: Thread): int { 5 * |th.todo| - Rank(th.pc) }

  function Sends(threads: seq<Thread>): nat {
    if threads == [] then 0 else SendCount(threads[0].todo) + Sends(threads[1..])
  }

  function Work(threads: seq<Thread>): int {
    if threads == [] then 0 else Left(threads[0]) + Work(threads[1..])
  }

  lemma {:induction false} SumsUpdate(threads: seq<Thread>, t: nat, th: Thread)
    requires t < |threads|
    ensures Work(threads[t := th]) == Work(threads) - Left(threads[t]) + Left(th)
    ensures Sends(threads[t := th]) == Sends(threads) - SendCount(threads[t].todo) + SendCount(th.todo)
  {
    if t == 0 {
      assert threads[t := th][1..] == threads[1..];
    } else {
      SumsUpdate(threads[1..], t - 1, th);
      assert threads[t := th][1..] == threads[1..][t - 1 := th];
    }
  }

  lemma {:induction false} WakingSums(threads: seq<Thread>, l: nat)
    ensures Work(WakeAll(threads, l)) <= Work(threads) && Sends(WakeAll(threads, l)) == Sends(threads)
  {
    if threads != [] {
      WakingSums(threads[1..], l);
      assert WakeAll(threads, l)[1..] == WakeAll(threads[1..], l);
    }
  }

  lemma {:induction false} WorkIsBounded(threads: seq<Thread>)
    requires forall i :: 0 <= i < |threads| ==> ThreadOk(threads[i])
    ensures Work(threads) >= 0
  {
    if threads != [] { WorkIsBounded(threads[1..]); }
  }

  lemma {:induction false} SilentHasNoSends(work: seq<Op>)
    requires Silent(work)
    ensures SendCount(work) == 0
  {
    if work != [] { SilentHasNoSends(work[1..]); }
  }

  /** A move uses up work; a rendezvous uses up a signal. */
  lemma MoveDecreases(s: State, t: nat)
    requires Inv(s) && CanMove(s, t)
    ensures Sends(DoMove(s, t).threads) == Sends(s.threads) && Work(DoMove(s, t).threads) < Work(s.threads)
  {
    var th := s.threads[t];
    if th.pc.Writing? {
      SumsUpdate(s.threads, t, Done(th));
      WakingSums(s.threads[t := Done(th)], th.todo[0].lock);
    } else {
      assert DoMove(s, t).threads == s.threads[t := DoMove(s, t).threads[t]];
      SumsUpdate(s.threads, t, DoMove(s, t).threads[t]);
    }
  }

  lemma MeetDecreases(s: State, t: nat, work: seq<Op>)
    requires Inv(s) && Enabled(s, Meet(t, work))
    ensures Sends(Do(s, Meet(t, work)).threads) < Sends(s.threads)
  {
    var threads := s.threads[t := Done(s.threads[t])];
    SumsUpdate(s.threads, t, Done(s.threads[t]));
    SumsUpdate(threads, 0, Thread(work, Free));
    SilentHasNoSends(work);
  }

  // ----- whole runs -----

  ghost predicate Run(s: State, steps: seq<Step>, s': State)
    decreases |steps|
  {
    if steps == [] then s == s'
    else Enabled(s, steps[0]) && Run(Do(s, steps[0]), steps[1..], s')
  }

  predicate Unnested(todo: seq<Op>) {
    forall i :: 0 <= i < |todo| ==> !todo[i].Nested?
  }

  /** No thread nests read locks, and neither does the handler. */
  predicate Flat(s: State) {
    forall i :: 0 <= i < |s.threads| ==> Unnested(s.threads[i].todo)
  }

  predicate FlatStep(step: Step) {
    step.Move? || Unnested(step.work)
  }

  lemma FlatKept(s: State, step: Step)
    requires Inv(s) && Flat(s) && Enabled(s, step) && FlatStep(step)
    ensures Flat(Do(s, step))
  {}

  lemma {:induction false} RunKeepsInv(s: State, steps: seq<Step>, s': State)
    requires Inv(s) && Run(s, steps, s')
    ensures Inv(s')
    ensures Flat(s) && (forall i :: 0 <= i < |steps| ==> FlatStep(steps[i])) ==> Flat(s')
    decreases |steps|
  {
    if steps != [] {
      StepKeepsInv(s, steps[0]);
      if Flat(s) && FlatStep(steps[0]) { FlatKept(s, steps[0]); }
      assert forall i :: 0 <= i < |steps[1..]| ==> steps[1..][i] == steps[i + 1];
      RunKeepsInv(Do(s, steps[0]), steps[1..], s');
    }
  }

  /** From a state where nobody nests, whatever the handler does when it is woken, all threads can be brought to their
      end, without any help of the ticker. */
  lemma {:induction false} EverythingFinishes(s: State, work: seq<Op>) returns (steps: seq<Step>, s': State)
    requires Inv(s) && Flat(s) && Silent(work) && Unnested(work)
    ensures Run(s, steps, s') && Finished(s')
    ensures forall i :: 0 <= i < |steps| ==> !steps[i].Tick? && (steps[i].Meet? ==> steps[i].work == work)
    decreases Sends(s.threads), Work(s.threads)
  {
    WorkIsBounded(s.threads);
    if Finished(s) {
      steps, s' := [], s;
    } else {
      var step := SomeStepIsEnabled(s, work);
      if step.Move? { MoveDecreases(s, step.t); } else { MeetDecreases(s, step.t, work); }
      StepKeepsInv(s, step);
      FlatKept(s, step);
      var rest;
      rest, s' := EverythingFinishes(Do(s, step), work);
      steps := [step] + rest;
      assert steps[1..] == rest;
    }
  }

  /** No reachable state is stuck: while some thread has work left, a step other than a tick of the handler's ticker
      is possible. */
  lemma NeverStuck(s: State, steps: seq<Step>, s': State, work: seq<Op>) returns (step: Step)
    requires Init(s) && Flat(s) && Run(s, steps, s') && (forall i :: 0 <= i < |steps| ==> FlatStep(steps[i]))
    requires !Finished(s') && Silent(work)
    ensures Enabled(s', step) && !step.Tick?
  {
    RunKeepsInv(s, steps, s');
    step := SomeStepIsEnabled(s', work);
  }

  /** In every reachable state a writer is alone. */
  lemma WritersAreAlone(s: State, steps: seq<Step>, s': State, i: nat, j: nat, l: nat)
    requires Init(s) && Run(s, steps, s') && i < |s'.threads| && j < |s'.threads| && WritingAt(s'.threads[i], l)
    ensures !HoldsRead(s'.threads[j], l) && (i != j ==> !WritingAt(s'.threads[j], l))
  {
    RunKeepsInv(s, steps, s');
    assert WritesAt(s'.threads[i], l) && s'.writer[l] == i;
    if WritingAt(s'.threads[j], l) { assert WritesAt(s'.threads[j], l) && s'.writer[l] == j; }
  }

  /** In every reachable state nobody gets a read lock past a writer that has announced itself: as long as the lock has a
      writer, its readers only become fewer. */
  lemma WriterIsNotOvertaken(s: State, steps: seq<Step>, s': State, step: Step, i: nat, l: nat)
    requires Init(s) && Run(s, steps, s') && Enabled(s', step) && l in s'.writer && l in Do(s', step).writer
    requires i < |Do(s', step).threads| && HoldsRead(Do(s', step).threads[i], l)
    ensures i < |s'.threads| && HoldsRead(s'.threads[i], l)
  {
    RunKeepsInv(s, steps, s');
    match step {
      case Move(t) => MoveOvertakesNobody(s', t, i, l);
      case Meet(t, work) => MeetReadsNothing(s', t, work, i, l);
      case Tick(_) =>
    }
  }

  lemma MoveOvertakesNobody(s: State, t: nat, i: nat, l: nat)
    requires CanMove(s, t) && l in s.writer && l in DoMove(s, t).writer
    requires i < |DoMove(s, t).threads| && HoldsRead(DoMove(s, t).threads[i], l)
    ensures i < |s.threads| && HoldsRead(s.threads[i], l)
  {}

  lemma MeetReadsNothing(s: State, t: nat, work: seq<Op>, i: nat, l: nat)
    requires Enabled(s, Meet(t, work))
    requires i < |s.threads| && HoldsRead(Do(s, Meet(t, work)).threads[i], l)
    ensures HoldsRead(s.threads[i], l)
  {}

  // ----- the nested reader -----

  /** Thread `i` waits for its second read lock behind writer `j`, who waits for the first read lock of `i`. */
  predicate Deadlocked(s: State, i: nat, j: nat, l: nat) {
    && i < |s.threads| && j < |s.threads| && At(s.threads[i], l) && s.threads[i].pc.InnerWait?
    && At(s.threads[j], l) && s.threads[j].pc.Announced? && l in s.writer && s.writer[l] == j
  }

  /** Nothing that any thread does ends such a deadlock. */
  lemma DeadlockIsPermanent(s: State, step: Step, i: nat, j: nat, l: nat)
    requires Inv(s) && Deadlocked(s, i, j, l) && Enabled(s, step)
    ensures Deadlocked(Do(s, step), i, j, l)
  {
    if step.Move? {
      var t := step.t;
      assert HoldsRead(s.threads[i], l);
      assert t != i && t != j;
      if s.threads[t].pc.Writing? { assert WritesAt(s.threads[t], s.threads[t].todo[0].lock); }
    }
  }

  /** Such a state is reached by one nested reader and one writer. */
  lemma NestedReaderDeadlocks() returns (s: State, steps: seq<Step>, s': State)
    ensures Init(s) && Run(s, steps, s') && Deadlocked(s', 1, 2, 0)
    ensures forall step :: Enabled(s', step) ==> step.Tick?
  {
    var idle, reader, writer := Thread([], Free), Thread([Nested(0)], Free), Thread([Op.Write(0)], Free);
    s := State([idle, reader, writer], map[]);
    var s1 := State([idle, reader.(pc := Reading), writer], map[]);
    var s2 := State([idle, reader.(pc := Reading), writer.(pc := Announced)], map[0 := 2]);
    s' := State([idle, reader.(pc := InnerWait), writer.(pc := Announced)], map[0 := 2]);
    steps := [Move(1), Move(2), Move(1)];
    assert DoMove(s, 1) == s1;
    assert DoMove(s1, 2) == s2;
    assert DoMove(s2, 1) == s';
    assert steps[1..] == [Move(2), Move(1)] && steps[1..][1..] == [Move(1)] && [Move(1)][1..] == [];
    assert Run(s2, [Move(1)], s');
    assert Run(s1, [Move(2), Move(1)], s');
    assert HoldsRead(s'.threads[1], 0);
    assert !NoReader(s'.threads, 0);
  }

  /** And nothing else gets stuck: a state in which no thread can go on, though one has work left, contains a reader
      that blocked itself behind a waiting writer. */
  lemma OnlyNestingGetsStuck(s: State)
    requires Inv(s) && !Finished(s)
    requires forall step :: Enabled(s, step) ==> step.Tick?
    ensures exists i, j, l :: Deadlocked(s, i, j, l)
  {
    if forall i :: 0 <= i < |s.threads| ==> !SelfBlocked(s.threads[i]) {
      var step := SomeStepIsEnabled(s, []);
      assert false;
    }
    var i :| 0 <= i < |s.threads| && SelfBlocked(s.threads[i]);
    var l := s.threads[i].todo[0].lock;
    assert WaitsAt(s.threads[i], l);
    var j := s.writer[l];
    assert WritesAt(s.threads[j], l);
    if s.threads[j].pc.Writing? {
      assert Enabled(s, Move(j));
      assert false;
    }
    assert Deadlocked(s, i, j, l);
  }
}
