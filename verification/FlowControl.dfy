/** zmodemWrite: pause and resume messages driven by the number of outstanding write callbacks. */
module FlowControl {
  datatype Message = Pause | Resume

  /** FlowControl in the source; the terminal uses limit 100000, highWater 10, lowWater 4. */
  datatype Limits = Limits(limit: nat, highWater: nat, lowWater: nat)

  const TERMINAL := Limits(100000, 10, 4)

  // ----- the reference: counters, callbacks and messages as a value -----

  /** `written` and `pending` are the counters of the addon.  `segments` are the bytes covered by each outstanding
      callback, oldest first, and `last` the last control message; the addon does not know them. */
  datatype State = State(written: nat, pending: nat, segments: seq<nat>, last: Message)

  datatype Event = Write(size: nat) | Callback

  const START := State(0, 0, [], Resume)

  predicate Enabled(s: State, e: Event) { e.Callback? ==> s.segments != [] }

  /** A write that takes the counter over the limit asks for a callback; the terminal runs it later, in order. */
  function Step(l: Limits, s: State, e: Event): State
    requires Enabled(s, e)
  {
    match e
    case Write(n) =>
      if s.written + n > l.limit
      then State(0, s.pending + 1, s.segments + [s.written + n], if s.pending + 1 > l.highWater then Pause else s.last)
      else s.(written := s.written + n)
    case Callback =>
      var p := if s.pending - 1 > 0 then s.pending - 1 else 0;
      State(s.written, p, s.segments[1..], if p < l.lowWater then Resume else s.last)
  }

  ghost predicate Run(l: Limits, s: State, events: seq<Event>, s': State)
    decreases |events|
  {
    if events == [] then s == s'
    else Enabled(s, events[0]) && Run(l, Step(l, s, events[0]), events[1..], s')
  }

  function Sum(ns: seq<nat>): nat {
    if ns == [] then 0 else Sum(ns[..|ns| - 1]) + ns[|ns| - 1]
  }

  /** The bytes given to the terminal and not yet known to be processed. */
  function Unacknowledged(s: State): nat { Sum(s.segments) + s.written }

  // ----- pending counts the callbacks, and pause is always taken back -----

  /** `pending` is the number of outstanding callbacks, so the cut-off at zero never takes effect. */
  predicate Counts(l: Limits, s: State) {
    s.pending == |s.segments| && s.written <= l.limit
  }

  /** When the last message is pause, at least `lowWater` callbacks are outstanding. */
  predicate Covered(l: Limits, s: State) {
    s.last == Pause ==> s.pending >= l.lowWater
  }

  /** When no callback is outstanding, the last message is resume. */
  predicate Settled(l: Limits, s: State) {
    s.segments == [] && l.lowWater >= 1 ==> s.last == Resume
  }

  lemma StepKeepsInv(l: Limits, s: State, e: Event)
    requires Counts(l, s) && Settled(l, s) && Enabled(s, e)
    ensures Counts(l, Step(l, s, e)) && Settled(l, Step(l, s, e))
    ensures Covered(l, s) && l.lowWater <= l.highWater + 1 ==> Covered(l, Step(l, s, e))
  {}

  /** The counter is right in every run, for any limits. */
  lemma {:induction false} RunKeepsInv(l: Limits, s: State, events: seq<Event>, s': State)
    requires Counts(l, s) && Settled(l, s) && Run(l, s, events, s')
    ensures Counts(l, s') && Settled(l, s')
    ensures Covered(l, s) && l.lowWater <= l.highWater + 1 ==> Covered(l, s')
    decreases |events|
  {
    if events != [] {
      StepKeepsInv(l, s, events[0]);
      RunKeepsInv(l, Step(l, s, events[0]), events[1..], s');
    }
  }

  /** In no reachable state is the sender paused with fewer than `lowWater` callbacks to come. */
  ghost predicate PauseIsCovered(l: Limits) {
    forall events, s :: Run(l, START, events, s) && s.last == Pause ==> |s.segments| >= l.lowWater
  }

  /** That holds exactly for water marks with lowWater <= highWater + 1. */
  lemma PauseIsCoveredIff(l: Limits)
    ensures PauseIsCovered(l) <==> l.lowWater <= l.highWater + 1
  {
    if l.lowWater <= l.highWater + 1 {
      forall events, s | Run(l, START, events, s) && s.last == Pause ensures |s.segments| >= l.lowWater {
        RunKeepsInv(l, START, events, s);
      }
    } else {
      var events, s := FillUp(l, l.highWater + 1);
      assert s.last == Pause && |s.segments| < l.lowWater;
    }
  }

  /** The terminal's own limits qualify. */
  lemma TerminalLimitsQualify()
    ensures PauseIsCovered(TERMINAL) && DrainingResumes(TERMINAL)
  {
    PauseIsCoveredIff(TERMINAL);
    DrainingResumesIff(TERMINAL);
  }

  /** n writes over the limit, with no callback in between. */
  lemma {:induction false} FillUp(l: Limits, n: nat) returns (events: seq<Event>, s: State)
    ensures Run(l, START, events, s) && s.written == 0 && s.pending == n == |s.segments|
    ensures s.last == if n > l.highWater then Pause else Resume
  {
    if n == 0 {
      events, s := [], START;
    } else {
      var before, m := FillUp(l, n - 1);
      events := before + [Write(l.limit + 1)];
      s := Step(l, m, Write(l.limit + 1));
      assert Run(l, m, [Write(l.limit + 1)], s) by { assert [Write(l.limit + 1)][1..] == []; }
      RunConcat(l, START, before, m, [Write(l.limit + 1)], s);
    }
  }

  lemma {:induction false} RunConcat(l: Limits, s: State, a: seq<Event>, m: State, b: seq<Event>, t: State)
    requires Run(l, s, a, m) && Run(l, m, b, t)
    ensures Run(l, s, a + b, t)
    decreases |a|
  {
    if a == [] {
      assert a + b == b;
    } else {
      RunConcat(l, Step(l, s, a[0]), a[1..], m, b, t);
      assert (a + b)[1..] == a[1..] + b;
    }
  }

  /** The state after all outstanding callbacks have run. */
  function Drained(l: Limits, s: State): State
    decreases |s.segments|
  {
    if s.segments == [] then s else Drained(l, Step(l, s, Callback))
  }

  /** Whatever happened before, once the terminal has caught up the last message is resume. */
  ghost predicate DrainingResumes(l: Limits) {
    forall events, s :: Run(l, START, events, s) ==> Drained(l, s).last == Resume
  }

  /** That holds exactly when lowWater is not 0. */
  lemma DrainingResumesIff(l: Limits)
    ensures DrainingResumes(l) <==> l.lowWater >= 1
  {
    if l.lowWater >= 1 {
      forall events, s | Run(l, START, events, s) ensures Drained(l, s).last == Resume {
        RunKeepsInv(l, START, events, s);
        DrainKeepsInv(l, s);
      }
    } else {
      var events, s := FillUp(l, l.highWater + 1);
      DrainKeepsInv(l, s);
      assert Drained(l, s).last == Pause;
    }
  }

  lemma {:induction false} DrainKeepsInv(l: Limits, s: State)
    requires Counts(l, s) && Settled(l, s)
    ensures Drained(l, s).segments == [] && Drained(l, s).pending == 0 && Settled(l, Drained(l, s))
    ensures l.lowWater == 0 ==> Drained(l, s).last == s.last
    decreases |s.segments|
  {
    if s.segments != [] {
      StepKeepsInv(l, s, Callback);
      DrainKeepsInv(l, Step(l, s, Callback));
    }
  }

  // ----- when callbacks are asked for -----

  /** Every outstanding callback stands for more than `limit` bytes. */
  ghost predicate Full(l: Limits, s: State) {
    forall i :: 0 <= i < |s.segments| ==> s.segments[i] > l.limit
  }

  /** In every run a callback is asked for only once more than `limit` bytes have been written since the last one. */
  lemma {:induction false} CallbacksCoverTheLimit(l: Limits, s: State, events: seq<Event>, s': State)
    requires Full(l, s) && Run(l, s, events, s')
    ensures Full(l, s')
    decreases |events|
  {
    if events != [] {
      CallbacksCoverTheLimit(l, Step(l, s, events[0]), events[1..], s');
    }
  }

  function WritesOf(sizes: seq<nat>): seq<Event> {
    seq(|sizes|, i requires 0 <= i < |sizes| => Write(sizes[i]))
  }

  /** Writes that together stay within the limit ask for nothing and send nothing. */
  lemma {:induction false} SmallWritesAskNothing(l: Limits, sizes: seq<nat>)
    requires Sum(sizes) <= l.limit
    ensures Run(l, START, WritesOf(sizes), State(Sum(sizes), 0, [], Resume))
  {
    if sizes != [] {
      var front, n := sizes[..|sizes| - 1], sizes[|sizes| - 1];
      SmallWritesAskNothing(l, front);
      var m := State(Sum(front), 0, [], Resume);
      assert [Write(n)][1..] == [];
      assert Run(l, m, [Write(n)], State(Sum(sizes), 0, [], Resume));
      RunConcat(l, START, WritesOf(front), m, [Write(n)], State(Sum(sizes), 0, [], Resume));
      assert WritesOf(sizes) == WritesOf(front) + [Write(n)];
    }
  }

  /** The bytes written in a run. */
  function Given(events: seq<Event>): nat {
    if events == [] then 0 else Given(events[1..]) + if events[0].Write? then events[0].size else 0
  }

  /** The bytes whose callbacks ran. */
  ghost function Acknowledged(l: Limits, s: State, events: seq<Event>): nat
    decreases |events|
  {
    if events == [] || !Enabled(s, events[0]) then 0
    else Acknowledged(l, Step(l, s, events[0]), events[1..]) + if events[0].Callback? then s.segments[0] else 0
  }

  lemma {:induction false} SumConcat(a: seq<nat>, b: seq<nat>)
    ensures Sum(a + b) == Sum(a) + Sum(b)
  {
    if b == [] {
      assert a + b == a;
    } else {
      SumConcat(a, b[..|b| - 1]);
      assert (a + b)[..|a + b| - 1] == a + b[..|b| - 1];
    }
  }

  lemma StepConserves(l: Limits, s: State, e: Event)
    requires Enabled(s, e)
    ensures Unacknowledged(s) + (if e.Write? then e.size else 0)
         == Unacknowledged(Step(l, s, e)) + if e.Callback? then s.segments[0] else 0
  {
    match e
    case Write(n) => SumAppend(s.segments, s.written + n);
    case Callback => SumHead(s.segments);
  }

  lemma SumAppend(ns: seq<nat>, n: nat)
    ensures Sum(ns + [n]) == Sum(ns) + n
  {
    assert (ns + [n])[..|ns|] == ns;
  }

  lemma SumHead(ns: seq<nat>)
    requires ns != []
    ensures Sum(ns) == ns[0] + Sum(ns[1..])
  {
    assert ns == [ns[0]] + ns[1..];
    SumConcat([ns[0]], ns[1..]);
    SumAppend([], ns[0]);
  }

  /** No byte is counted twice or lost: what was written is what has been acknowledged and what is still under way. */
  lemma {:induction false} BytesAreConserved(l: Limits, s: State, events: seq<Event>, s': State)
    requires Run(l, s, events, s')
    ensures Unacknowledged(s) + Given(events) == Acknowledged(l, s, events) + Unacknowledged(s')
    decreases |events|
  {
    if events != [] {
      StepConserves(l, s, events[0]);
      BytesAreConserved(l, Step(l, s, events[0]), events[1..], s');
    }
  }

  // ----- when pause and resume are sent -----

  /** When the last message is resume, at most `highWater` callbacks are outstanding. */
  predicate Open(l: Limits, s: State) {
    s.last == Resume ==> s.pending <= l.highWater
  }

  lemma {:induction false} RunKeepsOpen(l: Limits, s: State, events: seq<Event>, s': State)
    requires Run(l, s, events, s') && Open(l, s) && l.lowWater <= l.highWater + 1
    ensures Open(l, s')
    decreases |events|
  {
    if events != [] { RunKeepsOpen(l, Step(l, s, events[0]), events[1..], s'); }
  }

  /** In every reachable state the message changes to pause exactly when a write over the limit takes the number of
      outstanding callbacks from highWater to highWater + 1, and back to resume exactly when a callback takes it from
      lowWater to lowWater - 1; nothing in between changes it. */
  lemma MessagesMarkCrossings(l: Limits, events: seq<Event>, s: State, e: Event)
    requires l.lowWater <= l.highWater + 1 && Run(l, START, events, s) && Enabled(s, e)
    ensures s.last == Resume ==>
            (Step(l, s, e).last == Pause <==>
             e.Write? && s.written + e.size > l.limit && |s.segments| == l.highWater)
    ensures s.last == Pause ==> (Step(l, s, e).last == Resume <==> e.Callback? && |s.segments| == l.lowWater)
  {
    RunKeepsInv(l, START, events, s);
    RunKeepsOpen(l, START, events, s);
  }

  // ----- how much can be under way -----

  predicate Small(e: Event, c: nat) { e.Write? ==> e.size <= c }

  ghost predicate Bounded(l: Limits, s: State, c: nat) {
    s.written <= l.limit && forall i :: 0 <= i < |s.segments| ==> s.segments[i] <= l.limit + c
  }

  lemma {:induction false} SumBound(ns: seq<nat>, b: nat)
    requires forall i :: 0 <= i < |ns| ==> ns[i] <= b
    ensures Sum(ns) <= |ns| * b
  {
    if ns != [] {
      SumBound(ns[..|ns| - 1], b);
      assert |ns| * b == (|ns| - 1) * b + b;
    }
  }

  lemma Times(a: nat, b: nat, p: nat)
    requires a <= b
    ensures a * p <= b * p
  {}

  lemma BytesBound(l: Limits, s: State, c: nat, k: nat)
    requires Bounded(l, s, c) && |s.segments| <= k
    ensures Unacknowledged(s) <= k * (l.limit + c) + l.limit
  {
    var b := l.limit + c;
    SumBound(s.segments, b);
    Times(|s.segments|, k, b);
  }

  lemma {:induction false} RunKeepsBounded(l: Limits, s: State, events: seq<Event>, s': State, c: nat)
    requires Bounded(l, s, c) && Run(l, s, events, s') && forall i :: 0 <= i < |events| ==> Small(events[i], c)
    ensures Bounded(l, s', c)
    decreases |events|
  {
    if events != [] {
      assert Small(events[0], c);
      assert forall i :: 0 <= i < |events[1..]| ==> events[1..][i] == events[i + 1];
      RunKeepsBounded(l, Step(l, s, events[0]), events[1..], s', c);
    }
  }

  /** With chunks of at most c bytes, the bytes under way are at most pending * (limit + c) + limit. */
  lemma UnacknowledgedIsBounded(l: Limits, events: seq<Event>, s: State, c: nat)
    requires Run(l, START, events, s)
    requires forall i :: 0 <= i < |events| ==> Small(events[i], c)
    ensures Unacknowledged(s) <= s.pending * (l.limit + c) + l.limit
  {
    RunKeepsInv(l, START, events, s);
    RunKeepsBounded(l, START, events, s, c);
    BytesBound(l, s, c, s.pending);
  }

  // ----- what flow control is for -----

  /** The sender stops writing while it is paused. */
  ghost predicate ObedientRun(l: Limits, s: State, events: seq<Event>, s': State)
    decreases |events|
  {
    if events == [] then s == s'
    else Enabled(s, events[0]) && (events[0].Write? ==> s.last == Resume)
         && ObedientRun(l, Step(l, s, events[0]), events[1..], s')
  }

  lemma {:induction false} ObedientRunKeepsPendingLow(l: Limits, s: State, events: seq<Event>, s': State, c: nat)
    requires Counts(l, s) && Settled(l, s) && Bounded(l, s, c) && ObedientRun(l, s, events, s')
    requires s.pending <= l.highWater + 1 && (s.last == Resume ==> s.pending <= l.highWater)
    requires forall i :: 0 <= i < |events| ==> Small(events[i], c)
    ensures s'.pending <= l.highWater + 1 && Counts(l, s') && Bounded(l, s', c)
    decreases |events|
  {
    if events != [] {
      assert Small(events[0], c);
      assert forall i :: 0 <= i < |events[1..]| ==> events[1..][i] == events[i + 1];
      StepKeepsInv(l, s, events[0]);
      ObedientRunKeepsPendingLow(l, Step(l, s, events[0]), events[1..], s', c);
    }
  }

  /** If the sender stops while it is paused, at most highWater + 1 callbacks are ever outstanding and the bytes under
      way stay below a constant, however long the run. */
  lemma ObedientSenderIsBounded(l: Limits, events: seq<Event>, s: State, c: nat)
    requires ObedientRun(l, START, events, s)
    requires forall i :: 0 <= i < |events| ==> Small(events[i], c)
    ensures s.pending <= l.highWater + 1
    ensures Unacknowledged(s) <= (l.highWater + 1) * (l.limit + c) + l.limit
  {
    ObedientRunKeepsPendingLow(l, START, events, s, c);
    BytesBound(l, s, c, l.highWater + 1);
  }

  // ----- the addon -----

  class Zmodem {
    const control: Limits
    var written: nat
    var pending: nat
    ghost var segments: seq<nat>
    ghost var last: Message

    ghost function Now(): State
      reads this
    {
      State(written, pending, segments, last)
    }

    constructor (control: Limits)
      ensures this.control == control && Now() == START
    {
      this.control := control;
      written, pending, segments, last := 0, 0, [], Resume;
    }

    /** `asked` tells whether the terminal was given a callback, `paused` whether pause was sent. */
    method Write(data: seq<bv8>) returns (asked: bool, paused: bool)
      modifies this
      ensures Now() == Step(control, old(Now()), Event.Write(|data|))
      ensures asked <==> old(written) + |data| > control.limit
      ensures paused <==> asked && old(pending) + 1 > control.highWater
      ensures written == if asked then 0 else old(written) + |data|
      ensures pending == old(pending) + if asked then 1 else 0
      ensures segments == old(segments) + if asked then [old(written) + |data|] else []
      ensures last == if paused then Pause else old(last)
    {
      asked, paused := false, false;
      written := written + |data|;
      if written > control.limit {
        asked := true;
        segments := segments + [written];
        pending := pending + 1;
        written := 0;
        if pending > control.highWater {
          paused := true;
          last := Pause;
        }
      }
    }

    /** The callback that the terminal runs when it has processed the oldest of the writes that asked for one. */
    method Processed() returns (resumed: bool)
      requires segments != []
      modifies this
      ensures Now() == Step(control, old(Now()), Callback)
      ensures pending == (if old(pending) >= 1 then old(pending) - 1 else 0) && written == old(written)
      ensures segments == old(segments)[1..]
      ensures resumed <==> pending < control.lowWater
      ensures last == if resumed then Resume else old(last)
    {
      pending := if pending - 1 > 0 then pending - 1 else 0;
      segments := segments[1..];
      resumed := pending < control.lowWater;
      if resumed { last := Resume; }
    }
  }

  // ----- callbacks must not run inside the write -----

  /** A write whose callback the terminal runs at once, before `pending` goes up. */
  function WriteAtOnce(l: Limits, s: State, n: nat): State {
    if s.written + n <= l.limit then s.(written := s.written + n)
    else
      var p := if s.pending - 1 > 0 then s.pending - 1 else 0;
      var last := if p < l.lowWater then Resume else s.last;
      State(0, p + 1, s.segments, if p + 1 > l.highWater then Pause else last)
  }

  function WritesAtOnce(l: Limits, sizes: seq<nat>): State {
    if sizes == [] then START else WriteAtOnce(l, WritesAtOnce(l, sizes[..|sizes| - 1]), sizes[|sizes| - 1])
  }

  /** Then the counter stands at 1 with nothing outstanding from the first write over the limit on. */
  lemma {:induction false} CallbackAtOnceDrifts(l: Limits, sizes: seq<nat>)
    ensures var s := WritesAtOnce(l, sizes);
            s.segments == [] && s.pending == if exists i :: 0 <= i < |sizes| && Over(l, sizes, i) then 1 else 0
  {
    if sizes != [] {
      var front := sizes[..|sizes| - 1];
      CallbackAtOnceDrifts(l, front);
      forall i | 0 <= i < |front| ensures Over(l, front, i) == Over(l, sizes, i) {
        assert front[..i] == sizes[..i];
      }
      assert sizes[..|front|] == front;
      if i :| 0 <= i < |front| && Over(l, front, i) { assert Over(l, sizes, i); }
      if i :| 0 <= i < |sizes| && Over(l, sizes, i) { assert i < |front| ==> Over(l, front, i); }
      assert WritesAtOnce(l, front).written + sizes[|front|] > l.limit ==> Over(l, sizes, |front|);
    }
  }

  /** Write `i` goes over the limit. */
  predicate Over(l: Limits, sizes: seq<nat>, i: nat)
    requires i < |sizes|
  {
    WritesAtOnce(l, sizes[..i]).written + sizes[i] > l.limit
  }
}
