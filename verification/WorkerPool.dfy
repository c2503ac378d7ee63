/** The methods of the pool and the pool's part of a sync, each run to its end with nothing in between.  Every call is
    a run of protocol steps in which no handler iteration, Borrow or Back is interrupted, so what PoolRuns proves of
    such runs holds of every sequence of calls.  The parameters of a method that say `ok`, `answer` or `a` are answers
    of the API server; with `strict` a call also keeps the rest of the discipline of module PoolQueue. */
module WorkerPool {
  import opened OrderedSet
  import opened PoolProtocol
  import opened PoolInvariants
  import opened PoolBinding
  import opened PoolQueue
  import opened PoolRuns

  /** What a call cannot ensure by itself. */
  predicate Sound(s: State, step: Step) {
    ReconcileAddsIdle(s, step) && BackAddsLive(s, step) && Completes(s, step) && BacksCurrent(s, step)
  }

  /** The steps of whole calls; `strict` asks for the rest of the discipline. */
  predicate Uninterrupted(strict: bool, s: State, step: Step) {
    Apart(s, step) && AsksBetweenIterations(s, step) && (strict ==> Sound(s, step))
  }

  function Under(strict: bool): (State, Step) -> bool {
    (s, step) => Uninterrupted(strict, s, step)
  }

  ghost predicate Leads(strict: bool, s: State, t: State) {
    exists steps :: RunUnder(Under(strict), s, steps, t)
  }

  lemma LeadsNowhere(strict: bool, s: State)
    ensures Leads(strict, s, s)
  {
    assert RunUnder(Under(strict), s, [], s);
  }

  /** One call after the other. */
  lemma LeadsOn(strict: bool, s: State, m: State, t: State)
    requires Leads(strict, s, m) && Leads(strict, m, t)
    ensures Leads(strict, s, t)
  {
    var a :| RunUnder(Under(strict), s, a, m);
    var b :| RunUnder(Under(strict), m, b, t);
    RunsConcat(Under(strict), s, a, m, b, t);
  }

  /** The hypotheses that speak about a step. */
  predicate Kept(strict: bool, s: State, step: Step) {
    match step
    case Env(_) => true
    case Rec(r) => r.Act? && strict ==> ReconcileAddsIdle(s, step)
    case Handle(_) => true
    case Sync(_, a) =>
      match a
      case Pick => PicksStaying(s, step)
      case Ask => AsksBetweenIterations(s, step)
      case Update(_) => BindsUnpicked(s, step) && BindsQueued(s, step)
      case BackUpdate => strict ==> BacksCurrent(s, step)
      case BackAdd => strict ==> BackAddsLive(s, step)
      case Unlabel(_, _) => strict ==> Completes(s, step)
      case _ => true
  }

  lemma KeptIsUninterrupted(strict: bool, s: State, step: Step)
    requires Kept(strict, s, step)
    ensures Uninterrupted(strict, s, step)
  {}

  /** One more step. */
  lemma Then(strict: bool, s: State, m: State, step: Step, t: State)
    requires Leads(strict, s, m) && Enabled(m, step) && Kept(strict, m, step) && Do(m, step) == t
    ensures Leads(strict, s, t)
  {
    KeptIsUninterrupted(strict, m, step);
    assert [step][1..] == [];
    assert RunUnder(Under(strict), m, [step], t);
    LeadsOn(strict, s, m, t);
  }

  // ----- the theorems about runs, for sequences of calls -----

  lemma {:induction false} UninterruptedAsks(strict: bool, s: State, steps: seq<Step>, t: State)
    requires RunUnder(Under(strict), s, steps, t)
    ensures RunUnder(AsksBetweenIterations, s, steps, t)
    decreases |steps|
  {
    if steps != [] { UninterruptedAsks(strict, Do(s, steps[0]), steps[1..], t); }
  }

  lemma {:induction false} StrictIsDisciplined(s: State, steps: seq<Step>, t: State)
    requires RunUnder(Under(true), s, steps, t)
    ensures RunUnder(Disciplined, s, steps, t)
    decreases |steps|
  {
    if steps != [] { StrictIsDisciplined(Do(s, steps[0]), steps[1..], t); }
  }

  /** Whole calls lose no waiting shell, whatever the other hypotheses of module PoolRuns. */
  lemma CallsLoseNoWaiter(strict: bool, s: State, t: State, x: ShellId)
    requires Init(s) && Leads(strict, s, t) && x in t.waiting
    ensures x in t.store.shells && t.waiting[x].shell == x && (t.waiting[x] in t.requests || x in t.shellQueue)
  {
    var steps :| RunUnder(Under(strict), s, steps, t);
    UninterruptedAsks(strict, s, steps, t);
    NoWaiterLost(s, steps, t, x);
  }

  /** Whole calls keep the queue and the bindings in order when reconcile queues only idle pods and syncs act on current
      labels and complete their label writes, for any number of syncs. */
  lemma CallsAreSafe(s: State, t: State, k: Key, p: PodId, x: ShellId, y: ShellId)
    requires Init(s) && Leads(true, s, t) && x != y
    ensures NamesIdle(t, k) && VanishesUnqueued(t, p) && Unshared(t, x, y)
  {
    var steps :| RunUnder(Under(true), s, steps, t);
    StrictIsDisciplined(s, steps, t);
    QueueNamesIdlePods(s, steps, t, k);
    PodsVanishUnqueued(s, steps, t, p);
    DisciplinedRunSharesNoWorker(s, steps, t, x, y);
  }

  lemma StrictKeepsEverything(s: State, t: State)
    requires Leads(true, s, t) && Everything(s)
    ensures Everything(t)
  {
    var steps :| RunUnder(Under(true), s, steps, t);
    StrictIsDisciplined(s, steps, t);
    DisciplinedRunKeepsEverything(s, steps, t);
  }

  lemma {:induction false} UnderIsRun(strict: bool, s: State, steps: seq<Step>, t: State)
    requires RunUnder(Under(strict), s, steps, t)
    ensures Run(s, steps, t)
    decreases |steps|
  {
    if steps != [] { UnderIsRun(strict, Do(s, steps[0]), steps[1..], t); }
  }

  lemma LeadsKeepsBase(strict: bool, s: State, t: State)
    requires Leads(strict, s, t) && Base(s)
    ensures Base(t)
  {
    var steps :| RunUnder(Under(strict), s, steps, t);
    UnderIsRun(strict, s, steps, t);
    RunKeepsBase(s, steps, t);
  }

  /** A Back that nothing interrupts queues an idle pod that is not being deleted. */
  lemma FreedWorkerIsLive(s: State, x: ShellId)
    requires Base(s) && Binding(s) && SyncEnabled(s, x, BackUpdate) && BacksCurrent(s, Sync(x, BackUpdate))
    requires s.copies[x].pod != ""
    ensures !s.api.pods[CopiedPod(s, x)].deleting
  {
    Current(s.api, CopiedPod(s, x));
    assert ShellOk(s.api, s.store.shells, s.syncs, x);
  }

  // ----- what a round of the handler does -----

  /** A queued worker for request `r` that the lister knows. */
  predicate Served(s: State, r: Request) {
    MatchFor(s, r).Some? && MatchFor(s, r).value.pod in s.cache
  }

  /** That is the oldest queued worker of the request's namespace and image. */
  lemma ServedIff(s: State, r: Request)
    ensures Served(s, r) <==>
            exists i :: 0 <= i < |s.workers| && s.workers[i].pod.ns == r.shell.ns && s.workers[i].image == r.image
                        && s.workers[i].pod in s.cache
                        && forall j :: 0 <= j < i ==> s.workers[j].pod.ns != r.shell.ns || s.workers[j].image != r.image
  {
    MatchForIs(s, r);
    if i, j :| 0 <= i < |s.workers| && 0 <= j < |s.workers| && i != j
               && s.workers[i].pod.ns == r.shell.ns && s.workers[i].image == r.image
               && s.workers[j].pod.ns == r.shell.ns && s.workers[j].image == r.image {}
  }

  /** The requests that stay after a round of the handler: those that no listed, queued worker serves, and those
      whose shell could not be read. */
  function Unserved(s: State, requests: seq<Request>, unread: set<Request>): seq<Request> {
    if requests == [] then []
    else (if Served(s, requests[0]) && requests[0] !in unread then [] else [requests[0]])
         + Unserved(s, requests[1..], unread)
  }

  lemma {:induction false} UnservedAppends(s: State, a: seq<Request>, r: Request, unread: set<Request>)
    ensures Unserved(s, a + [r], unread)
         == Unserved(s, a, unread) + if Served(s, r) && r !in unread then [] else [r]
  {
    if a != [] {
      UnservedAppends(s, a[1..], r, unread);
      assert (a + [r])[1..] == a[1..] + [r];
    }
  }

  /** A request leaves the queue in a round exactly when a queued worker serves it and its shell could be read. */
  lemma {:induction false} UnservedKeeps(s: State, requests: seq<Request>, unread: set<Request>, r: Request)
    ensures r in Unserved(s, requests, unread) <==> r in requests && (Served(s, r) ==> r in unread)
  {
    if requests != [] {
      UnservedKeeps(s, requests[1..], unread, r);
      assert r in requests <==> r == requests[0] || r in requests[1..];
    }
  }

  /** The shells that a round of the handler puts on the controller queue. */
  function Notified(s: State, requests: seq<Request>, unread: set<Request>): set<ShellId> {
    set r | r in requests && Served(s, r) && r !in unread && r.shell in s.store.shells :: r.shell
  }

  lemma NotifiedAppends(s: State, a: seq<Request>, r: Request, unread: set<Request>)
    ensures Notified(s, a + [r], unread)
         == Notified(s, a, unread) + if Served(s, r) && r !in unread && r.shell in s.store.shells then {r.shell} else {}
  {
    assert forall q :: q in a + [r] <==> q in a || q == r;
  }

  /** The request queue when the handler has done the first `i` requests of its snapshot `q`. */
  ghost function Remaining(s: State, q: seq<Request>, i: nat, unread: set<Request>): seq<Request>
    requires i <= |q|
  {
    Unserved(s, q[..i], unread) + q[i..]
  }

  lemma RoundGoesOn(s: State, q: seq<Request>, i: nat, unread: set<Request>)
    requires i < |q| && Distinct(Remaining(s, q, i, unread))
    ensures q[i] in Remaining(s, q, i, unread)
    ensures Remaining(s, q, i + 1, unread)
         == if Served(s, q[i]) && q[i] !in unread then Delete(Remaining(s, q, i, unread), q[i])
            else Remaining(s, q, i, unread)
    ensures Distinct(Remaining(s, q, i + 1, unread))
  {
    var kept := Unserved(s, q[..i], unread);
    var now := Remaining(s, q, i, unread);
    assert now[|kept|] == q[i];
    assert q[..i + 1] == q[..i] + [q[i]];
    UnservedAppends(s, q[..i], q[i], unread);
    DeleteAt(now, |kept|);
    GapAt(kept, q, i);
    DeleteKeepsDistinct(now, q[i]);
  }

  lemma GapAt(kept: seq<Request>, q: seq<Request>, i: nat)
    requires i < |q|
    ensures (kept + q[i..])[..|kept|] + (kept + q[i..])[|kept| + 1..] == kept + q[i + 1..]
    ensures kept + [q[i]] + q[i + 1..] == kept + q[i..]
  {}

  /** The names for the requests from position `i` on are still unused. */
  ghost predicate Unused(names: map<Request, string>, q: seq<Request>, i: nat, used: set<PodId>) {
    forall j :: i <= j < |q| && q[j] in names ==> PodId(q[j].shell.ns, names[q[j]]) !in used
  }

  predicate DrawnApart(names: map<Request, string>) {
    forall q, r :: q in names && r in names && q != r && q.shell.ns == r.shell.ns ==> names[q] != names[r]
  }

  lemma UnusedGoesOn(names: map<Request, string>, q: seq<Request>, i: nat, used: set<PodId>)
    requires i < |q| && Distinct(q) && DrawnApart(names) && Unused(names, q, i, used)
    ensures Unused(names, q, i + 1, used)
    ensures q[i] in names ==> Unused(names, q, i + 1, used + {PodId(q[i].shell.ns, names[q[i]])})
  {}

  /** The API after a round: one create for each request that nothing serves, that no listed worker was made for, and
      whose create succeeds. */
  function AfterCreates(s: State, requests: seq<Request>, names: map<Request, string>): Api {
    if requests == [] then s.api
    else
      var before, r := AfterCreates(s, requests[..|requests| - 1], names), requests[|requests| - 1];
      if r in names && !Served(s, r) && !Listed(s, r.shell)
      then WriteApi(before, PodId(r.shell.ns, names[r]), CreatedFor(r)) else before
  }

  /** Over a whole round: a pod is there afterwards exactly if it was there before or was created for a request of the
      round that no queued worker serves, and for whose shell the lister shows no worker with its request label. */
  lemma {:induction false} RoundCreates(s: State, requests: seq<Request>, names: map<Request, string>, p: PodId)
    ensures p in AfterCreates(s, requests, names).pods <==>
            || p in s.api.pods
            || exists r :: r in requests && r in names && p == PodId(r.shell.ns, names[r]) && !Served(s, r)
                           && forall q :: q in s.cache && q.ns == r.shell.ns ==> s.cache[q].request != r.shell.name
  {
    if requests != [] {
      var front, last := requests[..|requests| - 1], requests[|requests| - 1];
      RoundCreates(s, front, names, p);
      assert requests == front + [last];
      assert forall r :: r in requests <==> r in front || r == last;
    }
  }

  /** And that pod is idle and unready, with the image of the request and the request label of the shell. */
  lemma {:induction false} RoundCreatesFor(s: State, requests: seq<Request>, names: map<Request, string>, r: Request)
    requires Distinct(requests) && DrawnApart(names) && r in requests && r in names && !Served(s, r)
    requires forall q :: q in s.cache && q.ns == r.shell.ns ==> s.cache[q].request != r.shell.name
    ensures var after, p := AfterCreates(s, requests, names).pods, PodId(r.shell.ns, names[r]);
            p in after && after[p] == Pod(r.image, "", r.shell.name, true, false, false, after[p].rv)
  {
    var front, last := requests[..|requests| - 1], requests[|requests| - 1];
    assert requests == front + [last];
    assert r in front || r == last;
    if r in front && r != last { RoundCreatesFor(s, front, names, r); }
  }

  /** The API server's side of a round: the requests whose shell read fails with an error other than not found, and the
      pod name of each create that succeeds. */
  datatype Answers = Answers(unread: set<Request>, names: map<Request, string>)

  /** What one iteration for request `r` does: a request that can be served goes to the controller queue and leaves the
      request queue, unless the shell cannot be read; one that cannot gets a new worker when none is listed. */
  ghost predicate Handled(s: State, t: State, r: Request, a: Answers) {
    var done := Served(s, r) && r !in a.unread;
    && t.workers == s.workers && t.cache == s.cache && t.store == s.store && t.handler.Waiting?
    && t.requests == (if done then Delete(s.requests, r) else s.requests)
    && t.shellQueue == s.shellQueue + (if done && r.shell in s.store.shells then {r.shell} else {})
    && t.api == if r in a.names && !Served(s, r) && !Listed(s, r.shell)
                then WriteApi(s.api, PodId(r.shell.ns, a.names[r]), CreatedFor(r)) else s.api
  }

  lemma HandledMeans(s: State, t: State, r: Request, a: Answers)
    requires Handled(s, t, r, a)
    ensures Served(s, r) && r !in a.unread ==>
              && t.requests == Delete(s.requests, r)
              && t.shellQueue == s.shellQueue + if r.shell in s.store.shells then {r.shell} else {}
    ensures !Served(s, r) || r in a.unread ==> t.requests == s.requests && t.shellQueue == s.shellQueue
    ensures !Served(s, r) && r in a.names ==>
              t.api.pods == if exists q :: q in s.cache && q.ns == r.shell.ns && s.cache[q].request == r.shell.name
                            then s.api.pods
                            else s.api.pods[PodId(r.shell.ns, a.names[r]) :=
                                              Pod(r.image, "", r.shell.name, true, false, false, s.api.rev + 1)]
    ensures Served(s, r) || r !in a.names ==> t.api == s.api
  {}

  /** The first `i` requests of the snapshot `q` are done. */
  ghost predicate Halfway(s: State, t: State, q: seq<Request>, i: nat, a: Answers)
    requires i <= |q|
  {
    && t.workers == s.workers && t.cache == s.cache && t.store == s.store && t.handler.Waiting?
    && QueueAt(s, t.requests, q, i, a) && t.shellQueue == s.shellQueue + Notified(s, q[..i], a.unread)
    && ApiAt(s, t.api, q, i, a)
  }

  ghost predicate QueueAt(s: State, requests: seq<Request>, q: seq<Request>, i: nat, a: Answers)
    requires i <= |q|
  {
    requests == Remaining(s, q, i, a.unread) && Distinct(requests)
  }

  ghost predicate ApiAt(s: State, api: Api, q: seq<Request>, i: nat, a: Answers)
    requires i <= |q|
  {
    api == AfterCreates(s, q[..i], a.names) && Unused(a.names, q, i, api.used)
  }

  lemma HalfwayIsQueued(s: State, m: State, q: seq<Request>, i: nat, a: Answers)
    requires i < |q| && Halfway(s, m, q, i, a)
    ensures q[i] in m.requests
  {
    RoundGoesOn(s, q, i, a.unread);
  }

  lemma SameServed(s: State, m: State, r: Request)
    requires m.workers == s.workers && m.cache == s.cache
    ensures Served(m, r) == Served(s, r) && Listed(m, r.shell) == Listed(s, r.shell)
  {}

  lemma QueueGoesOn(s: State, requests: seq<Request>, q: seq<Request>, i: nat, a: Answers)
    requires i < |q| && QueueAt(s, requests, q, i, a)
    ensures QueueAt(s, if Served(s, q[i]) && q[i] !in a.unread then Delete(requests, q[i]) else requests, q, i + 1, a)
  {
    RoundGoesOn(s, q, i, a.unread);
  }

  lemma ApiGoesOn(s: State, api: Api, q: seq<Request>, i: nat, a: Answers)
    requires i < |q| && ApiAt(s, api, q, i, a) && Distinct(q) && DrawnApart(a.names)
    ensures var r := q[i];
            ApiAt(s, if r in a.names && !Served(s, r) && !Listed(s, r.shell)
                     then WriteApi(api, PodId(r.shell.ns, a.names[r]), CreatedFor(r)) else api, q, i + 1, a)
  {
    assert q[..i + 1][..i] == q[..i];
    UnusedGoesOn(a.names, q, i, api.used);
  }

  lemma HalfwayGoesOn(s: State, m: State, t: State, q: seq<Request>, i: nat, a: Answers)
    requires i < |q| && Halfway(s, m, q, i, a) && Handled(m, t, q[i], a)
    requires Distinct(q) && DrawnApart(a.names)
    ensures Halfway(s, t, q, i + 1, a)
  {
    SameServed(s, m, q[i]);
    QueueGoesOn(s, m.requests, q, i, a);
    ApiGoesOn(s, m.api, q, i, a);
    NotifiedGoesOn(s, q, i, a);
  }

  lemma NotifiedGoesOn(s: State, q: seq<Request>, i: nat, a: Answers)
    requires i < |q|
    ensures Notified(s, q[..i + 1], a.unread)
         == Notified(s, q[..i], a.unread)
            + if Served(s, q[i]) && q[i] !in a.unread && q[i].shell in s.store.shells then {q[i].shell} else {}
  {
    assert q[..i + 1] == q[..i] + [q[i]];
    NotifiedAppends(s, q[..i], q[i], a.unread);
  }

  lemma HalfwayStarts(s: State, a: Answers)
    requires s.handler.Waiting? && Distinct(s.requests)
    requires forall r :: r in a.names ==> PodId(r.shell.ns, a.names[r]) !in s.api.used
    ensures Halfway(s, s, s.requests, 0, a)
  {
    assert s.requests[..0] == [] && s.requests[0..] == s.requests;
    assert Notified(s, [], a.unread) == {};
  }

  lemma HalfwayEnds(s: State, t: State, q: seq<Request>, a: Answers)
    requires Halfway(s, t, q, |q|, a)
    ensures t.requests == Unserved(s, q, a.unread) && t.api == AfterCreates(s, q, a.names)
    ensures t.shellQueue == s.shellQueue + Notified(s, q, a.unread)
  {
    assert q[..|q|] == q && q[|q|..] == [];
  }

  datatype BorrowResult = Worker(key: Key) | NotWorker | Error

  /** The sync is not in the middle of a call. */
  predicate AtRest(at: Progress) { !at.Missing? && !at.Matched? && !at.Updated? && !HoldsIdle(at) }

  predicate AllRest(syncs: map<ShellId, Progress>) {
    forall y :: y in syncs ==> AtRest(syncs[y])
  }

  predicate OthersRest(syncs: map<ShellId, Progress>, x: ShellId) {
    forall y :: y in syncs && y != x ==> AtRest(syncs[y])
  }

  /** A call, or one of the steps that happen between calls. */
  datatype Call =
    | BorrowFor(x: ShellId, ok: bool)
    | BackFor(x: ShellId, ok: bool)
    | ProcessOf(p: PodId, answer: Answer)
    | HandlerRound(a: Answers)
    | Other(step: Step)

  /** Steps outside of the pool's methods. */
  predicate Between(step: Step) {
    match step
    case Env(_) => true
    case Rec(_) => false
    case Handle(_) => false
    case Sync(_, a) => a.Start? || a.Ensure? || a.Check? || a.End? || a.Label? || a.Unlabel?
  }

  lemma OthersStillRest(syncs: map<ShellId, Progress>, x: ShellId, at: Progress)
    requires OthersRest(syncs, x) && AtRest(at)
    ensures AllRest(syncs - {x}) && AllRest(syncs[x := at])
  {}

  lemma Overwritten(syncs: map<ShellId, Progress>, x: ShellId, at: Progress, to: Progress)
    ensures syncs[x := at] - {x} == syncs - {x} && syncs[x := at][x := to] == syncs[x := to]
  {}

  /** The calls of a sync do not overlap with others when those rest. */
  lemma RestIsApart(strict: bool, s: State, x: ShellId, a: SyncStep)
    requires x in s.syncs && OthersRest(s.syncs, x)
    requires (a.Pick? && s.syncs[x].Wanting?) || (a.Update? && s.syncs[x].Matched?)
    ensures Kept(strict, s, Sync(x, a))
  {}

  class Pool {
    const maxWorkerLimit: nat
    var api: Api
    var cache: map<PodId, Pod>
    var podQueue: set<PodId>
    var workerQueue: seq<Key>
    var requestQueue: seq<Request>
    var shellQueue: set<ShellId>
    var store: Store
    var shellCache: map<ShellId, Shell>
    var syncs: map<ShellId, Progress>
    var copies: map<ShellId, Shell>
    var rec: Reconcile
    var handler: Handler
    var waiting: map<ShellId, Request>

    function Now(): State
      reads this
    {
      State(api, cache, podQueue, workerQueue, requestQueue, shellQueue, store, shellCache, syncs, copies, rec, handler,
            waiting)
    }

    /** Between two calls: no handler iteration, reconcile, Borrow or Back is half done. */
    ghost predicate Valid()
      reads this
    {
      handler.Waiting? && rec.Resting? && AllRest(syncs)
    }

    constructor (maxWorkerLimit: nat)
      ensures Init(Now()) && Valid() && this.maxWorkerLimit == maxWorkerLimit
    {
      this.maxWorkerLimit := maxWorkerLimit;
      api, cache, podQueue, workerQueue, requestQueue := Api(0, map[], {}, {}), map[], {}, [], [];
      shellQueue, store, shellCache, syncs, copies := {}, Store(0, map[], {}), map[], map[], map[];
      rec, handler, waiting := Resting, Waiting, map[];
    }

    /** The oldest queued key for the namespace and image of the request. */
    method MatchWorkerFor(r: Request) returns (k: Option<Key>)
      ensures k == MatchFor(Now(), r)
    {
      k := None;
      var i := 0;
      while i < |workerQueue|
        invariant 0 <= i <= |workerQueue|
        invariant MatchFor(Now(), r) == FirstMatch(workerQueue[i..], r.shell.ns, r.image)
      {
        var item := workerQueue[i];
        if item.pod.ns == r.shell.ns && item.image == r.image { return Some(item); }
        i := i + 1;
      }
    }

    /** Borrow for the sync of shell `x`: the oldest matching worker, bound in the API and taken off the queue; or a
        queued request; or an error that leaves queue and API alone and brings the sync back. */
    method Borrow(x: ShellId, ok: bool, ghost strict: bool) returns (r: BorrowResult)
      requires Valid() && AtSync(Now(), x) && syncs[x].Wanting?
      modifies this`api, this`workerQueue, this`requestQueue, this`shellQueue, this`syncs, this`waiting
      ensures Leads(strict, old(Now()), Now()) && Valid()
      ensures var k := MatchFor(old(Now()), Request(x, copies[x].image));
              && (r.NotWorker? <==> k.None?)
              && (r.Worker? <==> k.Some? && ok && k.value.pod in cache && k.value.pod in old(api).pods
                                 && old(api).pods[k.value.pod].rv == cache[k.value.pod].rv)
              && (r.Worker? ==> r.key == Key(k.value.pod, cache[k.value.pod].image))
      ensures r.NotWorker? ==> requestQueue == Insert(old(requestQueue), Request(x, copies[x].image))
      ensures r.Worker? ==>
                var p, v := r.key.pod, cache[r.key.pod];
                && workerQueue == Delete(old(workerQueue), r.key)
                && api.pods == old(api).pods[p := Pod(v.image, x.name, "", false, v.deleting, v.ready, old(api).rev + 1)]
      ensures syncs == if r.Worker? then old(syncs)[x := Borrowed(r.key)] else old(syncs) - {x}
      ensures shellQueue == old(shellQueue) + if r.Error? then {x} else {}
      ensures !r.NotWorker? ==> requestQueue == old(requestQueue)
      ensures !r.Worker? ==> workerQueue == old(workerQueue) && api == old(api)
    {
      ghost var s := Now();
      LeadsNowhere(strict, s);
      var req := Request(x, copies[x].image);
      var k := MatchWorkerFor(req);
      if k.None? {
        AddRequest(x, req, s, strict);
        return NotWorker;
      }
      PickWorker(x, k.value, s, strict);
      r := BorrowPicked(x, k.value, ok, s.syncs, s, strict);
    }

    /** Borrow once a key is picked: the lister's copy of the worker, or an error when it has none; then the update. */
    method BorrowPicked(x: ShellId, k: Key, ok: bool, ghost were: map<ShellId, Progress>, ghost s: State,
                        ghost strict: bool) returns (r: BorrowResult)
      requires Leads(strict, s, Now()) && AtSync(Now(), x) && syncs == were[x := Picked(k)]
      requires handler.Waiting? && rec.Resting? && OthersRest(were, x)
      modifies this`api, this`workerQueue, this`shellQueue, this`syncs
      ensures Leads(strict, s, Now()) && Valid() && !r.NotWorker?
      ensures r.Worker? <==> ok && k.pod in cache && k.pod in old(api).pods
                             && old(api).pods[k.pod].rv == cache[k.pod].rv
      ensures r.Worker? ==>
                var v := cache[k.pod];
                && r.key == Key(k.pod, v.image) && workerQueue == Delete(old(workerQueue), r.key)
                && api.pods == old(api).pods[k.pod := Pod(v.image, x.name, "", false, v.deleting, v.ready,
                                                          old(api).rev + 1)]
      ensures syncs == if r.Worker? then were[x := Borrowed(r.key)] else were - {x}
      ensures shellQueue == old(shellQueue) + if r.Error? then {x} else {}
      ensures r.Error? ==> workerQueue == old(workerQueue) && api == old(api)
    {
      ghost var was := api;
      OthersStillRest(were, x, Wanting);
      var found := ReadWorker(x, k.pod, were, s, strict);
      if !found { return Error; }
      r := Bind(x, ok, were, s, strict);
      if r.Worker? { BoundPods(was, k.pod, cache[k.pod], x); }
    }

    method PickWorker(x: ShellId, k: Key, ghost s: State, ghost strict: bool)
      requires Leads(strict, s, Now()) && AtSync(Now(), x) && syncs[x].Wanting? && OthersRest(syncs, x)
      requires MatchFor(Now(), RequestOf(Now(), x)) == Some(k)
      modifies this`syncs
      ensures Leads(strict, s, Now()) && syncs == old(syncs)[x := Picked(k)]
    {
      ghost var m := Now();
      syncs := syncs[x := Picked(k)];
      RestIsApart(strict, m, x, Pick);
      Then(strict, s, m, Sync(x, Pick), Now());
    }

    method ReadWorker(x: ShellId, p: PodId, ghost were: map<ShellId, Progress>, ghost s: State, ghost strict: bool)
      returns (found: bool)
      requires Leads(strict, s, Now()) && AtSync(Now(), x) && syncs[x].Picked? && syncs[x].key.pod == p
      requires syncs == were[x := syncs[x]]
      modifies this`syncs, this`shellQueue
      ensures Leads(strict, s, Now())
      ensures found <==> p in cache
      ensures syncs == if found then were[x := Matched(p, cache[p])] else were - {x}
      ensures shellQueue == old(shellQueue) + if found then {} else {x}
    {
      ghost var m := Now();
      found := p in cache;
      Overwritten(were, x, syncs[x], if found then Matched(p, cache[p]) else Wanting);
      if found {
        syncs := syncs[x := Matched(p, cache[p])];
      } else {
        syncs, shellQueue := syncs - {x}, shellQueue + {x};
      }
      Then(strict, s, m, Sync(x, Look), Now());
    }

    /** The request of a shell for which there is no worker. */
    method AddRequest(x: ShellId, req: Request, ghost s: State, ghost strict: bool)
      requires Valid() && Leads(strict, s, Now()) && AtSync(Now(), x) && syncs[x].Wanting?
      requires req == RequestOf(Now(), x) && MatchFor(Now(), req).None?
      modifies this`requestQueue, this`syncs, this`waiting
      ensures Leads(strict, s, Now()) && Valid() && requestQueue == Insert(old(requestQueue), req)
      ensures syncs == old(syncs) - {x}
      ensures waiting == if x in store.shells then old(waiting)[x := req] else old(waiting)
    {
      ghost var m := Now();
      syncs := syncs[x := Missing];
      RestIsApart(strict, m, x, Pick);
      Then(strict, s, m, Sync(x, Pick), Now());
      Ask(x, req, s, strict);
    }

    method Ask(x: ShellId, req: Request, ghost s: State, ghost strict: bool)
      requires Leads(strict, s, Now()) && AtSync(Now(), x) && syncs[x].Missing? && handler.Waiting?
      requires req == RequestOf(Now(), x)
      modifies this`requestQueue, this`syncs, this`waiting
      ensures Leads(strict, s, Now()) && requestQueue == Insert(old(requestQueue), req) && syncs == old(syncs) - {x}
      ensures waiting == if x in store.shells then old(waiting)[x := req] else old(waiting)
    {
      ghost var m := Now();
      requestQueue, syncs := Insert(requestQueue, req), syncs - {x};
      if x in store.shells { waiting := waiting[x := req]; }
      Then(strict, s, m, Sync(x, SyncStep.Ask), Now());
    }

    /** The rest of Borrow: the API update, which is refused when the copy is outdated, and the dequeue. */
    method Bind(x: ShellId, ok: bool, ghost were: map<ShellId, Progress>, ghost s: State, ghost strict: bool)
      returns (r: BorrowResult)
      requires Leads(strict, s, Now()) && AtSync(Now(), x) && syncs[x].Matched? && syncs == were[x := syncs[x]]
      requires handler.Waiting? && rec.Resting? && OthersRest(were, x)
      modifies this`api, this`workerQueue, this`syncs, this`shellQueue
      ensures Leads(strict, s, Now()) && Valid() && !r.NotWorker?
      ensures var p, v := old(syncs)[x].pod, old(syncs)[x].copy;
              && (r.Worker? <==> ok && p in old(api).pods && old(api).pods[p].rv == v.rv)
              && (r.Worker? ==>
                    && r.key == Key(p, v.image) && workerQueue == Delete(old(workerQueue), r.key)
                    && api == WriteApi(old(api), p, BoundTo(v, x)))
      ensures syncs == if r.Worker? then were[x := Borrowed(r.key)] else were - {x}
      ensures shellQueue == old(shellQueue) + if r.Error? then {x} else {}
      ensures r.Error? ==> workerQueue == old(workerQueue) && api == old(api)
    {
      var k := KeyOf(syncs[x].pod, syncs[x].copy);
      OthersStillRest(were, x, Borrowed(k));
      var bound := UpdateWorker(x, ok, were, s, strict);
      if !bound { return Error; }
      TakeOff(x, k, were, s, strict);
      return Worker(k);
    }

    method UpdateWorker(x: ShellId, ok: bool, ghost were: map<ShellId, Progress>, ghost s: State, ghost strict: bool)
      returns (bound: bool)
      requires Leads(strict, s, Now()) && AtSync(Now(), x) && syncs[x].Matched? && OthersRest(were, x)
      requires syncs == were[x := syncs[x]]
      modifies this`api, this`syncs, this`shellQueue
      ensures Leads(strict, s, Now())
      ensures bound <==> ok && Writable(old(api), old(syncs)[x].pod, old(syncs)[x].copy)
      ensures var p, v := old(syncs)[x].pod, old(syncs)[x].copy;
              && api == (if bound then WriteApi(old(api), p, BoundTo(v, x)) else old(api))
              && syncs == (if bound then were[x := Updated(KeyOf(p, v))] else were - {x})
              && shellQueue == old(shellQueue) + if bound then {} else {x}
    {
      ghost var m := Now();
      var p, v := syncs[x].pod, syncs[x].copy;
      bound := ok && Writable(api, p, v);
      Overwritten(were, x, syncs[x], Updated(KeyOf(p, v)));
      RestIsApart(strict, m, x, Update(bound));
      if bound {
        api, syncs := WriteApi(api, p, BoundTo(v, x)), syncs[x := Updated(KeyOf(p, v))];
      } else {
        syncs, shellQueue := syncs - {x}, shellQueue + {x};
      }
      Then(strict, s, m, Sync(x, Update(bound)), Now());
    }

    method TakeOff(x: ShellId, k: Key, ghost were: map<ShellId, Progress>, ghost s: State, ghost strict: bool)
      requires Leads(strict, s, Now()) && AtSync(Now(), x) && syncs == were[x := Updated(k)]
      modifies this`workerQueue, this`syncs
      ensures Leads(strict, s, Now()) && workerQueue == Delete(old(workerQueue), k)
      ensures syncs == were[x := Borrowed(k)]
    {
      ghost var m := Now();
      Overwritten(were, x, Updated(k), Borrowed(k));
      workerQueue, syncs := Delete(workerQueue, k), syncs[x := Borrowed(k)];
      Then(strict, s, m, Sync(x, Dequeue), Now());
    }

    /** Whether some queued request could use a worker of this namespace and image. */
    method MatchRequestFor(ns: string, image: string) returns (found: bool)
      ensures found <==> exists r :: r in requestQueue && r.shell.ns == ns && r.image == image
    {
      found := false;
      var i := 0;
      while i < |requestQueue|
        invariant 0 <= i <= |requestQueue|
        invariant forall j :: 0 <= j < i ==> !(requestQueue[j].shell.ns == ns && requestQueue[j].image == image)
      {
        if requestQueue[i].shell.ns == ns && requestQueue[i].image == image { return true; }
        i := i + 1;
      }
    }

    /** A worker that is given back is deleted when it is unready, or when nobody asks for it and the queue is full. */
    method IsUnneeded(p: PodId) returns (unneeded: bool)
      requires p in cache
      ensures unneeded <==>
              !(cache[p].ready
                && (|workerQueue| < maxWorkerLimit
                    || exists r :: r in requestQueue && r.shell.ns == p.ns && r.image == cache[p].image))
    {
      var newer := cache[p];
      var wanted := MatchRequestFor(p.ns, newer.image);
      unneeded := !newer.ready || (!wanted && |workerQueue| >= maxWorkerLimit);
    }

    /** Back for the sync of shell `x`, whose copy names a worker.  One that is no longer listed is left alone; an
        unready one, or one that nobody asks for while the queue is full, is deleted; any other is set idle and queued,
        unless the API server refuses: because the listed version is outdated, or because it adds no finalizer to a pod
        that is being deleted. */
    method Back(x: ShellId, ok: bool, ghost strict: bool) returns (freed: bool)
      requires Valid() && AtSync(Now(), x) && syncs[x].Bound?
      requires strict ==> Everything(Now()) && LabelIsCurrent(x)
      modifies this`api, this`workerQueue, this`syncs
      ensures Leads(strict, old(Now()), Now()) && Valid()
      ensures var p := PodId(x.ns, copies[x].pod);
              var keep := p in cache && cache[p].ready
                          && (old(|workerQueue|) < maxWorkerLimit
                              || exists r :: r in requestQueue && r.shell.ns == x.ns && r.image == cache[p].image);
              && (freed <==> ok && keep && p in old(api).pods && old(api).pods[p].rv == cache[p].rv
                             && (old(api).pods[p].deleting ==> old(api).pods[p].finalizer))
              && (if freed then
                    var v := old(api).pods[p];
                    && workerQueue == Insert(old(workerQueue), Key(p, cache[p].image))
                    && api.pods == old(api).pods[p := Pod(v.image, "", v.request, true, v.deleting, v.ready,
                                                          old(api).rev + 1)]
                  else
                    workerQueue == old(workerQueue))
              && (ok && p in cache && !keep && p in old(api).pods ==>
                    var v := old(api).pods[p];
                    api.pods == old(api).pods[p := Pod(v.image, v.owner, v.request, v.finalizer, true, v.ready,
                                                       old(api).rev + 1)])
              && (!freed && (!ok || p !in cache || keep || p !in old(api).pods) ==> api == old(api))
      ensures freed && !(exists r :: r in requestQueue && r.shell.ns == x.ns
                                     && r.image == cache[PodId(x.ns, copies[x].pod)].image) ==>
                |workerQueue| <= maxWorkerLimit
    {
      ghost var s := Now();
      LeadsNowhere(strict, s);
      var p := PodId(x.ns, copies[x].pod);
      if p !in cache {
        LetGo(x, false, s, strict);
        return false;
      }
      var unneeded := IsUnneeded(p);
      if unneeded {
        LetGo(x, ok, s, strict);
        return false;
      }
      freed := TryFree(x, ok, strict);
    }

    /** The update that frees the worker, which the API server may refuse. */
    method TryFree(x: ShellId, ok: bool, ghost strict: bool) returns (freed: bool)
      requires Valid() && AtSync(Now(), x) && syncs[x].Bound?
      requires var p := PodId(x.ns, copies[x].pod); p in cache && cache[p].ready
      requires strict ==> Everything(Now()) && LabelIsCurrent(x)
      modifies this`api, this`workerQueue, this`syncs
      ensures Leads(strict, old(Now()), Now()) && Valid()
      ensures var p := PodId(x.ns, copies[x].pod);
              && (freed <==> ok && p in old(api).pods && old(api).pods[p].rv == cache[p].rv
                             && (old(api).pods[p].deleting ==> old(api).pods[p].finalizer))
              && (if freed then
                    var v := old(api).pods[p];
                    && workerQueue == Insert(old(workerQueue), Key(p, cache[p].image))
                    && api.pods == old(api).pods[p := Pod(v.image, "", v.request, true, v.deleting, v.ready,
                                                          old(api).rev + 1)]
                  else
                    workerQueue == old(workerQueue) && api == old(api))
    {
      ghost var s := Now();
      LeadsNowhere(strict, s);
      freed := ok && Freeable(Now(), PodId(x.ns, copies[x].pod));
      if freed { Free(x, strict); } else { LetGo(x, false, s, strict); }
    }

    /** The end of a Back that does not free the worker. */
    method LetGo(x: ShellId, delete: bool, ghost s: State, ghost strict: bool)
      requires Valid() && Leads(strict, s, Now()) && AtSync(Now(), x) && syncs[x].Bound?
      modifies this`api, this`syncs
      ensures Leads(strict, s, Now()) && Valid() && syncs == old(syncs)[x := Detached]
      ensures var p := PodId(x.ns, copies[x].pod);
              if delete && p in old(api).pods then
                var v := old(api).pods[p];
                api.pods == old(api).pods[p := Pod(v.image, v.owner, v.request, v.finalizer, true, v.ready,
                                                   old(api).rev + 1)]
              else
                api == old(api)
    {
      OthersStillRest(syncs, x, Detached);
      Detach(x, delete, s, strict);
    }

    /** Back ends here, after a deletion or without one. */
    method Detach(x: ShellId, delete: bool, ghost s: State, ghost strict: bool)
      requires Leads(strict, s, Now()) && AtSync(Now(), x) && syncs[x].Bound?
      modifies this`api, this`syncs
      ensures Leads(strict, s, Now()) && syncs == old(syncs)[x := Detached]
      ensures var p := PodId(x.ns, copies[x].pod);
              api == if delete && p in old(api).pods
                     then WriteApi(old(api), p, old(api).pods[p].(deleting := true)) else old(api)
    {
      ghost var m := Now();
      var p := PodId(x.ns, copies[x].pod);
      if delete && p in api.pods { api := WriteApi(api, p, api.pods[p].(deleting := true)); }
      syncs := syncs[x := Detached];
      Then(strict, s, m, Sync(x, BackDelete(delete)), Now());
    }

    /** The API update that sets the worker idle, and its return to the queue. */
    method Free(x: ShellId, ghost strict: bool)
      requires Valid() && SyncEnabled(Now(), x, BackUpdate)
      requires strict ==> Everything(Now()) && LabelIsCurrent(x)
      modifies this`api, this`workerQueue, this`syncs
      ensures Leads(strict, old(Now()), Now()) && Valid()
      ensures var p := CopiedPod(old(Now()), x);
              && workerQueue == Insert(old(workerQueue), KeyOf(p, cache[p]))
              && api == WriteApi(old(api), p, old(api).pods[p].(owner := "", finalizer := true))
    {
      ghost var s := Now();
      LeadsNowhere(strict, s);
      if strict { FreedWorkerIsLive(s, x); }
      var k := KeyOf(PodId(x.ns, copies[x].pod), cache[PodId(x.ns, copies[x].pod)]);
      SetIdle(x, k, s, strict);
      PutBack(x, k, s, strict);
    }

    method SetIdle(x: ShellId, k: Key, ghost s: State, ghost strict: bool)
      requires Leads(strict, s, Now()) && SyncEnabled(Now(), x, BackUpdate)
      requires strict ==> x in store.shells && store.shells[x].pod == copies[x].pod
      requires k.pod == CopiedPod(Now(), x) && k == KeyOf(k.pod, cache[k.pod])
      modifies this`api, this`syncs
      ensures Leads(strict, s, Now()) && syncs == old(syncs)[x := Returned(k, false)]
      ensures api == WriteApi(old(api), k.pod, old(api).pods[k.pod].(owner := "", finalizer := true))
    {
      ghost var m := Now();
      api := WriteApi(api, k.pod, api.pods[k.pod].(owner := "", finalizer := true));
      syncs := syncs[x := Returned(k, false)];
      Then(strict, s, m, Sync(x, BackUpdate), Now());
    }

    method PutBack(x: ShellId, k: Key, ghost s: State, ghost strict: bool)
      requires Leads(strict, s, Now()) && AtSync(Now(), x) && syncs[x] == Returned(k, false)
      requires strict ==> k.pod in api.pods && !api.pods[k.pod].deleting
      modifies this`workerQueue, this`syncs
      ensures Leads(strict, s, Now()) && workerQueue == Insert(old(workerQueue), k)
      ensures syncs == old(syncs)[x := Returned(k, true)]
    {
      ghost var m := Now();
      workerQueue, syncs := Insert(workerQueue, k), syncs[x := Returned(k, true)];
      Then(strict, s, m, Sync(x, BackAdd), Now());
    }

    /** One round of the pool's own work queue: take a pod key, read the pod from the lister and reconcile it. */
    method ProcessNext(p: PodId, answer: Answer, ghost strict: bool)
      requires Valid() && p in podQueue
      requires strict ==> QueuesIdle(p)
      modifies this`api, this`workerQueue, this`rec, this`podQueue
      ensures Leads(strict, old(Now()), Now()) && Valid()
      ensures p in cache ==>
        workerQueue == if cache[p].ready && !cache[p].deleting then Insert(old(workerQueue), KeyOf(p, cache[p]))
                       else Delete(old(workerQueue), KeyOf(p, cache[p]))
      ensures p !in cache ==> workerQueue == old(workerQueue)
      ensures api == if p in cache && cache[p].deleting && answer == Done then WithoutFinalizer(old(api), p)
                     else old(api)
      ensures podQueue == old(podQueue) - if p in cache && cache[p].deleting && answer == Refused then {} else {p}
    {
      ghost var s := Now();
      LeadsNowhere(strict, s);
      FetchPod(p, s, strict);
      if p in cache { ReconcileCopy(answer, s, strict); }
    }

    /** The pod that was read is reconciled. */
    method ReconcileCopy(answer: Answer, ghost s: State, ghost strict: bool)
      requires Leads(strict, s, Now()) && rec.Read? && (strict ==> ReconcileAddsIdle(Now(), Rec(Act)))
      modifies this`api, this`workerQueue, this`rec, this`podQueue
      ensures Leads(strict, s, Now()) && rec.Resting?
      ensures var p, v := old(rec).pod, old(rec).copy;
              && workerQueue == (if v.ready && !v.deleting then Insert(old(workerQueue), KeyOf(p, v))
                                 else Delete(old(workerQueue), KeyOf(p, v)))
              && api == (if v.deleting && answer == Done then WithoutFinalizer(old(api), p) else old(api))
              && podQueue == old(podQueue) + if v.deleting && answer == Refused then {p} else {}
    {
      var deleted := Reconcile(s, strict);
      if deleted { DropFinalizer(answer, s, strict); }
    }

    method FetchPod(p: PodId, ghost s: State, ghost strict: bool)
      requires Leads(strict, s, Now()) && rec.Resting? && p in podQueue
      modifies this`rec, this`podQueue
      ensures Leads(strict, s, Now()) && podQueue == old(podQueue) - {p}
      ensures rec == if p in cache then Read(p, cache[p]) else Resting
    {
      ghost var m := Now();
      podQueue, rec := podQueue - {p}, Taken(p);
      Then(strict, s, m, Rec(RecStep.Take(p)), Now());
      m := Now();
      rec := if p in cache then Read(p, cache[p]) else Resting;
      Then(strict, s, m, Rec(Fetch), Now());
    }

    /** The worker queue follows the copy that reconcile read. */
    method Reconcile(ghost s: State, ghost strict: bool) returns (deleted: bool)
      requires Leads(strict, s, Now()) && rec.Read?
      requires strict ==> ReconcileAddsIdle(Now(), Rec(Act))
      modifies this`workerQueue, this`rec
      ensures Leads(strict, s, Now())
      ensures deleted == old(rec).copy.deleting
      ensures rec == if deleted then Finalizing(old(rec).pod, old(rec).copy) else Resting
      ensures var p, v := old(rec).pod, old(rec).copy;
              workerQueue == if v.ready && !v.deleting then Insert(old(workerQueue), KeyOf(p, v))
                             else Delete(old(workerQueue), KeyOf(p, v))
    {
      ghost var m := Now();
      var p, pod := rec.pod, rec.copy;
      var k := KeyOf(p, pod);
      deleted := pod.deleting;
      if deleted {
        workerQueue, rec := Delete(workerQueue, k), Finalizing(p, pod);
      } else if !pod.ready {
        workerQueue, rec := Delete(workerQueue, k), Resting;
      } else {
        workerQueue, rec := Insert(workerQueue, k), Resting;
      }
      Then(strict, s, m, Rec(Act), Now());
    }

    /** The end of reconcile for a deleted pod. */
    method DropFinalizer(answer: Answer, ghost s: State, ghost strict: bool)
      requires Leads(strict, s, Now()) && rec.Finalizing?
      modifies this`api, this`rec, this`podQueue
      ensures Leads(strict, s, Now()) && rec.Resting?
      ensures api == if answer == Done then WithoutFinalizer(old(api), old(rec).pod) else old(api)
      ensures podQueue == old(podQueue) + if answer == Refused then {old(rec).pod} else {}
    {
      ghost var m := Now();
      var p := rec.pod;
      match answer {
        case Done => api := WithoutFinalizer(api, p);
        case Refused => podQueue := podQueue + {p};
        case Unread =>
      }
      rec := Resting;
      Then(strict, s, m, Rec(Finalize(answer)), Now());
    }

    /** A new worker for a request that nothing serves, if the create succeeds. */
    method CreateWorker(r: Request, name: Option<string>, ghost s: State, ghost strict: bool)
      requires Leads(strict, s, Now()) && handler == Creating(r)
      requires name.Some? ==> name.value != "" && PodId(r.shell.ns, name.value) !in api.used
      modifies this`api, this`handler
      ensures Leads(strict, s, Now()) && handler.Waiting?
      ensures api == if name.Some? then WriteApi(old(api), PodId(r.shell.ns, name.value), CreatedFor(r)) else old(api)
      ensures name.Some? ==> api.pods == old(api).pods[PodId(r.shell.ns, name.value) :=
                                           Pod(r.image, "", r.shell.name, true, false, false, old(api).rev + 1)]
    {
      ghost var m := Now();
      handler := Waiting;
      if name.None? {
        Then(strict, s, m, Handle(Skip), Now());
        return;
      }
      var p := PodId(r.shell.ns, name.value);
      api := WriteApi(api, p, CreatedFor(r));
      Then(strict, s, m, Handle(Create(p)), Now());
    }

    /** A request that can be served: its shell is queued for a sync and the request removed; if the shell is gone the
        request is removed alone; if the shell could not be read, nothing happens. */
    method HandOver(r: Request, read: bool, ghost s: State, ghost strict: bool)
      requires Leads(strict, s, Now()) && handler == Found(r)
      modifies this`requestQueue, this`shellQueue, this`handler
      ensures Leads(strict, s, Now()) && handler.Waiting?
      ensures requestQueue == if read then Delete(old(requestQueue), r) else old(requestQueue)
      ensures shellQueue == old(shellQueue) + if read && r.shell in store.shells then {r.shell} else {}
    {
      ghost var m := Now();
      if !read {
        handler := Waiting;
        Then(strict, s, m, Handle(Skip), Now());
        return;
      }
      if r.shell in store.shells {
        Announce(r, s, strict);
      } else {
        handler := Dropping(r);
        Then(strict, s, m, Handle(Gone), Now());
      }
      m := Now();
      requestQueue, handler := Delete(requestQueue, r), Waiting;
      Then(strict, s, m, Handle(Drop), Now());
    }

    method Announce(r: Request, ghost s: State, ghost strict: bool)
      requires Leads(strict, s, Now()) && handler == Found(r) && r.shell in store.shells
      modifies this`shellQueue, this`handler
      ensures Leads(strict, s, Now()) && handler == Dropping(r) && shellQueue == old(shellQueue) + {r.shell}
    {
      ghost var m := Now();
      handler := Known(r);
      Then(strict, s, m, Handle(Exists), Now());
      m := Now();
      shellQueue, handler := shellQueue + {r.shell}, Dropping(r);
      Then(strict, s, m, Handle(Notify), Now());
    }

    /** The search for a worker, in the queue and in the lister. */
    method FindWorker(r: Request, ghost s: State, ghost strict: bool) returns (found: bool)
      requires Leads(strict, s, Now()) && handler.Waiting? && r in requestQueue
      modifies this`handler
      ensures Leads(strict, s, Now()) && found == Served(old(Now()), r)
      ensures handler == if found then Found(r) else Lacking(r)
    {
      ghost var m := Now();
      var k := MatchWorkerFor(r);
      handler := Scanned(r, k);
      Then(strict, s, m, Handle(Scan(r)), Now());
      m := Now();
      found := k.Some? && k.value.pod in cache;
      handler := if found then Found(r) else Lacking(r);
      Then(strict, s, m, Handle(LookUp), Now());
    }

    /** Whether the lister shows a worker that was made for the shell. */
    method ListWorkers(r: Request, ghost s: State, ghost strict: bool) returns (listed: bool)
      requires Leads(strict, s, Now()) && handler == Lacking(r)
      modifies this`handler
      ensures Leads(strict, s, Now()) && listed == Listed(old(Now()), r.shell)
      ensures listed <==> exists q :: q in cache && q.ns == r.shell.ns && cache[q].request == r.shell.name
      ensures handler == if listed then Waiting else Creating(r)
    {
      ghost var m := Now();
      listed := exists q :: q in cache && q.ns == r.shell.ns && cache[q].request == r.shell.name;
      handler := if listed then Waiting else Creating(r);
      Then(strict, s, m, Handle(List), Now());
    }

    /** A request that nothing serves gets a worker of its own when none is listed. */
    method Provide(r: Request, name: Option<string>, ghost s: State, ghost strict: bool)
      requires Leads(strict, s, Now()) && handler == Lacking(r)
      requires name.Some? ==> name.value != "" && PodId(r.shell.ns, name.value) !in api.used
      modifies this`api, this`handler
      ensures Leads(strict, s, Now()) && handler.Waiting?
      ensures api == if name.Some? && !Listed(old(Now()), r.shell)
                     then WriteApi(old(api), PodId(r.shell.ns, name.value), CreatedFor(r)) else old(api)
    {
      var listed := ListWorkers(r, s, strict);
      if !listed { CreateWorker(r, name, s, strict); }
    }

    /** One iteration of the request handler. */
    method HandleOne(r: Request, a: Answers, ghost s: State, ghost strict: bool)
      requires Leads(strict, s, Now()) && handler.Waiting? && r in requestQueue
      requires r in a.names ==> a.names[r] != "" && PodId(r.shell.ns, a.names[r]) !in api.used
      modifies this`api, this`requestQueue, this`shellQueue, this`handler
      ensures Leads(strict, s, Now()) && Handled(old(Now()), Now(), r, a)
      ensures Served(old(Now()), r) && r !in a.unread ==>
                && requestQueue == Delete(old(requestQueue), r)
                && shellQueue == old(shellQueue) + if r.shell in store.shells then {r.shell} else {}
      ensures !Served(old(Now()), r) || r in a.unread ==>
                requestQueue == old(requestQueue) && shellQueue == old(shellQueue)
      ensures !Served(old(Now()), r) && r in a.names ==>
                api.pods == if exists q :: q in cache && q.ns == r.shell.ns && cache[q].request == r.shell.name
                            then old(api).pods
                            else old(api).pods[PodId(r.shell.ns, a.names[r]) :=
                                                 Pod(r.image, "", r.shell.name, true, false, false, old(api).rev + 1)]
      ensures Served(old(Now()), r) || r !in a.names ==> api == old(api)
    {
      ghost var m := Now();
      Attend(r, a, s, strict);
      HandledMeans(m, Now(), r, a);
    }

    /** The iteration as it goes on from what the search finds. */
    method Attend(r: Request, a: Answers, ghost s: State, ghost strict: bool)
      requires Leads(strict, s, Now()) && handler.Waiting? && r in requestQueue
      requires r in a.names ==> a.names[r] != "" && PodId(r.shell.ns, a.names[r]) !in api.used
      modifies this`api, this`requestQueue, this`shellQueue, this`handler
      ensures Leads(strict, s, Now()) && Handled(old(Now()), Now(), r, a)
    {
      ghost var m := Now();
      var found := FindWorker(r, s, strict);
      SameServed(m, Now(), r);
      if found {
        HandOver(r, r !in a.unread, s, strict);
      } else {
        Provide(r, if r in a.names then Some(a.names[r]) else None, s, strict);
      }
    }

    /** A round of the request handler over a snapshot of the queue. */
    method HandleRequestQueue(a: Answers, ghost strict: bool)
      requires Valid() && Distinct(requestQueue) && DrawnApart(a.names)
      requires forall r :: r in a.names ==> a.names[r] != "" && PodId(r.shell.ns, a.names[r]) !in api.used
      modifies this`api, this`requestQueue, this`shellQueue, this`handler
      ensures Leads(strict, old(Now()), Now()) && Valid()
      ensures requestQueue == Unserved(old(Now()), old(requestQueue), a.unread)
      ensures shellQueue == old(shellQueue) + Notified(old(Now()), old(requestQueue), a.unread)
      ensures api == AfterCreates(old(Now()), old(requestQueue), a.names)
      ensures forall r :: r in requestQueue <==>
                r in old(requestQueue) && (Served(old(Now()), r) ==> r in a.unread)
      ensures forall p :: p in api.pods <==>
                || p in old(api).pods
                || exists r :: r in old(requestQueue) && r in a.names && p == PodId(r.shell.ns, a.names[r])
                               && !Served(old(Now()), r)
                               && forall q :: q in cache && q.ns == r.shell.ns ==> cache[q].request != r.shell.name
    {
      ghost var s := Now();
      LeadsNowhere(strict, s);
      HalfwayStarts(s, a);
      var snapshot := requestQueue;
      HandleAll(snapshot, a, s, strict);
      HalfwayEnds(s, Now(), snapshot, a);
      forall r ensures r in requestQueue <==> r in snapshot && (Served(s, r) ==> r in a.unread) {
        UnservedKeeps(s, snapshot, a.unread, r);
      }
      forall p { RoundCreates(s, snapshot, a.names, p); }
    }

    /** The loop of the round. */
    method HandleAll(snapshot: seq<Request>, a: Answers, ghost s: State, ghost strict: bool)
      requires Leads(strict, s, Now()) && Halfway(s, Now(), snapshot, 0, a)
      requires Distinct(snapshot) && DrawnApart(a.names) && forall r :: r in a.names ==> a.names[r] != ""
      modifies this`api, this`requestQueue, this`shellQueue, this`handler
      ensures Leads(strict, s, Now()) && Halfway(s, Now(), snapshot, |snapshot|, a)
    {
      var i := 0;
      while i < |snapshot|
        invariant 0 <= i <= |snapshot| && Leads(strict, s, Now())
        invariant Halfway(s, Now(), snapshot, i, a)
      {
        ghost var m := Now();
        HalfwayIsQueued(s, m, snapshot, i, a);
        HandleOne(snapshot[i], a, s, strict);
        HalfwayGoesOn(s, m, Now(), snapshot, i, a);
        i := i + 1;
      }
    }

    // ----- sequences of calls -----

    /** A step that happens between calls. */
    method Take(step: Step, ghost strict: bool)
      requires Valid() && Between(step) && Enabled(Now(), step) && (strict ==> Sound(Now(), step))
      modifies this
      ensures Now() == Do(old(Now()), step) && Leads(strict, old(Now()), Now()) && Valid()
    {
      TakenLeads(strict, Now(), step);
      BetweenKeepsRest(Now(), step);
      Become(Do(Now(), step));
    }

    method Become(t: State)
      modifies this
      ensures Now() == t
    {
      api, cache, store, shellCache := t.api, t.cache, t.store, t.shellCache;
      SetQueues(t);
      syncs, copies, rec, handler := t.syncs, t.copies, t.rec, t.handler;
    }

    method SetQueues(t: State)
      modifies this`podQueue, this`workerQueue, this`requestQueue, this`shellQueue, this`waiting
      ensures podQueue == t.podQueue && workerQueue == t.workers && requestQueue == t.requests
      ensures shellQueue == t.shellQueue && waiting == t.waiting
    {
      podQueue, workerQueue, requestQueue := t.podQueue, t.workers, t.requests;
      shellQueue, waiting := t.shellQueue, t.waiting;
    }

    /** One call, left out when nothing calls for it; with `strict`, also when it would break the discipline. */
    method Perform(call: Call, strict: bool)
      requires Valid() && Distinct(requestQueue) && (strict ==> Everything(Now()))
      modifies this
      ensures Leads(strict, old(Now()), Now()) && Valid()
    {
      LeadsNowhere(strict, Now());
      match call
      case BorrowFor(x, ok) =>
        if x in syncs && x in copies && syncs[x].Wanting? { var _ := Borrow(x, ok, strict); }
      case BackFor(x, ok) =>
        if x in syncs && x in copies && syncs[x].Bound? && (!strict || LabelIsCurrent(x)) {
          var _ := Back(x, ok, strict);
        }
      case ProcessOf(p, answer) =>
        if p in podQueue && (!strict || QueuesIdle(p)) { ProcessNext(p, answer, strict); }
      case HandlerRound(a) =>
        if DrawnApart(a.names)
           && forall r :: r in a.names ==> a.names[r] != "" && PodId(r.shell.ns, a.names[r]) !in api.used
        {
          HandleRequestQueue(a, strict);
        }
      case Other(step) =>
        if Between(step) && Enabled(Now(), step) && (!strict || Sound(Now(), step)) { Take(step, strict); }
    }

    /** Any sequence of calls is a run of protocol steps that interrupts no call. */
    method PerformAll(calls: seq<Call>, strict: bool)
      requires Valid() && Base(Now()) && (strict ==> Everything(Now()))
      modifies this
      ensures Leads(strict, old(Now()), Now()) && Valid()
      ensures Base(Now()) && (strict ==> Everything(Now()))
    {
      ghost var s := Now();
      LeadsNowhere(strict, s);
      var i := 0;
      while i < |calls|
        invariant 0 <= i <= |calls| && Leads(strict, s, Now()) && Valid()
        invariant Base(Now()) && (strict ==> Everything(Now()))
      {
        ghost var m := Now();
        Perform(calls[i], strict);
        LeadsKeepsBase(strict, m, Now());
        if strict { StrictKeepsEverything(m, Now()); }
        LeadsOn(strict, s, m, Now());
        i := i + 1;
      }
    }

    predicate LabelIsCurrent(x: ShellId)
      requires x in copies
      reads this
    {
      copies[x].pod != "" && x in store.shells && store.shells[x].pod == copies[x].pod
    }

    predicate QueuesIdle(p: PodId)
      reads this
    {
      p in cache && cache[p].ready && !cache[p].deleting ==> p in api.pods && api.pods[p].owner == ""
    }
  }

  lemma SoundIsKept(strict: bool, s: State, step: Step)
    requires Between(step) && (strict ==> Sound(s, step))
    ensures Kept(strict, s, step)
  {}

  lemma TakenLeads(strict: bool, s: State, step: Step)
    requires Between(step) && Enabled(s, step) && (strict ==> Sound(s, step))
    ensures Leads(strict, s, Do(s, step))
  {
    SoundIsKept(strict, s, step);
    KeptIsUninterrupted(strict, s, step);
    assert [step][1..] == [];
    assert RunUnder(Under(strict), s, [step], Do(s, step));
  }

  /** A step that happens between calls leaves no call half done. */
  lemma BetweenKeepsRest(s: State, step: Step)
    requires Between(step) && Enabled(s, step) && s.handler.Waiting? && s.rec.Resting?
    requires AllRest(s.syncs)
    ensures var t := Do(s, step);
            t.handler.Waiting? && t.rec.Resting? && AllRest(t.syncs)
  {
    match step
    case Env(e) => EnvFrame(s, e);
    case Sync(x, a) => SyncFrame(s, x, a); SyncProgress(s, x, a);
  }
}
