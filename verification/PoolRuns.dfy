/** The pool protocol over whole runs from the empty cluster. */
module PoolRuns {
  import opened OrderedSet
  import opened PoolProtocol
  import opened PoolInvariants
  import opened PoolBinding
  import opened PoolQueue

  // ----- with no hypothesis -----

  lemma {:induction false} RunKeepsBase(s: State, steps: seq<Step>, t: State)
    requires Run(s, steps, t) && Base(s)
    ensures Base(t)
    decreases |steps|
  {
    if steps != [] {
      BaseKept(s, steps[0]);
      RunKeepsBase(Do(s, steps[0]), steps[1..], t);
    }
  }

  /** In every reachable state the owner label of a worker is empty exactly when it carries the pool
      finalizer; only an idle worker that is already being deleted may have lost the finalizer. */
  lemma OwnerEmptyIffFinalizer(s: State, steps: seq<Step>, t: State, p: PodId)
    requires Init(s) && Run(s, steps, t) && p in t.api.pods
    ensures t.api.pods[p].finalizer ==> t.api.pods[p].owner == ""
    ensures !t.api.pods[p].deleting ==> (t.api.pods[p].owner == "" <==> t.api.pods[p].finalizer)
  {
    RunKeepsBase(s, steps, t);
    Current(t.api, p);
  }

  predicate Covered(v: Pod) { v.owner == "" <==> v.finalizer }

  /** Exactly one step uncovers a worker: reconcile dropping the pool finalizer of one that is being deleted and was
      not borrowed since. */
  lemma OnlyReconcileUncovers(s: State, steps: seq<Step>, t: State, step: Step, p: PodId)
    requires Init(s) && Run(s, steps, t) && Enabled(t, step)
    requires p in t.api.pods && Covered(t.api.pods[p]) && p in Do(t, step).api.pods
    ensures !Covered(Do(t, step).api.pods[p])
            <==> step == Rec(Finalize(Done)) && t.rec.pod == p && t.api.pods[p].owner == ""
  {
    RunKeepsBase(s, steps, t);
    match step {
      case Env(e) => EnvUncoversNothing(t, e, p);
      case Rec(r) => RecUncovers(t, r, p);
      case Handle(h) => HandleUncoversNothing(t, h, p);
      case Sync(x, a) => SyncUncoversNothing(t, x, a, p);
    }
  }

  lemma EnvUncoversNothing(t: State, e: EnvStep, p: PodId)
    requires EnvEnabled(t, e) && p in t.api.pods && Covered(t.api.pods[p])
    ensures p in DoEnv(t, e).api.pods ==> Covered(DoEnv(t, e).api.pods[p])
  {
    EnvApi(t, e);
  }

  lemma HandleUncoversNothing(t: State, h: HandleStep, p: PodId)
    requires Base(t) && HandleEnabled(t, h) && p in t.api.pods && Covered(t.api.pods[p])
    ensures p in DoHandle(t, h).api.pods && Covered(DoHandle(t, h).api.pods[p])
  {
    Current(t.api, p);
    HandleApi(t, h);
  }

  lemma RecUncovers(t: State, r: RecStep, p: PodId)
    requires RecEnabled(t, r) && p in t.api.pods && Covered(t.api.pods[p])
    ensures p in DoRec(t, r).api.pods
    ensures Covered(DoRec(t, r).api.pods[p]) <==> !(r == Finalize(Done) && t.rec.pod == p && t.api.pods[p].owner == "")
  {
    RecApi(t, r);
  }

  lemma SyncUncoversNothing(t: State, x: ShellId, a: SyncStep, p: PodId)
    requires Named(t.store, t.shellCache, t.syncs) && SyncEnabled(t, x, a) && p in t.api.pods && Covered(t.api.pods[p])
    ensures p in DoSync(t, x, a).api.pods && Covered(DoSync(t, x, a).api.pods[p])
  {
    SyncApi(t, x, a);
  }

  // ----- no shared worker -----

  predicate BorrowsSafely(s: State, step: Step) {
    SafeMatch(s, step) && Completes(s, step) && BacksCurrent(s, step)
  }

  lemma {:induction false} RunKeepsBinding(s: State, steps: seq<Step>, t: State)
    requires RunUnder(BorrowsSafely, s, steps, t) && Base(s) && Binding(s)
    ensures Base(t) && Binding(t)
    decreases |steps|
  {
    if steps != [] {
      BaseKept(s, steps[0]);
      BindingKept(s, steps[0]);
      RunKeepsBinding(Do(s, steps[0]), steps[1..], t);
    }
  }

  /** Shells `x` and `y` do not both hold the live pod that their labels name: one of them is just giving it back. */
  predicate Unshared(s: State, x: ShellId, y: ShellId) {
    Labelled(s, x) && Labelled(s, y) && LabelledPod(s, x) == LabelledPod(s, y) && LabelledPod(s, x) in s.api.pods ==>
      Returning(s.syncs, x, LabelledPod(s, x)) || Returning(s.syncs, y, LabelledPod(s, x))
  }

  /** When every Borrow reads an idle or outdated copy, every Back acts on a current label and every sync that returned
      its worker clears the pod label, no two shells share a worker. */
  lemma NoSharedWorker(s: State, steps: seq<Step>, t: State, x: ShellId, y: ShellId)
    requires Init(s) && RunUnder(BorrowsSafely, s, steps, t) && x != y
    ensures Unshared(t, x, y)
  {
    RunKeepsBinding(s, steps, t);
    if !Unshared(t, x, y) {
      BindingIsExclusive(t, x, y);
      assert false;
    }
  }

  // ----- the worker queue -----

  ghost predicate Everything(s: State) {
    Base(s) && Binding(s) && Queue(s) && Stripped(s.api, s.cache, s.rec)
  }

  lemma InitHasEverything(s: State)
    requires Init(s)
    ensures Everything(s) && AtMostOne(s.syncs)
  {}

  lemma EverythingKept(s: State, step: Step)
    requires Everything(s) && Enabled(s, step) && Disciplined(s, step)
    ensures Everything(Do(s, step))
  {
    PickedCopyIsSafe(s, step);
    BaseKept(s, step);
    BindingKept(s, step);
    QueueKept(s, step);
    StrippedKept(s, step);
  }

  lemma {:induction false} DisciplinedRunKeepsEverything(s: State, steps: seq<Step>, t: State)
    requires RunUnder(Disciplined, s, steps, t) && Everything(s)
    ensures Everything(t)
    decreases |steps|
  {
    if steps != [] {
      EverythingKept(s, steps[0]);
      DisciplinedRunKeepsEverything(Do(s, steps[0]), steps[1..], t);
    }
  }

  /** A queued key names an existing pod of its image that is idle and carries the pool finalizer, or one that a Borrow
      has just bound and is about to dequeue. */
  ghost predicate NamesIdle(s: State, k: Key) {
    k in s.workers && !Leaving(s.syncs, k) ==>
      && k.pod in s.api.pods && s.api.pods[k.pod].image == k.image
      && s.api.pods[k.pod].owner == "" && s.api.pods[k.pod].finalizer
  }

  /** A pod that may go away is not queued, or the Borrow that bound it is about to dequeue its key. */
  ghost predicate VanishesUnqueued(s: State, p: PodId) {
    EnvEnabled(s, Vanish(p)) ==> forall k :: k in s.workers && k.pod == p ==> Leaving(s.syncs, k)
  }

  lemma EverythingMeans(t: State, k: Key, p: PodId)
    requires Everything(t)
    ensures NamesIdle(t, k) && VanishesUnqueued(t, p)
  {
    if k in t.workers && !Leaving(t.syncs, k) {
      assert KeyOk(t.api, t.syncs, k);
      Current(t.api, k.pod);
    }
    forall k | k in t.workers && k.pod == p && EnvEnabled(t, Vanish(p)) ensures Leaving(t.syncs, k) {
      assert KeyOk(t.api, t.syncs, k);
    }
  }

  lemma QueueNamesIdlePods(s: State, steps: seq<Step>, t: State, k: Key)
    requires Init(s) && RunUnder(Disciplined, s, steps, t)
    ensures NamesIdle(t, k)
  {
    InitHasEverything(s);
    DisciplinedRunKeepsEverything(s, steps, t);
    EverythingMeans(t, k, k.pod);
  }

  lemma PodsVanishUnqueued(s: State, steps: seq<Step>, t: State, p: PodId)
    requires Init(s) && RunUnder(Disciplined, s, steps, t)
    ensures VanishesUnqueued(t, p)
  {
    InitHasEverything(s);
    DisciplinedRunKeepsEverything(s, steps, t);
    EverythingMeans(t, Key(p, ""), p);
  }

  /** The discipline implies that no worker is shared. */
  lemma DisciplinedRunSharesNoWorker(s: State, steps: seq<Step>, t: State, x: ShellId, y: ShellId)
    requires Init(s) && RunUnder(Disciplined, s, steps, t) && x != y
    ensures Unshared(t, x, y)
  {
    InitHasEverything(s);
    DisciplinedRunKeepsEverything(s, steps, t);
    if !Unshared(t, x, y) {
      BindingIsExclusive(t, x, y);
      assert false;
    }
  }

  // ----- the controller as it is started, with one worker -----

  /** What is left of the discipline when syncs run one after the other. */
  predicate SingleFile(s: State, step: Step) {
    && OneSync(s, step)
    && ReconcileAddsIdle(s, step) && BackAddsLive(s, step) && Completes(s, step) && BacksCurrent(s, step)
  }

  lemma {:induction false} SingleFileIsDisciplined(s: State, steps: seq<Step>, t: State)
    requires RunUnder(SingleFile, s, steps, t) && AtMostOne(s.syncs)
    ensures RunUnder(Disciplined, s, steps, t) && AtMostOne(t.syncs)
    decreases |steps|
  {
    if steps != [] {
      OneSyncIsApart(s, steps[0]);
      OneSyncKept(s, steps[0]);
      SingleFileIsDisciplined(Do(s, steps[0]), steps[1..], t);
    }
  }

  /** With one sync at a time, every queued key names an idle worker, no pod goes away under its key and no two shells
      share a worker, in every run in which reconcile queues only idle pods, no returned worker is deleted before it is
      queued, and syncs act on current labels and complete their label writes. */
  lemma OneSyncIsSafe(s: State, steps: seq<Step>, t: State, k: Key, p: PodId, x: ShellId, y: ShellId)
    requires Init(s) && RunUnder(SingleFile, s, steps, t) && x != y
    ensures NamesIdle(t, k) && VanishesUnqueued(t, p) && Unshared(t, x, y)
  {
    InitHasEverything(s);
    SingleFileIsDisciplined(s, steps, t);
    QueueNamesIdlePods(s, steps, t, k);
    PodsVanishUnqueued(s, steps, t, p);
    DisciplinedRunSharesNoWorker(s, steps, t, x, y);
  }

  // ----- waiting shells -----

  /** The handler does not drop a request after its shell has asked again: one iteration of the handler is not
      interrupted by a Borrow with the same request. */
  predicate AsksBetweenIterations(s: State, step: Step) {
    step.Sync? && step.a.Ask? && Enabled(s, step) ==> s.handler != Dropping(RequestOf(s, step.x))
  }

  predicate StillWaits(s: State, x: ShellId) {
    x in s.waiting ==>
      && x in s.store.shells && s.waiting[x].shell == x
      && (x in s.shellQueue || (s.waiting[x] in s.requests && s.handler != Dropping(s.waiting[x])))
  }

  lemma EnvKeepsWaiting(s: State, e: EnvStep, x: ShellId)
    requires EnvEnabled(s, e) && StillWaits(s, x)
    ensures StillWaits(DoEnv(s, e), x)
  {
    EnvFrame(s, e);
    match e
    case NewShell(_, _) =>
    case EditShell(_, _) =>
    case DropShell(_) =>
    case _ =>
  }

  lemma HandleKeepsWaiting(s: State, h: HandleStep, x: ShellId)
    requires HandleEnabled(s, h) && Distinct(s.requests) && StillWaits(s, x)
    ensures StillWaits(DoHandle(s, h), x)
  {
    HandleFrame(s, h);
    match h
    case Scan(_) =>
    case Drop => DeleteKeepsDistinct(s.requests, s.handler.request);
    case _ =>
  }

  /** What the sync of `y` does to the request of `x`. */
  lemma SyncWaiting(s: State, y: ShellId, a: SyncStep)
    requires SyncEnabled(s, y, a) && !a.Start? && !a.Ask?
    ensures DoSync(s, y, a).waiting == s.waiting && s.shellQueue <= DoSync(s, y, a).shellQueue
  {
    match a
    case Ensure(_) =>
    case _ =>
  }

  lemma SyncKeepsWaiting(s: State, y: ShellId, a: SyncStep, x: ShellId)
    requires SyncEnabled(s, y, a) && Distinct(s.requests) && StillWaits(s, x)
    requires AsksBetweenIterations(s, Sync(y, a))
    ensures StillWaits(DoSync(s, y, a), x)
  {
    SyncFrame(s, y, a);
    SyncStoreFrame(s, y, a);
    SyncQueues(s, y, a);
    match a
    case Start =>
    case Ask => InsertKeepsDistinct(s.requests, RequestOf(s, y));
    case _ => SyncWaiting(s, y, a);
  }

  lemma {:induction false} RunKeepsWaiting(s: State, steps: seq<Step>, t: State, x: ShellId)
    requires RunUnder(AsksBetweenIterations, s, steps, t) && Base(s) && StillWaits(s, x)
    ensures StillWaits(t, x)
    decreases |steps|
  {
    if steps != [] {
      BaseKept(s, steps[0]);
      match steps[0] {
        case Env(e) => EnvKeepsWaiting(s, e, x);
        case Rec(r) => RecFrame(s, r);
        case Handle(h) => HandleKeepsWaiting(s, h, x);
        case Sync(y, a) => SyncKeepsWaiting(s, y, a, x);
      }
      RunKeepsWaiting(Do(s, steps[0]), steps[1..], t, x);
    }
  }

  /** No waiting shell is lost: until its next sync, an existing shell whose last sync found no worker has its request
      in the request queue or its key in the controller queue. */
  lemma NoWaiterLost(s: State, steps: seq<Step>, t: State, x: ShellId)
    requires Init(s) && RunUnder(AsksBetweenIterations, s, steps, t) && x in t.waiting
    ensures x in t.store.shells && t.waiting[x].shell == x && (t.waiting[x] in t.requests || x in t.shellQueue)
  {
    RunKeepsWaiting(s, steps, t, x);
  }

  // ----- workers created on request -----

  predicate MadeFor(pods: map<PodId, Pod>, q: PodId, x: ShellId) {
    q in pods && q.ns == x.ns && pods[q].request == x.name
  }

  /** When the handler looks for the workers that were made for a shell, the lister shows them. */
  predicate ListerShowsCreates(s: State, step: Step) {
    step.Handle? && step.h.List? && Enabled(s, step) ==>
      forall q :: q in s.api.pods && MadeFor(s.api.pods, q, s.handler.request.shell) ==> q in s.cache
  }

  /** At most one pod of a namespace carries a given request label. */
  ghost predicate OneEach(pods: map<PodId, Pod>) {
    forall p, q | p in pods && q in pods && p.ns == q.ns && pods[p].request == pods[q].request
      :: pods[p].request == "" || p == q
  }

  ghost predicate NoneFor(pods: map<PodId, Pod>, x: ShellId) {
    x.name != "" ==> forall q :: !MadeFor(pods, q, x)
  }

  /** The handler creates a worker only for a shell that has none. */
  ghost predicate CreatesFirst(pods: map<PodId, Pod>, handler: Handler) {
    handler.Creating? ==> NoneFor(pods, handler.request.shell)
  }

  ghost predicate OneWorkerPerRequest(s: State) {
    OneEach(s.api.pods) && CreatesFirst(s.api.pods, s.handler)
  }

  /** A write that adds no request label, and the end of a pod, keep the property. */
  lemma WriteKeepsOneWorker(api: Api, handler: Handler, p: PodId, v: Pod)
    requires OneEach(api.pods) && CreatesFirst(api.pods, handler) && p in api.pods
    requires v.request == "" || v.request == api.pods[p].request
    ensures OneEach(WriteApi(api, p, v).pods) && CreatesFirst(WriteApi(api, p, v).pods, handler)
  {
    if handler.Creating? && handler.request.shell.name != "" {
      var x := handler.request.shell;
      forall q ensures !MadeFor(WriteApi(api, p, v).pods, q, x) {
        assert !MadeFor(api.pods, q, x);
      }
    }
  }

  lemma VanishKeepsOneWorker(pods: map<PodId, Pod>, handler: Handler, p: PodId)
    requires OneEach(pods) && CreatesFirst(pods, handler)
    ensures OneEach(pods - {p}) && CreatesFirst(pods - {p}, handler)
  {
    if handler.Creating? && handler.request.shell.name != "" {
      forall q ensures !MadeFor(pods - {p}, q, handler.request.shell) {
        assert !MadeFor(pods, q, handler.request.shell);
      }
    }
  }

  lemma ListKeepsOneWorker(s: State)
    requires Base(s) && OneWorkerPerRequest(s) && HandleEnabled(s, List) && ListerShowsCreates(s, Handle(List))
    ensures OneWorkerPerRequest(DoHandle(s, List))
  {
    var x := s.handler.request.shell;
    forall q | MadeFor(s.api.pods, q, x) && x.name != "" ensures Listed(s, x) {
      Current(s.api, q);
      assert (q, s.cache[q]) in s.api.log && Succeeds(s.cache[q], s.api.pods[q]);
    }
  }

  lemma CreateKeepsOneWorker(pods: map<PodId, Pod>, r: Request, p: PodId, v: Pod)
    requires OneEach(pods) && NoneFor(pods, r.shell) && p.ns == r.shell.ns && p !in pods && v.request == r.shell.name
    ensures OneEach(pods[p := v])
  {
    forall q | q in pods && q.ns == p.ns ensures pods[q].request != r.shell.name || r.shell.name == "" {
      assert r.shell.name != "" ==> !MadeFor(pods, q, r.shell);
    }
  }

  lemma HandleKeepsOneWorker(s: State, h: HandleStep)
    requires Base(s) && OneWorkerPerRequest(s) && HandleEnabled(s, h) && ListerShowsCreates(s, Handle(h))
    ensures OneWorkerPerRequest(DoHandle(s, h))
  {
    match h
    case Scan(_) =>
    case List => ListKeepsOneWorker(s);
    case Create(p) =>
      if p in s.api.pods { Current(s.api, p); }
      CreateKeepsOneWorker(s.api.pods, s.handler.request, p, CreatedFor(s.handler.request).(rv := s.api.rev + 1));
    case _ =>
  }

  lemma OneWorkerKept(s: State, step: Step)
    requires Base(s) && OneWorkerPerRequest(s) && Enabled(s, step) && ListerShowsCreates(s, step)
    ensures OneWorkerPerRequest(Do(s, step))
  {
    match step {
      case Env(e) =>
        EnvFrame(s, e);
        EnvApi(s, e);
        if e.Vanish? { VanishKeepsOneWorker(s.api.pods, s.handler, e.p); }
      case Rec(r) => RecFrame(s, r); RecApi(s, r);
      case Handle(h) => HandleKeepsOneWorker(s, h);
      case Sync(x, a) => SyncFrame(s, x, a); SyncApi(s, x, a);
    }
    if !step.Handle? && WriteOf(s, step).Some? {
      WriteKeepsRequest(s, step);
      WriteKeepsOneWorker(s.api, s.handler, WriteOf(s, step).value.0, WriteOf(s, step).value.1);
    }
  }

  lemma WriteKeepsRequest(s: State, step: Step)
    requires Base(s) && Enabled(s, step) && !step.Handle? && WriteOf(s, step).Some?
    ensures var w := WriteOf(s, step).value;
            w.0 in s.api.pods && (w.1.request == "" || w.1.request == s.api.pods[w.0].request)
  {}

  lemma {:induction false} RunKeepsOneWorker(s: State, steps: seq<Step>, t: State)
    requires RunUnder(ListerShowsCreates, s, steps, t) && Base(s) && OneWorkerPerRequest(s)
    ensures OneWorkerPerRequest(t)
    decreases |steps|
  {
    if steps != [] {
      BaseKept(s, steps[0]);
      OneWorkerKept(s, steps[0]);
      RunKeepsOneWorker(Do(s, steps[0]), steps[1..], t);
    }
  }

  /** At most one pod of a namespace carries the request label of a given shell. */
  lemma AtMostOneWorkerPerRequest(s: State, steps: seq<Step>, t: State, p: PodId, q: PodId)
    requires Init(s) && RunUnder(ListerShowsCreates, s, steps, t)
    requires p in t.api.pods && q in t.api.pods && p.ns == q.ns
    requires t.api.pods[p].request != "" && t.api.pods[p].request == t.api.pods[q].request
    ensures p == q
  {
    RunKeepsOneWorker(s, steps, t);
  }
}
