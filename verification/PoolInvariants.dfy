/** What every step of the pool protocol keeps, with no hypothesis at all. */
module PoolInvariants {
  import opened OrderedSet
  import opened PoolProtocol

  // ----- kept by every run -----

  /** The owner label is empty exactly when the pod carries the pool finalizer, except that reconcile
      takes the finalizer from an idle pod that is being deleted. */
  predicate FinalizerMeansIdle(v: Pod) {
    && (v.finalizer ==> v.owner == "")
    && (v.owner == "" && !v.deleting ==> v.finalizer)
  }

  /** `w` may be a later version of the pod that once looked like `v`. */
  predicate Succeeds(v: Pod, w: Pod) {
    && v.image == w.image
    && (v.deleting ==> w.deleting)
    && (w.request != "" ==> v.request == w.request)
  }

  type Log = set<(PodId, Pod)>

  ghost predicate Sane(log: Log, rev: nat, used: set<PodId>) {
    forall p, v :: (p, v) in log ==> v.rv <= rev && p in used && p.name != "" && FinalizerMeansIdle(v)
  }

  /** Versions of a pod are told apart by their resource version and ordered by it. */
  ghost predicate Ordered(log: Log) {
    && (forall p, v, w :: (p, v) in log && (p, w) in log && v.rv <= w.rv ==> Succeeds(v, w))
    && (forall p, v, w :: (p, v) in log && (p, w) in log && v.rv == w.rv ==> v == w)
  }

  /** The current pods are the newest versions. */
  ghost predicate Newest(log: Log, pods: map<PodId, Pod>) {
    && (forall p :: p in pods ==> (p, pods[p]) in log)
    && (forall p, v :: (p, v) in log && p in pods ==> v.rv <= pods[p].rv)
  }

  /** The version log of the API server. */
  ghost predicate Ledger(api: Api) {
    Sane(api.log, api.rev, api.used) && Ordered(api.log) && Newest(api.log, api.pods)
  }

  /** Every copy that the lister, reconcile or a sync holds is a version from the log. */
  ghost predicate CacheCopies(log: Log, cache: map<PodId, Pod>) {
    forall p :: p in cache ==> (p, cache[p]) in log
  }

  ghost predicate RecCopy(log: Log, rec: Reconcile) {
    && (rec.Read? || rec.Finalizing? ==> (rec.pod, rec.copy) in log)
    && (rec.Finalizing? ==> rec.copy.deleting)
  }

  ghost predicate SyncCopies(log: Log, syncs: map<ShellId, Progress>) {
    forall x :: x in syncs && syncs[x].Matched? ==> (syncs[x].pod, syncs[x].copy) in log
  }

  /** Shells have names. */
  ghost predicate Named(store: Store, shellCache: map<ShellId, Shell>, syncs: map<ShellId, Progress>) {
    && (forall x, c :: (x, c) in store.log ==> x.name != "")
    && (forall x :: x in store.shells || x in shellCache || x in syncs ==> x.name != "")
  }

  ghost predicate Base(s: State) {
    && Ledger(s.api) && CacheCopies(s.api.log, s.cache) && RecCopy(s.api.log, s.rec) && SyncCopies(s.api.log, s.syncs)
    && Distinct(s.workers) && Distinct(s.requests) && Named(s.store, s.shellCache, s.syncs)
  }

  // ----- what the steps of each actor leave alone -----

  lemma EnvFrame(s: State, e: EnvStep)
    requires EnvEnabled(s, e)
    ensures var t := DoEnv(s, e);
            t == State(t.api, t.cache, t.podQueue, t.workers, s.requests, t.shellQueue, t.store, t.shellCache,
                       s.syncs, s.copies, s.rec, s.handler, t.waiting)
    ensures s.shellQueue <= DoEnv(s, e).shellQueue
    ensures DoEnv(s, e).waiting == if e.DropShell? then s.waiting - {e.x} else s.waiting
  {
    match e
    case SetReady(_, _) =>
    case _ =>
  }

  lemma RecFrame(s: State, r: RecStep)
    requires RecEnabled(s, r)
    ensures var t := DoRec(s, r);
            t == State(t.api, s.cache, t.podQueue, t.workers, s.requests, s.shellQueue, s.store, s.shellCache,
                       s.syncs, s.copies, t.rec, s.handler, s.waiting)
  {
    match r
    case Take(_) =>
    case Fetch =>
    case Act => ActFrame(s);
    case Finalize(_) =>
  }

  lemma ActFrame(s: State)
    requires s.rec.Read?
    ensures var t := ReconcileAct(s); t == s.(workers := t.workers, rec := t.rec)
  {}

  lemma HandleFrame(s: State, h: HandleStep)
    requires HandleEnabled(s, h)
    ensures var t := DoHandle(s, h);
            t == State(t.api, s.cache, s.podQueue, s.workers, t.requests, t.shellQueue, s.store, s.shellCache,
                       s.syncs, s.copies, s.rec, t.handler, s.waiting)
    ensures s.shellQueue <= DoHandle(s, h).shellQueue
    ensures !h.Drop? ==> DoHandle(s, h).requests == s.requests
  {
    match h
    case Scan(_) =>
    case _ =>
  }

  /** How far the sync of `x` is after step `a`; None when it has ended or did not start. */
  function Next(s: State, x: ShellId, a: SyncStep): Option<Progress>
    requires SyncEnabled(s, x, a)
  {
    match a
    case Start => if x in s.shellCache then Some(Deciding) else None
    case Ensure(_) => Some(Deciding)
    case Check => Some(if s.copies[x].pod != "" && CopiedPod(s, x) in s.cache then Bound else Wanting)
    case End(_) => None
    case Pick =>
      var k := MatchFor(s, RequestOf(s, x));
      Some(if k.Some? then Picked(k.value) else Missing)
    case Look =>
      var p := s.syncs[x].key.pod;
      if p in s.cache then Some(Matched(p, s.cache[p])) else None
    case Ask => None
    case Update(ok) => if ok then Some(Updated(KeyOf(s.syncs[x].pod, s.syncs[x].copy))) else None
    case Dequeue => Some(Borrowed(s.syncs[x].key))
    case Label(ok) => if ok then Some(Serving) else None
    case BackUpdate => Some(Returned(KeyOf(CopiedPod(s, x), s.cache[CopiedPod(s, x)]), false))
    case BackAdd => Some(Returned(s.syncs[x].key, true))
    case BackDelete(_) => Some(Detached)
    case Unlabel(ok, more) => if ok && more then Some(Wanting) else None
  }

  lemma SyncProgress(s: State, x: ShellId, a: SyncStep)
    requires SyncEnabled(s, x, a)
    ensures var n := Next(s, x, a); DoSync(s, x, a).syncs == if n.Some? then s.syncs[x := n.value] else s.syncs - {x}
  {
    match a
    case Start =>
    case _ =>
  }

  /** Only two steps of a sync touch the worker queue, and only one the request queue. */
  lemma SyncQueues(s: State, x: ShellId, a: SyncStep)
    requires SyncEnabled(s, x, a)
    ensures a.Dequeue? || a.BackAdd? || DoSync(s, x, a).workers == s.workers
    ensures a.Ask? || DoSync(s, x, a).requests == s.requests
  {
    match a
    case Start =>
    case _ =>
  }

  /** A sync changes the progress of its own shell and, in three kinds of steps, its own shell. */
  lemma SyncFrame(s: State, x: ShellId, a: SyncStep)
    requires SyncEnabled(s, x, a)
    ensures var t := DoSync(s, x, a);
            t == State(t.api, s.cache, s.podQueue, t.workers, t.requests, t.shellQueue, t.store, s.shellCache,
                       t.syncs, t.copies, s.rec, s.handler, t.waiting)
    ensures DoSync(s, x, a).syncs - {x} == s.syncs - {x}
    ensures a.Label? || a.Unlabel? || a.Ensure? || DoSync(s, x, a).store == s.store
  {
    SyncProgress(s, x, a);
    match a
    case Start =>
    case _ =>
  }

  lemma SyncStoreFrame(s: State, x: ShellId, a: SyncStep)
    requires SyncEnabled(s, x, a)
    ensures DoSync(s, x, a).store.shells.Keys == s.store.shells.Keys
    ensures DoSync(s, x, a).store.shells - {x} == s.store.shells - {x}
  {
    match a
    case Ensure(_) =>
    case Label(_) =>
    case Unlabel(_, _) =>
    case _ => SyncFrame(s, x, a);
  }

  // ----- the API server -----

  function EnvWrite(s: State, e: EnvStep): Option<(PodId, Pod)>
    requires EnvEnabled(s, e)
  {
    match e
    case SetReady(p, b) => Some((p, s.api.pods[p].(ready := b)))
    case MarkDeleting(p) => Some((p, s.api.pods[p].(deleting := true)))
    case _ => None
  }

  function RecWrite(s: State, r: RecStep): Option<(PodId, Pod)>
    requires RecEnabled(s, r)
  {
    match r
    case Finalize(answer) =>
      if answer == Done && s.rec.pod in s.api.pods && s.api.pods[s.rec.pod].finalizer
      then Some((s.rec.pod, s.api.pods[s.rec.pod].(finalizer := false))) else None
    case _ => None
  }

  function HandleWrite(s: State, h: HandleStep): Option<(PodId, Pod)>
    requires HandleEnabled(s, h)
  {
    match h
    case Create(p) => Some((p, CreatedFor(s.handler.request)))
    case _ => None
  }

  function SyncWrite(s: State, x: ShellId, a: SyncStep): Option<(PodId, Pod)>
    requires SyncEnabled(s, x, a)
  {
    match a
    case Update(ok) =>
      if ok then Some((s.syncs[x].pod, BoundTo(s.syncs[x].copy, x))) else None
    case BackUpdate =>
      Some((CopiedPod(s, x), s.api.pods[CopiedPod(s, x)].(owner := "", finalizer := true)))
    case BackDelete(ok) =>
      if ok && CopiedPod(s, x) in s.api.pods
      then Some((CopiedPod(s, x), s.api.pods[CopiedPod(s, x)].(deleting := true))) else None
    case _ => None
  }

  /** The pod version that a step sends to the API server, if it sends one that is accepted. */
  function WriteOf(s: State, step: Step): Option<(PodId, Pod)>
    requires Enabled(s, step)
  {
    match step
    case Env(e) => EnvWrite(s, e)
    case Rec(r) => RecWrite(s, r)
    case Handle(h) => HandleWrite(s, h)
    case Sync(x, a) => SyncWrite(s, x, a)
  }

  function Written(api: Api, w: Option<(PodId, Pod)>): Api {
    if w.Some? then WriteApi(api, w.value.0, w.value.1) else api
  }

  lemma EnvApi(s: State, e: EnvStep)
    requires EnvEnabled(s, e)
    ensures DoEnv(s, e).api == if e.Vanish? then s.api.(pods := s.api.pods - {e.p}) else Written(s.api, EnvWrite(s, e))
  {
    match e
    case SetReady(_, _) =>
    case _ =>
  }

  lemma RecApi(s: State, r: RecStep)
    requires RecEnabled(s, r)
    ensures DoRec(s, r).api == Written(s.api, RecWrite(s, r))
  {
    match r
    case Take(_) =>
    case Fetch =>
    case Act =>
    case Finalize(_) =>
  }

  lemma HandleApi(s: State, h: HandleStep)
    requires HandleEnabled(s, h)
    ensures DoHandle(s, h).api == Written(s.api, HandleWrite(s, h))
  {
    match h
    case Scan(_) =>
    case _ =>
  }

  lemma SyncApi(s: State, x: ShellId, a: SyncStep)
    requires SyncEnabled(s, x, a)
    ensures DoSync(s, x, a).api == Written(s.api, SyncWrite(s, x, a))
  {
    match a
    case Update(_) =>
    case BackUpdate =>
    case BackDelete(_) =>
    case _ =>
  }

  /** The pods after a Borrow: the bound one belongs to the shell and has neither request label nor finalizer. */
  lemma BoundPods(api: Api, p: PodId, v: Pod, x: ShellId)
    ensures WriteApi(api, p, BoundTo(v, x)).pods
         == api.pods[p := Pod(v.image, x.name, "", false, v.deleting, v.ready, api.rev + 1)]
  {}

  /** Facts about the current version of a pod, read off the log. */
  lemma Current(api: Api, p: PodId)
    requires Ledger(api) && p in api.pods
    ensures (p, api.pods[p]) in api.log && p in api.used && p.name != "" && FinalizerMeansIdle(api.pods[p])
    ensures forall v :: (p, v) in api.log ==> v.rv <= api.pods[p].rv && Succeeds(v, api.pods[p])
    ensures forall v :: (p, v) in api.log && v.rv == api.pods[p].rv ==> v == api.pods[p]
  {
    assert (p, api.pods[p]) in api.log;
  }

  /** What makes a write acceptable: a new pod under a fresh name, or a successor of the current version. */
  predicate Legal(api: Api, p: PodId, v: Pod) {
    && p.name != "" && FinalizerMeansIdle(v)
    && if p in api.pods then Succeeds(api.pods[p], v) else p !in api.used
  }

  lemma WritesAreLegal(s: State, step: Step)
    requires Base(s) && Enabled(s, step) && WriteOf(s, step).Some?
    ensures Legal(s.api, WriteOf(s, step).value.0, WriteOf(s, step).value.1)
  {
    var p := WriteOf(s, step).value.0;
    if p in s.api.pods { Current(s.api, p); }
  }

  lemma OrderedGrows(log: Log, rev: nat, used: set<PodId>, pods: map<PodId, Pod>, p: PodId, w: Pod)
    requires Sane(log, rev, used) && Ordered(log) && Newest(log, pods) && w.rv == rev + 1
    requires if p in pods then Succeeds(pods[p], w) else p !in used
    ensures Ordered(log + {(p, w)})
  {
    var log' := log + {(p, w)};
    forall q, u: Pod, u': Pod | (q, u) in log' && (q, u') in log' && u.rv <= u'.rv ensures Succeeds(u, u') {
      if (q, u') == (p, w) && (q, u) != (p, w) {
        assert p in pods && (p, pods[p]) in log && Succeeds(u, pods[p]);
      }
    }
  }

  lemma WriteKeepsLedger(api: Api, p: PodId, v: Pod)
    requires Ledger(api) && Legal(api, p, v)
    ensures Ledger(WriteApi(api, p, v))
  {
    var w := v.(rv := api.rev + 1);
    OrderedGrows(api.log, api.rev, api.used, api.pods, p, w);
    NewestGrows(api.log, api.rev, api.used, api.pods, p, w);
  }

  lemma NewestGrows(log: Log, rev: nat, used: set<PodId>, pods: map<PodId, Pod>, p: PodId, w: Pod)
    requires Sane(log, rev, used) && Newest(log, pods) && w.rv == rev + 1 && p.name != "" && FinalizerMeansIdle(w)
    ensures Sane(log + {(p, w)}, rev + 1, used + {p}) && Newest(log + {(p, w)}, pods[p := w])
  {}

  lemma LedgerKept(s: State, step: Step)
    requires Base(s) && Enabled(s, step)
    ensures Ledger(Do(s, step).api) && s.api.log <= Do(s, step).api.log
  {
    match step {
      case Env(e) => EnvApi(s, e);
      case Rec(r) => RecApi(s, r);
      case Handle(h) => HandleApi(s, h);
      case Sync(x, a) => SyncApi(s, x, a);
    }
    var w := WriteOf(s, step);
    if w.Some? {
      WritesAreLegal(s, step);
      WriteKeepsLedger(s.api, w.value.0, w.value.1);
    }
  }

  lemma EnvKeepsCopies(s: State, e: EnvStep)
    requires EnvEnabled(s, e) && CacheCopies(s.api.log, s.cache)
    ensures CacheCopies(s.api.log, DoEnv(s, e).cache)
  {}

  lemma RecKeepsCopy(s: State, r: RecStep)
    requires RecEnabled(s, r) && CacheCopies(s.api.log, s.cache) && RecCopy(s.api.log, s.rec)
    ensures RecCopy(s.api.log, DoRec(s, r).rec)
  {
    match r
    case Take(_) =>
    case Fetch =>
    case Act =>
    case Finalize(_) =>
  }

  lemma SyncKeepsCopies(s: State, x: ShellId, a: SyncStep)
    requires SyncEnabled(s, x, a) && CacheCopies(s.api.log, s.cache) && SyncCopies(s.api.log, s.syncs)
    ensures SyncCopies(s.api.log, DoSync(s, x, a).syncs)
  {
    SyncProgress(s, x, a);
  }

  lemma EnvKeepsQueue(s: State, e: EnvStep)
    requires EnvEnabled(s, e) && Distinct(s.workers)
    ensures Distinct(DoEnv(s, e).workers)
  {
    if e.Unqueue? { DeleteKeepsDistinct(s.workers, e.k); }
  }

  lemma RecKeepsQueue(s: State, r: RecStep)
    requires RecEnabled(s, r) && Distinct(s.workers)
    ensures Distinct(DoRec(s, r).workers)
  {
    match r
    case Take(_) =>
    case Fetch =>
    case Act =>
      InsertKeepsDistinct(s.workers, KeyOf(s.rec.pod, s.rec.copy));
      DeleteKeepsDistinct(s.workers, KeyOf(s.rec.pod, s.rec.copy));
    case Finalize(_) =>
  }

  lemma HandleKeepsQueue(s: State, h: HandleStep)
    requires HandleEnabled(s, h) && Distinct(s.requests)
    ensures Distinct(DoHandle(s, h).requests)
  {
    HandleFrame(s, h);
    if h.Drop? { DeleteKeepsDistinct(s.requests, s.handler.request); }
  }

  lemma SyncKeepsQueues(s: State, x: ShellId, a: SyncStep)
    requires SyncEnabled(s, x, a) && Distinct(s.workers) && Distinct(s.requests)
    ensures Distinct(DoSync(s, x, a).workers) && Distinct(DoSync(s, x, a).requests)
  {
    SyncQueues(s, x, a);
    if a.Ask? { InsertKeepsDistinct(s.requests, RequestOf(s, x)); }
    if a.Dequeue? { DeleteKeepsDistinct(s.workers, s.syncs[x].key); }
    if a.BackAdd? { InsertKeepsDistinct(s.workers, s.syncs[x].key); }
  }

  lemma CopiesMonotone(log: Log, log': Log, cache: map<PodId, Pod>, rec: Reconcile, syncs: map<ShellId, Progress>)
    requires log <= log' && CacheCopies(log, cache) && RecCopy(log, rec) && SyncCopies(log, syncs)
    ensures CacheCopies(log', cache) && RecCopy(log', rec) && SyncCopies(log', syncs)
  {}

  lemma EnvKeepsNames(s: State, e: EnvStep)
    requires EnvEnabled(s, e) && Named(s.store, s.shellCache, s.syncs)
    ensures Named(DoEnv(s, e).store, DoEnv(s, e).shellCache, s.syncs)
  {
    match e
    case NewShell(_, _) =>
    case EditShell(_, _) =>
    case _ =>
  }

  lemma SyncKeepsNames(s: State, x: ShellId, a: SyncStep)
    requires SyncEnabled(s, x, a) && Named(s.store, s.shellCache, s.syncs)
    ensures var t := DoSync(s, x, a); Named(t.store, t.shellCache, t.syncs)
  {
    SyncFrame(s, x, a);
    SyncProgress(s, x, a);
    SyncStoreFrame(s, x, a);
    match a
    case Ensure(_) =>
    case Label(_) =>
    case Unlabel(_, _) =>
    case _ =>
  }

  lemma BaseKept(s: State, step: Step)
    requires Base(s) && Enabled(s, step)
    ensures Base(Do(s, step))
  {
    LedgerKept(s, step);
    match step {
      case Env(e) => EnvFrame(s, e); EnvKeepsCopies(s, e); EnvKeepsQueue(s, e); EnvKeepsNames(s, e);
      case Rec(r) => RecFrame(s, r); RecKeepsCopy(s, r); RecKeepsQueue(s, r);
      case Handle(h) => HandleFrame(s, h); HandleKeepsQueue(s, h);
      case Sync(x, a) =>
        SyncFrame(s, x, a);
        SyncKeepsCopies(s, x, a);
        SyncKeepsQueues(s, x, a);
        SyncKeepsNames(s, x, a);
    }
    var t := Do(s, step);
    CopiesMonotone(s.api.log, t.api.log, t.cache, t.rec, t.syncs);
  }
}
