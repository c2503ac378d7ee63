/** The worker queue names only idle pods of the pool, and an idle pod never goes away under its key. */
module PoolQueue {
  import opened OrderedSet
  import opened PoolProtocol
  import opened PoolInvariants
  import opened PoolBinding

  // ----- the hypotheses, stated on single steps -----

  /** A pod that reconcile puts on the worker queue is still idle.  The filter that let the event in is not
      applied again. */
  predicate ReconcileAddsIdle(s: State, step: Step) {
    step.Rec? && step.r.Act? && s.rec.Read? && s.rec.copy.ready && !s.rec.copy.deleting ==>
      s.rec.pod in s.api.pods && s.api.pods[s.rec.pod].owner == ""
  }

  /** A pod that Back puts on the worker queue has not been deleted since Back freed it. */
  predicate BackAddsLive(s: State, step: Step) {
    step.Sync? && step.a.BackAdd? && Enabled(s, step) ==>
      var p := s.syncs[step.x].key.pod;
      p in s.api.pods && !s.api.pods[p].deleting
  }

  /** Borrow has bound the pod of `k` and not yet taken `k` off the queue. */
  predicate Leaving(syncs: map<ShellId, Progress>, k: Key) {
    exists y :: y in syncs && syncs[y] == Updated(k)
  }

  /** No Borrow picks a key while another Borrow is taking it off the queue. */
  predicate PicksStaying(s: State, step: Step) {
    step.Sync? && step.a.Pick? && Enabled(s, step) ==>
      var k := MatchFor(s, RequestOf(s, step.x));
      k.Some? ==> !Leaving(s.syncs, k.value)
  }

  /** No Borrow binds a pod whose key another Borrow has picked and not yet looked up. */
  predicate BindsUnpicked(s: State, step: Step) {
    step.Sync? && step.a == Update(true) && Enabled(s, step) ==>
      forall y :: y in s.syncs && s.syncs[y].Picked? ==> s.syncs[y].key.pod != s.syncs[step.x].pod
  }

  /** No Borrow binds a pod that Back has freed and not yet queued. */
  predicate BindsQueued(s: State, step: Step) {
    step.Sync? && step.a == Update(true) && Enabled(s, step) ==>
      forall y :: y in s.syncs && s.syncs[y].Returned? && !s.syncs[y].queued ==>
        s.syncs[y].key.pod != s.syncs[step.x].pod
  }

  /** The calls of different syncs do not overlap on one worker. */
  predicate Apart(s: State, step: Step) {
    PicksStaying(s, step) && BindsUnpicked(s, step) && BindsQueued(s, step)
  }

  predicate Disciplined(s: State, step: Step) {
    && ReconcileAddsIdle(s, step) && BackAddsLive(s, step) && Completes(s, step) && BacksCurrent(s, step)
    && Apart(s, step)
  }

  // ----- a controller with one worker -----

  /** A sync starts only when no other is running. */
  predicate OneSync(s: State, step: Step) {
    step.Sync? && step.a.Start? ==> s.syncs == map[]
  }

  predicate AtMostOne(syncs: map<ShellId, Progress>) {
    forall x, y :: x in syncs && y in syncs ==> x == y
  }

  lemma OneSyncKept(s: State, step: Step)
    requires AtMostOne(s.syncs) && Enabled(s, step) && OneSync(s, step)
    ensures AtMostOne(Do(s, step).syncs)
  {
    match step
    case Env(e) => EnvFrame(s, e);
    case Rec(r) => RecFrame(s, r);
    case Handle(h) => HandleFrame(s, h);
    case Sync(x, a) =>
      SyncProgress(s, x, a);
  }

  /** One sync at a time cannot overlap with another. */
  lemma OneSyncIsApart(s: State, step: Step)
    requires AtMostOne(s.syncs)
    ensures Apart(s, step)
  {}

  // ----- pods that reconcile has stripped of the finalizer, kept by every run -----

  predicate SeenDeleting(cache: map<PodId, Pod>, p: PodId) {
    p in cache && cache[p].deleting
  }

  /** An idle pod without the finalizer is one that reconcile saw deleted. */
  ghost predicate Stripped(api: Api, cache: map<PodId, Pod>, rec: Reconcile) {
    && (forall p :: p in api.pods && api.pods[p].owner == "" && !api.pods[p].finalizer ==>
          SeenDeleting(cache, p) && (rec.Read? && rec.pod == p ==> rec.copy.deleting))
    && (rec.Finalizing? && rec.pod in api.pods ==> SeenDeleting(cache, rec.pod))
    && (rec.Read? && rec.pod in api.pods ==> rec.pod in cache && rec.copy.rv <= cache[rec.pod].rv)
  }

  /** The lister moves on to a later version, or forgets a pod that is gone. */
  lemma DeliverKeepsStripped(s: State, p: PodId, v: Pod)
    requires Ordered(s.api.log) && CacheCopies(s.api.log, s.cache)
    requires Stripped(s.api, s.cache, s.rec) && EnvEnabled(s, Deliver(p, v))
    ensures Stripped(s.api, s.cache[p := v], s.rec)
  {
    if p in s.cache { assert (p, s.cache[p]) in s.api.log && Succeeds(s.cache[p], v); }
  }

  lemma QuietWriteKeepsStripped(api: Api, cache: map<PodId, Pod>, rec: Reconcile, p: PodId, v: Pod)
    requires Stripped(api, cache, rec) && p in api.pods
    requires v.owner == api.pods[p].owner && v.finalizer == api.pods[p].finalizer
    ensures Stripped(WriteApi(api, p, v), cache, rec)
  {}

  lemma VanishKeepsStripped(api: Api, cache: map<PodId, Pod>, rec: Reconcile, p: PodId)
    requires Stripped(api, cache, rec)
    ensures Stripped(api.(pods := api.pods - {p}), cache, rec)
  {}

  lemma ForgettingKeepsStripped(api: Api, cache: map<PodId, Pod>, rec: Reconcile, p: PodId)
    requires Stripped(api, cache, rec) && p !in api.pods
    ensures Stripped(api, cache - {p}, rec)
  {}

  lemma EnvKeepsStripped(s: State, e: EnvStep)
    requires Base(s) && Stripped(s.api, s.cache, s.rec) && EnvEnabled(s, e)
    ensures Stripped(DoEnv(s, e).api, DoEnv(s, e).cache, s.rec)
  {
    match e
    case SetReady(p, b) => QuietWriteKeepsStripped(s.api, s.cache, s.rec, p, s.api.pods[p].(ready := b));
    case MarkDeleting(p) => QuietWriteKeepsStripped(s.api, s.cache, s.rec, p, s.api.pods[p].(deleting := true));
    case Deliver(p, v) => DeliverKeepsStripped(s, p, v);
    case Vanish(p) => VanishKeepsStripped(s.api, s.cache, s.rec, p);
    case DeliverGone(p) => ForgettingKeepsStripped(s.api, s.cache, s.rec, p);
    case _ => assert DoEnv(s, e).api == s.api && DoEnv(s, e).cache == s.cache;
  }

  lemma ActKeepsStripped(s: State)
    requires Ordered(s.api.log) && CacheCopies(s.api.log, s.cache) && RecCopy(s.api.log, s.rec)
    requires Stripped(s.api, s.cache, s.rec) && s.rec.Read?
    ensures var t := ReconcileAct(s); Stripped(t.api, t.cache, t.rec)
  {
    var p := s.rec.pod;
    if p in s.api.pods && s.rec.copy.deleting {
      assert (p, s.rec.copy) in s.api.log && (p, s.cache[p]) in s.api.log;
      assert Succeeds(s.rec.copy, s.cache[p]);
    }
  }

  lemma FinalizeKeepsStripped(s: State, answer: Answer)
    requires Stripped(s.api, s.cache, s.rec) && s.rec.Finalizing?
    ensures var t := ReconcileFinalize(s, answer); Stripped(t.api, t.cache, t.rec)
  {}

  lemma RecKeepsStripped(s: State, r: RecStep)
    requires Base(s) && Stripped(s.api, s.cache, s.rec) && RecEnabled(s, r)
    ensures var t := DoRec(s, r); Stripped(t.api, t.cache, t.rec)
  {
    match r
    case Take(_) =>
    case Fetch =>
    case Act => ActKeepsStripped(s);
    case Finalize(answer) => FinalizeKeepsStripped(s, answer);
  }

  lemma HandleKeepsStripped(s: State, h: HandleStep)
    requires Base(s) && Stripped(s.api, s.cache, s.rec) && HandleEnabled(s, h)
    ensures var t := DoHandle(s, h); Stripped(t.api, t.cache, t.rec)
  {
    HandleFrame(s, h);
    HandleApi(s, h);
    if h.Create? && (s.rec.Read? || s.rec.Finalizing?) {
      assert (s.rec.pod, s.rec.copy) in s.api.log && s.rec.pod != h.p;
    }
  }

  lemma SyncKeepsStripped(s: State, x: ShellId, a: SyncStep)
    requires Named(s.store, s.shellCache, s.syncs) && Stripped(s.api, s.cache, s.rec) && SyncEnabled(s, x, a)
    ensures var t := DoSync(s, x, a); Stripped(t.api, t.cache, t.rec)
  {
    SyncFrame(s, x, a);
    SyncApi(s, x, a);
    var w := SyncWrite(s, x, a);
    if w.Some? && a.Update? { assert x.name != ""; }
  }

  // ----- the queue invariant -----

  ghost predicate KeyNamed(api: Api, k: Key) {
    k.pod in api.used && forall v :: (k.pod, v) in api.log ==> v.image == k.image
  }

  predicate Pooled(api: Api, p: PodId) {
    p in api.pods && api.pods[p].owner == "" && api.pods[p].finalizer
  }

  ghost predicate KeyOk(api: Api, syncs: map<ShellId, Progress>, k: Key) {
    KeyNamed(api, k) && (Pooled(api, k.pod) || Leaving(syncs, k))
  }

  predicate HasKey(at: Progress) { at.Picked? || at.Updated? || at.Borrowed? || at.Returned? }

  /** The sync counts on the pod of its key being idle. */
  predicate HoldsIdle(at: Progress) { at.Picked? || (at.Returned? && !at.queued) }

  predicate IdleOrGone(api: Api, p: PodId) { p in api.pods ==> api.pods[p].owner == "" }

  ghost predicate SyncKeyOk(api: Api, at: Progress) {
    && (HasKey(at) ==> KeyNamed(api, at.key))
    && (HoldsIdle(at) ==> IdleOrGone(api, at.key.pod))
  }

  ghost predicate SyncKeys(api: Api, syncs: map<ShellId, Progress>) {
    forall x :: x in syncs ==> SyncKeyOk(api, syncs[x])
  }

  ghost predicate Queue(s: State) {
    && (forall k :: k in s.workers ==> KeyOk(s.api, s.syncs, k))
    && SyncKeys(s.api, s.syncs)
    && (s.rec.Finalizing? ==> forall k :: k in s.workers ==> k.pod != s.rec.pod)
  }

  /** Every version of a pod gives the same key. */
  lemma VersionNamesKey(api: Api, p: PodId, v: Pod)
    requires Ledger(api) && (p, v) in api.log
    ensures KeyNamed(api, KeyOf(p, v))
  {
    forall w | (p, w) in api.log ensures w.image == v.image {
      assert if v.rv <= w.rv then Succeeds(v, w) else Succeeds(w, v);
    }
  }

  lemma KeyNamedKept(api: Api, p: PodId, v: Pod, k: Key)
    requires Ledger(api) && Legal(api, p, v) && KeyNamed(api, k)
    ensures KeyNamed(WriteApi(api, p, v), k)
  {
    if p in api.pods { Current(api, p); }
  }

  lemma SyncKeysKept(api: Api, p: PodId, v: Pod, syncs: map<ShellId, Progress>)
    requires Ledger(api) && Legal(api, p, v) && SyncKeys(api, syncs)
    requires v.owner == "" || (p in api.pods && v.owner == api.pods[p].owner)
    ensures SyncKeys(WriteApi(api, p, v), syncs)
  {
    forall x | x in syncs ensures SyncKeyOk(WriteApi(api, p, v), syncs[x]) {
      assert SyncKeyOk(api, syncs[x]);
      if HasKey(syncs[x]) { KeyNamedKept(api, p, v, syncs[x].key); }
    }
  }

  /** A write that leaves owner and finalizer alone, or makes a new pod, keeps every key in order. */
  lemma QuietWriteKeepsKey(api: Api, syncs: map<ShellId, Progress>, p: PodId, v: Pod, k: Key)
    requires Ledger(api) && Legal(api, p, v) && KeyOk(api, syncs, k)
    requires p in api.pods ==> v.owner == api.pods[p].owner && v.finalizer == api.pods[p].finalizer
    ensures KeyOk(WriteApi(api, p, v), syncs, k)
  {
    KeyNamedKept(api, p, v, k);
  }

  lemma EnvKeepsQueueOk(s: State, e: EnvStep)
    requires Base(s) && Queue(s) && EnvEnabled(s, e)
    ensures Queue(DoEnv(s, e))
  {
    EnvApi(s, e);
    EnvFrame(s, e);
    EnvKeepsWorkers(s, e);
    var t := DoEnv(s, e);
    var w := EnvWrite(s, e);
    if w.Some? {
      WritesAreLegal(s, Env(e));
      SyncKeysKept(s.api, w.value.0, w.value.1, s.syncs);
    }
    forall k | k in t.workers ensures KeyOk(t.api, t.syncs, k) {
      assert k in s.workers && KeyOk(s.api, s.syncs, k);
      if w.Some? { QuietWriteKeepsKey(s.api, s.syncs, w.value.0, w.value.1, k); }
    }
  }

  lemma EnvKeepsWorkers(s: State, e: EnvStep)
    requires EnvEnabled(s, e) && Distinct(s.workers)
    ensures forall k :: k in DoEnv(s, e).workers ==> k in s.workers
  {
    if e.Unqueue? { DeleteKeepsDistinct(s.workers, e.k); }
  }

  lemma HandleKeepsQueueOk(s: State, h: HandleStep)
    requires Base(s) && Queue(s) && HandleEnabled(s, h)
    ensures Queue(DoHandle(s, h))
  {
    HandleApi(s, h);
    HandleFrame(s, h);
    var t := DoHandle(s, h);
    var w := HandleWrite(s, h);
    if w.Some? {
      WritesAreLegal(s, Handle(h));
      SyncKeysKept(s.api, w.value.0, w.value.1, s.syncs);
      if w.value.0 in s.api.pods { Current(s.api, w.value.0); }
    }
    forall k | k in t.workers ensures KeyOk(t.api, t.syncs, k) {
      assert KeyOk(s.api, s.syncs, k);
      if w.Some? { QuietWriteKeepsKey(s.api, s.syncs, w.value.0, w.value.1, k); }
    }
  }

  /** Reconcile acting on its copy: a removed key is gone for good, an added one names an idle pod. */
  lemma ActKeepsQueueOk(s: State)
    requires Base(s) && Queue(s) && Stripped(s.api, s.cache, s.rec) && RecEnabled(s, Act)
    requires ReconcileAddsIdle(s, Rec(Act))
    ensures Queue(DoRec(s, Act))
  {
    var p, v := s.rec.pod, s.rec.copy;
    var k := KeyOf(p, v);
    VersionNamesKey(s.api, p, v);
    InsertKeepsDistinct(s.workers, k);
    DeleteKeepsDistinct(s.workers, k);
    RecFrame(s, Act);
    RecApi(s, Act);
    var t := DoRec(s, Act);
    forall k' | k' in t.workers ensures KeyOk(t.api, t.syncs, k') && (v.deleting ==> k'.pod != p) {
      if k' in s.workers { assert KeyOk(s.api, s.syncs, k') && KeyNamed(s.api, k'); }
    }
  }

  lemma FinalizeKeepsQueueOk(s: State, answer: Answer)
    requires Base(s) && Queue(s) && RecEnabled(s, Finalize(answer))
    ensures Queue(DoRec(s, Finalize(answer)))
  {
    RecFrame(s, Finalize(answer));
    RecApi(s, Finalize(answer));
    var t := DoRec(s, Finalize(answer));
    var w := RecWrite(s, Finalize(answer));
    if w.Some? {
      WritesAreLegal(s, Rec(Finalize(answer)));
      SyncKeysKept(s.api, w.value.0, w.value.1, s.syncs);
      forall k | k in t.workers ensures KeyOk(t.api, t.syncs, k) {
        assert KeyOk(s.api, s.syncs, k);
        KeyNamedKept(s.api, w.value.0, w.value.1, k);
      }
    }
  }

  // ----- the syncs and the queue invariant -----

  /** A leaving key goes on leaving while another sync moves. */
  lemma LeavingKept(syncs: map<ShellId, Progress>, syncs': map<ShellId, Progress>, x: ShellId, k: Key)
    requires syncs - {x} == syncs' - {x} && Leaving(syncs, k)
    requires x in syncs ==> syncs[x] != Updated(k)
    ensures Leaving(syncs', k)
  {
    var y :| y in syncs && syncs[y] == Updated(k);
    SameElsewhere(syncs, syncs', x, y);
    assert y in syncs' && syncs'[y] == Updated(k);
  }

  /** Where the sync of `x` stands after one of its own steps that writes no pod. */
  lemma OwnSyncKey(s: State, x: ShellId, a: SyncStep)
    requires Base(s) && Queue(s) && SyncEnabled(s, x, a) && PicksStaying(s, Sync(x, a)) && SyncWrite(s, x, a).None?
    requires Next(s, x, a).Some?
    ensures SyncKeyOk(s.api, Next(s, x, a).value)
  {
    if x in s.syncs { assert SyncKeyOk(s.api, s.syncs[x]); }
    if a.Pick? { PickedKeyIsIdle(s, x); }
  }

  lemma PickedKeyIsIdle(s: State, x: ShellId)
    requires Queue(s) && SyncEnabled(s, x, Pick) && PicksStaying(s, Sync(x, Pick))
    ensures SyncKeyOk(s.api, Next(s, x, Pick).value)
  {
    FirstMatchIs(s.workers, x.ns, s.copies[x].image);
    var k := MatchFor(s, RequestOf(s, x));
    if k.Some? { assert KeyOk(s.api, s.syncs, k.value); }
  }

  /** The same after a step that writes a pod. */
  lemma OwnWrittenKey(s: State, x: ShellId, a: SyncStep)
    requires Base(s) && SyncEnabled(s, x, a) && SyncWrite(s, x, a).Some?
    ensures Next(s, x, a).Some? && SyncKeyOk(DoSync(s, x, a).api, Next(s, x, a).value)
  {
    SyncApi(s, x, a);
    var w := SyncWrite(s, x, a).value;
    WritesAreLegal(s, Sync(x, a));
    Current(s.api, w.0);
    match a
    case Update(_) =>
      VersionNamesKey(s.api, w.0, s.syncs[x].copy);
      KeyNamedKept(s.api, w.0, w.1, KeyOf(w.0, s.syncs[x].copy));
    case BackUpdate =>
      VersionNamesKey(s.api, w.0, s.cache[w.0]);
      KeyNamedKept(s.api, w.0, w.1, KeyOf(w.0, s.cache[w.0]));
    case _ =>
  }

  /** The other syncs when the sync of `x` writes a pod: a Borrow binds none that they count on. */
  lemma OtherSyncKey(s: State, x: ShellId, a: SyncStep, y: ShellId)
    requires Base(s) && Queue(s) && SyncEnabled(s, x, a) && Apart(s, Sync(x, a)) && y in s.syncs && y != x
    ensures SyncKeyOk(DoSync(s, x, a).api, s.syncs[y])
  {
    assert SyncKeyOk(s.api, s.syncs[y]);
    SyncApi(s, x, a);
    var w := SyncWrite(s, x, a);
    if w.Some? {
      WritesAreLegal(s, Sync(x, a));
      if HasKey(s.syncs[y]) { KeyNamedKept(s.api, w.value.0, w.value.1, s.syncs[y].key); }
    }
  }

  lemma SyncKeepsKeys(s: State, x: ShellId, a: SyncStep)
    requires Base(s) && Queue(s) && SyncEnabled(s, x, a) && Apart(s, Sync(x, a))
    ensures SyncKeys(DoSync(s, x, a).api, DoSync(s, x, a).syncs)
  {
    var t := DoSync(s, x, a);
    forall y | y in t.syncs ensures SyncKeyOk(t.api, t.syncs[y]) {
      SyncProgress(s, x, a);
      if y != x {
        OtherSyncKey(s, x, a, y);
      } else if SyncWrite(s, x, a).Some? {
        OwnWrittenKey(s, x, a);
      } else {
        SyncApi(s, x, a);
        OwnSyncKey(s, x, a);
      }
    }
  }

  /** Where a key comes from that is queued after a step of the sync of `x`. */
  lemma QueuedBefore(s: State, x: ShellId, a: SyncStep, k: Key)
    requires Distinct(s.workers) && SyncEnabled(s, x, a) && k in DoSync(s, x, a).workers
    ensures k in s.workers || (a.BackAdd? && k == s.syncs[x].key)
    ensures a.Dequeue? ==> k != s.syncs[x].key
  {
    SyncQueues(s, x, a);
    if a.Dequeue? { DeleteKeepsDistinct(s.workers, s.syncs[x].key); }
    if a.BackAdd? { InsertKeepsDistinct(s.workers, s.syncs[x].key); }
  }

  /** A queued key when the sync of `x` writes a pod: if it is bound, its key is leaving. */
  lemma WrittenKey(s: State, x: ShellId, a: SyncStep, k: Key)
    requires Base(s) && SyncEnabled(s, x, a) && SyncWrite(s, x, a).Some? && KeyOk(s.api, s.syncs, k)
    ensures KeyOk(DoSync(s, x, a).api, DoSync(s, x, a).syncs, k)
  {
    SyncApi(s, x, a);
    var w := SyncWrite(s, x, a).value;
    WritesAreLegal(s, Sync(x, a));
    KeyNamedKept(s.api, w.0, w.1, k);
    if Leaving(s.syncs, k) {
      SyncFrame(s, x, a);
      LeavingKept(s.syncs, DoSync(s, x, a).syncs, x, k);
    } else if a.Update? && k.pod == s.syncs[x].pod {
      BoundKeyLeaves(s, x, k);
    }
  }

  /** The key of the pod that a Borrow has just bound is leaving. */
  lemma BoundKeyLeaves(s: State, x: ShellId, k: Key)
    requires SyncCopies(s.api.log, s.syncs) && KeyNamed(s.api, k)
    requires SyncEnabled(s, x, Update(true)) && k.pod == s.syncs[x].pod
    ensures Leaving(DoSync(s, x, Update(true)).syncs, k)
  {
    var t := DoSync(s, x, Update(true));
    assert (k.pod, s.syncs[x].copy) in s.api.log;
    assert x in t.syncs && t.syncs[x] == Updated(k);
  }

  lemma UnwrittenKey(s: State, x: ShellId, a: SyncStep, k: Key)
    requires SyncEnabled(s, x, a) && SyncWrite(s, x, a).None? && KeyOk(s.api, s.syncs, k)
    requires a.Dequeue? ==> k != s.syncs[x].key
    ensures KeyOk(DoSync(s, x, a).api, DoSync(s, x, a).syncs, k)
  {
    SyncApi(s, x, a);
    if Leaving(s.syncs, k) {
      SyncFrame(s, x, a);
      LeavingKept(s.syncs, DoSync(s, x, a).syncs, x, k);
    }
  }

  /** The key that Back puts on the queue. */
  lemma AddedKey(s: State, x: ShellId)
    requires Base(s) && Queue(s) && SyncEnabled(s, x, BackAdd) && BackAddsLive(s, Sync(x, BackAdd))
    ensures KeyOk(s.api, DoSync(s, x, BackAdd).syncs, s.syncs[x].key)
    ensures s.rec.Finalizing? ==> s.syncs[x].key.pod != s.rec.pod
  {
    assert SyncKeyOk(s.api, s.syncs[x]);
    Current(s.api, s.syncs[x].key.pod);
  }

  /** One queued key under one step of a sync. */
  lemma SyncKeepsKey(s: State, x: ShellId, a: SyncStep, k: Key)
    requires Base(s) && Queue(s) && SyncEnabled(s, x, a) && BackAddsLive(s, Sync(x, a))
    requires k in DoSync(s, x, a).workers
    ensures KeyOk(DoSync(s, x, a).api, DoSync(s, x, a).syncs, k)
    ensures s.rec.Finalizing? ==> k.pod != s.rec.pod
  {
    QueuedBefore(s, x, a, k);
    if k in s.workers {
      assert KeyOk(s.api, s.syncs, k);
      if SyncWrite(s, x, a).Some? { WrittenKey(s, x, a, k); } else { UnwrittenKey(s, x, a, k); }
    } else {
      AddedKey(s, x);
    }
  }

  lemma SyncKeepsQueueOk(s: State, x: ShellId, a: SyncStep)
    requires Base(s) && Queue(s) && SyncEnabled(s, x, a) && BackAddsLive(s, Sync(x, a)) && Apart(s, Sync(x, a))
    ensures Queue(DoSync(s, x, a))
  {
    SyncKeepsKeys(s, x, a);
    var t := DoSync(s, x, a);
    assert t.rec == s.rec by { SyncFrame(s, x, a); }
    forall k | k in t.workers ensures KeyOk(t.api, t.syncs, k) && (t.rec.Finalizing? ==> k.pod != t.rec.pod) {
      SyncKeepsKey(s, x, a, k);
    }
  }

  lemma QueueKept(s: State, step: Step)
    requires Base(s) && Queue(s) && Stripped(s.api, s.cache, s.rec) && Enabled(s, step)
    requires ReconcileAddsIdle(s, step) && BackAddsLive(s, step) && Apart(s, step)
    ensures Queue(Do(s, step))
  {
    match step
    case Env(e) => EnvKeepsQueueOk(s, e);
    case Rec(Take(p)) => RecFrame(s, Take(p));
    case Rec(Fetch) => RecFrame(s, Fetch);
    case Rec(Act) => ActKeepsQueueOk(s);
    case Rec(Finalize(answer)) => FinalizeKeepsQueueOk(s, answer);
    case Handle(h) => HandleKeepsQueueOk(s, h);
    case Sync(x, a) => SyncKeepsQueueOk(s, x, a);
  }

  lemma StrippedKept(s: State, step: Step)
    requires Base(s) && Stripped(s.api, s.cache, s.rec) && Enabled(s, step)
    ensures Stripped(Do(s, step).api, Do(s, step).cache, Do(s, step).rec)
  {
    match step
    case Env(e) => EnvFrame(s, e); EnvKeepsStripped(s, e);
    case Rec(r) => RecKeepsStripped(s, r);
    case Handle(h) => HandleKeepsStripped(s, h);
    case Sync(x, a) => SyncKeepsStripped(s, x, a);
  }

  /** With the queue in order, every Borrow reads an idle or outdated copy of the worker it has picked. */
  lemma PickedCopyIsSafe(s: State, step: Step)
    requires Base(s) && Queue(s)
    ensures SafeMatch(s, step)
  {
    if step.Sync? && step.a.Look? && Enabled(s, step) {
      var p := s.syncs[step.x].key.pod;
      assert SyncKeyOk(s.api, s.syncs[step.x]);
      if p in s.cache && p in s.api.pods { Current(s.api, p); }
    }
  }
}
