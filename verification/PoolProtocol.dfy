/** The worker pool and the shell controller as one step protocol.

    The actors are the reconcile goroutine of the pool, the request handler of the pool, the scale-in timer, one sync
    per shell key (a work queue never runs one key twice at the same time), the informers that feed the two listers,
    and the outside world that creates, deletes and readies objects.  The steps of different actors interleave freely.
    An API update carries the resource version that its caller read and fails when the object has moved on; any API
    call may also fail for reasons of its own.

    Every step is one read, one API write or one queue operation, but for the following, which lose no interleaving.
    An update that follows a read of the same object is one step when nothing else is done with what was read: an
    accepted update was based on the current version, so the read could as well have come last.  A sync takes its key
    off the work queue and reads the shell lister in one step, because shell keys may be queued again at any time.  A
    handler iteration takes its request from a snapshot of the request queue; only the handler removes requests, so the
    request is still queued. */
module PoolProtocol {
  import opened OrderedSet

  datatype PodId = PodId(ns: string, name: string)

  datatype ShellId = ShellId(ns: string, name: string)

  /** A worker-queue key; module WorkerKey shows when the textual form determines it. */
  datatype Key = Key(pod: PodId, image: string)

  datatype Request = Request(shell: ShellId, image: string)

  /** `owner` is the owner label, empty for an idle worker; `request` the request label, empty when it is absent. */
  datatype Pod = Pod(image: string, owner: string, request: string,
                     finalizer: bool, deleting: bool, ready: bool, rv: nat)

  /** `pod` is the pod-name label, empty when the shell is not bound. */
  datatype Shell = Shell(image: string, pod: string, rv: nat)

  /** How far a running sync of one shell has come. */
  datatype Progress =
    | Deciding                              // the shell was read from the lister
    | Wanting                               // it has no worker that the lister knows
    | Missing                               // Borrow found no key in the worker queue
    | Picked(key: Key)                      // Borrow found a key, its pod is not yet read
    | Matched(pod: PodId, copy: Pod)        // Borrow holds a lister copy of the worker
    | Updated(key: Key)                     // Borrow bound the pod, its key is not yet dequeued
    | Borrowed(key: Key)                    // Borrow returned, the pod label is not yet written
    | Serving                               // the pod label is written
    | Bound                                 // the shell has a worker that the lister knows
    | Returned(key: Key, queued: bool)      // Back freed the pod, the pod label is not yet cleared
    | Detached                              // Back ended without freeing the pod, label not yet cleared

  /** How far the reconcile goroutine has come with one pod key. */
  datatype Reconcile =
    | Resting
    | Taken(pod: PodId)                     // the key is off the work queue
    | Read(pod: PodId, copy: Pod)
    | Finalizing(pod: PodId, copy: Pod)     // deleted and dequeued, about to drop the finalizer

  /** How far the handler has come with one request. */
  datatype Handler =
    | Waiting
    | Scanned(request: Request, pick: Option<Key>)  // the worker queue was searched
    | Found(request: Request)                       // the lister knows the worker
    | Known(request: Request)                       // the shell exists
    | Dropping(request: Request)                    // about to remove the request
    | Lacking(request: Request)                     // there is no worker
    | Creating(request: Request)                    // and none is listed that was made for the shell

  /** The API server's side of the pods: the last resource version handed out, the pods as they are now, every version
      any pod ever had, and the pod names drawn so far. */
  datatype Api = Api(rev: nat, pods: map<PodId, Pod>, log: set<(PodId, Pod)>, used: set<PodId>)

  /** The same for the shells. */
  datatype Store = Store(rev: nat, shells: map<ShellId, Shell>, log: set<(ShellId, Shell)>)

  datatype State = State(
    api: Api,
    cache: map<PodId, Pod>,            // the pod lister
    podQueue: set<PodId>,              // the pool's own work queue
    workers: seq<Key>,                 // the worker queue
    requests: seq<Request>,            // the request queue
    shellQueue: set<ShellId>,          // the controller's work queue, delayed keys included
    store: Store,
    shellCache: map<ShellId, Shell>,   // the shell lister
    syncs: map<ShellId, Progress>,     // the running syncs
    copies: map<ShellId, Shell>,       // the shell objects that the syncs work on
    rec: Reconcile,
    handler: Handler,
    waiting: map<ShellId, Request>     // existing shells whose last sync ended in ErrNotWorker
  )

  /** The outside world, the informers and the scale-in timer. */
  datatype EnvStep =
    | SetReady(p: PodId, ready: bool)
    | MarkDeleting(p: PodId)
    | Vanish(p: PodId)
    | Deliver(p: PodId, v: Pod)
    | DeliverGone(p: PodId)
    | NewShell(x: ShellId, image: string)
    | EditShell(x: ShellId, image: string)
    | DropShell(x: ShellId)
    | DeliverShell(x: ShellId, c: Shell)
    | DeliverShellGone(x: ShellId)
    | Enqueue(x: ShellId)  // a pod event, a retry or a delayed key
    | Unqueue(k: Key)      // scale-in, after the API server has accepted the deletion of the worker

  /** How reconcile's finalizer write ends: done, refused, or given up because the pod could not be read. */
  datatype Answer = Done | Refused | Unread

  datatype RecStep = Take(p: PodId) | Fetch | Act | Finalize(answer: Answer)

  datatype HandleStep =
    | Scan(r: Request)
    | LookUp
    | Exists
    | Gone
    | Skip               // the shell could not be read, or the create failed
    | Notify
    | Drop
    | List
    | Create(p: PodId)

  /** The steps of the sync of one shell: `Pick` to `Label` are Borrow and the label write after it, `BackUpdate` to
      `Unlabel` are Back and the label write after it. */
  datatype SyncStep =
    | Start
    | Ensure(image: string)
    | Check
    | End(requeue: bool)
    | Pick
    | Look
    | Ask
    | Update(ok: bool)
    | Dequeue
    | Label(ok: bool)
    | BackUpdate
    | BackAdd
    | BackDelete(ok: bool)
    | Unlabel(ok: bool, more: bool)

  datatype Step = Env(e: EnvStep) | Rec(r: RecStep) | Handle(h: HandleStep) | Sync(x: ShellId, a: SyncStep)

  function KeyOf(p: PodId, v: Pod): Key { Key(p, v.image) }

  /** The request of the running sync of `x`, and the pod that the label in its copy names. */
  function RequestOf(s: State, x: ShellId): Request
    requires x in s.copies
  {
    Request(x, s.copies[x].image)
  }

  function CopiedPod(s: State, x: ShellId): PodId
    requires x in s.copies
  {
    PodId(x.ns, s.copies[x].pod)
  }

  /** The pod that the label of shell `x` names in the API server. */
  function LabelledPod(s: State, x: ShellId): PodId
    requires x in s.store.shells
  {
    PodId(x.ns, s.store.shells[x].pod)
  }

  predicate Labelled(s: State, x: ShellId) {
    x in s.store.shells && s.store.shells[x].pod != ""
  }

  /** The oldest queued key for a namespace and an image. */
  function FirstMatch(workers: seq<Key>, ns: string, image: string): Option<Key> {
    if workers == [] then None
    else if workers[0].pod.ns == ns && workers[0].image == image then Some(workers[0])
    else FirstMatch(workers[1..], ns, image)
  }

  function MatchFor(s: State, r: Request): Option<Key> {
    FirstMatch(s.workers, r.shell.ns, r.image)
  }

  /** The pod that a Borrow for shell `x` writes. */
  function BoundTo(v: Pod, x: ShellId): Pod { v.(owner := x.name, request := "", finalizer := false) }

  /** The pod that is created for a request: unready, idle, labelled with the shell that asked. */
  function CreatedFor(r: Request): Pod { Pod(r.image, "", r.shell.name, true, false, false, 0) }

  /** One accepted API write of pod `p`. */
  function WriteApi(api: Api, p: PodId, v: Pod): Api {
    var w := v.(rv := api.rev + 1);
    Api(api.rev + 1, api.pods[p := w], api.log + {(p, w)}, api.used + {p})
  }

  function Write(s: State, p: PodId, v: Pod): State {
    s.(api := WriteApi(s.api, p, v))
  }

  /** One accepted API write of shell `x`. */
  function WriteStore(store: Store, x: ShellId, c: Shell): Store {
    var w := c.(rv := store.rev + 1);
    Store(store.rev + 1, store.shells[x := w], store.log + {(x, w)})
  }

  /** The update of its own shell by a sync, which goes on with the version that comes back. */
  function WriteShell(s: State, x: ShellId, c: Shell): State {
    var store := WriteStore(s.store, x, c);
    s.(store := store, copies := s.copies[x := store.shells[x]])
  }

  function EndSync(s: State, x: ShellId, requeue: bool): State {
    s.(syncs := s.syncs - {x}, shellQueue := if requeue then s.shellQueue + {x} else s.shellQueue)
  }

  predicate AtSync(s: State, x: ShellId) {
    x in s.syncs && x in s.copies
  }

  /** An update of the sync's own copy is accepted only while the copy is current. */
  predicate Fits(s: State, x: ShellId)
    requires x in s.copies
  {
    x in s.store.shells && s.store.shells[x].rv == s.copies[x].rv
  }

  predicate EnvEnabled(s: State, e: EnvStep) {
    match e
    case SetReady(p, _) => p in s.api.pods
    case MarkDeleting(p) => p in s.api.pods
    case Vanish(p) => p in s.api.pods && s.api.pods[p].deleting && !s.api.pods[p].finalizer
    case Deliver(p, v) => (p, v) in s.api.log && (p in s.cache ==> s.cache[p].rv < v.rv)
    case DeliverGone(p) => p in s.cache && p !in s.api.pods
    case NewShell(x, _) => x !in s.store.shells && x.name != ""
    case EditShell(x, _) => x in s.store.shells
    case DropShell(x) => x in s.store.shells
    case DeliverShell(x, c) => (x, c) in s.store.log && (x in s.shellCache ==> s.shellCache[x].rv < c.rv)
    case DeliverShellGone(x) => x in s.shellCache && x !in s.store.shells
    case Enqueue(_) => true
    case Unqueue(k) => k.pod in s.api.pods ==> s.api.pods[k.pod].deleting
  }

  function DoEnv(s: State, e: EnvStep): State
    requires EnvEnabled(s, e)
  {
    match e
    case SetReady(p, ready) => Write(s, p, s.api.pods[p].(ready := ready))
    case MarkDeleting(p) => Write(s, p, s.api.pods[p].(deleting := true))
    case Vanish(p) => s.(api := s.api.(pods := s.api.pods - {p}))
    // the informer event reaches the pool's queue when the delivered object is idle
    case Deliver(p, v) => s.(cache := s.cache[p := v],
                             podQueue := if v.owner == "" then s.podQueue + {p} else s.podQueue)
    case DeliverGone(p) => s.(cache := s.cache - {p},
                              podQueue := if s.cache[p].owner == "" then s.podQueue + {p} else s.podQueue)
    case NewShell(x, image) => s.(store := WriteStore(s.store, x, Shell(image, "", 0)))
    case EditShell(x, image) => s.(store := WriteStore(s.store, x, s.store.shells[x].(image := image)))
    case DropShell(x) => s.(store := s.store.(shells := s.store.shells - {x}), waiting := s.waiting - {x})
    // the informer event reaches the controller's queue when the shell is new or its spec has changed
    case DeliverShell(x, c) => s.(shellCache := s.shellCache[x := c],
                                  shellQueue := if x in s.shellCache && s.shellCache[x].image == c.image
                                                then s.shellQueue else s.shellQueue + {x})
    case DeliverShellGone(x) => s.(shellCache := s.shellCache - {x}, shellQueue := s.shellQueue + {x})
    case Enqueue(x) => s.(shellQueue := s.shellQueue + {x})
    case Unqueue(k) => s.(workers := Delete(s.workers, k))
  }

  predicate RecEnabled(s: State, r: RecStep) {
    match r
    case Take(p) => s.rec.Resting? && p in s.podQueue
    case Fetch => s.rec.Taken?
    case Act => s.rec.Read?
    case Finalize(_) => s.rec.Finalizing?
  }

  /** What reconcile does with the lister copy it read: a deleted or unready worker leaves the queue, a ready one
      enters it.  The copy is not compared with the idle filter again. */
  function ReconcileAct(s: State): State
    requires s.rec.Read?
  {
    var p, v := s.rec.pod, s.rec.copy;
    if v.deleting then s.(workers := Delete(s.workers, KeyOf(p, v)), rec := Finalizing(p, v))
    else if !v.ready then s.(workers := Delete(s.workers, KeyOf(p, v)), rec := Resting)
    else s.(workers := Insert(s.workers, KeyOf(p, v)), rec := Resting)
  }

  /** One write drops the pool finalizer; there is none for a pod that is gone or has no finalizer. */
  function WithoutFinalizer(api: Api, p: PodId): Api {
    if p in api.pods && api.pods[p].finalizer then WriteApi(api, p, api.pods[p].(finalizer := false)) else api
  }

  /** Reconcile drops the pool finalizer from the newest version of a deleted pod.  After a refused update the key is
      queued again; after a failed read it is not. */
  function ReconcileFinalize(s: State, answer: Answer): State
    requires s.rec.Finalizing?
  {
    match answer
    case Done => s.(api := WithoutFinalizer(s.api, s.rec.pod), rec := Resting)
    case Refused => s.(podQueue := s.podQueue + {s.rec.pod}, rec := Resting)
    case Unread => s.(rec := Resting)
  }

  function DoRec(s: State, r: RecStep): State
    requires RecEnabled(s, r)
  {
    match r
    case Take(p) => s.(podQueue := s.podQueue - {p}, rec := Taken(p))
    case Fetch => s.(rec := if s.rec.pod in s.cache then Read(s.rec.pod, s.cache[s.rec.pod]) else Resting)
    case Act => ReconcileAct(s)
    case Finalize(answer) => ReconcileFinalize(s, answer)
  }

  /** The lister shows a worker that was created for this shell and not borrowed since. */
  predicate Listed(s: State, x: ShellId) {
    exists q :: q in s.cache && q.ns == x.ns && s.cache[q].request == x.name
  }

  predicate HandleEnabled(s: State, h: HandleStep) {
    match h
    case Scan(r) => s.handler.Waiting? && r in s.requests
    case LookUp => s.handler.Scanned?
    case Exists => s.handler.Found? && s.handler.request.shell in s.store.shells
    case Gone => s.handler.Found? && s.handler.request.shell !in s.store.shells
    case Skip => s.handler.Found? || s.handler.Creating?
    case Notify => s.handler.Known?
    case Drop => s.handler.Dropping?
    case List => s.handler.Lacking?
    case Create(p) => s.handler.Creating? && p.ns == s.handler.request.shell.ns && p.name != "" && p !in s.api.used
  }

  function DoHandle(s: State, h: HandleStep): State
    requires HandleEnabled(s, h)
  {
    match h
    case Scan(r) => s.(handler := Scanned(r, MatchFor(s, r)))
    case LookUp =>
      var k := s.handler.pick;
      s.(handler := if k.Some? && k.value.pod in s.cache then Found(s.handler.request) else Lacking(s.handler.request))
    case Exists => s.(handler := Known(s.handler.request))
    case Gone => s.(handler := Dropping(s.handler.request))
    case Skip => s.(handler := Waiting)
    case Notify => s.(shellQueue := s.shellQueue + {s.handler.request.shell}, handler := Dropping(s.handler.request))
    case Drop => s.(requests := Delete(s.requests, s.handler.request), handler := Waiting)
    case List => s.(handler := if Listed(s, s.handler.request.shell) then Waiting else Creating(s.handler.request))
    case Create(p) => Write(s, p, CreatedFor(s.handler.request)).(handler := Waiting)
  }

  predicate SyncEnabled(s: State, x: ShellId, a: SyncStep) {
    if a.Start? then x in s.shellQueue && x !in s.syncs
    else
      && AtSync(s, x)
      && match a
         case Start => true
         case Ensure(_) => s.syncs[x].Deciding? && Fits(s, x)
         case Check => s.syncs[x].Deciding?
         case End(_) => s.syncs[x].Deciding? || s.syncs[x].Wanting? || s.syncs[x].Serving? || s.syncs[x].Bound?
         case Pick => s.syncs[x].Wanting?
         case Look => s.syncs[x].Picked?
         case Ask => s.syncs[x].Missing?
         case Update(ok) => s.syncs[x].Matched? && (ok ==> Writable(s.api, s.syncs[x].pod, s.syncs[x].copy))
         case Dequeue => s.syncs[x].Updated?
         case Label(ok) => s.syncs[x].Borrowed? && (ok ==> Fits(s, x))
         case BackUpdate => s.syncs[x].Bound? && Freeable(s, CopiedPod(s, x))
         case BackAdd => s.syncs[x].Returned? && !s.syncs[x].queued
         case BackDelete(_) => s.syncs[x].Bound?
         case Unlabel(ok, _) =>
           (s.syncs[x].Detached? || (s.syncs[x].Returned? && s.syncs[x].queued)) && (ok ==> Fits(s, x))
  }

  /** An update based on `v` is accepted. */
  predicate Writable(api: Api, p: PodId, v: Pod) { p in api.pods && api.pods[p].rv == v.rv }

  /** Back sets idle a ready pod whose listed version is current; the API server refuses to add a finalizer to an
      object that is being deleted. */
  predicate Freeable(s: State, p: PodId) {
    && p in s.cache && s.cache[p].ready && Writable(s.api, p, s.cache[p])
    && (s.api.pods[p].deleting ==> s.api.pods[p].finalizer)
  }

  function DoSync(s: State, x: ShellId, a: SyncStep): State
    requires SyncEnabled(s, x, a)
  {
    match a
    case Start =>
      var s' := s.(shellQueue := s.shellQueue - {x}, waiting := s.waiting - {x});
      if x in s.shellCache
      then s'.(syncs := s.syncs[x := Deciding], copies := s.copies[x := s.shellCache[x]]) else s'
    case Ensure(image) => WriteShell(s, x, s.store.shells[x].(image := image))
    case Check =>
      s.(syncs := s.syncs[x := if s.copies[x].pod != "" && CopiedPod(s, x) in s.cache then Bound else Wanting])
    case End(requeue) => EndSync(s, x, requeue)
    case Pick =>
      var k := MatchFor(s, RequestOf(s, x));
      s.(syncs := s.syncs[x := if k.Some? then Picked(k.value) else Missing])
    case Look =>
      var p := s.syncs[x].key.pod;
      if p in s.cache then s.(syncs := s.syncs[x := Matched(p, s.cache[p])]) else EndSync(s, x, true)
    case Ask =>
      var r := RequestOf(s, x);
      EndSync(s, x, false).(requests := Insert(s.requests, r),
                            waiting := if x in s.store.shells then s.waiting[x := r] else s.waiting)
    case Update(ok) =>
      var p, v := s.syncs[x].pod, s.syncs[x].copy;
      if !ok then EndSync(s, x, true)
      else Write(s, p, BoundTo(v, x)).(syncs := s.syncs[x := Updated(KeyOf(p, v))])
    case Dequeue =>
      var k := s.syncs[x].key;
      s.(workers := Delete(s.workers, k), syncs := s.syncs[x := Borrowed(k)])
    case Label(ok) =>
      if !ok then EndSync(s, x, true)
      else WriteShell(s, x, s.store.shells[x].(pod := s.syncs[x].key.pod.name)).(syncs := s.syncs[x := Serving])
    case BackUpdate =>
      var p := CopiedPod(s, x);
      Write(s, p, s.api.pods[p].(owner := "", finalizer := true))
      .(syncs := s.syncs[x := Returned(KeyOf(p, s.cache[p]), false)])
    case BackAdd =>
      var k := s.syncs[x].key;
      s.(workers := Insert(s.workers, k), syncs := s.syncs[x := Returned(k, true)])
    // Back deleted the pod, or failed, or found it no longer listed
    case BackDelete(ok) =>
      var p := CopiedPod(s, x);
      (if ok && p in s.api.pods then Write(s, p, s.api.pods[p].(deleting := true)) else s)
      .(syncs := s.syncs[x := Detached])
    case Unlabel(ok, more) =>
      if !ok then EndSync(s, x, true)
      else
        var s' := WriteShell(s, x, s.store.shells[x].(pod := ""));
        if more then s'.(syncs := s.syncs[x := Wanting]) else EndSync(s', x, false)
  }

  predicate Enabled(s: State, step: Step) {
    match step
    case Env(e) => EnvEnabled(s, e)
    case Rec(r) => RecEnabled(s, r)
    case Handle(h) => HandleEnabled(s, h)
    case Sync(x, a) => SyncEnabled(s, x, a)
  }

  function Do(s: State, step: Step): State
    requires Enabled(s, step)
  {
    match step
    case Env(e) => DoEnv(s, e)
    case Rec(r) => DoRec(s, r)
    case Handle(h) => DoHandle(s, h)
    case Sync(x, a) => DoSync(s, x, a)
  }

  predicate Init(s: State) {
    && s.api == Api(0, map[], {}, {}) && s.cache == map[] && s.podQueue == {}
    && s.workers == [] && s.requests == [] && s.shellQueue == {} && s.store == Store(0, map[], {})
    && s.shellCache == map[] && s.syncs == map[] && s.copies == map[]
    && s.rec == Resting && s.handler == Waiting && s.waiting == map[]
  }

  /** `steps` leads from `s` to `s'`. */
  ghost predicate Run(s: State, steps: seq<Step>, s': State)
    decreases |steps|
  {
    if steps == [] then s == s'
    else Enabled(s, steps[0]) && Run(Do(s, steps[0]), steps[1..], s')
  }

  /** `hyp` holds of every step of the run. */
  ghost predicate RunUnder(hyp: (State, Step) -> bool, s: State, steps: seq<Step>, s': State)
    decreases |steps|
  {
    if steps == [] then s == s'
    else Enabled(s, steps[0]) && hyp(s, steps[0]) && RunUnder(hyp, Do(s, steps[0]), steps[1..], s')
  }

  lemma {:induction false} RunsConcat(hyp: (State, Step) -> bool, s: State, a: seq<Step>, m: State, b: seq<Step>,
                                      t: State)
    requires RunUnder(hyp, s, a, m) && RunUnder(hyp, m, b, t)
    ensures RunUnder(hyp, s, a + b, t)
    decreases |a|
  {
    if a == [] {
      assert a + b == b;
    } else {
      RunsConcat(hyp, Do(s, a[0]), a[1..], m, b, t);
      assert (a + b)[1..] == a[1..] + b;
    }
  }
}
