/** Who changes what: for every step of every actor, what becomes of each field of a worker, of the pod label, and of
    each queue.  With them, three theorems over all runs: a bound worker has lost its request label, a borrowed worker
    has the namespace and image that were asked for, and no idle worker is forgotten. */
module PoolEffects {
  import opened OrderedSet
  import opened PoolProtocol
  import opened PoolInvariants
  import opened PoolBinding
  import opened PoolQueue
  import opened PoolRuns

  // ----- the fields of a worker -----

  lemma StepApi(s: State, step: Step)
    requires Enabled(s, step)
    ensures Do(s, step).api == if step.Env? && step.e.Vanish? then s.api.(pods := s.api.pods - {step.e.p})
                               else Written(s.api, WriteOf(s, step))
  {
    match step
    case Env(e) => EnvApi(s, e);
    case Rec(r) => RecApi(s, r);
    case Handle(h) => HandleApi(s, h);
    case Sync(x, a) => SyncApi(s, x, a);
  }

  /** Only the request handler makes workers, unready and idle, with the label of the shell that asked; only the API
      server's clean-up ends them. */
  lemma PodsComeAndGo(s: State, step: Step, p: PodId)
    requires Base(s) && Enabled(s, step)
    ensures p !in s.api.pods && p in Do(s, step).api.pods <==> step == Handle(Create(p))
    ensures p in s.api.pods && p !in Do(s, step).api.pods <==> step == Env(Vanish(p))
    ensures step == Handle(Create(p)) ==>
              var r := s.handler.request;
              p.ns == r.shell.ns
              && Do(s, step).api.pods[p] == Pod(r.image, "", r.shell.name, true, false, false, s.api.rev + 1)
  {
    StepApi(s, step);
    if WriteOf(s, step).Some? { WritesAreLegal(s, step); }
    if p in s.api.pods { Current(s.api, p); }
  }

  // What every step makes of every field of a worker.

  /** The outside world changes readiness and the deletion mark. */
  lemma EnvFields(s: State, e: EnvStep, p: PodId)
    requires EnvEnabled(s, e) && p in s.api.pods && !(e.Vanish? && e.p == p)
    ensures var v := s.api.pods[p];
            var w := v.(deleting := v.deleting || e == MarkDeleting(p), ready := if e.SetReady? && e.p == p then e.ready
                                                                                else v.ready);
            p in DoEnv(s, e).api.pods
            && (DoEnv(s, e).api.pods[p] == w || DoEnv(s, e).api.pods[p] == w.(rv := s.api.rev + 1))
  {
    EnvApi(s, e);
  }

  /** Reconcile takes the finalizer off, and the handler changes nothing. */
  lemma RecFields(s: State, r: RecStep, p: PodId)
    requires RecEnabled(s, r) && p in s.api.pods
    ensures var v := s.api.pods[p];
            var w := v.(finalizer := v.finalizer && !(r == Finalize(Done) && s.rec.pod == p));
            p in DoRec(s, r).api.pods
            && (DoRec(s, r).api.pods[p] == w || DoRec(s, r).api.pods[p] == w.(rv := s.api.rev + 1))
  {
    RecApi(s, r);
  }

  lemma HandleFields(s: State, h: HandleStep, p: PodId)
    requires Base(s) && HandleEnabled(s, h) && p in s.api.pods
    ensures p in DoHandle(s, h).api.pods && DoHandle(s, h).api.pods[p] == s.api.pods[p]
  {
    Current(s.api, p);
    HandleApi(s, h);
  }

  /** A Borrow takes the request label off, whoever the worker was made for, and works on the current version although it
      writes a copy. */
  lemma BorrowFields(s: State, x: ShellId)
    requires Base(s) && SyncEnabled(s, x, Update(true))
    ensures var p := s.syncs[x].pod;
            && p in s.api.pods
            && var v := s.api.pods[p];
               DoSync(s, x, Update(true)).api.pods
               == s.api.pods[p := Pod(v.image, x.name, "", false, v.deleting, v.ready, s.api.rev + 1)]
  {
    var p := s.syncs[x].pod;
    assert (p, s.syncs[x].copy) in s.api.log;
    Current(s.api, p);
    SyncApi(s, x, Update(true));
    BoundPods(s.api, p, s.syncs[x].copy, x);
  }

  /** A Back frees the worker or marks it for deletion, and no other step of a sync touches a worker. */
  lemma SyncFields(s: State, x: ShellId, a: SyncStep)
    requires SyncEnabled(s, x, a) && a != Update(true)
    ensures a.BackUpdate? ==>
              var p := PodId(x.ns, s.copies[x].pod);
              var v := s.api.pods[p];
              DoSync(s, x, a).api.pods
              == s.api.pods[p := Pod(v.image, "", v.request, true, v.deleting, v.ready, s.api.rev + 1)]
    ensures a == BackDelete(true) && PodId(x.ns, s.copies[x].pod) in s.api.pods ==>
              var p := PodId(x.ns, s.copies[x].pod);
              var v := s.api.pods[p];
              DoSync(s, x, a).api.pods
              == s.api.pods[p := Pod(v.image, v.owner, v.request, v.finalizer, true, v.ready, s.api.rev + 1)]
    ensures !a.BackUpdate? && !(a == BackDelete(true) && PodId(x.ns, s.copies[x].pod) in s.api.pods) ==>
              DoSync(s, x, a).api.pods == s.api.pods
  {
    SyncApi(s, x, a);
  }

  /** A Back can free exactly a ready worker whose current version it sees, which still has its finalizer if it is being
      deleted. */
  lemma FreesIff(s: State, x: ShellId)
    requires Base(s) && AtSync(s, x) && s.syncs[x].Bound?
    ensures var p := PodId(x.ns, s.copies[x].pod);
            SyncEnabled(s, x, BackUpdate)
            <==> p in s.cache && p in s.api.pods && s.cache[p] == s.api.pods[p] && s.cache[p].ready
                 && (s.cache[p].deleting ==> s.cache[p].finalizer)
  {
    var p := PodId(x.ns, s.copies[x].pod);
    if p in s.cache && p in s.api.pods {
      assert (p, s.cache[p]) in s.api.log;
      Current(s.api, p);
    }
  }

  /** The same for the pod label and the image of a shell. */
  lemma ShellFields(s: State, step: Step, x: ShellId)
    requires Enabled(s, step) && x in s.store.shells && x in Do(s, step).store.shells
    ensures var c, d := s.store.shells[x], Do(s, step).store.shells[x];
            && d.pod == (if step == Sync(x, Label(true)) then s.syncs[x].key.pod.name
                         else if step.Sync? && step.x == x && step.a.Unlabel? && step.a.ok then "" else c.pod)
            && d.image == (if step.Env? && step.e.EditShell? && step.e.x == x then step.e.image
                           else if step.Sync? && step.x == x && step.a.Ensure? then step.a.image else c.image)
  {
    match step
    case Env(e) => EnvShellFields(s, e, x);
    case Rec(r) => RecFrame(s, r);
    case Handle(h) => HandleFrame(s, h);
    case Sync(y, a) => SyncShellFields(s, y, a, x);
  }

  lemma EnvShellFields(s: State, e: EnvStep, x: ShellId)
    requires EnvEnabled(s, e) && x in s.store.shells && x in DoEnv(s, e).store.shells
    ensures var c, d := s.store.shells[x], DoEnv(s, e).store.shells[x];
            d.pod == c.pod && d.image == if e.EditShell? && e.x == x then e.image else c.image
  {
    match e
    case NewShell(_, _) =>
    case EditShell(_, _) =>
    case DropShell(_) =>
    case _ =>
  }

  lemma SyncShellFields(s: State, y: ShellId, a: SyncStep, x: ShellId)
    requires SyncEnabled(s, y, a) && x in s.store.shells && x in DoSync(s, y, a).store.shells
    ensures var c, d := s.store.shells[x], DoSync(s, y, a).store.shells[x];
            && d.pod == (if y == x && a == Label(true) then s.syncs[x].key.pod.name
                         else if y == x && a.Unlabel? && a.ok then "" else c.pod)
            && d.image == if y == x && a.Ensure? then a.image else c.image
  {
    match a
    case Ensure(_) =>
    case Label(_) =>
    case Unlabel(_, _) =>
    case _ => SyncFrame(s, y, a);
  }

  // ----- the queues -----

  /** A key enters the worker queue, at its end, exactly when reconcile sees a ready pod that is not being deleted or
      when Back queues the worker it freed. */
  lemma WorkerQueueGains(s: State, step: Step, k: Key)
    requires Enabled(s, step) && Distinct(s.workers) && k !in s.workers
    ensures k in Do(s, step).workers <==>
            || (step == Rec(Act) && s.rec.copy.ready && !s.rec.copy.deleting && k == Key(s.rec.pod, s.rec.copy.image))
            || (step.Sync? && step.a.BackAdd? && k == s.syncs[step.x].key)
    ensures k in Do(s, step).workers ==> Do(s, step).workers == s.workers + [k]
  {
    match step
    case Env(e) => EnvKeepsWorkers(s, e);
    case Rec(r) => RecWorkers(s, r, k);
    case Handle(h) => HandleFrame(s, h);
    case Sync(x, a) => SyncWorkers(s, x, a, k);
  }

  /** It leaves exactly when scale-in takes it off, when reconcile sees its pod deleted or unready, or when the Borrow that
      bound its pod dequeues it. */
  lemma WorkerQueueLoses(s: State, step: Step, k: Key)
    requires Enabled(s, step) && Distinct(s.workers) && k in s.workers
    ensures k !in Do(s, step).workers <==>
            || step == Env(Unqueue(k))
            || (step == Rec(Act) && (s.rec.copy.deleting || !s.rec.copy.ready) && k == Key(s.rec.pod, s.rec.copy.image))
            || (step.Sync? && step.a.Dequeue? && k == s.syncs[step.x].key)
  {
    match step
    case Env(e) => if e.Unqueue? { DeleteKeepsDistinct(s.workers, e.k); }
    case Rec(r) => RecWorkers(s, r, k);
    case Handle(h) => HandleFrame(s, h);
    case Sync(x, a) => SyncWorkers(s, x, a, k);
  }

  lemma RecWorkers(s: State, r: RecStep, k: Key)
    requires RecEnabled(s, r) && Distinct(s.workers)
    ensures k in DoRec(s, r).workers <==>
            if r.Act? && k == Key(s.rec.pod, s.rec.copy.image) then s.rec.copy.ready && !s.rec.copy.deleting
            else k in s.workers
    ensures k !in s.workers && k in DoRec(s, r).workers ==> DoRec(s, r).workers == s.workers + [k]
  {
    match r
    case Take(_) =>
    case Fetch =>
    case Act =>
      InsertKeepsDistinct(s.workers, KeyOf(s.rec.pod, s.rec.copy));
      DeleteKeepsDistinct(s.workers, KeyOf(s.rec.pod, s.rec.copy));
    case Finalize(_) =>
  }

  lemma SyncWorkers(s: State, x: ShellId, a: SyncStep, k: Key)
    requires SyncEnabled(s, x, a) && Distinct(s.workers)
    ensures k in DoSync(s, x, a).workers <==>
            if (a.Dequeue? || a.BackAdd?) && k == s.syncs[x].key then a.BackAdd? else k in s.workers
    ensures k !in s.workers && k in DoSync(s, x, a).workers ==> DoSync(s, x, a).workers == s.workers + [k]
  {
    SyncQueues(s, x, a);
    if a.Dequeue? { DeleteKeepsDistinct(s.workers, s.syncs[x].key); }
    if a.BackAdd? { InsertKeepsDistinct(s.workers, s.syncs[x].key); }
  }

  /** A request enters the queue exactly when a Borrow found no worker, and leaves it exactly when the handler drops it. */
  lemma RequestQueueChanges(s: State, step: Step, r: Request)
    requires Enabled(s, step) && Distinct(s.requests)
    ensures r in Do(s, step).requests <==>
            || (step == Sync(r.shell, Ask) && r.image == s.copies[r.shell].image)
            || (r in s.requests && !(step == Handle(Drop) && s.handler.request == r))
    ensures r !in s.requests && r in Do(s, step).requests ==> Do(s, step).requests == s.requests + [r]
  {
    match step
    case Env(e) => EnvFrame(s, e);
    case Rec(q) => RecFrame(s, q);
    case Handle(h) => HandleFrame(s, h); if h.Drop? { DeleteKeepsDistinct(s.requests, s.handler.request); }
    case Sync(x, a) => SyncQueues(s, x, a); if a.Ask? { InsertKeepsDistinct(s.requests, RequestOf(s, x)); }
  }

  /** The sync of a shell ends with an error: its worker is no longer listed, or a write is refused. */
  predicate FailsIn(s: State, step: Step, x: ShellId)
    requires Enabled(s, step)
  {
    step.Sync? && step.x == x &&
    match step.a
    case Look => s.syncs[x].key.pod !in s.cache
    case Update(ok) => !ok
    case Label(ok) => !ok
    case Unlabel(ok, _) => !ok
    case _ => false
  }

  /** A shell is put on the controller queue exactly by an event of its own, by the handler that found a worker for it,
      or at the end of a sync that failed or is to come back; only the start of its sync takes it off. */
  lemma ControllerQueueChanges(s: State, step: Step, x: ShellId)
    requires Enabled(s, step)
    ensures x in Do(s, step).shellQueue <==>
            || (x in s.shellQueue && step != Sync(x, Start))
            || step == Env(Enqueue(x)) || step == Env(DeliverShellGone(x)) || step == Sync(x, End(true))
            || (step.Env? && step.e.DeliverShell? && step.e.x == x
                && (x in s.shellCache ==> s.shellCache[x].image != step.e.c.image))
            || (step == Handle(Notify) && s.handler.request.shell == x)
            || FailsIn(s, step, x)
  {
    match step
    case Env(e) => EnvControllerQueue(s, e, x);
    case Rec(r) => RecFrame(s, r);
    case Handle(h) => HandleControllerQueue(s, h, x);
    case Sync(y, a) => SyncControllerQueue(s, y, a, x);
  }

  lemma EnvControllerQueue(s: State, e: EnvStep, x: ShellId)
    requires EnvEnabled(s, e)
    ensures x in DoEnv(s, e).shellQueue <==>
            || x in s.shellQueue || e == Enqueue(x) || e == DeliverShellGone(x)
            || (e.DeliverShell? && e.x == x && (x in s.shellCache ==> s.shellCache[x].image != e.c.image))
  {
    match e
    case SetReady(_, _) =>
    case _ =>
  }

  lemma HandleControllerQueue(s: State, h: HandleStep, x: ShellId)
    requires HandleEnabled(s, h)
    ensures x in DoHandle(s, h).shellQueue <==> x in s.shellQueue || (h.Notify? && s.handler.request.shell == x)
  {
    match h
    case Scan(_) =>
    case _ =>
  }

  lemma SyncControllerQueue(s: State, y: ShellId, a: SyncStep, x: ShellId)
    requires SyncEnabled(s, y, a)
    ensures x in DoSync(s, y, a).shellQueue <==>
            || (x in s.shellQueue && !(y == x && a.Start?)) || (y == x && a == End(true)) || FailsIn(s, Sync(y, a), x)
  {
    match a
    case Start =>
    case _ =>
  }

  /** Reconcile hears of a pod exactly when the lister gets or forgets an idle version of it, or after a refused
      finalizer write. */
  lemma PodQueueChanges(s: State, step: Step, p: PodId)
    requires Enabled(s, step)
    ensures p in Do(s, step).podQueue <==>
            || (p in s.podQueue && step != Rec(Take(p)))
            || (step.Env? && step.e.Deliver? && step.e.p == p && step.e.v.owner == "")
            || (step == Env(DeliverGone(p)) && s.cache[p].owner == "")
            || (step == Rec(Finalize(Refused)) && s.rec.pod == p)
  {
    match step
    case Env(e) => EnvPodQueue(s, e, p);
    case Rec(r) => RecPodQueue(s, r, p);
    case Handle(h) => HandleFrame(s, h);
    case Sync(x, a) => SyncFrame(s, x, a);
  }

  lemma EnvPodQueue(s: State, e: EnvStep, p: PodId)
    requires EnvEnabled(s, e)
    ensures p in DoEnv(s, e).podQueue <==>
            || p in s.podQueue
            || (e.Deliver? && e.p == p && e.v.owner == "")
            || (e == DeliverGone(p) && s.cache[p].owner == "")
  {
    match e
    case SetReady(_, _) =>
    case _ =>
  }

  lemma RecPodQueue(s: State, r: RecStep, p: PodId)
    requires RecEnabled(s, r)
    ensures p in DoRec(s, r).podQueue <==>
            (p in s.podQueue && r != Take(p)) || (r == Finalize(Refused) && s.rec.pod == p)
  {
    match r
    case Act => ActFrame(s);
    case _ =>
  }

  // ----- the request label of a bound worker -----

  /** No version that belongs to a shell carries a request label. */
  ghost predicate OwnedUnrequested(log: Log) {
    forall p, v :: (p, v) in log && v.owner != "" ==> v.request == ""
  }

  lemma OwnedUnrequestedKept(s: State, step: Step)
    requires Base(s) && OwnedUnrequested(s.api.log) && Enabled(s, step)
    ensures OwnedUnrequested(Do(s, step).api.log)
  {
    StepApi(s, step);
    if WriteOf(s, step).Some? { WriteIsUnrequested(s, step); }
  }

  lemma WriteIsUnrequested(s: State, step: Step)
    requires Newest(s.api.log, s.api.pods) && OwnedUnrequested(s.api.log) && Enabled(s, step) && WriteOf(s, step).Some?
    ensures var v := WriteOf(s, step).value.1; v.owner != "" ==> v.request == ""
  {
    assert forall p :: p in s.api.pods ==> (p, s.api.pods[p]) in s.api.log;
  }

  lemma {:induction false} RunKeepsOwnedUnrequested(s: State, steps: seq<Step>, t: State)
    requires Run(s, steps, t) && Base(s) && OwnedUnrequested(s.api.log)
    ensures Base(t) && OwnedUnrequested(t.api.log)
    decreases |steps|
  {
    if steps != [] {
      BaseKept(s, steps[0]);
      OwnedUnrequestedKept(s, steps[0]);
      RunKeepsOwnedUnrequested(Do(s, steps[0]), steps[1..], t);
    }
  }

  /** In every reachable state no version of a pod, past or present, has both an owner and a request label; so the
      lister never takes a bound worker for one that still waits for the shell it was made for. */
  lemma BoundWorkersAreNotListed(s: State, steps: seq<Step>, t: State, p: PodId, v: Pod)
    requires Init(s) && Run(s, steps, t) && v.owner != ""
    requires (p, v) in t.api.log || (p in t.api.pods && v == t.api.pods[p]) || (p in t.cache && v == t.cache[p])
    ensures v.request == ""
  {
    RunKeepsOwnedUnrequested(s, steps, t);
    if p in t.api.pods { Current(t.api, p); }
  }

  // ----- a borrowed worker is the one that was asked for -----

  predicate Asked(x: ShellId, c: Shell, p: PodId, image: string) { p.ns == x.ns && image == c.image }

  /** What the sync of a shell holds fits its request. */
  ghost predicate SyncFits(api: Api, x: ShellId, c: Shell, at: Progress) {
    && (HasKey(at) ==> KeyNamed(api, at.key))
    && (at.Picked? || at.Updated? || at.Borrowed? ==> Asked(x, c, at.key.pod, at.key.image))
    && (at.Matched? ==> Asked(x, c, at.pod, at.copy.image))
  }

  ghost predicate KeysFit(s: State) {
    && (forall k :: k in s.workers ==> KeyNamed(s.api, k))
    && (forall x :: x in s.syncs ==> x in s.copies && SyncFits(s.api, x, s.copies[x], s.syncs[x]))
  }

  lemma NamedAfter(s: State, step: Step, k: Key)
    requires Base(s) && Enabled(s, step) && KeyNamed(s.api, k)
    ensures KeyNamed(Do(s, step).api, k)
  {
    StepApi(s, step);
    var w := WriteOf(s, step);
    if w.Some? {
      WritesAreLegal(s, step);
      KeyNamedKept(s.api, w.value.0, w.value.1, k);
    }
  }

  lemma SyncFitsAfter(s: State, step: Step, x: ShellId, c: Shell, at: Progress)
    requires Base(s) && Enabled(s, step) && SyncFits(s.api, x, c, at)
    ensures SyncFits(Do(s, step).api, x, c, at)
  {
    if HasKey(at) { NamedAfter(s, step, at.key); }
  }

  /** A step that leads to something a sync holds leaves its copy alone. */
  lemma OwnCopy(s: State, x: ShellId, a: SyncStep)
    requires SyncEnabled(s, x, a) && Next(s, x, a).Some?
    ensures x in DoSync(s, x, a).copies
    ensures Next(s, x, a).value.Matched? || HasKey(Next(s, x, a).value) ==> DoSync(s, x, a).copies == s.copies
  {
    match a
    case Start =>
    case Ensure(_) =>
    case Label(_) =>
    case Unlabel(_, _) =>
    case _ =>
  }

  /** What a sync holds after one of its own steps. */
  lemma NextFits(s: State, x: ShellId, a: SyncStep, n: Progress)
    requires Base(s) && KeysFit(s) && SyncEnabled(s, x, a) && AtSync(s, x) && Next(s, x, a) == Some(n)
    ensures SyncFits(s.api, x, s.copies[x], n)
  {
    assert SyncFits(s.api, x, s.copies[x], s.syncs[x]);
    match a
    case Pick => FirstMatchIs(s.workers, x.ns, s.copies[x].image);
    case Look => assert (s.syncs[x].key.pod, s.cache[s.syncs[x].key.pod]) in s.api.log;
    case Update(_) => VersionNamesKey(s.api, s.syncs[x].pod, s.syncs[x].copy);
    case BackUpdate => VersionNamesKey(s.api, CopiedPod(s, x), s.cache[CopiedPod(s, x)]);
    case _ =>
  }

  /** The sync of `x` after one of its own steps. */
  lemma OwnSyncFits(s: State, x: ShellId, a: SyncStep)
    requires Base(s) && KeysFit(s) && SyncEnabled(s, x, a) && Next(s, x, a).Some?
    ensures var c := DoSync(s, x, a).copies; x in c && SyncFits(s.api, x, c[x], Next(s, x, a).value)
  {
    OwnCopy(s, x, a);
    if AtSync(s, x) { NextFits(s, x, a, Next(s, x, a).value); }
  }

  /** A sync writes to its own copy only. */
  lemma CopiesElsewhere(s: State, x: ShellId, a: SyncStep, y: ShellId)
    requires SyncEnabled(s, x, a) && y != x && y in s.copies
    ensures y in DoSync(s, x, a).copies && DoSync(s, x, a).copies[y] == s.copies[y]
  {
    match a
    case Start =>
    case Ensure(_) =>
    case Label(_) =>
    case Unlabel(_, _) =>
    case _ =>
  }

  lemma SyncsFitAfter(s: State, x: ShellId, a: SyncStep, y: ShellId)
    requires Base(s) && KeysFit(s) && SyncEnabled(s, x, a) && y in DoSync(s, x, a).syncs
    ensures var t := DoSync(s, x, a); y in t.copies && SyncFits(t.api, y, t.copies[y], t.syncs[y])
  {
    SyncProgress(s, x, a);
    if y == x {
      OwnSyncFits(s, x, a);
      SyncFitsAfter(s, Sync(x, a), x, DoSync(s, x, a).copies[x], Next(s, x, a).value);
    } else {
      CopiesElsewhere(s, x, a, y);
      SyncFitsAfter(s, Sync(x, a), y, s.copies[y], s.syncs[y]);
    }
  }

  lemma KeysFitKept(s: State, step: Step)
    requires Base(s) && KeysFit(s) && Enabled(s, step)
    ensures KeysFit(Do(s, step))
  {
    var t := Do(s, step);
    forall k | k in t.workers ensures KeyNamed(t.api, k) {
      if k !in s.workers {
        WorkerQueueGains(s, step, k);
        if step.Rec? { VersionNamesKey(s.api, s.rec.pod, s.rec.copy); }
      }
      NamedAfter(s, step, k);
    }
    forall y | y in t.syncs ensures y in t.copies && SyncFits(t.api, y, t.copies[y], t.syncs[y]) {
      match step
      case Env(e) => EnvFrame(s, e); SyncFitsAfter(s, step, y, s.copies[y], s.syncs[y]);
      case Rec(r) => RecFrame(s, r); SyncFitsAfter(s, step, y, s.copies[y], s.syncs[y]);
      case Handle(h) => HandleFrame(s, h); SyncFitsAfter(s, step, y, s.copies[y], s.syncs[y]);
      case Sync(x, a) => SyncsFitAfter(s, x, a, y);
    }
  }

  lemma {:induction false} RunKeepsFit(s: State, steps: seq<Step>, t: State)
    requires Run(s, steps, t) && Base(s) && KeysFit(s)
    ensures Base(t) && KeysFit(t)
    decreases |steps|
  {
    if steps != [] {
      BaseKept(s, steps[0]);
      KeysFitKept(s, steps[0]);
      RunKeepsFit(Do(s, steps[0]), steps[1..], t);
    }
  }

  /** In every run, with no hypothesis, the worker that a Borrow has bound is in the namespace of its shell and runs the
      image that the sync asked for, in every version that it ever had. */
  lemma BorrowedWorkerFits(s: State, steps: seq<Step>, t: State, x: ShellId)
    requires Init(s) && Run(s, steps, t) && x in t.syncs && (t.syncs[x].Updated? || t.syncs[x].Borrowed?)
    ensures var p := t.syncs[x].key.pod;
            && x in t.copies && p.ns == x.ns
            && (forall v :: (p, v) in t.api.log ==> v.image == t.copies[x].image)
            && (p in t.api.pods ==> t.api.pods[p].image == t.copies[x].image)
  {
    RunKeepsFit(s, steps, t);
    assert SyncFits(t.api, x, t.copies[x], t.syncs[x]);
    var p := t.syncs[x].key.pod;
    if p in t.api.pods { Current(t.api, p); }
  }

  // ----- no idle worker is forgotten -----

  /** The lister shows the pod as it is, and it is idle, ready and not being deleted. */
  predicate Available(s: State, p: PodId) {
    && p in s.api.pods && p in s.cache && s.cache[p] == s.api.pods[p]
    && s.cache[p].owner == "" && s.cache[p].ready && !s.cache[p].deleting
  }

  /** Reconcile has yet to look at the pod as the lister shows it. */
  predicate Pending(s: State, p: PodId) {
    || p in s.podQueue
    || (s.rec.Taken? && s.rec.pod == p)
    || (s.rec.Read? && s.rec.pod == p && p in s.cache && s.rec.copy == s.cache[p])
  }

  ghost predicate Remembered(s: State) {
    && (forall p :: Available(s, p) ==> Key(p, s.cache[p].image) in s.workers || Pending(s, p))
    && (s.rec.Read? && s.rec.pod in s.cache && s.cache[s.rec.pod].owner == "" && s.rec.copy != s.cache[s.rec.pod] ==>
          s.rec.pod in s.podQueue)
  }

  /** A pod that was not available becomes so only when its newest version reaches the lister. */
  lemma BecomesAvailable(s: State, step: Step, p: PodId)
    requires Base(s) && Enabled(s, step) && Available(Do(s, step), p)
    ensures (Available(s, p) && Do(s, step).cache[p] == s.cache[p] && Do(s, step).api.pods[p] == s.api.pods[p])
            || step == Env(Deliver(p, Do(s, step).cache[p]))
  {
    if step.Env? && (step.e.Deliver? || step.e.DeliverGone?) {
      assert Do(s, step).api == s.api;
    } else {
      SameCache(s, step);
      CopyIsOld(s, p);
      WrittenIsNew(s, step, p);
    }
  }

  lemma WrittenIsNew(s: State, step: Step, p: PodId)
    requires Enabled(s, step) && p in Do(s, step).api.pods
    ensures (p in s.api.pods && Do(s, step).api.pods[p] == s.api.pods[p]) || Do(s, step).api.pods[p].rv == s.api.rev + 1
  {
    StepApi(s, step);
  }

  lemma EnvCacheFrame(s: State, e: EnvStep)
    requires EnvEnabled(s, e) && !e.Deliver? && !e.DeliverGone?
    ensures DoEnv(s, e).cache == s.cache && DoEnv(s, e).podQueue == s.podQueue
  {
    match e
    case SetReady(_, _) =>
    case _ =>
  }

  lemma CopyIsOld(s: State, p: PodId)
    requires Base(s)
    ensures p in s.cache ==> s.cache[p].rv <= s.api.rev
  {
    if p in s.cache { assert (p, s.cache[p]) in s.api.log; }
  }

  /** Its key leaves the queue only in the hands of reconcile, and then on an older copy. */
  lemma AvailableKeyStays(s: State, step: Step, p: PodId)
    requires Base(s) && Binding(s) && Enabled(s, step) && Available(s, p)
    requires Key(p, s.cache[p].image) in s.workers && Key(p, s.cache[p].image) !in Do(s, step).workers
    ensures step == Rec(Act) && s.rec.pod == p && s.rec.copy != s.cache[p]
  {
    if step.Sync? && step.a.Dequeue? { DequeuedPodIsOwned(s, step.x); }
    WorkerQueueLoses(s, step, Key(p, s.cache[p].image));
  }

  lemma DequeuedPodIsOwned(s: State, x: ShellId)
    requires Base(s) && Binding(s) && SyncEnabled(s, x, Dequeue)
    ensures s.syncs[x].key.pod in s.api.pods ==> s.api.pods[s.syncs[x].key.pod].owner != ""
  {
    assert ShellOk(s.api, s.store.shells, s.syncs, x);
  }

  /** Reconcile sees to it when it has the current copy, and hears of it again when it has an older one. */
  lemma PendingStays(s: State, step: Step, p: PodId)
    requires Base(s) && Remembered(s) && Enabled(s, step) && Available(s, p) && Pending(s, p)
    requires Do(s, step).cache == s.cache
    ensures Pending(Do(s, step), p) || Key(p, s.cache[p].image) in Do(s, step).workers
  {
    PodQueueChanges(s, step, p);
    match step
    case Env(e) => EnvFrame(s, e);
    case Rec(r) => RecWorkers(s, r, Key(p, s.cache[p].image)); RecPending(s, r, p);
    case Handle(h) => HandleFrame(s, h);
    case Sync(x, a) => SyncFrame(s, x, a);
  }

  lemma RecPending(s: State, r: RecStep, p: PodId)
    requires RecEnabled(s, r) && Available(s, p) && Pending(s, p) && Distinct(s.workers)
    ensures Pending(DoRec(s, r), p) || (r.Act? && s.rec.pod == p && s.rec.copy == s.cache[p])
  {
    RecFrame(s, r);
    match r
    case Take(_) =>
    case Fetch =>
    case Act =>
    case Finalize(_) =>
  }

  lemma PodRemembered(s: State, step: Step, p: PodId)
    requires Base(s) && Binding(s) && Remembered(s) && Enabled(s, step) && Available(Do(s, step), p)
    ensures Key(p, Do(s, step).cache[p].image) in Do(s, step).workers || Pending(Do(s, step), p)
  {
    BecomesAvailable(s, step, p);
    if step.Env? && (step.e.Deliver? || step.e.DeliverGone?) {
      NewsRemembered(s, step.e, p);
    } else {
      SameCache(s, step);
      if Pending(s, p) {
        PendingStays(s, step, p);
      } else if Key(p, s.cache[p].image) !in Do(s, step).workers {
        AvailableKeyStays(s, step, p);
      }
    }
  }

  lemma NewsRemembered(s: State, e: EnvStep, p: PodId)
    requires EnvEnabled(s, e) && (e.Deliver? || e.DeliverGone?) && Available(DoEnv(s, e), p)
    requires || (e.Deliver? && e.p == p)
             || (Remembered(s) && Available(s, p) && DoEnv(s, e).cache[p] == s.cache[p])
    ensures Key(p, DoEnv(s, e).cache[p].image) in DoEnv(s, e).workers || Pending(DoEnv(s, e), p)
  {
    assert DoEnv(s, e).workers == s.workers && DoEnv(s, e).rec == s.rec && s.podQueue <= DoEnv(s, e).podQueue;
  }

  lemma SameCache(s: State, step: Step)
    requires Enabled(s, step) && !(step.Env? && (step.e.Deliver? || step.e.DeliverGone?))
    ensures Do(s, step).cache == s.cache
  {
    match step
    case Env(e) => EnvCacheFrame(s, e);
    case Rec(r) => RecFrame(s, r);
    case Handle(h) => HandleFrame(s, h);
    case Sync(x, a) => SyncFrame(s, x, a);
  }

  lemma OldCopyIsQueued(s: State, step: Step)
    requires Remembered(s) && Enabled(s, step)
    ensures var t := Do(s, step);
            t.rec.Read? && t.rec.pod in t.cache && t.cache[t.rec.pod].owner == "" && t.rec.copy != t.cache[t.rec.pod] ==>
              t.rec.pod in t.podQueue
  {
    match step
    case Env(e) =>
      EnvFrame(s, e);
      if !e.Deliver? && !e.DeliverGone? { EnvCacheFrame(s, e); }
    case Rec(r) =>
      RecFrame(s, r);
      match r {
        case Take(_) =>
        case Fetch =>
        case Act =>
        case Finalize(_) =>
      }
    case Handle(h) => HandleFrame(s, h);
    case Sync(x, a) => SyncFrame(s, x, a);
  }

  lemma RememberedKept(s: State, step: Step)
    requires Base(s) && Binding(s) && Remembered(s) && Enabled(s, step)
    ensures Remembered(Do(s, step))
  {
    forall p | Available(Do(s, step), p)
      ensures Key(p, Do(s, step).cache[p].image) in Do(s, step).workers || Pending(Do(s, step), p)
    {
      PodRemembered(s, step, p);
    }
    OldCopyIsQueued(s, step);
  }

  lemma {:induction false} RunKeepsRemembered(s: State, steps: seq<Step>, t: State)
    requires RunUnder(BorrowsSafely, s, steps, t) && Base(s) && Binding(s) && Remembered(s)
    ensures Remembered(t)
    decreases |steps|
  {
    if steps != [] {
      BaseKept(s, steps[0]);
      BindingKept(s, steps[0]);
      RememberedKept(s, steps[0]);
      RunKeepsRemembered(Do(s, steps[0]), steps[1..], t);
    }
  }

  /** When Borrows read idle or outdated copies and syncs act on current labels and clear them, every worker that the
      lister shows as it is, idle, ready and not being deleted, is in the worker queue, or reconcile has yet to look at
      it. */
  lemma NoIdleWorkerForgotten(s: State, steps: seq<Step>, t: State, p: PodId)
    requires Init(s) && RunUnder(BorrowsSafely, s, steps, t)
    requires p in t.api.pods && p in t.cache && t.cache[p] == t.api.pods[p]
    requires t.cache[p].owner == "" && t.cache[p].ready && !t.cache[p].deleting
    ensures || Key(p, t.cache[p].image) in t.workers || p in t.podQueue
            || (t.rec.Taken? && t.rec.pod == p) || (t.rec.Read? && t.rec.pod == p && t.rec.copy == t.cache[p])
  {
    RunKeepsRemembered(s, steps, t);
    assert Available(t, p);
  }

  lemma {:induction false} DisciplinedBorrowsSafely(s: State, steps: seq<Step>, t: State)
    requires RunUnder(Disciplined, s, steps, t) && Everything(s)
    ensures RunUnder(BorrowsSafely, s, steps, t)
    decreases |steps|
  {
    if steps != [] {
      PickedCopyIsSafe(s, steps[0]);
      EverythingKept(s, steps[0]);
      DisciplinedBorrowsSafely(Do(s, steps[0]), steps[1..], t);
    }
  }

  /** So it is for the controller as it is started, with one sync at a time. */
  lemma OneSyncForgetsNoWorker(s: State, steps: seq<Step>, t: State, p: PodId)
    requires Init(s) && RunUnder(SingleFile, s, steps, t) && Available(t, p)
    ensures Key(p, t.cache[p].image) in t.workers || Pending(t, p)
  {
    InitHasEverything(s);
    SingleFileIsDisciplined(s, steps, t);
    DisciplinedBorrowsSafely(s, steps, t);
    RunKeepsRemembered(s, steps, t);
  }
}
