/** No two shells share a worker: what has to be true of a run for this, and that it then is. */
module PoolBinding {
  import opened OrderedSet
  import opened PoolProtocol
  import opened PoolInvariants

  // ----- the hypotheses, stated on single steps -----

  /** A copy that can no longer be written, because the pod has moved on or is gone. */
  predicate Outdated(api: Api, p: PodId, v: Pod) {
    p !in api.pods || v.rv < api.pods[p].rv
  }

  /** Borrow reads a copy that is idle or outdated.  Its code does not look at the owner label. */
  predicate SafeMatch(s: State, step: Step) {
    step.Sync? && step.a.Look? && Enabled(s, step) ==>
      var p := s.syncs[step.x].key.pod;
      p in s.cache ==> s.cache[p].owner == "" || Outdated(s.api, p, s.cache[p])
  }

  /** A sync that has returned its worker gets to clear the pod label, unless the label is gone anyway. */
  predicate Completes(s: State, step: Step) {
    step.Sync? && step.a.Unlabel? && !step.a.ok && Enabled(s, step) && s.syncs[step.x].Returned? ==>
      !(Labelled(s, step.x) && LabelledPod(s, step.x) == s.syncs[step.x].key.pod)
  }

  /** The label by which Back finds the worker is the shell's current one, though it comes from a lister copy. */
  predicate BacksCurrent(s: State, step: Step) {
    step.Sync? && step.a.BackUpdate? && Enabled(s, step) ==>
      step.x in s.store.shells && s.store.shells[step.x].pod == s.copies[step.x].pod
  }

  // ----- the invariant -----

  predicate OwnedBy(api: Api, p: PodId, x: ShellId) {
    p.ns == x.ns && p in api.used && (p in api.pods ==> api.pods[p].owner == x.name)
  }

  /** The sync of `x` has freed `p` and has not yet cleared the label. */
  predicate Returning(syncs: map<ShellId, Progress>, x: ShellId, p: PodId) {
    x in syncs && syncs[x].Returned? && syncs[x].key.pod == p
  }

  /** What the running sync of `x` may rely on. */
  predicate SyncOk(api: Api, syncs: map<ShellId, Progress>, x: ShellId) {
    x in syncs ==>
      match syncs[x]
      case Picked(k) => k.pod.ns == x.ns
      case Matched(p, v) => p.ns == x.ns && (v.owner == "" || Outdated(api, p, v))
      case Updated(k) => OwnedBy(api, k.pod, x)
      case Borrowed(k) => OwnedBy(api, k.pod, x)
      case _ => true
  }

  /** A live pod that the label of `x` names is owned by `x`, unless `x` is just giving it back. */
  predicate LabelOk(api: Api, shells: map<ShellId, Shell>, syncs: map<ShellId, Progress>, x: ShellId) {
    x in shells && shells[x].pod != "" ==>
      var p := PodId(x.ns, shells[x].pod);
      p in api.used && (Returning(syncs, x, p) || OwnedBy(api, p, x))
  }

  predicate ShellOk(api: Api, shells: map<ShellId, Shell>, syncs: map<ShellId, Progress>, x: ShellId) {
    SyncOk(api, syncs, x) && LabelOk(api, shells, syncs, x)
  }

  ghost predicate Binding(s: State) {
    forall x :: ShellOk(s.api, s.store.shells, s.syncs, x)
  }

  /** At most one of the shells whose label names a live pod is not in the middle of returning it. */
  lemma BindingIsExclusive(s: State, x: ShellId, y: ShellId)
    requires Binding(s) && Labelled(s, x) && Labelled(s, y) && x != y
    requires LabelledPod(s, x) == LabelledPod(s, y) && LabelledPod(s, x) in s.api.pods
    ensures Returning(s.syncs, x, LabelledPod(s, x)) || Returning(s.syncs, y, LabelledPod(s, x))
  {
    assert ShellOk(s.api, s.store.shells, s.syncs, x) && ShellOk(s.api, s.store.shells, s.syncs, y);
  }

  // ----- single shells under single writes -----

  /** A write that keeps the owner label, or that makes a new pod, disturbs no shell. */
  lemma QuietWrite(api: Api, shells: map<ShellId, Shell>, syncs: map<ShellId, Progress>, p: PodId, v: Pod, y: ShellId)
    requires Ledger(api) && SyncCopies(api.log, syncs) && ShellOk(api, shells, syncs, y)
    requires if p in api.pods then v.owner == api.pods[p].owner else p !in api.used
    ensures ShellOk(WriteApi(api, p, v), shells, syncs, y)
  {
    if p in api.pods { Current(api, p); }
    if y in syncs && syncs[y].Matched? { assert (syncs[y].pod, syncs[y].copy) in api.log; }
  }

  /** A write that changes who owns `p`, done by the shell that may, disturbs no other shell. */
  lemma OwnerWrite(api: Api, shells: map<ShellId, Shell>, syncs: map<ShellId, Progress>,
                   p: PodId, v: Pod, x: ShellId, y: ShellId)
    requires Ledger(api) && SyncCopies(api.log, syncs) && p in api.pods && ShellOk(api, shells, syncs, y)
    requires x != y && p.ns == x.ns && (api.pods[p].owner == "" || api.pods[p].owner == x.name)
    requires y in shells || y in syncs ==> y.name != ""
    ensures ShellOk(WriteApi(api, p, v), shells, syncs, y)
  {
    Current(api, p);
    if y in syncs && syncs[y].Matched? { assert (syncs[y].pod, syncs[y].copy) in api.log; }
  }

  lemma EnvKeepsBinding(s: State, e: EnvStep, y: ShellId)
    requires Base(s) && EnvEnabled(s, e) && ShellOk(s.api, s.store.shells, s.syncs, y)
    ensures ShellOk(DoEnv(s, e).api, DoEnv(s, e).store.shells, s.syncs, y)
  {
    EnvApi(s, e);
    var w := EnvWrite(s, e);
    if w.Some? { QuietWrite(s.api, s.store.shells, s.syncs, w.value.0, w.value.1, y); }
    match e
    case NewShell(_, _) =>
    case EditShell(_, _) =>
    case DropShell(_) =>
    case _ =>
  }

  lemma RecKeepsBinding(s: State, r: RecStep, y: ShellId)
    requires Base(s) && RecEnabled(s, r) && ShellOk(s.api, s.store.shells, s.syncs, y)
    ensures ShellOk(DoRec(s, r).api, s.store.shells, s.syncs, y)
  {
    RecApi(s, r);
    var w := RecWrite(s, r);
    if w.Some? { QuietWrite(s.api, s.store.shells, s.syncs, w.value.0, w.value.1, y); }
  }

  lemma HandleKeepsBinding(s: State, h: HandleStep, y: ShellId)
    requires Base(s) && HandleEnabled(s, h) && ShellOk(s.api, s.store.shells, s.syncs, y)
    ensures ShellOk(DoHandle(s, h).api, s.store.shells, s.syncs, y)
  {
    HandleApi(s, h);
    var w := HandleWrite(s, h);
    if w.Some? {
      if w.value.0 in s.api.pods { Current(s.api, w.value.0); }
      QuietWrite(s.api, s.store.shells, s.syncs, w.value.0, w.value.1, y);
    }
  }

  /** The pod that a sync of `x` writes was idle or its own before. */
  lemma SyncWritesOwn(s: State, x: ShellId, a: SyncStep)
    requires Base(s) && Binding(s) && SyncEnabled(s, x, a) && BacksCurrent(s, Sync(x, a))
    requires a.Update? || a.BackUpdate?
    requires SyncWrite(s, x, a).Some?
    ensures var p := SyncWrite(s, x, a).value.0;
            p in s.api.pods && p.ns == x.ns && (s.api.pods[p].owner == "" || s.api.pods[p].owner == x.name)
  {
    assert ShellOk(s.api, s.store.shells, s.syncs, x);
    Current(s.api, SyncWrite(s, x, a).value.0);
  }

  /** The sync of `x` and the other shells: what it writes to the API. */
  lemma SyncWriteKeepsOthers(s: State, x: ShellId, a: SyncStep, y: ShellId)
    requires Base(s) && Binding(s) && SyncEnabled(s, x, a) && BacksCurrent(s, Sync(x, a)) && x != y
    ensures ShellOk(DoSync(s, x, a).api, s.store.shells, s.syncs, y)
  {
    assert ShellOk(s.api, s.store.shells, s.syncs, y);
    SyncApi(s, x, a);
    var w := SyncWrite(s, x, a);
    if w.Some? {
      if a.BackDelete? {
        QuietWrite(s.api, s.store.shells, s.syncs, w.value.0, w.value.1, y);
      } else {
        SyncWritesOwn(s, x, a);
        OwnerWrite(s.api, s.store.shells, s.syncs, w.value.0, w.value.1, x, y);
      }
    }
  }

  lemma SyncKeepsOthers(s: State, x: ShellId, a: SyncStep, y: ShellId)
    requires Base(s) && Binding(s) && SyncEnabled(s, x, a) && BacksCurrent(s, Sync(x, a)) && x != y
    ensures var t := DoSync(s, x, a); ShellOk(t.api, t.store.shells, t.syncs, y)
  {
    SyncWriteKeepsOthers(s, x, a, y);
    SyncFrame(s, x, a);
    SyncStoreFrame(s, x, a);
    var t := DoSync(s, x, a);
    SameElsewhere(s.syncs, t.syncs, x, y);
    SameElsewhere(s.store.shells, t.store.shells, x, y);
  }

  lemma SameElsewhere<V>(m: map<ShellId, V>, n: map<ShellId, V>, x: ShellId, y: ShellId)
    requires m - {x} == n - {x} && x != y
    ensures y in m <==> y in n
    ensures y in m ==> m[y] == n[y]
  {
    assert y in m <==> y in m - {x};
    assert y in n <==> y in n - {x};
    if y in m { assert (m - {x})[y] == m[y]; }
  }

  /** The sync of `x` and `x` itself, up to the label write; the hypothesis on matches is needed only here. */
  lemma BorrowKeepsSelf(s: State, x: ShellId, a: SyncStep)
    requires ShellOk(s.api, s.store.shells, s.syncs, x) && SyncEnabled(s, x, a) && SafeMatch(s, Sync(x, a))
    requires a.Pick? || a.Look? || a.Ask? || a.Dequeue?
    ensures var t := DoSync(s, x, a); ShellOk(t.api, t.store.shells, t.syncs, x)
  {
    match a
    case Pick => FirstMatchIs(s.workers, x.ns, s.copies[x].image);
    case Look =>
    case Ask =>
    case Dequeue =>
  }

  lemma LabelKeepsSelf(s: State, x: ShellId, ok: bool)
    requires ShellOk(s.api, s.store.shells, s.syncs, x) && SyncEnabled(s, x, Label(ok))
    ensures var t := DoSync(s, x, Label(ok)); ShellOk(t.api, t.store.shells, t.syncs, x)
  {}

  lemma UpdateKeepsSelf(s: State, x: ShellId, ok: bool)
    requires Base(s) && ShellOk(s.api, s.store.shells, s.syncs, x) && SyncEnabled(s, x, Update(ok))
    ensures var t := DoSync(s, x, Update(ok)); ShellOk(t.api, t.store.shells, t.syncs, x)
  {
    if ok { Current(s.api, s.syncs[x].pod); }
  }

  /** The same while returning; the hypotheses on labels are needed only here. */
  lemma FreeKeepsSelf(s: State, x: ShellId)
    requires Base(s) && ShellOk(s.api, s.store.shells, s.syncs, x) && SyncEnabled(s, x, BackUpdate)
    requires BacksCurrent(s, Sync(x, BackUpdate))
    ensures var t := DoSync(s, x, BackUpdate); ShellOk(t.api, t.store.shells, t.syncs, x)
  {
    Current(s.api, CopiedPod(s, x));
  }

  lemma ReturnKeepsSelf(s: State, x: ShellId, a: SyncStep)
    requires ShellOk(s.api, s.store.shells, s.syncs, x) && SyncEnabled(s, x, a) && (a.BackAdd? || a.BackDelete?)
    ensures var t := DoSync(s, x, a); ShellOk(t.api, t.store.shells, t.syncs, x)
  {
    match a
    case BackAdd =>
    case BackDelete(_) =>
  }

  lemma UnlabelKeepsSelf(s: State, x: ShellId, ok: bool, more: bool)
    requires ShellOk(s.api, s.store.shells, s.syncs, x) && SyncEnabled(s, x, Unlabel(ok, more))
    requires Completes(s, Sync(x, Unlabel(ok, more)))
    ensures var t := DoSync(s, x, Unlabel(ok, more)); ShellOk(t.api, t.store.shells, t.syncs, x)
  {}

  lemma OtherStepsKeepSelf(s: State, x: ShellId, a: SyncStep)
    requires ShellOk(s.api, s.store.shells, s.syncs, x) && SyncEnabled(s, x, a)
    requires a.Start? || a.Ensure? || a.Check? || a.End?
    ensures var t := DoSync(s, x, a); ShellOk(t.api, t.store.shells, t.syncs, x)
  {
    match a
    case Start =>
    case Ensure(_) =>
    case Check =>
    case End(_) =>
  }

  predicate Fitting(k: Key, ns: string, image: string) { k.pod.ns == ns && k.image == image }

  /** The key that a Borrow picks is queued and fits, and no older key fits; there is none when no queued key fits. */
  lemma {:induction false} FirstMatchIs(workers: seq<Key>, ns: string, image: string)
    ensures var r := FirstMatch(workers, ns, image);
            if r.Some? then
              && r.value in workers && Fitting(r.value, ns, image)
              && exists i :: 0 <= i < |workers| && workers[i] == r.value
                             && forall j :: 0 <= j < i ==> !Fitting(workers[j], ns, image)
            else forall k :: k in workers ==> !Fitting(k, ns, image)
  {
    if workers != [] && !Fitting(workers[0], ns, image) {
      var tail := workers[1..];
      FirstMatchIs(tail, ns, image);
      assert forall k :: k in workers <==> k == workers[0] || k in tail;
      if FirstMatch(tail, ns, image).Some? {
        var i :| 0 <= i < |tail| && tail[i] == FirstMatch(tail, ns, image).value
                 && forall j :: 0 <= j < i ==> !Fitting(tail[j], ns, image);
        assert workers[i + 1] == tail[i];
        forall j | 0 <= j < i + 1 ensures !Fitting(workers[j], ns, image) {
          if j > 0 { assert workers[j] == tail[j - 1]; }
        }
      }
    }
  }

  /** The worker that the queue offers for a request: the oldest key of its namespace and image. */
  lemma MatchForIs(s: State, r: Request)
    ensures MatchFor(s, r).None? <==>
            forall i :: 0 <= i < |s.workers| ==> s.workers[i].pod.ns != r.shell.ns || s.workers[i].image != r.image
    ensures MatchFor(s, r).Some? ==>
            exists i :: 0 <= i < |s.workers| && s.workers[i] == MatchFor(s, r).value
                        && s.workers[i].pod.ns == r.shell.ns && s.workers[i].image == r.image
                        && forall j :: 0 <= j < i ==> s.workers[j].pod.ns != r.shell.ns || s.workers[j].image != r.image
  {
    FirstMatchIs(s.workers, r.shell.ns, r.image);
    if MatchFor(s, r).Some? {
      var i :| 0 <= i < |s.workers| && s.workers[i] == MatchFor(s, r).value
               && forall j :: 0 <= j < i ==> !Fitting(s.workers[j], r.shell.ns, r.image);
      assert forall j :: 0 <= j < i ==> !Fitting(s.workers[j], r.shell.ns, r.image);
    } else {
      assert forall i :: 0 <= i < |s.workers| ==> !Fitting(s.workers[i], r.shell.ns, r.image);
    }
  }

  lemma SyncKeepsSelf(s: State, x: ShellId, a: SyncStep)
    requires Base(s) && ShellOk(s.api, s.store.shells, s.syncs, x) && SyncEnabled(s, x, a)
    requires SafeMatch(s, Sync(x, a)) && Completes(s, Sync(x, a)) && BacksCurrent(s, Sync(x, a))
    ensures var t := DoSync(s, x, a); ShellOk(t.api, t.store.shells, t.syncs, x)
  {
    match a
    case Update(ok) => UpdateKeepsSelf(s, x, ok);
    case Label(ok) => LabelKeepsSelf(s, x, ok);
    case BackUpdate => FreeKeepsSelf(s, x);
    case BackAdd => ReturnKeepsSelf(s, x, a);
    case BackDelete(_) => ReturnKeepsSelf(s, x, a);
    case Unlabel(ok, more) => UnlabelKeepsSelf(s, x, ok, more);
    case Start => OtherStepsKeepSelf(s, x, a);
    case Ensure(_) => OtherStepsKeepSelf(s, x, a);
    case Check => OtherStepsKeepSelf(s, x, a);
    case End(_) => OtherStepsKeepSelf(s, x, a);
    case _ => BorrowKeepsSelf(s, x, a);
  }

  /** One step and one shell. */
  lemma ShellKept(s: State, step: Step, y: ShellId)
    requires Base(s) && Binding(s) && Enabled(s, step)
    requires SafeMatch(s, step) && Completes(s, step) && BacksCurrent(s, step)
    ensures var t := Do(s, step); ShellOk(t.api, t.store.shells, t.syncs, y)
  {
    assert ShellOk(s.api, s.store.shells, s.syncs, y);
    match step
    case Env(e) => EnvFrame(s, e); EnvKeepsBinding(s, e, y);
    case Rec(r) => RecFrame(s, r); RecKeepsBinding(s, r, y);
    case Handle(h) => HandleFrame(s, h); HandleKeepsBinding(s, h, y);
    case Sync(x, a) => if x != y { SyncKeepsOthers(s, x, a, y); } else { SyncKeepsSelf(s, x, a); }
  }

  lemma BindingKept(s: State, step: Step)
    requires Base(s) && Binding(s) && Enabled(s, step)
    requires SafeMatch(s, step) && Completes(s, step) && BacksCurrent(s, step)
    ensures Binding(Do(s, step))
  {
    forall y ensures ShellOk(Do(s, step).api, Do(s, step).store.shells, Do(s, step).syncs, y) {
      ShellKept(s, step, y);
    }
  }
}
