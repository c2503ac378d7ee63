/** Workers that nobody holds: which steps leave an owned pod that no label and no running sync names, and that such a
    pod is lost to the pool. */
module PoolLeaks {
  import opened OrderedSet
  import opened PoolProtocol
  import opened PoolInvariants
  import opened PoolBinding
  import opened PoolQueue
  import opened PoolRuns

  /** Pod `p` belongs to shell `x` and is not being deleted. */
  predicate Owned(api: Api, p: PodId, x: ShellId) {
    p in api.pods && !api.pods[p].deleting && x.name != "" && p.ns == x.ns && api.pods[p].owner == x.name
  }

  /** The label of `x` names `p`. */
  predicate NamedBy(shells: map<ShellId, Shell>, x: ShellId, p: PodId) {
    x in shells && shells[x].pod != "" && p == PodId(x.ns, shells[x].pod)
  }

  /** The running sync of `x` has bound `p` and not yet written the label. */
  predicate HeldBySync(syncs: map<ShellId, Progress>, x: ShellId, p: PodId) {
    x in syncs && (syncs[x].Updated? || syncs[x].Borrowed?) && syncs[x].key.pod == p
  }

  /** Owned by `x`, and neither the label nor the sync of `x` knows. */
  predicate Leaked(s: State, p: PodId, x: ShellId) {
    Owned(s.api, p, x) && !NamedBy(s.store.shells, x, p) && !HeldBySync(s.syncs, x, p)
  }

  ghost predicate NoLeak(s: State) {
    forall p, x :: !Leaked(s, p, x)
  }

  /** The step takes the last trace of pod `p` from its shell `x`: the label write of a Borrow fails; it replaces a
      label that names another live worker; the label is cleared although the worker is still bound; or the shell
      goes. */
  predicate Forgets(s: State, step: Step, p: PodId, x: ShellId)
    requires Enabled(s, step)
  {
    match step
    case Env(DropShell(y)) => y == x && NamedBy(s.store.shells, x, p) && !HeldBySync(s.syncs, x, p)
    case Sync(y, Label(ok)) =>
      y == x && if ok then NamedBy(s.store.shells, x, p) && s.syncs[x].key.pod.name != p.name
                else s.syncs[x].key.pod == p && !NamedBy(s.store.shells, x, p)
    case Sync(y, Unlabel(ok, _)) => y == x && ok && NamedBy(s.store.shells, x, p)
    case _ => false
  }

  /** Some worker is lost in this step. */
  ghost predicate Loses(s: State, step: Step) {
    Enabled(s, step) && exists p, x :: Owned(s.api, p, x) && Forgets(s, step, p, x)
  }

  // ----- exactly these steps leak -----

  lemma EnvLeaks(s: State, e: EnvStep, p: PodId, x: ShellId)
    requires EnvEnabled(s, e) && !Leaked(s, p, x)
    ensures Leaked(DoEnv(s, e), p, x) ==> Owned(s.api, p, x) && Forgets(s, Env(e), p, x)
  {
    EnvApi(s, e);
    EnvFrame(s, e);
    match e
    case NewShell(_, _) =>
    case EditShell(_, _) =>
    case DropShell(_) =>
    case _ =>
  }

  lemma RecLeaks(s: State, r: RecStep, p: PodId, x: ShellId)
    requires RecEnabled(s, r) && !Leaked(s, p, x)
    ensures !Leaked(DoRec(s, r), p, x)
  {
    RecApi(s, r);
    RecFrame(s, r);
  }

  lemma HandleLeaks(s: State, h: HandleStep, p: PodId, x: ShellId)
    requires HandleEnabled(s, h) && !Leaked(s, p, x)
    ensures !Leaked(DoHandle(s, h), p, x)
  {
    HandleApi(s, h);
    HandleFrame(s, h);
  }

  /** A Borrow stays within the namespace of its shell. */
  predicate InNamespace(x: ShellId, at: Progress) {
    (at.Picked? ==> at.key.pod.ns == x.ns) && (at.Matched? ==> at.pod.ns == x.ns)
  }

  ghost predicate InNamespaces(syncs: map<ShellId, Progress>) {
    forall x :: x in syncs ==> InNamespace(x, syncs[x])
  }

  lemma NamespacesKept(s: State, step: Step)
    requires InNamespaces(s.syncs) && Enabled(s, step)
    ensures InNamespaces(Do(s, step).syncs)
  {
    match step
    case Env(e) => EnvFrame(s, e);
    case Rec(r) => RecFrame(s, r);
    case Handle(h) => HandleFrame(s, h);
    case Sync(x, a) =>
      SyncProgress(s, x, a);
      if a.Pick? { FirstMatchIs(s.workers, x.ns, s.copies[x].image); }
  }

  /** Only the Borrow of `x` makes `x` an owner. */
  lemma SyncOwns(s: State, y: ShellId, a: SyncStep, p: PodId, x: ShellId)
    requires SyncEnabled(s, y, a) && InNamespaces(s.syncs) && Owned(DoSync(s, y, a).api, p, x) && !Owned(s.api, p, x)
    ensures y == x && a == Update(true) && s.syncs[x].pod == p
  {
    SyncApi(s, y, a);
    if a.Update? { assert InNamespace(y, s.syncs[y]); }
  }

  /** A trace of `p` at the shell `x` itself is kept, or the step forgets it. */
  lemma OwnSyncForgets(s: State, x: ShellId, a: SyncStep, p: PodId)
    requires SyncEnabled(s, x, a) && p.ns == x.ns && p.name != ""
    requires NamedBy(s.store.shells, x, p) || HeldBySync(s.syncs, x, p)
    ensures var t := DoSync(s, x, a);
            NamedBy(t.store.shells, x, p) || HeldBySync(t.syncs, x, p) || Forgets(s, Sync(x, a), p, x)
  {
    SyncProgress(s, x, a);
    match a
    case Ensure(_) =>
    case Label(_) =>
    case Unlabel(_, _) =>
    case _ => SyncFrame(s, x, a);
  }

  lemma SyncLeaks(s: State, y: ShellId, a: SyncStep, p: PodId, x: ShellId)
    requires Base(s) && InNamespaces(s.syncs) && SyncEnabled(s, y, a) && !Leaked(s, p, x)
    ensures Leaked(DoSync(s, y, a), p, x) ==> Owned(s.api, p, x) && Forgets(s, Sync(y, a), p, x)
  {
    var t := DoSync(s, y, a);
    if Leaked(t, p, x) {
      if !Owned(s.api, p, x) {
        SyncOwns(s, y, a, p, x);
        SyncProgress(s, y, a);
        assert HeldBySync(t.syncs, x, p);
      } else if y == x {
        Current(s.api, p);
        OwnSyncForgets(s, x, a, p);
      } else {
        TraceElsewhere(s, y, a, p, x);
      }
    }
  }

  /** A sync leaves the traces at other shells alone. */
  lemma TraceElsewhere(s: State, y: ShellId, a: SyncStep, p: PodId, x: ShellId)
    requires SyncEnabled(s, y, a) && x != y
    ensures var t := DoSync(s, y, a);
            && (NamedBy(t.store.shells, x, p) <==> NamedBy(s.store.shells, x, p))
            && (HeldBySync(t.syncs, x, p) <==> HeldBySync(s.syncs, x, p))
  {
    SyncProgress(s, y, a);
    SyncStoreFrame(s, y, a);
    SameElsewhere(s.store.shells, DoSync(s, y, a).store.shells, y, x);
  }

  lemma StepLeaks(s: State, step: Step, p: PodId, x: ShellId)
    requires Base(s) && InNamespaces(s.syncs) && Enabled(s, step) && !Leaked(s, p, x)
    ensures Leaked(Do(s, step), p, x) ==> Owned(s.api, p, x) && Forgets(s, step, p, x)
  {
    match step
    case Env(e) => EnvLeaks(s, e, p, x);
    case Rec(r) => RecLeaks(s, r, p, x);
    case Handle(h) => HandleLeaks(s, h, p, x);
    case Sync(y, a) => SyncLeaks(s, y, a, p, x);
  }

  /** A forgotten worker is leaked. */
  lemma ForgottenIsLeaked(s: State, step: Step, p: PodId, x: ShellId)
    requires Enabled(s, step) && Owned(s.api, p, x) && Forgets(s, step, p, x)
    ensures Leaked(Do(s, step), p, x)
  {
    match step
    case Env(e) => EnvFrame(s, e);
    case Sync(_, Label(ok)) => UnlabelledIsLeaked(s, x, ok, p);
    case Sync(_, Unlabel(_, more)) => SyncProgress(s, x, Unlabel(true, more)); SyncApi(s, x, Unlabel(true, more));
  }

  lemma UnlabelledIsLeaked(s: State, x: ShellId, ok: bool, p: PodId)
    requires SyncEnabled(s, x, Label(ok)) && Owned(s.api, p, x) && Forgets(s, Sync(x, Label(ok)), p, x)
    ensures Leaked(DoSync(s, x, Label(ok)), p, x)
  {
    SyncProgress(s, x, Label(ok));
    SyncApi(s, x, Label(ok));
  }

  // ----- over runs -----

  lemma {:induction false} RunKeepsNamespaces(s: State, steps: seq<Step>, t: State)
    requires Run(s, steps, t) && Base(s) && InNamespaces(s.syncs)
    ensures Base(t) && InNamespaces(t.syncs)
    decreases |steps|
  {
    if steps != [] {
      BaseKept(s, steps[0]);
      NamespacesKept(s, steps[0]);
      RunKeepsNamespaces(Do(s, steps[0]), steps[1..], t);
    }
  }

  /** In every reachable state where each live owned pod is named by the label or held by the sync of its shell, a step
      breaks that if and only if it loses a worker. */
  lemma LeaksIff(s: State, steps: seq<Step>, t: State, step: Step)
    requires Init(s) && Run(s, steps, t) && NoLeak(t) && Enabled(t, step)
    ensures NoLeak(Do(t, step)) <==> !Loses(t, step)
  {
    RunKeepsNamespaces(s, steps, t);
    if Loses(t, step) {
      var p, x :| Owned(t.api, p, x) && Forgets(t, step, p, x);
      ForgottenIsLeaked(t, step, p, x);
    } else {
      forall p, x ensures !Leaked(Do(t, step), p, x) {
        StepLeaks(t, step, p, x);
      }
    }
  }

  ghost predicate LosingNothing(s: State, steps: seq<Step>, t: State)
    decreases |steps|
  {
    if steps == [] then s == t
    else Enabled(s, steps[0]) && !Loses(s, steps[0]) && LosingNothing(Do(s, steps[0]), steps[1..], t)
  }

  lemma {:induction false} LosingNothingKeeps(s: State, steps: seq<Step>, t: State)
    requires LosingNothing(s, steps, t) && Base(s) && InNamespaces(s.syncs) && NoLeak(s)
    ensures NoLeak(t)
    decreases |steps|
  {
    if steps != [] {
      BaseKept(s, steps[0]);
      NamespacesKept(s, steps[0]);
      forall p, x ensures !Leaked(Do(s, steps[0]), p, x) {
        StepLeaks(s, steps[0], p, x);
      }
      LosingNothingKeeps(Do(s, steps[0]), steps[1..], t);
    }
  }

  /** No worker leaks in a run without such a step. */
  lemma NoWorkerLeaks(s: State, steps: seq<Step>, t: State)
    requires Init(s) && LosingNothing(s, steps, t)
    ensures NoLeak(t)
  {
    LosingNothingKeeps(s, steps, t);
  }

  // ----- a leaked worker is lost -----

  /** No write of a sync takes a leaked pod over. */
  lemma SyncLeavesLeaked(s: State, y: ShellId, a: SyncStep, p: PodId, x: ShellId)
    requires Everything(s) && Leaked(s, p, x) && SyncEnabled(s, y, a) && BacksCurrent(s, Sync(y, a))
    requires SyncWrite(s, y, a).Some? && SyncWrite(s, y, a).value.0 == p
    ensures a.BackDelete?
  {
    assert ShellOk(s.api, s.store.shells, s.syncs, y);
    Current(s.api, p);
  }

  /** So it stays as it is, or is marked for deletion. */
  lemma SyncWriteKeepsLeaked(s: State, y: ShellId, a: SyncStep, p: PodId, x: ShellId)
    requires Everything(s) && Leaked(s, p, x) && SyncEnabled(s, y, a) && BacksCurrent(s, Sync(y, a))
    ensures var api := DoSync(s, y, a).api; p in api.pods && (api.pods[p].deleting || Owned(api, p, x))
    ensures a == Update(true) ==> s.syncs[y].pod != p
  {
    SyncApi(s, y, a);
    var w := SyncWrite(s, y, a);
    if w.Some? && w.value.0 == p { SyncLeavesLeaked(s, y, a, p, x); }
  }

  lemma SyncKeepsLeaked(s: State, y: ShellId, a: SyncStep, p: PodId, x: ShellId)
    requires Everything(s) && Leaked(s, p, x) && SyncEnabled(s, y, a) && BacksCurrent(s, Sync(y, a))
    ensures var t := DoSync(s, y, a); p in t.api.pods && (t.api.pods[p].deleting || Leaked(t, p, x))
  {
    SyncWriteKeepsLeaked(s, y, a, p, x);
    if y == x {
      OwnSyncStaysAway(s, x, a, p);
    } else {
      TraceElsewhere(s, y, a, p, x);
    }
  }

  /** The sync of `x` comes to know a pod of its own only by borrowing it. */
  lemma OwnSyncStaysAway(s: State, x: ShellId, a: SyncStep, p: PodId)
    requires Binding(s) && Leaked(s, p, x) && SyncEnabled(s, x, a)
    requires a == Update(true) ==> s.syncs[x].pod != p
    ensures var t := DoSync(s, x, a); !NamedBy(t.store.shells, x, p) && !HeldBySync(t.syncs, x, p)
  {
    assert ShellOk(s.api, s.store.shells, s.syncs, x);
    SyncProgress(s, x, a);
    match a
    case Ensure(_) =>
    case Label(_) =>
    case Unlabel(_, _) =>
    case _ => SyncFrame(s, x, a);
  }

  /** Until somebody deletes it, a leaked worker stays owned by a shell that does not know of it: no disciplined step
      binds it again, gives it back or labels it. */
  lemma LeakIsPermanent(s: State, step: Step, p: PodId, x: ShellId)
    requires Everything(s) && Enabled(s, step) && Disciplined(s, step) && Leaked(s, p, x)
    ensures var t := Do(s, step); p in t.api.pods && !t.api.pods[p].deleting ==> Leaked(t, p, x)
  {
    match step
    case Env(e) => EnvKeepsLeaked(s, e, p, x);
    case Rec(r) => RecApi(s, r); RecFrame(s, r);
    case Handle(h) => HandleKeepsLeaked(s, h, p, x);
    case Sync(y, a) => SyncKeepsLeaked(s, y, a, p, x);
  }

  lemma EnvKeepsLeaked(s: State, e: EnvStep, p: PodId, x: ShellId)
    requires EnvEnabled(s, e) && Leaked(s, p, x)
    ensures var t := DoEnv(s, e); p in t.api.pods && !t.api.pods[p].deleting ==> Leaked(t, p, x)
  {
    EnvApi(s, e);
    EnvFrame(s, e);
    match e
    case NewShell(_, _) =>
    case EditShell(_, _) =>
    case DropShell(_) =>
    case _ =>
  }

  lemma HandleKeepsLeaked(s: State, h: HandleStep, p: PodId, x: ShellId)
    requires Base(s) && HandleEnabled(s, h) && Leaked(s, p, x)
    ensures Leaked(DoHandle(s, h), p, x)
  {
    Current(s.api, p);
    HandleApi(s, h);
    HandleFrame(s, h);
  }
}
