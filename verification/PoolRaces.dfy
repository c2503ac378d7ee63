/** Runs that break the pool's properties once a hypothesis is dropped.  Each starts in the empty cluster and keeps
    every other hypothesis of module PoolRuns; all but the last three have one sync at a time. */
module PoolRaces {
  import opened OrderedSet
  import opened PoolProtocol
  import opened PoolInvariants
  import opened PoolBinding
  import opened PoolQueue
  import opened PoolRuns
  import opened PoolLeaks

  datatype Hypothesis =
    | ReconcileIdle | BackLive | Clearing | CurrentLabel | Asking | Listing
    | PickStaying | BindUnpicked | BindQueued

  /** The last three speak of two syncs at a time. */
  predicate Overlapping(d: Hypothesis) { d.PickStaying? || d.BindUnpicked? || d.BindQueued? }

  /** Every hypothesis but one. */
  predicate AllBut(d: Hypothesis, s: State, step: Step) {
    && (d.ReconcileIdle? || ReconcileAddsIdle(s, step))
    && (d.BackLive? || BackAddsLive(s, step))
    && (d.Clearing? || Completes(s, step))
    && (d.CurrentLabel? || BacksCurrent(s, step))
    && (d.Asking? || AsksBetweenIterations(s, step))
    && (d.Listing? || ListerShowsCreates(s, step))
    && (d.PickStaying? || PicksStaying(s, step))
    && (d.BindUnpicked? || BindsUnpicked(s, step))
    && (d.BindQueued? || BindsQueued(s, step))
    && (Overlapping(d) || OneSync(s, step))
  }

  function But(d: Hypothesis): (State, Step) -> bool {
    (s, step) => AllBut(d, s, step)
  }

  /** Some run that keeps every hypothesis but `d` leads from `s` to `t`. */
  ghost predicate Leads(d: Hypothesis, s: State, t: State) {
    exists steps :: RunUnder(But(d), s, steps, t)
  }

  lemma Stay(d: Hypothesis, s: State)
    ensures Leads(d, s, s)
  {
    assert RunUnder(But(d), s, [], s);
  }

  lemma LeadsOn(d: Hypothesis, s: State, m: State, t: State)
    requires Leads(d, s, m) && Leads(d, m, t)
    ensures Leads(d, s, t)
  {
    var a :| RunUnder(But(d), s, a, m);
    var b :| RunUnder(But(d), m, b, t);
    RunsConcat(But(d), s, a, m, b, t);
  }

  /** The hypotheses that speak about a step. */
  predicate Kept(d: Hypothesis, s: State, step: Step) {
    match step
    case Env(_) => true
    case Rec(r) => r.Act? ==> d.ReconcileIdle? || ReconcileAddsIdle(s, step)
    case Handle(h) => h.List? ==> d.Listing? || ListerShowsCreates(s, step)
    case Sync(_, a) =>
      match a
      case Start => s.syncs == map[] || Overlapping(d)
      case Pick => d.PickStaying? || PicksStaying(s, step)
      case Ask => d.Asking? || AsksBetweenIterations(s, step)
      case Update(_) => (d.BindUnpicked? || BindsUnpicked(s, step)) && (d.BindQueued? || BindsQueued(s, step))
      case BackUpdate => d.CurrentLabel? || BacksCurrent(s, step)
      case BackAdd => d.BackLive? || BackAddsLive(s, step)
      case Unlabel(_, _) => d.Clearing? || Completes(s, step)
      case _ => true
  }

  lemma KeptIsAllBut(d: Hypothesis, s: State, step: Step)
    requires Kept(d, s, step)
    ensures AllBut(d, s, step)
  {}

  /** One step. */
  lemma One(d: Hypothesis, s: State, step: Step)
    requires Enabled(s, step) && Kept(d, s, step)
    ensures Leads(d, s, Do(s, step))
  {
    KeptIsAllBut(d, s, step);
    assert [step][1..] == [];
    assert RunUnder(But(d), s, [step], Do(s, step));
  }

  /** One more step. */
  lemma Then(d: Hypothesis, s: State, m: State, step: Step)
    requires Leads(d, s, m) && Enabled(m, step) && Kept(d, m, step)
    ensures Leads(d, s, Do(m, step))
  {
    One(d, m, step);
    LeadsOn(d, s, m, Do(m, step));
  }

  // ----- a Borrow that nothing interrupts -----

  /** The lister copy of the worker that `x` would get is current, and so is the sync's copy of `x`. */
  predicate CanBorrow(s: State, x: ShellId, p: PodId) {
    && AtSync(s, x) && s.syncs[x].Wanting? && Fits(s, x)
    && MatchFor(s, RequestOf(s, x)).Some? && MatchFor(s, RequestOf(s, x)).value.pod == p
    && p in s.cache && Writable(s.api, p, s.cache[p])
  }

  /** What the Borrow of `x` must not overlap with, unless `d` is about that. */
  predicate Overlaps(d: Hypothesis, s: State, x: ShellId, p: PodId) {
    && (d.PickStaying? || PicksStaying(s, Sync(x, Pick)))
    && (forall y :: y in s.syncs && y != x && HoldsIdle(s.syncs[y]) && s.syncs[y].key.pod == p ==>
          if s.syncs[y].Picked? then d.BindUnpicked? else d.BindQueued?)
  }

  function At(s: State, x: ShellId, at: Progress): State { s.(syncs := s.syncs[x := at]) }

  /** Pick and look up. */
  lemma PickGoesThrough(d: Hypothesis, s: State, x: ShellId, p: PodId)
    requires CanBorrow(s, x, p) && Overlaps(d, s, x, p)
    ensures Leads(d, s, At(s, x, Matched(p, s.cache[p])))
  {
    var k := MatchFor(s, RequestOf(s, x)).value;
    var m := At(s, x, Picked(k));
    One(d, s, Sync(x, Pick));
    assert Do(s, Sync(x, Pick)) == m;
    Then(d, s, m, Sync(x, Look));
    assert m.syncs[x := Matched(p, s.cache[p])] == s.syncs[x := Matched(p, s.cache[p])];
  }

  /** The state after the API update: it goes through whatever the owner label says. */
  function AfterUpdate(s: State, x: ShellId, p: PodId): State
    requires p in s.cache
  {
    At(Write(s, p, BoundTo(s.cache[p], x)), x, Updated(KeyOf(p, s.cache[p])))
  }

  lemma UpdateGoesThrough(d: Hypothesis, s: State, x: ShellId, p: PodId)
    requires x in s.syncs && x in s.copies && p in s.cache && Writable(s.api, p, s.cache[p])
    requires !HoldsIdle(s.syncs[x]) && Overlaps(d, s, x, p)
    ensures Leads(d, At(s, x, Matched(p, s.cache[p])), AfterUpdate(s, x, p))
  {
    var v := s.cache[p];
    var m := At(s, x, Matched(p, v));
    forall y | y in m.syncs && HoldsIdle(m.syncs[y]) ensures y != x && m.syncs[y] == s.syncs[y] {}
    One(d, m, Sync(x, Update(true)));
    assert m.syncs[x := Updated(KeyOf(p, v))] == s.syncs[x := Updated(KeyOf(p, v))];
  }

  lemma BorrowBegins(d: Hypothesis, s: State, x: ShellId, p: PodId)
    requires CanBorrow(s, x, p) && Overlaps(d, s, x, p)
    ensures Leads(d, s, AfterUpdate(s, x, p))
  {
    PickGoesThrough(d, s, x, p);
    UpdateGoesThrough(d, s, x, p);
    LeadsOn(d, s, At(s, x, Matched(p, s.cache[p])), AfterUpdate(s, x, p));
  }

  /** The state after the dequeue and the label write. */
  function AfterLabel(s: State, x: ShellId, k: Key): State
    requires x in s.store.shells
  {
    At(WriteShell(s, x, s.store.shells[x].(pod := k.pod.name)), x, Serving).(workers := Delete(s.workers, k))
  }

  lemma BorrowEnds(d: Hypothesis, s: State, x: ShellId, k: Key)
    requires AtSync(s, x) && s.syncs[x] == Updated(k) && Fits(s, x)
    ensures Leads(d, s, AfterLabel(s, x, k))
  {
    var m := At(s, x, Borrowed(k)).(workers := Delete(s.workers, k));
    One(d, s, Sync(x, Dequeue));
    assert Do(s, Sync(x, Dequeue)) == m;
    Then(d, s, m, Sync(x, Label(true)));
    assert m.syncs[x := Serving] == s.syncs[x := Serving];
  }

  function AfterBorrow(s: State, x: ShellId, p: PodId): State
    requires CanBorrow(s, x, p)
  {
    AfterLabel(AfterUpdate(s, x, p), x, KeyOf(p, s.cache[p]))
  }

  /** What that state looks like. */
  lemma AfterBorrowIs(s: State, x: ShellId, p: PodId)
    requires CanBorrow(s, x, p)
    ensures var t := AfterBorrow(s, x, p);
            && t == State(WriteApi(s.api, p, BoundTo(s.cache[p], x)), s.cache, s.podQueue,
                          Delete(s.workers, KeyOf(p, s.cache[p])), s.requests, s.shellQueue,
                          WriteStore(s.store, x, s.store.shells[x].(pod := p.name)), s.shellCache,
                          s.syncs[x := Serving], t.copies, s.rec, s.handler, s.waiting)
            && t.copies == s.copies[x := t.store.shells[x]]
  {
    assert s.syncs[x := Updated(KeyOf(p, s.cache[p]))][x := Serving] == s.syncs[x := Serving];
  }

  /** A Borrow of a current copy binds the pod to `x`, whoever owns it. */
  lemma BorrowGoesThrough(d: Hypothesis, s: State, x: ShellId, p: PodId)
    requires CanBorrow(s, x, p) && Overlaps(d, s, x, p)
    ensures Leads(d, s, AfterBorrow(s, x, p))
  {
    BorrowBegins(d, s, x, p);
    BorrowEnds(d, AfterUpdate(s, x, p), x, KeyOf(p, s.cache[p]));
    LeadsOn(d, s, AfterUpdate(s, x, p), AfterBorrow(s, x, p));
  }

  /** Both shells name the same live pod, and neither is returning it. */
  predicate Sharing(s: State, x: ShellId, y: ShellId) { x != y && !Unshared(s, x, y) }

  /** Shell `y` is bound to `p` and is not giving it back. */
  predicate HeldBy(s: State, y: ShellId, p: PodId) {
    Labelled(s, y) && LabelledPod(s, y) == p && !Returning(s.syncs, y, p)
  }

  /** What an uninterrupted Borrow of a current copy leaves `x` with: it shares the pod with `y` if and only if `y` was
      bound to it before. */
  lemma BorrowSharesIff(s: State, x: ShellId, p: PodId, y: ShellId)
    requires CanBorrow(s, x, p) && p.name != "" && x != y
    ensures Sharing(AfterBorrow(s, x, p), x, y) <==> HeldBy(s, y, p)
  {
    FirstMatchIs(s.workers, x.ns, s.copies[x].image);
    AfterBorrowIs(s, x, p);
    var t := AfterBorrow(s, x, p);
    assert t.store.shells[x].pod == p.name && p.ns == x.ns && p in t.api.pods;
    if y in s.store.shells { assert t.store.shells[y] == s.store.shells[y]; }
  }

  // ----- the concrete runs: a shell asks and gets a worker -----

  const NS := "ns"
  const IMAGE := "cloudshell:v1"
  const A := ShellId(NS, "a")
  const B := ShellId(NS, "b")
  const C := ShellId(NS, "c")
  const P := PodId(NS, "w")
  const Q := PodId(NS, "v")
  const K := Key(P, IMAGE)
  const RA := Request(A, IMAGE)

  const EMPTY :=
          State(Api(0, map[], {}, {}), map[], {}, [], [], {}, Store(0, map[], {}), map[], map[], map[],
                Resting, Waiting, map[])

  /** The run goes on from a state that is reached from the empty cluster. */
  lemma Go(d: Hypothesis, m: State, step: Step) returns (t: State)
    requires Leads(d, EMPTY, m) && Enabled(m, step) && Kept(d, m, step)
    ensures t == Do(m, step) && Leads(d, EMPTY, t)
  {
    t := Do(m, step);
    Then(d, EMPTY, m, step);
  }

  /** A run from the empty cluster leads to `t`, of which the facts hold. */
  ghost predicate Gets(d: Hypothesis, t: State, facts: bool) {
    exists steps :: RunUnder(But(d), EMPTY, steps, t) && facts
  }

  /** A shell that nobody has heard of. */
  predicate Unknown(s: State, x: ShellId) {
    x.name != "" && x !in s.store.shells && x !in s.shellCache && x !in s.syncs && x !in s.shellQueue && x !in s.waiting
  }

  /** The shell as it is created. */
  function NewIn(s: State): Shell { Shell(IMAGE, "", s.store.rev + 1) }

  lemma ToCreated(d: Hypothesis, s: State, x: ShellId) returns (t: State)
    requires Leads(d, EMPTY, s) && Unknown(s, x)
    ensures Gets(d, t,
            t == s.(store := WriteStore(s.store, x, NewIn(s)), shellCache := s.shellCache[x := NewIn(s)],
                    shellQueue := s.shellQueue + {x}))
  {
    var m := Go(d, s, Env(NewShell(x, IMAGE)));
    t := Go(d, m, Env(DeliverShell(x, NewIn(s))));
  }

  /** A sync on the listed copy of a shell, up to the look at its label. */
  lemma ToBegun(d: Hypothesis, s: State, x: ShellId) returns (t: State)
    requires Leads(d, EMPTY, s) && x in s.shellQueue && x !in s.syncs && x in s.shellCache
    requires s.syncs == map[] || Overlapping(d)
    ensures Leads(d, EMPTY, t)
    ensures var c := s.shellCache[x];
            var at := if c.pod != "" && PodId(x.ns, c.pod) in s.cache then Bound else Wanting;
            t == s.(shellQueue := s.shellQueue - {x}, waiting := s.waiting - {x},
                    syncs := s.syncs[x := at], copies := s.copies[x := c])
  {
    var m := ToStarted(d, s, x);
    t := Go(d, m, Sync(x, Check));
    assert m.syncs[x := t.syncs[x]] == s.syncs[x := t.syncs[x]];
  }

  lemma ToStarted(d: Hypothesis, s: State, x: ShellId) returns (t: State)
    requires Leads(d, EMPTY, s) && x in s.shellQueue && x !in s.syncs && x in s.shellCache
    requires s.syncs == map[] || Overlapping(d)
    ensures Gets(d, t,
            t == s.(shellQueue := s.shellQueue - {x}, waiting := s.waiting - {x},
                    syncs := s.syncs[x := Deciding], copies := s.copies[x := s.shellCache[x]]))
  {
    t := Go(d, s, Sync(x, Start));
  }

  /** A new shell appears, is listed and starts a sync. */
  function Joined(s: State, x: ShellId): State {
    s.(store := WriteStore(s.store, x, NewIn(s)), shellCache := s.shellCache[x := NewIn(s)],
       syncs := s.syncs[x := Wanting], copies := s.copies[x := NewIn(s)])
  }

  lemma ToJoined(d: Hypothesis, s: State, x: ShellId)
    requires Leads(d, EMPTY, s) && Unknown(s, x) && (s.syncs == map[] || Overlapping(d))
    ensures Leads(d, EMPTY, Joined(s, x))
  {
    var m := ToCreated(d, s, x);
    var t := ToBegun(d, m, x);
    assert s.shellQueue + {x} - {x} == s.shellQueue;
    assert s.waiting - {x} == s.waiting;
  }

  /** The versions of pod P: created, ready, touched, bound to A, returned by A, bound to B, freed by A. */
  const V1 := Pod(IMAGE, "", "a", true, false, false, 1)
  const V2 := Pod(IMAGE, "", "a", true, false, true, 2)
  const V3 := Pod(IMAGE, "", "a", true, false, true, 3)
  const V4 := Pod(IMAGE, "a", "", false, false, true, 4)
  const V5 := Pod(IMAGE, "", "", true, false, true, 5)
  const V6 := Pod(IMAGE, "b", "", false, false, true, 6)
  const V7 := Pod(IMAGE, "", "", true, false, true, 7)

  /** P is the only pod, and `v` its current version. */
  predicate PodIs(api: Api, v: Pod) {
    api.pods == map[P := v] && (P, v) in api.log && api.rev == v.rv && api.used == {P}
  }

  const SHELL1 := Shell(IMAGE, "", 1)
  const SHELL2 := Shell(IMAGE, "w", 2)
  const SHELL3 := Shell(IMAGE, "", 3)

  /** `c` is the current version of A and `b` the listed one. */
  predicate ShellIs(s: State, c: Shell, b: Shell) {
    && A in s.store.shells && s.store.shells[A] == c && (A, c) in s.store.log && c.rv == s.store.rev
    && A in s.shellCache && s.shellCache[A] == b
  }

  /** Nobody but A is known, and A has asked once. */
  predicate OnlyA(s: State) { s.requests == [RA] && Unknown(s, B) && Unknown(s, C) }

  /** `v` is the current version of P and `u` the listed one. */
  predicate World(s: State, v: Pod, u: Pod, c: Shell, b: Shell, workers: seq<Key>) {
    && PodIs(s.api, v) && s.cache == map[P := u] && ShellIs(s, c, b) && s.workers == workers
    && s.podQueue == {P} && s.shellQueue == {} && s.rec.Resting? && s.handler.Waiting? && OnlyA(s)
  }

  /** Shell A asked, found nothing and waits. */
  predicate Asked(s: State) {
    && ShellIs(s, SHELL1, SHELL1) && OnlyA(s) && s.waiting == map[A := RA] && s.syncs == map[] && s.workers == []
    && s.cache == map[] && s.podQueue == {} && s.shellQueue == {} && s.rec.Resting? && s.handler.Waiting?
  }

  lemma AskInVain(d: Hypothesis, s: State) returns (t: State)
    requires Leads(d, EMPTY, s) && s.syncs == map[A := Wanting] && s.workers == []
    requires A in s.copies && s.copies[A] == SHELL1 && A in s.store.shells
    requires d.Asking? || s.handler.Waiting?
    ensures Gets(d, t,
            t == s.(syncs := map[], requests := Insert(s.requests, RA), waiting := s.waiting[A := RA]))
  {
    var m := Go(d, s, Sync(A, Pick));
    assert m.syncs == map[A := Missing];
    t := AskNow(d, m);
  }

  lemma AskNow(d: Hypothesis, s: State) returns (t: State)
    requires Leads(d, EMPTY, s) && s.syncs == map[A := Missing] && (d.Asking? || s.handler.Waiting?)
    requires A in s.copies && s.copies[A] == SHELL1 && A in s.store.shells
    ensures Gets(d, t,
            t == s.(syncs := map[], requests := Insert(s.requests, RA), waiting := s.waiting[A := RA]))
  {
    t := Go(d, s, Sync(A, Ask));
    assert s.syncs - {A} == map[];
  }

  lemma ToAsked(d: Hypothesis) returns (t: State)
    ensures Gets(d, t, Asked(t) && t.api == EMPTY.api)
  {
    Stay(d, EMPTY);
    ToJoined(d, EMPTY, A);
    var s := Joined(EMPTY, A);
    assert s.syncs == map[A := Wanting];
    t := AskInVain(d, s);
  }

  /** The handler finds no worker for A and none that was made for it. */
  lemma ToCreating(d: Hypothesis, s: State) returns (t: State)
    requires Leads(d, EMPTY, s) && Asked(s) && (s.api.pods == map[] || d.Listing?)
    ensures Gets(d, t, t == s.(handler := Creating(RA)))
  {
    var s1 := Go(d, s, Handle(Scan(RA)));
    var s2 := Go(d, s1, Handle(LookUp));
    t := Go(d, s2, Handle(List));
  }

  lemma ToMade(d: Hypothesis) returns (t: State)
    ensures Gets(d, t, Asked(t) && PodIs(t.api, V1))
  {
    var s := ToAsked(d);
    var m := ToCreating(d, s);
    t := Go(d, m, Handle(Create(P)));
  }

  /** The worker became ready and was listed. */
  lemma ToListed(d: Hypothesis) returns (t: State)
    ensures Gets(d, t,
            && World(t, V2, V2, SHELL1, SHELL1, []) && t.syncs == map[] && t.waiting == map[A := RA])
  {
    var s := ToMade(d);
    t := ReadyAndListed(d, s);
  }

  lemma ReadyAndListed(d: Hypothesis, s: State) returns (t: State)
    requires Leads(d, EMPTY, s) && PodIs(s.api, V1) && s.cache == map[] && s.podQueue == {}
    ensures Gets(d, t, PodIs(t.api, V2) && t == s.(api := t.api, cache := map[P := V2], podQueue := {P}))
  {
    var m := Go(d, s, Env(SetReady(P, true)));
    t := Go(d, m, Env(Deliver(P, V2)));
  }

  /** Reconcile handles P, of which the lister shows `u`, while it is ready. */
  lemma Reconciled(d: Hypothesis, s: State, u: Pod) returns (t: State)
    requires Leads(d, EMPTY, s) && s.rec.Resting? && s.podQueue == {P} && s.cache == map[P := u] && !u.deleting
    requires d.ReconcileIdle? || !u.ready || (P in s.api.pods && s.api.pods[P].owner == "")
    requires u.image == IMAGE
    ensures Gets(d, t,
            t == s.(podQueue := {}, workers := if u.ready then Insert(s.workers, K) else Delete(s.workers, K)))
  {
    var m := Go(d, s, Rec(Take(P)));
    var m1 := Go(d, m, Rec(Fetch));
    t := Go(d, m1, Rec(Act));
  }

  /** Reconcile queued it; another event of the idle worker, after a status write, is on its way to reconcile. */
  lemma ToTouched(d: Hypothesis) returns (t: State)
    ensures Gets(d, t,
            && World(t, V3, V3, SHELL1, SHELL1, [K]) && t.syncs == map[] && t.waiting == map[A := RA])
  {
    var s := ToListed(d);
    var m := Reconciled(d, s, V2);
    t := TouchAndList(d, m);
  }

  lemma TouchAndList(d: Hypothesis, s: State) returns (t: State)
    requires Leads(d, EMPTY, s) && PodIs(s.api, V2) && s.cache == map[P := V2] && s.podQueue == {}
    ensures Gets(d, t,
            && PodIs(t.api, V3) && t == s.(api := t.api, cache := map[P := V3], podQueue := {P}))
  {
    var m := Go(d, s, Env(SetReady(P, true)));
    t := Go(d, m, Env(Deliver(P, V3)));
  }

  /** A starts a sync. */
  lemma ToReady(d: Hypothesis) returns (t: State)
    ensures Gets(d, t,
            && World(t, V3, V3, SHELL1, SHELL1, [K]) && t.waiting == map[] && t.syncs == map[A := Wanting]
            && A in t.copies && t.copies[A] == SHELL1)
  {
    var s := ToTouched(d);
    var m := Go(d, s, Env(Enqueue(A)));
    t := ToBegun(d, m, A);
  }

  /** A has bound the worker in the API and not yet dequeued its key. */
  lemma ToTaken(d: Hypothesis) returns (t: State)
    ensures Gets(d, t,
            && World(t, V4, V3, SHELL1, SHELL1, [K]) && t.waiting == map[] && t.syncs == map[A := Updated(K)]
            && A in t.copies && t.copies[A] == SHELL1)
  {
    var s := ToReady(d);
    assert CanBorrow(s, A, P) && Overlaps(d, s, A, P);
    BorrowBegins(d, s, A, P);
    t := AfterUpdate(s, A, P);
    LeadsOn(d, EMPTY, s, t);
    assert t.syncs == map[A := Updated(K)];
  }

  /** A is bound and its sync has ended; the lister shows the idle worker and its event is still to be handled. */
  lemma ToHeld(d: Hypothesis) returns (t: State)
    ensures Gets(d, t, World(t, V4, V3, SHELL2, SHELL1, []) && t.syncs == map[] && t.waiting == map[])
  {
    var s := ToTaken(d);
    BorrowEnds(d, s, A, K);
    var m := AfterLabel(s, A, K);
    LeadsOn(d, EMPTY, s, m);
    assert m.syncs == map[A := Serving];
    t := Go(d, m, Sync(A, End(false)));
    assert m.syncs - {A} == map[];
  }

  // ----- a leaked worker -----

  /** With every hypothesis kept: the label write after a Borrow fails, and the worker is A's without A knowing. */
  lemma FailedLabelWriteLeaks(d: Hypothesis) returns (t: State)
    ensures Gets(d, t, Leaked(t, P, A))
  {
    var s := ToTaken(d);
    t := UnlabelledByA(d, s);
    assert Leaked(t, P, A);
  }

  lemma UnlabelledByA(d: Hypothesis, s: State) returns (t: State)
    requires Leads(d, EMPTY, s) && s.syncs == map[A := Updated(K)] && A in s.copies
    ensures Gets(d, t, t == s.(workers := Delete(s.workers, K), syncs := map[], shellQueue := s.shellQueue + {A}))
  {
    var m := Go(d, s, Sync(A, Dequeue));
    assert m.syncs == map[A := Borrowed(K)];
    t := Go(d, m, Sync(A, Label(false)));
    assert m.syncs - {A} == map[];
  }

  // ----- a deleted idle worker -----

  /** Reconcile handles a deleted P. */
  lemma ReconcileDeletes(d: Hypothesis, s: State, v: Pod) returns (t: State)
    requires Leads(d, EMPTY, s) && s.rec.Resting? && P in s.podQueue && P in s.cache && s.cache[P] == v && v.deleting
    ensures Gets(d, t,
            t == s.(podQueue := s.podQueue - {P}, workers := Delete(s.workers, KeyOf(P, v)),
                    api := WithoutFinalizer(s.api, P)))
  {
    var s0 := Go(d, s, Rec(Take(P)));
    var s1 := Go(d, s0, Rec(Fetch));
    var s2 := Go(d, s1, Rec(Act));
    t := Go(d, s2, Rec(Finalize(Done)));
  }

  /** The finalizer half of `OwnerEmptyIffFinalizer` does not extend to deleted workers: an idle worker that is being
      deleted loses the finalizer and keeps its empty owner label until it is gone. */
  lemma DeletedIdleWorkerIsUncovered(d: Hypothesis) returns (t: State)
    ensures Gets(d, t,
            && P in t.api.pods && t.api.pods[P].owner == "" && t.api.pods[P].deleting && !t.api.pods[P].finalizer)
  {
    var s := ToListed(d);
    var s1 := Go(d, s, Env(MarkDeleting(P)));
    var v := V2.(deleting := true, rv := 3);
    var s2 := Go(d, s1, Env(Deliver(P, v)));
    t := ReconcileDeletes(d, s2, v);
  }

  // ----- a worker that is queued although a shell holds it -----

  /** The worker of `x` is queued and its current version listed. */
  predicate Exposed(s: State, x: ShellId) {
    && HeldBy(s, x, P) && s.syncs == map[] && s.workers == [K] && P in s.cache && Writable(s.api, P, s.cache[P])
  }

  /** Then the next shell gets the worker too. */
  lemma ExposedWorkerIsShared(d: Hypothesis, s: State, x: ShellId, y: ShellId) returns (t: State)
    requires Leads(d, EMPTY, s) && Exposed(s, x) && Unknown(s, y) && y.ns == NS
    ensures Gets(d, t, Sharing(t, y, x))
  {
    ToJoined(d, s, y);
    var m := Joined(s, y);
    ExposedIsPicked(d, s, y);
    BorrowGoesThrough(d, m, y, P);
    t := AfterBorrow(m, y, P);
    LeadsOn(d, EMPTY, m, t);
    assert HeldBy(m, x, P);
    BorrowSharesIff(m, y, P, x);
  }

  lemma ExposedIsPicked(d: Hypothesis, s: State, y: ShellId)
    requires s.syncs == map[] && s.workers == [K] && P in s.cache && Writable(s.api, P, s.cache[P]) && y.ns == NS
    ensures CanBorrow(Joined(s, y), y, P) && Overlaps(d, Joined(s, y), y, P)
  {}

  /** Without `ReconcileAddsIdle`: A borrows the worker after the event of the idle worker was queued; reconcile reads
      the worker that A owns and queues it all the same, and B takes it. */
  lemma ReconcileOfABoundPodShares() returns (t: State)
    ensures Gets(ReconcileIdle, t, Sharing(t, B, A))
  {
    var d := ReconcileIdle;
    var s := ToHeld(d);
    var s1 := Go(d, s, Env(Deliver(P, V4)));
    var s2 := Reconciled(d, s1, V4);
    t := ExposedWorkerIsShared(d, s2, A, B);
  }

  // ----- A returns the worker -----

  /** A sync of A on a copy that names a listed worker. */
  lemma BoundAgain(d: Hypothesis, s: State) returns (t: State)
    requires Leads(d, EMPTY, s) && s.syncs == map[] && A !in s.shellQueue && A !in s.waiting && P in s.cache
    requires A in s.shellCache && s.shellCache[A].pod == "w"
    ensures Gets(d, t, t == s.(syncs := map[A := Bound], copies := s.copies[A := s.shellCache[A]]))
  {
    var m := Go(d, s, Env(Enqueue(A)));
    t := ToBegun(d, m, A);
    assert m.shellQueue - {A} == s.shellQueue && s.waiting - {A} == s.waiting;
  }

  /** The sync of A has found its worker. */
  lemma ToNoted(d: Hypothesis) returns (t: State)
    ensures Gets(d, t,
            && World(t, V4, V4, SHELL2, SHELL2, []) && t.waiting == map[] && t.syncs == map[A := Bound]
            && A in t.copies && t.copies[A] == SHELL2)
  {
    var s := ToHeld(d);
    var m := BothListed(d, s);
    t := BoundAgain(d, m);
  }

  lemma BothListed(d: Hypothesis, s: State) returns (t: State)
    requires Leads(d, EMPTY, s) && World(s, V4, V3, SHELL2, SHELL1, [])
    ensures Gets(d, t, t == s.(cache := map[P := V4], shellCache := s.shellCache[A := SHELL2]))
  {
    var m := Go(d, s, Env(Deliver(P, V4)));
    t := Go(d, m, Env(DeliverShell(A, SHELL2)));
  }

  /** Back has freed it, and then queued it. */
  lemma ToGiven(d: Hypothesis) returns (t: State)
    ensures Gets(d, t,
            && World(t, V5, V4, SHELL2, SHELL2, []) && t.waiting == map[] && t.syncs == map[A := Returned(K, false)]
            && A in t.copies && t.copies[A] == SHELL2)
  {
    var s := ToNoted(d);
    t := FreeNow(d, s);
  }

  lemma FreeNow(d: Hypothesis, s: State) returns (t: State)
    requires Leads(d, EMPTY, s) && s.syncs == map[A := Bound] && PodIs(s.api, V4) && s.cache == map[P := V4]
    requires A in s.copies && s.copies[A] == SHELL2 && A in s.store.shells && s.store.shells[A] == SHELL2
    ensures Gets(d, t, t == s.(api := WriteApi(s.api, P, V5), syncs := map[A := Returned(K, false)]))
  {
    assert CopiedPod(s, A) == P && Freeable(s, P);
    t := Go(d, s, Sync(A, BackUpdate));
    assert s.syncs[A := Returned(K, false)] == map[A := Returned(K, false)];
  }

  lemma ToBacked(d: Hypothesis) returns (t: State)
    ensures Gets(d, t,
            && World(t, V5, V4, SHELL2, SHELL2, [K]) && t.waiting == map[] && t.syncs == map[A := Returned(K, true)]
            && A in t.copies && t.copies[A] == SHELL2)
  {
    var s := ToGiven(d);
    t := Go(d, s, Sync(A, BackAdd));
  }

  /** Without `Completes`: the write that clears the label fails after A returned the worker, B borrows it. */
  lemma LostLabelWriteShares() returns (t: State)
    ensures Gets(Clearing, t, Sharing(t, B, A))
  {
    var d := Clearing;
    var s := ToBacked(d);
    var s1 := Go(d, s, Sync(A, Unlabel(false, false)));
    assert s1.syncs == map[];
    var s2 := Go(d, s1, Env(Deliver(P, V5)));
    t := ExposedWorkerIsShared(d, s2, A, B);
  }

  /** Without `BackAddsLive`: between the update and the queueing of Back the worker is deleted, reconciled and gone. */
  lemma LateBackQueuesAGonePod() returns (t: State)
    ensures Gets(BackLive, t, K in t.workers && !Leaving(t.syncs, K) && P !in t.api.pods)
  {
    var d := BackLive;
    var s := ToGiven(d);
    var s1 := Go(d, s, Env(MarkDeleting(P)));
    var v := V5.(deleting := true, rv := 6);
    var s2 := Go(d, s1, Env(Deliver(P, v)));
    var s3 := ReconcileDeletes(d, s2, v);
    t := GoneThenQueued(d, s3);
  }

  lemma GoneThenQueued(d: Hypothesis, s: State) returns (t: State)
    requires Leads(d, EMPTY, s) && d.BackLive? && EnvEnabled(s, Vanish(P)) && A in s.copies
    requires s.syncs == map[A := Returned(K, false)]
    ensures Gets(d, t, K in t.workers && !Leaving(t.syncs, K) && P !in t.api.pods)
  {
    var m := Go(d, s, Env(Vanish(P)));
    t := Go(d, m, Sync(A, BackAdd));
  }

  // ----- a sync on an outdated copy of its shell -----

  /** A has cleared its label, which the shell lister does not show yet. */
  lemma ToUnlabelled(d: Hypothesis) returns (t: State)
    ensures Gets(d, t, World(t, V5, V4, SHELL3, SHELL2, [K]) && t.syncs == map[] && t.waiting == map[])
  {
    var s := ToBacked(d);
    t := Go(d, s, Sync(A, Unlabel(true, false)));
    assert s.syncs - {A} == map[];
  }

  lemma ToCleared(d: Hypothesis) returns (t: State)
    ensures Gets(d, t, World(t, V5, V5, SHELL3, SHELL2, [K]) && t.syncs == map[] && t.waiting == map[])
  {
    var s := ToUnlabelled(d);
    t := Go(d, s, Env(Deliver(P, V5)));
  }

  /** B has borrowed the worker and the lister shows that. */
  predicate HeldByB(s: State) {
    && HeldBy(s, B, P) && s.syncs == map[] && s.workers == [] && s.cache == map[P := V6] && PodIs(s.api, V6)
    && !Labelled(s, A) && A in s.shellCache && s.shellCache[A] == SHELL2
    && A !in s.shellQueue && A !in s.waiting && Unknown(s, C) && A in s.store.shells && s.store.shells[A].rv == 3
  }

  lemma ToHeldByB(d: Hypothesis) returns (t: State)
    ensures Gets(d, t, HeldByB(t))
  {
    var s := ToCleared(d);
    ToJoined(d, s, B);
    ExposedIsPicked(d, s, B);
    BorrowGoesThrough(d, Joined(s, B), B, P);
    LeadsOn(d, EMPTY, Joined(s, B), AfterBorrow(Joined(s, B), B, P));
    t := ListedAsHeld(d, s);
  }

  lemma ListedAsHeld(d: Hypothesis, s: State) returns (t: State)
    requires World(s, V5, V5, SHELL3, SHELL2, [K]) && s.syncs == map[] && s.waiting == map[]
    requires CanBorrow(Joined(s, B), B, P) && Leads(d, EMPTY, AfterBorrow(Joined(s, B), B, P))
    ensures Gets(d, t, HeldByB(t))
  {
    var m := AfterBorrow(Joined(s, B), B, P);
    AfterBorrowIs(Joined(s, B), B, P);
    assert m.syncs == map[B := Serving] && m.workers == [];
    t := EndAndList(d, m);
  }

  lemma EndAndList(d: Hypothesis, s: State) returns (t: State)
    requires Leads(d, EMPTY, s) && s.syncs == map[B := Serving] && B in s.copies
    requires PodIs(s.api, V6) && s.cache == map[P := V5]
    ensures Gets(d, t, t == s.(syncs := map[], cache := map[P := V6]))
  {
    var m := Go(d, s, Sync(B, End(false)));
    assert s.syncs - {B} == map[];
    t := Go(d, m, Env(Deliver(P, V6)));
  }

  /** Without `BacksCurrent`: a sync of A on its old, labelled copy frees the worker of B, and C borrows it. */
  lemma OutdatedLabelShares() returns (t: State)
    ensures Gets(CurrentLabel, t, Sharing(t, C, B))
  {
    var d := CurrentLabel;
    var s := ToHeldByB(d);
    var s1 := BoundAgain(d, s);
    var s2 := FreedByA(d, s1);
    t := ExposedWorkerIsShared(d, s2, B, C);
  }

  lemma FreedByA(d: Hypothesis, s: State) returns (t: State)
    requires Leads(d, EMPTY, s) && d.CurrentLabel? && s.syncs == map[A := Bound] && HeldBy(s, B, P) && !Labelled(s, A)
    requires PodIs(s.api, V6) && s.cache == map[P := V6] && s.workers == [] && Unknown(s, C)
    requires A in s.copies && s.copies[A] == SHELL2
    ensures Gets(d, t, Exposed(t, B) && Unknown(t, C))
  {
    var m := FreeForeign(d, s);
    t := QueuedByA(d, m);
  }

  lemma FreeForeign(d: Hypothesis, s: State) returns (t: State)
    requires Leads(d, EMPTY, s) && d.CurrentLabel? && s.syncs == map[A := Bound]
    requires PodIs(s.api, V6) && s.cache == map[P := V6] && A in s.copies && s.copies[A] == SHELL2
    ensures Gets(d, t,
            && PodIs(t.api, V7) && t == s.(api := t.api, syncs := map[A := Returned(K, false)]))
  {
    assert CopiedPod(s, A) == P && Freeable(s, P);
    t := Go(d, s, Sync(A, BackUpdate));
    assert s.syncs[A := Returned(K, false)] == map[A := Returned(K, false)];
  }

  lemma QueuedByA(d: Hypothesis, s: State) returns (t: State)
    requires Leads(d, EMPTY, s) && s.syncs == map[A := Returned(K, false)] && s.workers == [] && !Labelled(s, A)
    requires PodIs(s.api, V7) && s.cache == map[P := V6] && HeldBy(s, B, P) && A in s.copies && Unknown(s, C)
    ensures Gets(d, t, Exposed(t, B) && Unknown(t, C))
  {
    var m := Go(d, s, Sync(A, BackAdd));
    assert m.syncs == map[A := Returned(K, true)];
    t := UnclearedByA(d, m);
  }

  lemma UnclearedByA(d: Hypothesis, s: State) returns (t: State)
    requires Leads(d, EMPTY, s) && s.syncs == map[A := Returned(K, true)] && s.workers == [K] && !Labelled(s, A)
    requires PodIs(s.api, V7) && s.cache == map[P := V6] && HeldBy(s, B, P) && A in s.copies && Unknown(s, C)
    ensures Gets(d, t, Exposed(t, B) && Unknown(t, C))
  {
    var m := Go(d, s, Sync(A, Unlabel(false, false)));
    assert m.syncs == map[];
    t := Go(d, m, Env(Deliver(P, V7)));
    assert Exposed(t, B) && Unknown(t, C);
  }

  // ----- the handler -----

  /** The handler has announced the worker to A and is about to remove its request. */
  lemma ToAnnounced(d: Hypothesis) returns (s: State, t: State)
    ensures Gets(d, t,
            && t == s.(shellQueue := {A}, handler := Dropping(RA)) && World(s, V3, V3, SHELL1, SHELL1, [K])
            && s.syncs == map[] && s.waiting == map[A := RA])
  {
    s := ToTouched(d);
    var m := ToFound(d, s);
    var m1 := Go(d, m, Handle(Exists));
    t := Go(d, m1, Handle(Notify));
  }

  lemma ToFound(d: Hypothesis, s: State) returns (t: State)
    requires Leads(d, EMPTY, s) && s.workers == [K] && P in s.cache && RA in s.requests && s.handler.Waiting?
    ensures Gets(d, t, t == s.(handler := Found(RA)))
  {
    var m := Go(d, s, Handle(Scan(RA)));
    t := Go(d, m, Handle(LookUp));
  }

  /** The worker turns unready and leaves the queue, and A starts a sync. */
  lemma ToUnready(d: Hypothesis) returns (t: State)
    ensures Gets(d, t,
            && ShellIs(t, SHELL1, SHELL1) && t.requests == [RA] && t.handler == Dropping(RA) && t.workers == []
            && t.shellQueue == {} && t.waiting == map[] && t.syncs == map[A := Wanting] && A in t.copies
            && t.copies[A] == SHELL1)
  {
    var s0, s := ToAnnounced(d);
    var v := V3.(ready := false, rv := 4);
    var m := TurnUnready(d, s, v);
    var m1 := Reconciled(d, m, v);
    t := ToBegun(d, m1, A);
  }

  lemma TurnUnready(d: Hypothesis, s: State, v: Pod) returns (t: State)
    requires Leads(d, EMPTY, s) && PodIs(s.api, V3) && s.cache == map[P := V3] && s.podQueue == {P}
    requires v == V3.(ready := false, rv := 4)
    ensures Gets(d, t, t == s.(api := WriteApi(s.api, P, v), cache := map[P := v]))
  {
    var m := Go(d, s, Env(SetReady(P, false)));
    t := Go(d, m, Env(Deliver(P, v)));
  }

  /** Without `AsksBetweenIterations`: A asks again while its old request is still queued, and then the handler drops
      that request. */
  lemma InterruptedHandlerLosesAWaiter() returns (t: State)
    ensures Gets(Asking, t,
            && A in t.waiting && A in t.store.shells && A !in t.shellQueue && A !in t.syncs && t.requests == [])
  {
    var d := Asking;
    var s := ToUnready(d);
    var m := AskInVain(d, s);
    t := Go(d, m, Handle(Drop));
  }

  /** Without `ListerShowsCreates`: the handler does not see the worker it has just created and creates another. */
  lemma LaggingListerCreatesTwice() returns (t: State)
    ensures Gets(Listing, t,
            && P in t.api.pods && Q in t.api.pods && P != Q && t.api.pods[P].request == t.api.pods[Q].request == "a")
  {
    var d := Listing;
    var s := ToMade(d);
    var m := ToCreating(d, s);
    assert P.name != Q.name;
    t := Go(d, m, Handle(Create(Q)));
  }

  // ----- two syncs at a time -----

  /** Without `PicksStaying`: B picks the key while the Borrow of A is between its update and its dequeue. */
  lemma MatchOfALeavingKeyShares() returns (t: State)
    ensures Gets(PickStaying, t, Sharing(t, B, A))
  {
    var d := PickStaying;
    var s := ToTaken(d);
    var m := Go(d, s, Env(Deliver(P, V4)));
    ToJoined(d, m, B);
    t := BothEnd(d, Joined(m, B));
  }

  lemma BothEnd(d: Hypothesis, s: State) returns (t: State)
    requires Leads(d, EMPTY, s) && d.PickStaying? && CanBorrow(s, B, P)
    requires s.syncs == map[A := Updated(K), B := Wanting] && A in s.copies && Fits(s, A)
    ensures Gets(d, t, Sharing(t, B, A))
  {
    assert Overlaps(d, s, B, P);
    BorrowGoesThrough(d, s, B, P);
    LeadsOn(d, EMPTY, s, AfterBorrow(s, B, P));
    t := EndAfter(d, s);
  }

  lemma EndAfter(d: Hypothesis, s: State) returns (t: State)
    requires CanBorrow(s, B, P) && Leads(d, EMPTY, AfterBorrow(s, B, P))
    requires s.syncs == map[A := Updated(K), B := Wanting] && A in s.copies && Fits(s, A)
    ensures Gets(d, t, Sharing(t, B, A))
  {
    AfterBorrowIs(s, B, P);
    assert AfterBorrow(s, B, P).syncs == map[A := Updated(K), B := Serving];
    t := EndToo(d, AfterBorrow(s, B, P), B);
  }

  /** A ends its Borrow of a worker that another shell holds. */
  lemma EndToo(d: Hypothesis, s: State, y: ShellId) returns (t: State)
    requires Leads(d, EMPTY, s) && AtSync(s, A) && s.syncs[A] == Updated(K) && Fits(s, A)
    requires y != A && y.ns == NS && HeldBy(s, y, P) && P in s.api.pods
    ensures Gets(d, t, Sharing(t, y, A) && Sharing(t, A, y))
  {
    BorrowEnds(d, s, A, K);
    t := AfterLabel(s, A, K);
    LeadsOn(d, EMPTY, s, t);
    assert t.store.shells[y] == s.store.shells[y] && t.store.shells[A].pod == "w";
  }

  /** Without `BindsUnpicked`: A has picked the key, B borrows the worker, and then A reads the pod that B owns. */
  lemma OvertakenPickShares() returns (t: State)
    ensures Gets(BindUnpicked, t, Sharing(t, A, B))
  {
    var d := BindUnpicked;
    var s := ToReady(d);
    var m := PickedByA(d, s);
    ToJoined(d, m, B);
    assert Joined(m, B).syncs == map[A := Picked(K), B := Wanting];
    BorrowGoesThrough(d, Joined(m, B), B, P);
    LeadsOn(d, EMPTY, Joined(m, B), AfterBorrow(Joined(m, B), B, P));
    t := Overtaken(d, m);
  }

  lemma PickedByA(d: Hypothesis, s: State) returns (t: State)
    requires Leads(d, EMPTY, s) && s.syncs == map[A := Wanting] && s.workers == [K]
    requires A in s.copies && s.copies[A] == SHELL1
    ensures Gets(d, t, t == s.(syncs := map[A := Picked(K)]))
  {
    t := Go(d, s, Sync(A, Pick));
    assert s.syncs[A := Picked(K)] == map[A := Picked(K)];
  }

  lemma Overtaken(d: Hypothesis, s: State) returns (t: State)
    requires World(s, V3, V3, SHELL1, SHELL1, [K]) && s.syncs == map[A := Picked(K)]
    requires A in s.copies && s.copies[A] == SHELL1 && d.BindUnpicked?
    requires CanBorrow(Joined(s, B), B, P) && Leads(d, EMPTY, AfterBorrow(Joined(s, B), B, P))
    ensures Gets(d, t, Sharing(t, A, B))
  {
    AfterBorrowIs(Joined(s, B), B, P);
    var m := AfterBorrow(Joined(s, B), B, P);
    var m1 := Go(d, m, Env(Deliver(P, m.api.pods[P])));
    t := LookTooLate(d, m1);
  }

  /** A reads the current version of the worker that B has borrowed. */
  lemma LookTooLate(d: Hypothesis, s: State) returns (t: State)
    requires Leads(d, EMPTY, s) && A in s.copies && s.syncs == map[A := Picked(K), B := Serving] && Fits(s, A)
    requires P in s.cache && KeyOf(P, s.cache[P]) == K && Writable(s.api, P, s.cache[P]) && HeldBy(s, B, P)
    ensures Gets(d, t, Sharing(t, A, B))
  {
    var m := Go(d, s, Sync(A, Look));
    assert m.syncs == map[A := Matched(P, s.cache[P]), B := Serving];
    t := TakeOver(d, m);
  }

  lemma TakeOver(d: Hypothesis, s: State) returns (t: State)
    requires Leads(d, EMPTY, s) && A in s.copies && P in s.cache && Fits(s, A)
    requires s.syncs == map[A := Matched(P, s.cache[P]), B := Serving]
    requires KeyOf(P, s.cache[P]) == K && Writable(s.api, P, s.cache[P]) && HeldBy(s, B, P)
    ensures Gets(d, t, Sharing(t, A, B))
  {
    assert At(s, A, Matched(P, s.cache[P])) == s;
    UpdateGoesThrough(d, s, A, P);
    LeadsOn(d, EMPTY, s, AfterUpdate(s, A, P));
    t := EndToo(d, AfterUpdate(s, A, P), B);
  }

  /** Without `BindsQueued`: reconcile queues the worker that A has freed, B borrows it, and only then Back queues
      it. */
  lemma LateBackQueuesABoundPod() returns (t: State)
    ensures Gets(BindQueued, t,
            && K in t.workers && !Leaving(t.syncs, K) && P in t.api.pods && t.api.pods[P].owner == "b")
  {
    var d := BindQueued;
    var s := ToGiven(d);
    var s1 := Go(d, s, Env(Deliver(P, V5)));
    var s2 := Reconciled(d, s1, V5);
    ToJoined(d, s2, B);
    t := BorrowThenBack(d, s2);
  }

  lemma BorrowThenBack(d: Hypothesis, s: State) returns (t: State)
    requires Leads(d, EMPTY, Joined(s, B)) && d.BindQueued? && PodIs(s.api, V5) && s.cache == map[P := V5]
    requires s.syncs == map[A := Returned(K, false)] && A in s.copies && s.workers == [K]
    ensures Gets(d, t,
            && K in t.workers && !Leaving(t.syncs, K) && P in t.api.pods && t.api.pods[P].owner == "b")
  {
    var m := Joined(s, B);
    FreedIsPicked(d, s);
    BorrowGoesThrough(d, m, B, P);
    AfterBorrowIs(m, B, P);
    LeadsOn(d, EMPTY, m, AfterBorrow(m, B, P));
    assert AfterBorrow(m, B, P).syncs == map[A := Returned(K, false), B := Serving];
    t := QueueTooLate(d, AfterBorrow(m, B, P));
  }

  lemma FreedIsPicked(d: Hypothesis, s: State)
    requires d.BindQueued? && s.syncs == map[A := Returned(K, false)] && s.workers == [K]
    requires PodIs(s.api, V5) && s.cache == map[P := V5]
    ensures CanBorrow(Joined(s, B), B, P) && Overlaps(d, Joined(s, B), B, P)
    ensures Joined(s, B).syncs == map[A := Returned(K, false), B := Wanting]
  {
    assert Joined(s, B).syncs == map[A := Returned(K, false), B := Wanting];
  }

  lemma QueueTooLate(d: Hypothesis, s: State) returns (t: State)
    requires Leads(d, EMPTY, s) && s.syncs == map[A := Returned(K, false), B := Serving] && A in s.copies
    requires P in s.api.pods && s.api.pods[P].owner == "b" && !s.api.pods[P].deleting
    ensures Gets(d, t,
            && K in t.workers && !Leaving(t.syncs, K) && P in t.api.pods && t.api.pods[P].owner == "b")
  {
    t := Go(d, s, Sync(A, BackAdd));
    assert t.syncs == map[A := Returned(K, true), B := Serving];
  }
}
