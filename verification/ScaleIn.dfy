/** scaleInWorkerQueue: which idle workers are deleted, and how many. */
module ScaleIn {
  import opened OrderedSet
  import opened BindingCount

  /** An idle worker as the lister shows it.  `notReadyFor` is the time since its Ready condition last changed, None
      when that time is unset; `text` is the binding-count label, empty when absent; `deleting` the deletion mark, which
      the pass does not look at. */
  datatype Worker = Worker(ns: string, name: string, image: string, text: string, created: int,
                           ready: bool, notReadyFor: Option<int>, deleting: bool)

  datatype Request = Request(ns: string, image: string)

  datatype Key = Key(ns: string, image: string, name: string)

  function KeyOf(w: Worker): Key { Key(w.ns, w.image, w.name) }

  // ----- how many -----

  /** int(math.Floor(float64(k) * 0.75 + 0.5)); the floating-point value is exact below 2^51. */
  function ScaleNumber(k: nat): int {
    (k as real * 0.75 + 0.5).Floor
  }

  lemma ScaleNumberIs(k: nat)
    ensures ScaleNumber(k) == (3 * k + 2) / 4
  {
    var q := (3 * k + 2) / 4;
    assert 4 * q <= 3 * k + 2 < 4 * q + 4;
    assert q as real <= k as real * 0.75 + 0.5 < q as real + 1.0;
  }

  /** For an excess of k >= 1 workers at least one and at most k are deleted; floor((k + 1) / 4) stay, at most k/3. */
  lemma ScaleNumberIsRight(k: nat)
    requires k >= 1
    ensures 1 <= ScaleNumber(k) <= k
    ensures k - ScaleNumber(k) == (k + 1) / 4 && 3 * ((k + 1) / 4) <= k
  {
    ScaleNumberIs(k);
  }

  /** The excess that one pass leaves when every deletion succeeds and no new worker becomes idle. */
  function Passed(k: nat): nat {
    if k == 0 then 0 else ScaleNumberIsRight(k); k - ScaleNumber(k)
  }

  function Pow3(n: nat): nat {
    if n == 0 then 1 else 3 * Pow3(n - 1)
  }

  lemma Thirds(e: nat, p: nat, k: nat)
    requires e * p <= k
    ensures Passed(e) * (3 * p) <= k
  {
    if e > 0 { ScaleNumberIsRight(e); }
    var f := Passed(e);
    assert f * (3 * p) == (3 * f) * p;
    Times(3 * f, e, p);
  }

  lemma Times(a: nat, b: nat, p: nat)
    requires a <= b
    ensures a * p <= b * p
  {}

  // ----- which -----

  function Bindings(w: Worker): int { ParseInt(w.text).value }

  /** The comparator of sort.Slice: fewer bindings first, then older first. */
  predicate Less(a: Worker, b: Worker) {
    if Bindings(a) == Bindings(b) then a.created < b.created else Bindings(a) < Bindings(b)
  }

  /** The comparator is a strict weak order: irreflexive, transitive, and so is being incomparable. */
  lemma LessIsStrictWeakOrder(a: Worker, b: Worker, c: Worker)
    ensures !Less(a, a)
    ensures Less(a, b) && Less(b, c) ==> Less(a, c)
    ensures !Less(a, b) && !Less(b, a) && !Less(b, c) && !Less(c, b) ==> !Less(a, c) && !Less(c, a)
  {}

  predicate SortedRange(s: seq<Worker>, lo: int, hi: int)
    requires 0 <= lo <= hi <= |s|
  {
    forall i, j :: lo <= i < j < hi ==> !Less(s[j], s[i])
  }

  ghost predicate IsSortOf(s: seq<Worker>, of: seq<Worker>) {
    SortedRange(s, 0, |s|) && multiset(s) == multiset(of)
  }

  /** What sorted means: by the number in the count label, and by age where that is the same. */
  lemma SortedMeans(s: seq<Worker>, i: nat, j: nat)
    requires i < j < |s| && SortedRange(s, 0, |s|)
    ensures ParseInt(s[i].text).value <= ParseInt(s[j].text).value
    ensures ParseInt(s[i].text).value == ParseInt(s[j].text).value ==> s[i].created <= s[j].created
  {
    assert !Less(s[j], s[i]);
  }

  /** sort.Slice, as an insertion sort in place; nothing below depends on the order of equal workers. */
  method SortSlice(a: array<Worker>)
    modifies a
    ensures IsSortOf(a[..], old(a[..]))
  {
    var n := 0;
    while n < a.Length
      invariant 0 <= n <= a.Length && SortedRange(a[..], 0, n)
      invariant multiset(a[..]) == multiset(old(a[..]))
    {
      InsertInto(a, n);
      n := n + 1;
    }
  }

  method InsertInto(a: array<Worker>, n: nat)
    requires n < a.Length && SortedRange(a[..], 0, n)
    modifies a
    ensures SortedRange(a[..], 0, n + 1) && multiset(a[..]) == multiset(old(a[..]))
  {
    var m := n;
    while m > 0 && Less(a[m], a[m - 1])
      invariant 0 <= m <= n
      invariant forall i, j :: 0 <= i < j <= n && j != m ==> !Less(a[j], a[i])
      invariant multiset(a[..]) == multiset(old(a[..]))
    {
      a[m], a[m - 1] := a[m - 1], a[m];
      m := m - 1;
    }
  }

  // ----- the pass -----

  /** A queued request that this worker could serve. */
  predicate Wanted(w: Worker, requests: seq<Request>) {
    Request(w.ns, w.image) in requests
  }

  /** Not ready for more than half an hour. */
  predicate Unavailable(w: Worker) {
    !w.ready && w.notReadyFor.Some? && w.notReadyFor.value > 30 * 60
  }

  predicate Spare(w: Worker, requests: seq<Request>) {
    w.ready && !Wanted(w, requests)
  }

  function SpareOf(ws: seq<Worker>, requests: seq<Request>): seq<Worker> {
    if ws == [] then []
    else SpareOf(ws[..|ws| - 1], requests) + if Spare(ws[|ws| - 1], requests) then [ws[|ws| - 1]] else []
  }

  function UnavailableOf(ws: seq<Worker>, ok: Worker -> bool): seq<Worker> {
    if ws == [] then []
    else
      var w := ws[|ws| - 1];
      UnavailableOf(ws[..|ws| - 1], ok) + if Unavailable(w) && ok(w) then [w] else []
  }

  function DeletedOf(ws: seq<Worker>, ok: Worker -> bool): seq<Worker> {
    if ws == [] then []
    else DeletedOf(ws[..|ws| - 1], ok) + if ok(ws[|ws| - 1]) then [ws[|ws| - 1]] else []
  }

  function Without(queue: seq<Key>, ws: seq<Worker>, ok: Worker -> bool): seq<Key> {
    if ws == [] then queue
    else
      var before := Without(queue, ws[..|ws| - 1], ok);
      if ok(ws[|ws| - 1]) then Delete(before, KeyOf(ws[|ws| - 1])) else before
  }

  /** The number of spare workers that a pass sets out to delete. */
  function Excess(spare: nat, core: nat): (l: nat)
    ensures l <= spare
  {
    if spare > core then ScaleNumberIsRight(spare - core); ScaleNumber(spare - core) else 0
  }

  class Pool {
    var workerQueue: seq<Key>
    var requestQueue: seq<Request>
    var deleted: seq<Worker>      // the deletions that the API server accepted
    const coreWorkerLimit: nat

    constructor (coreWorkerLimit: nat)
      ensures workerQueue == [] && requestQueue == [] && deleted == [] && this.coreWorkerLimit == coreWorkerLimit
    {
      this.coreWorkerLimit := coreWorkerLimit;
      workerQueue, requestQueue, deleted := [], [], [];
    }

    /** The first request in the queue for this worker's namespace and image. */
    method MatchRequestFor(w: Worker) returns (req: Option<Request>)
      ensures req.Some? <==> Wanted(w, requestQueue)
      ensures req.Some? <==> exists r :: r in requestQueue && r.ns == w.ns && r.image == w.image
      ensures req.Some? ==> req.value in requestQueue && req.value.ns == w.ns && req.value.image == w.image
    {
      var i := 0;
      while i < |requestQueue|
        invariant 0 <= i <= |requestQueue|
        invariant forall j :: 0 <= j < i ==> requestQueue[j] != Request(w.ns, w.image)
      {
        var r := requestQueue[i];
        if r.ns == w.ns && r.image == w.image { return Some(r); }
        i := i + 1;
      }
      req := None;
    }

    /** One pass over the idle workers of the lister; `ok` says which deletions the API server accepts. */
    method ScaleInWorkerQueue(workers: seq<Worker>, ok: Worker -> bool) returns (sorted: seq<Worker>)
      modifies this`workerQueue, this`deleted
      ensures IsSortOf(sorted, SpareOf(workers, requestQueue))
      ensures var excess := sorted[..Excess(|sorted|, coreWorkerLimit)];
              && deleted == old(deleted) + UnavailableOf(workers, ok) + DeletedOf(excess, ok)
              && workerQueue == Without(old(workerQueue), excess, ok)
      ensures forall i, j :: 0 <= i < j < |sorted| ==>
                && ParseInt(sorted[i].text).value <= ParseInt(sorted[j].text).value
                && (ParseInt(sorted[i].text).value == ParseInt(sorted[j].text).value ==>
                      sorted[i].created <= sorted[j].created)
    {
      var idle := CollectIdle(workers, ok);
      var a := new Worker[|idle|](j requires 0 <= j < |idle| => idle[j]);
      assert a[..] == idle;
      SortSlice(a);
      sorted := a[..];
      DeleteExcess(sorted, ok);
      forall i, j | 0 <= i < j < |sorted|
        ensures ParseInt(sorted[i].text).value <= ParseInt(sorted[j].text).value
        ensures ParseInt(sorted[i].text).value == ParseInt(sorted[j].text).value ==>
                  sorted[i].created <= sorted[j].created
      {
        SortedMeans(sorted, i, j);
      }
    }

    /** The first loop: workers that have been unavailable for too long are deleted, ready ones that nobody asks for are
        collected. */
    method CollectIdle(workers: seq<Worker>, ok: Worker -> bool) returns (idle: seq<Worker>)
      modifies this`deleted
      ensures idle == SpareOf(workers, requestQueue) && deleted == old(deleted) + UnavailableOf(workers, ok)
    {
      idle := [];
      var i := 0;
      while i < |workers|
        invariant 0 <= i <= |workers| && idle == SpareOf(workers[..i], requestQueue)
        invariant deleted == old(deleted) + UnavailableOf(workers[..i], ok)
      {
        var w := workers[i];
        assert workers[..i + 1][..i] == workers[..i];
        if Unavailable(w) && ok(w) { deleted := deleted + [w]; }
        var req := MatchRequestFor(w);
        if w.ready && req.None? { idle := idle + [w]; }
        i := i + 1;
      }
      assert workers[..|workers|] == workers;
    }

    method DeleteExcess(sorted: seq<Worker>, ok: Worker -> bool)
      modifies this`workerQueue, this`deleted
      ensures var excess := sorted[..Excess(|sorted|, coreWorkerLimit)];
              && deleted == old(deleted) + DeletedOf(excess, ok)
              && workerQueue == Without(old(workerQueue), excess, ok)
    {
      var l := Excess(|sorted|, coreWorkerLimit);
      var i := 0;
      while i < l
        invariant 0 <= i <= l
        invariant deleted == old(deleted) + DeletedOf(sorted[..i], ok)
        invariant workerQueue == Without(old(workerQueue), sorted[..i], ok)
      {
        assert sorted[..i + 1][..i] == sorted[..i];
        if ok(sorted[i]) {
          deleted := deleted + [sorted[i]];
          workerQueue := Delete(workerQueue, KeyOf(sorted[i]));
        }
        i := i + 1;
      }
    }
  }

  // ----- what a pass amounts to, whichever way equal workers are sorted -----

  lemma {:induction false} SpareOfIs(ws: seq<Worker>, requests: seq<Request>, w: Worker)
    ensures w in SpareOf(ws, requests) <==> w in ws && Spare(w, requests)
    ensures Spare(w, requests) <==> w.ready && forall r :: r in requests ==> r.ns != w.ns || r.image != w.image
  {
    if ws != [] {
      var front, last := ws[..|ws| - 1], ws[|ws| - 1];
      SpareOfIs(front, requests, w);
      assert ws == front + [last];
      assert w in ws <==> w in front || w == last;
    }
  }

  /** The workers marked for deletion are ready, wanted by nobody, and bound no more often than any spare worker that is
      kept, and no younger than one bound as often; with more than the core limit of spare workers, the kept ones are
      the core limit and a quarter of the excess. */
  lemma PassDeletesTheLeastUsed(workers: seq<Worker>, requests: seq<Request>, sorted: seq<Worker>, core: nat,
                                i: nat, j: nat)
    requires IsSortOf(sorted, SpareOf(workers, requests))
    requires i < Excess(|sorted|, core) <= j < |sorted|
    ensures sorted[i] in workers && sorted[i].ready
    ensures forall r :: r in requests ==> r.ns != sorted[i].ns || r.image != sorted[i].image
    ensures ParseInt(sorted[i].text).value <= ParseInt(sorted[j].text).value
    ensures ParseInt(sorted[i].text).value == ParseInt(sorted[j].text).value ==> sorted[i].created <= sorted[j].created
    ensures |sorted| - Excess(|sorted|, core) == core + (|sorted| - core + 1) / 4
    ensures multiset(sorted[..Excess(|sorted|, core)]) + multiset(sorted[Excess(|sorted|, core)..])
            == multiset(SpareOf(workers, requests))
  {
    assert sorted[i] in multiset(sorted);
    SpareOfIs(workers, requests, sorted[i]);
    ScaleNumberIsRight(|sorted| - core);
    SortedMeans(sorted, i, j);
    var l := Excess(|sorted|, core);
    assert sorted == sorted[..l] + sorted[l..];
  }

  /** Every listed worker that has been unready for more than half an hour is deleted, each as often as it is listed, and
      no other one is for being unavailable. */
  lemma {:induction false} UnavailableAreDeleted(ws: seq<Worker>, ok: Worker -> bool, w: Worker)
    ensures multiset(UnavailableOf(ws, ok))[w] ==
            if !w.ready && w.notReadyFor.Some? && w.notReadyFor.value > 1800 && ok(w) then multiset(ws)[w] else 0
  {
    if ws != [] {
      UnavailableAreDeleted(ws[..|ws| - 1], ok, w);
      assert ws == ws[..|ws| - 1] + [ws[|ws| - 1]];
    }
  }

  /** Every listed worker that is ready and that no request could use is spare. */
  lemma ReadyUnwantedAreSpare(ws: seq<Worker>, requests: seq<Request>, w: Worker)
    ensures multiset(SpareOf(ws, requests))[w] ==
            if w.ready && forall r :: r in requests ==> r.ns != w.ns || r.image != w.image then multiset(ws)[w] else 0
  {
    SpareOfCounts(ws, requests, w);
    SpareOfIs(ws, requests, w);
  }

  // ----- how many are left -----

  function Live(ws: seq<Worker>): nat {
    if ws == [] then 0 else Live(ws[..|ws| - 1]) + if ws[|ws| - 1].deleting then 0 else 1
  }

  function FailedOf(ws: seq<Worker>, ok: Worker -> bool): seq<Worker> {
    if ws == [] then []
    else FailedOf(ws[..|ws| - 1], ok) + if ok(ws[|ws| - 1]) then [] else [ws[|ws| - 1]]
  }

  lemma MultisetAppends(ws: seq<Worker>, w: Worker)
    ensures multiset(ws + [w]) == multiset(ws) + multiset{w}
  {}

  lemma PlusOne(a: multiset<Worker>, b: multiset<Worker>, w: Worker)
    ensures a + multiset{w} + b == a + b + multiset{w}
    ensures a + (b + multiset{w}) == a + b + multiset{w}
  {}

  lemma {:induction false} DeletedOrFailed(ws: seq<Worker>, ok: Worker -> bool)
    ensures multiset(DeletedOf(ws, ok)) + multiset(FailedOf(ws, ok)) == multiset(ws)
  {
    if ws != [] {
      var front, last := ws[..|ws| - 1], ws[|ws| - 1];
      var deleted, failed := DeletedOf(front, ok), FailedOf(front, ok);
      DeletedOrFailed(front, ok);
      assert ws == front + [last];
      MultisetAppends(front, last);
      PlusOne(multiset(deleted), multiset(failed), last);
      if ok(last) {
        assert DeletedOf(ws, ok) == deleted + [last] && FailedOf(ws, ok) == failed;
        MultisetAppends(deleted, last);
      } else {
        assert DeletedOf(ws, ok) == deleted && FailedOf(ws, ok) == failed + [last];
        MultisetAppends(failed, last);
      }
    }
  }

  lemma LiveAppends(ws: seq<Worker>, w: Worker)
    ensures Live(ws + [w]) == Live(ws) + if w.deleting then 0 else 1
  {
    assert (ws + [w])[..|ws|] == ws;
  }

  lemma {:induction false} LiveConcat(a: seq<Worker>, b: seq<Worker>)
    ensures Live(a + b) == Live(a) + Live(b)
  {
    if b == [] {
      assert a + b == a;
    } else {
      LiveConcat(a, b[..|b| - 1]);
      assert a + b == a + b[..|b| - 1] + [b[|b| - 1]];
      LiveAppends(a + b[..|b| - 1], b[|b| - 1]);
    }
  }

  /** The spare workers that a pass leaves: those that it did not mark, and those whose deletion failed. */
  function LeftOf(sorted: seq<Worker>, core: nat, ok: Worker -> bool): seq<Worker> {
    var l := Excess(|sorted|, core);
    FailedOf(sorted[..l], ok) + sorted[l..]
  }

  /** Whatever deletions fail, the spare workers before the pass are those that it deletes and those that are left, and
      at least the core limit of them is left, or all of them if there were no more. */
  lemma CoreSurvives(workers: seq<Worker>, requests: seq<Request>, sorted: seq<Worker>, core: nat, ok: Worker -> bool)
    requires IsSortOf(sorted, SpareOf(workers, requests))
    ensures var deleted := DeletedOf(sorted[..Excess(|sorted|, core)], ok);
            multiset(deleted) + multiset(LeftOf(sorted, core, ok)) == multiset(SpareOf(workers, requests))
    ensures |LeftOf(sorted, core, ok)| >= if |sorted| > core then core + (|sorted| - core + 1) / 4 else |sorted|
    ensures (forall w :: w in sorted ==> ok(w)) && |sorted| > core ==>
            |LeftOf(sorted, core, ok)| == core + (|sorted| - core + 1) / 4
  {
    SpareIsDeletedOrLeft(sorted, Excess(|sorted|, core), ok);
    if |sorted| > core { ScaleNumberIsRight(|sorted| - core); }
    if forall w :: w in sorted ==> ok(w) { NoneFails(sorted[..Excess(|sorted|, core)], ok); }
  }

  lemma SpareIsDeletedOrLeft(sorted: seq<Worker>, l: nat, ok: Worker -> bool)
    requires l <= |sorted|
    ensures multiset(DeletedOf(sorted[..l], ok)) + multiset(FailedOf(sorted[..l], ok) + sorted[l..]) == multiset(sorted)
  {
    var deleted, failed := DeletedOf(sorted[..l], ok), FailedOf(sorted[..l], ok);
    SplitMultiset(sorted, l, failed);
    DeletedOrFailed(sorted[..l], ok);
    Regroup(multiset(deleted), multiset(failed), multiset(sorted[l..]));
  }

  lemma Regroup(a: multiset<Worker>, b: multiset<Worker>, c: multiset<Worker>)
    ensures a + (b + c) == a + b + c
  {}

  lemma SplitMultiset(ws: seq<Worker>, l: nat, front: seq<Worker>)
    requires l <= |ws|
    ensures multiset(ws) == multiset(ws[..l]) + multiset(ws[l..])
    ensures multiset(front + ws[l..]) == multiset(front) + multiset(ws[l..])
  {
    assert ws == ws[..l] + ws[l..];
  }

  lemma {:induction false} NoneFails(ws: seq<Worker>, ok: Worker -> bool)
    requires forall w :: w in ws ==> ok(w)
    ensures FailedOf(ws, ok) == [] && DeletedOf(ws, ok) == ws
  {
    if ws != [] {
      NoneFails(ws[..|ws| - 1], ok);
      assert ws == ws[..|ws| - 1] + [ws[|ws| - 1]];
    }
  }

  /** A failing deletion only leaves more live workers. */
  lemma FailuresLeaveMore(sorted: seq<Worker>, core: nat, ok: Worker -> bool)
    ensures Live(LeftOf(sorted, core, ok))
         == Live(sorted[Excess(|sorted|, core)..]) + Live(FailedOf(sorted[..Excess(|sorted|, core)], ok))
  {
    LiveConcat(FailedOf(sorted[..Excess(|sorted|, core)], ok), sorted[Excess(|sorted|, core)..]);
  }

  // ----- terminating workers count as spare -----

  function LiveOnes(ws: seq<Worker>): seq<Worker> {
    if ws == [] then [] else LiveOnes(ws[..|ws| - 1]) + if ws[|ws| - 1].deleting then [] else [ws[|ws| - 1]]
  }

  function DyingOnes(ws: seq<Worker>): seq<Worker> {
    if ws == [] then [] else DyingOnes(ws[..|ws| - 1]) + if ws[|ws| - 1].deleting then [ws[|ws| - 1]] else []
  }

  lemma {:induction false} LiveOrDying(ws: seq<Worker>)
    ensures |LiveOnes(ws)| == Live(ws) && |LiveOnes(ws)| + |DyingOnes(ws)| == |ws|
    ensures forall w :: w in LiveOnes(ws) ==> w in ws && !w.deleting
    ensures forall w :: w in DyingOnes(ws) ==> w in ws && w.deleting
  {
    if ws != [] {
      LiveOrDying(ws[..|ws| - 1]);
      assert ws == ws[..|ws| - 1] + [ws[|ws| - 1]];
    }
  }

  lemma {:induction false} LiveOrDyingMultiset(ws: seq<Worker>)
    ensures multiset(LiveOnes(ws)) + multiset(DyingOnes(ws)) == multiset(ws)
  {
    if ws != [] {
      var front, last := ws[..|ws| - 1], ws[|ws| - 1];
      LiveOrDyingMultiset(front);
      assert ws == front + [last];
      MultisetAppends(front, last);
      PlusOne(multiset(LiveOnes(front)), multiset(DyingOnes(front)), last);
      if last.deleting {
        assert LiveOnes(ws) == LiveOnes(front) && DyingOnes(ws) == DyingOnes(front) + [last];
        MultisetAppends(DyingOnes(front), last);
      } else {
        assert LiveOnes(ws) == LiveOnes(front) + [last] && DyingOnes(ws) == DyingOnes(front);
        MultisetAppends(LiveOnes(front), last);
      }
    }
  }

  lemma {:induction false} LiveOnesCount(ws: seq<Worker>, w: Worker)
    ensures multiset(LiveOnes(ws))[w] == if w.deleting then 0 else multiset(ws)[w]
  {
    if ws != [] {
      LiveOnesCount(ws[..|ws| - 1], w);
      assert ws == ws[..|ws| - 1] + [ws[|ws| - 1]];
    }
  }

  /** Sorting changes nothing about how many are live. */
  lemma LiveOfPermutation(a: seq<Worker>, b: seq<Worker>)
    requires multiset(a) == multiset(b)
    ensures Live(a) == Live(b) && |a| == |b|
  {
    forall w ensures multiset(LiveOnes(a))[w] == multiset(LiveOnes(b))[w] {
      LiveOnesCount(a, w);
      LiveOnesCount(b, w);
    }
    assert multiset(LiveOnes(a)) == multiset(LiveOnes(b));
    assert |multiset(LiveOnes(a))| == |multiset(LiveOnes(b))| && |multiset(a)| == |multiset(b)|;
    LiveOrDying(a);
    LiveOrDying(b);
  }

  /** The spare workers that are terminating. */
  function Dying(workers: seq<Worker>, requests: seq<Request>): nat {
    LiveOrDying(SpareOf(workers, requests));
    |SpareOf(workers, requests)| - Live(SpareOf(workers, requests))
  }

  /** The terminating spare workers that a pass over `n` of them can bear. */
  function Bearable(n: nat, core: nat): nat
    requires n > core
  {
    (n - core + 1) / 4
  }

  /** If no more spare workers are terminating than a quarter of the excess, then at least the core limit of live ones
      is left, however equal workers are sorted and whatever deletions fail. */
  lemma FewDyingSurvive(workers: seq<Worker>, requests: seq<Request>, sorted: seq<Worker>, core: nat,
                        ok: Worker -> bool)
    requires IsSortOf(sorted, SpareOf(workers, requests)) && |sorted| > core
    requires Dying(workers, requests) <= Bearable(|sorted|, core)
    ensures Live(LeftOf(sorted, core, ok)) >= core
  {
    var l := Excess(|sorted|, core);
    LiveOfPermutation(sorted, SpareOf(workers, requests));
    LiveConcat(sorted[..l], sorted[l..]);
    assert sorted == sorted[..l] + sorted[l..];
    LiveOrDying(sorted[..l]);
    FailuresLeaveMore(sorted, core, ok);
    ScaleNumberIsRight(|sorted| - core);
  }

  /** The same workers with other count labels and creation times. */
  predicate Redated(ws: seq<Worker>, ws': seq<Worker>) {
    |ws| == |ws'| && forall i :: 0 <= i < |ws| ==> ws'[i] == ws[i].(text := ws'[i].text, created := ws'[i].created)
  }

  /** Every worker is unused; the terminating ones are younger. */
  function YoungDying(ws: seq<Worker>): seq<Worker> {
    seq(|ws|, i requires 0 <= i < |ws| => ws[i].(text := "", created := if ws[i].deleting then 1 else 0))
  }

  lemma {:induction false} YoungDyingSpare(ws: seq<Worker>, requests: seq<Request>)
    ensures SpareOf(YoungDying(ws), requests) == YoungDying(SpareOf(ws, requests))
  {
    if ws != [] {
      var front, last := ws[..|ws| - 1], ws[|ws| - 1];
      YoungDyingSpare(front, requests);
      assert YoungDying(ws)[..|ws| - 1] == YoungDying(front);
      YoungDyingAppends(SpareOf(front, requests), last);
    }
  }

  lemma YoungDyingAppends(ws: seq<Worker>, w: Worker)
    ensures YoungDying(ws + [w]) == YoungDying(ws) + [w.(text := "", created := if w.deleting then 1 else 0)]
  {}

  lemma {:induction false} YoungDyingLive(ws: seq<Worker>)
    ensures Live(YoungDying(ws)) == Live(ws)
  {
    if ws != [] {
      YoungDyingLive(ws[..|ws| - 1]);
      assert YoungDying(ws)[..|ws| - 1] == YoungDying(ws[..|ws| - 1]);
    }
  }

  lemma YoungSpare(workers: seq<Worker>, requests: seq<Request>)
    ensures Redated(workers, YoungDying(workers))
    ensures var spare := SpareOf(YoungDying(workers), requests);
            && |spare| == |SpareOf(workers, requests)| && Live(spare) == Live(SpareOf(workers, requests))
            && forall w :: w in spare ==> w.text == "" && w.created == if w.deleting then 1 else 0
  {
    YoungDyingSpare(workers, requests);
    YoungDyingLive(SpareOf(workers, requests));
  }

  /** Live ones first is then a sorted order. */
  lemma LiveFirstIsSorted(ws: seq<Worker>)
    requires forall w :: w in ws ==> w.text == "" && w.created == if w.deleting then 1 else 0
    ensures IsSortOf(LiveOnes(ws) + DyingOnes(ws), ws)
  {
    var a, b := LiveOnes(ws), DyingOnes(ws);
    LiveOrDying(ws);
    LiveOrDyingMultiset(ws);
    forall i, j | 0 <= i < j < |a + b| ensures !Less((a + b)[j], (a + b)[i]) {
      assert (a + b)[i] == if i < |a| then a[i] else b[i - |a|];
      assert (a + b)[j] == if j < |a| then a[j] else b[j - |a|];
      OlderIsLess((a + b)[j], (a + b)[i]);
    }
  }

  lemma LiveSuffix(a: seq<Worker>, b: seq<Worker>, l: nat)
    requires l <= |a| + |b| && (forall w :: w in a ==> !w.deleting) && forall w :: w in b ==> w.deleting
    ensures Live((a + b)[l..]) == if l <= |a| then |a| - l else 0
  {
    if l <= |a| {
      assert (a + b)[l..] == a[l..] + b;
      LiveConcat(a[l..], b);
      AllLive(a[l..]);
      NoneLive(b);
    } else {
      assert (a + b)[l..] == b[l - |a|..];
      NoneLive(b[l - |a|..]);
    }
  }

  lemma {:induction false} AllLive(ws: seq<Worker>)
    requires forall w :: w in ws ==> !w.deleting
    ensures Live(ws) == |ws|
  {
    if ws != [] { AllLive(ws[..|ws| - 1]); }
  }

  /** A pass that keeps the terminating workers in preference leaves few live ones. */
  lemma LiveFirstLeaves(ws: seq<Worker>, core: nat, ok: Worker -> bool)
    requires 0 < core < |ws| && |ws| - Live(ws) > Bearable(|ws|, core) && forall w :: ok(w)
    ensures Live(LeftOf(LiveOnes(ws) + DyingOnes(ws), core, ok)) < core
  {
    var a, b := LiveOnes(ws), DyingOnes(ws);
    LiveOrDying(ws);
    ScaleNumberIsRight(|ws| - core);
    var l := Excess(|a + b|, core);
    NoneFails((a + b)[..l], ok);
    assert LeftOf(a + b, core, ok) == (a + b)[l..];
    LiveSuffix(a, b, l);
  }

  lemma {:induction false} NoneLive(ws: seq<Worker>)
    requires forall w :: w in ws ==> w.deleting
    ensures Live(ws) == 0
  {
    if ws != [] { NoneLive(ws[..|ws| - 1]); }
  }

  /** Whatever count labels and creation times the workers have. */
  ghost predicate LiveCoreSurvives(workers: seq<Worker>, requests: seq<Request>, core: nat) {
    forall ws, sorted, ok: Worker -> bool :: Redated(workers, ws) && IsSortOf(sorted, SpareOf(ws, requests)) ==>
                                       Live(LeftOf(sorted, core, ok)) >= core
  }

  lemma {:induction false} RedatedSpare(ws: seq<Worker>, ws': seq<Worker>, requests: seq<Request>)
    requires Redated(ws, ws')
    ensures |SpareOf(ws', requests)| == |SpareOf(ws, requests)|
    ensures Live(SpareOf(ws', requests)) == Live(SpareOf(ws, requests))
  {
    if ws != [] {
      var front, front' := ws[..|ws| - 1], ws'[..|ws| - 1];
      var w, w' := ws[|ws| - 1], ws'[|ws| - 1];
      RedatedSpare(front, front', requests);
      assert w' == w.(text := w'.text, created := w'.created);
      if Spare(w, requests) {
        assert SpareOf(ws, requests) == SpareOf(front, requests) + [w];
        assert SpareOf(ws', requests) == SpareOf(front', requests) + [w'];
        LiveAppends(SpareOf(front, requests), w);
        LiveAppends(SpareOf(front', requests), w');
      } else {
        assert SpareOf(ws, requests) == SpareOf(front, requests) && SpareOf(ws', requests) == SpareOf(front', requests);
      }
    }
  }

  /** Terminating workers count as spare.  With more than the core limit of spare workers, at least that many live ones
      are left for all count labels and creation times and all failing deletions, if and only if no more of the spare
      ones are terminating than a quarter of the excess. */
  lemma LiveCoreSurvivesIff(workers: seq<Worker>, requests: seq<Request>, core: nat)
    requires 0 < core < |SpareOf(workers, requests)|
    ensures LiveCoreSurvives(workers, requests, core) <==>
            Dying(workers, requests) <= Bearable(|SpareOf(workers, requests)|, core)
  {
    if Dying(workers, requests) <= Bearable(|SpareOf(workers, requests)|, core) {
      forall ws, sorted, ok: Worker -> bool | Redated(workers, ws) && IsSortOf(sorted, SpareOf(ws, requests))
        ensures Live(LeftOf(sorted, core, ok)) >= core
      {
        RedatedSpare(workers, ws, requests);
        LiveOfPermutation(sorted, SpareOf(ws, requests));
        FewDyingSurvive(ws, requests, sorted, core, ok);
      }
    } else {
      ManyDyingDoNot(workers, requests, core, w => true);
    }
  }

  lemma ManyDyingDoNot(workers: seq<Worker>, requests: seq<Request>, core: nat, ok: Worker -> bool)
    requires 0 < core < |SpareOf(workers, requests)| && forall w :: ok(w)
    requires Dying(workers, requests) > Bearable(|SpareOf(workers, requests)|, core)
    ensures !LiveCoreSurvives(workers, requests, core)
  {
    var ws := YoungDying(workers);
    var spare := SpareOf(ws, requests);
    YoungSpare(workers, requests);
    LiveFirstIsSorted(spare);
    LiveFirstLeaves(spare, core, ok);
    Refute(workers, ws, requests, LiveOnes(spare) + DyingOnes(spare), core, ok);
  }

  lemma Refute(workers: seq<Worker>, ws: seq<Worker>, requests: seq<Request>, sorted: seq<Worker>, core: nat,
               ok: Worker -> bool)
    requires Redated(workers, ws) && IsSortOf(sorted, SpareOf(ws, requests)) && Live(LeftOf(sorted, core, ok)) < core
    ensures !LiveCoreSurvives(workers, requests, core)
  {}

  /** With a core limit of 2, three live spare workers and a terminating one that sorts last, two live ones are deleted
      and one is left. */
  lemma TerminatingWorkerTakesAPlace(ws: seq<Worker>, ok: Worker -> bool)
    requires |ws| == 4 && forall w :: w in ws ==> w.ready && ok(w)
    requires forall i, j :: 0 <= i < j < 4 ==> ws[i].text == ws[j].text && ws[i].created < ws[j].created
    requires !ws[0].deleting && !ws[1].deleting && !ws[2].deleting && ws[3].deleting
    ensures IsSortOf(ws, SpareOf(ws, []))
    ensures Live(ws) == 3 && Live(LeftOf(ws, 2, ok)) == 1
  {
    AllSpare(ws);
    OldestFirst(ws);
    TwoOfFour(ws, ok);
    LiveOfFour(ws);
  }

  lemma TwoOfFour(ws: seq<Worker>, ok: Worker -> bool)
    requires |ws| == 4 && forall w :: w in ws ==> ok(w)
    ensures LeftOf(ws, 2, ok) == ws[2..]
  {
    ScaleNumberIs(2);
    assert Excess(4, 2) == 2;
    NoneFails(ws[..2], ok);
  }

  lemma LiveOfFour(ws: seq<Worker>)
    requires |ws| == 4 && !ws[0].deleting && !ws[1].deleting && !ws[2].deleting && ws[3].deleting
    ensures Live(ws) == 3 && Live(ws[2..]) == 1
  {
    assert ws[..0] == [];
    LiveSplits(ws, 1);
    LiveSplits(ws, 2);
    LiveSplits(ws, 3);
    LiveSplits(ws, 4);
    assert ws[..4] == ws;
    LiveConcat(ws[..2], ws[2..]);
    assert ws[..2] + ws[2..] == ws;
  }

  lemma LiveSplits(ws: seq<Worker>, n: nat)
    requires 0 < n <= |ws|
    ensures Live(ws[..n]) == Live(ws[..n - 1]) + if ws[n - 1].deleting then 0 else 1
  {
    assert ws[..n][..n - 1] == ws[..n - 1];
  }

  lemma OldestFirst(ws: seq<Worker>)
    requires forall i, j :: 0 <= i < j < |ws| ==> ws[i].text == ws[j].text && ws[i].created < ws[j].created
    ensures SortedRange(ws, 0, |ws|)
  {
    forall i, j | 0 <= i < j < |ws| ensures !Less(ws[j], ws[i]) {
      OlderIsLess(ws[j], ws[i]);
    }
  }

  lemma OlderIsLess(a: Worker, b: Worker)
    requires a.text == b.text
    ensures Less(a, b) <==> a.created < b.created
  {}

  lemma {:induction false} AllSpare(ws: seq<Worker>)
    requires forall w :: w in ws ==> w.ready
    ensures SpareOf(ws, []) == ws
  {
    if ws != [] {
      AllSpare(ws[..|ws| - 1]);
      assert ws == ws[..|ws| - 1] + [ws[|ws| - 1]];
    }
  }

  // ----- repeated passes -----

  /** `ws'` is what is listed after a pass over `ws` all of whose deletions succeed and are done, with no new idle
      worker and the same requests. */
  ghost predicate OnePass(ws: seq<Worker>, ws': seq<Worker>, requests: seq<Request>, core: nat) {
    exists sorted :: IsSortOf(sorted, SpareOf(ws, requests))
                     && multiset(ws') == multiset(ws) - multiset(sorted[..Excess(|sorted|, core)])
  }

  ghost predicate Passes(lists: seq<seq<Worker>>, requests: seq<Request>, core: nat) {
    |lists| > 0 && forall i :: 0 <= i < |lists| - 1 ==> OnePass(lists[i], lists[i + 1], requests, core)
  }

  function ExcessOf(ws: seq<Worker>, requests: seq<Request>, core: nat): nat {
    if |SpareOf(ws, requests)| > core then |SpareOf(ws, requests)| - core else 0
  }

  lemma {:induction false} SpareOfCounts(ws: seq<Worker>, requests: seq<Request>, w: Worker)
    ensures multiset(SpareOf(ws, requests))[w] == if Spare(w, requests) then multiset(ws)[w] else 0
  {
    if ws != [] {
      SpareOfCounts(ws[..|ws| - 1], requests, w);
      assert ws == ws[..|ws| - 1] + [ws[|ws| - 1]];
    }
  }

  lemma PassRemovesSpare(ws: seq<Worker>, ws': seq<Worker>, requests: seq<Request>, gone: multiset<Worker>)
    requires multiset(ws') == multiset(ws) - gone && gone <= multiset(SpareOf(ws, requests))
    ensures multiset(SpareOf(ws', requests)) == multiset(SpareOf(ws, requests)) - gone
  {
    forall w ensures multiset(SpareOf(ws', requests))[w] == (multiset(SpareOf(ws, requests)) - gone)[w] {
      SpareOfCounts(ws, requests, w);
      SpareOfCounts(ws', requests, w);
    }
  }

  /** A pass leaves a quarter of the excess and never goes below the core limit. */
  lemma PassLeaves(ws: seq<Worker>, ws': seq<Worker>, requests: seq<Request>, core: nat)
    requires OnePass(ws, ws', requests, core)
    ensures ExcessOf(ws', requests, core) == Passed(ExcessOf(ws, requests, core))
    ensures |SpareOf(ws, requests)| >= core ==> |SpareOf(ws', requests)| >= core
  {
    var sorted :| IsSortOf(sorted, SpareOf(ws, requests))
                  && multiset(ws') == multiset(ws) - multiset(sorted[..Excess(|sorted|, core)]);
    var l := Excess(|sorted|, core);
    SplitMultiset(sorted, l, []);
    PassRemovesSpare(ws, ws', requests, multiset(sorted[..l]));
    Sizes(sorted, SpareOf(ws, requests), SpareOf(ws', requests), l);
    if |sorted| > core { ScaleNumberIsRight(|sorted| - core); }
  }

  lemma Sizes(sorted: seq<Worker>, spare: seq<Worker>, spare': seq<Worker>, l: nat)
    requires multiset(sorted) == multiset(spare) && l <= |sorted|
    requires multiset(spare') == multiset(spare) - multiset(sorted[..l])
    requires multiset(sorted) == multiset(sorted[..l]) + multiset(sorted[l..])
    ensures |spare| == |sorted| && |spare'| == |sorted| - l
  {
    assert |multiset(sorted)| == |multiset(spare)|;
    assert multiset(spare') == multiset(sorted[l..]);
    assert |multiset(spare')| == |multiset(sorted[l..])|;
  }

  /** With every pass the excess shrinks at least threefold, so logarithmically many passes bring the spare workers down
      to the core limit, and never below it. */
  lemma {:induction false} PassesReachCoreLimit(lists: seq<seq<Worker>>, requests: seq<Request>, core: nat)
    requires Passes(lists, requests, core)
    ensures var n := |lists| - 1;
            && ExcessOf(lists[n], requests, core) * Pow3(n) <= ExcessOf(lists[0], requests, core)
            && (Pow3(n) > ExcessOf(lists[0], requests, core) ==> |SpareOf(lists[n], requests)| <= core)
            && (|SpareOf(lists[0], requests)| >= core ==> |SpareOf(lists[n], requests)| >= core)
  {
    var n := |lists| - 1;
    if n > 0 {
      var front := lists[..n];
      PassesReachCoreLimit(front, requests, core);
      assert OnePass(lists[n - 1], lists[n], requests, core);
      PassLeaves(lists[n - 1], lists[n], requests, core);
      Thirds(ExcessOf(lists[n - 1], requests, core), Pow3(n - 1), ExcessOf(lists[0], requests, core));
    }
    var e := ExcessOf(lists[n], requests, core);
    if e > 0 { Times(1, e, Pow3(n)); }
  }

  /** A key leaves the queue exactly when its worker was marked and its deletion went through. */
  lemma {:induction false} OnlyDeletedLeaveQueue(queue: seq<Key>, ws: seq<Worker>, ok: Worker -> bool, k: Key)
    requires Distinct(queue)
    ensures Distinct(Without(queue, ws, ok))
    ensures k in Without(queue, ws, ok) <==>
            k in queue && forall w :: w in ws && ok(w) ==> k != Key(w.ns, w.image, w.name)
  {
    if ws != [] {
      var front, last := ws[..|ws| - 1], ws[|ws| - 1];
      OnlyDeletedLeaveQueue(queue, front, ok, k);
      DeleteKeepsDistinct(Without(queue, front, ok), KeyOf(last));
      assert ws == front + [last];
      assert forall w :: w in ws <==> w in front || w == last;
    }
  }
}
