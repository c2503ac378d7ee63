# CloudShell operator: a verified model

The operator lends pre-started pods, called workers, to CloudShell objects. A pool keeps idle workers in an in-memory
queue; the controller's sync of a shell borrows a worker, writes its name into the shell's pod label, routes traffic to
it and gives it back when the shell expires or is deleted. Shells that find no worker leave a request behind, and the
pool serves requests from workers that become ready or creates new ones.

The project models four parts of this and proves properties of every run.

- **The worker pool and the shell controller as one step protocol.** `PoolProtocol` has one step for each API write,
  each read and each queue operation of reconcile, the request handler, scale-in and the syncs (its header says where a
  read and a write are one step, and why). The steps of all actors interleave freely, updates carry resource versions,
  the listers of pods and shells lag and any API call may fail. `PoolInvariants`, `PoolBinding` and `PoolQueue` hold the
  inductive invariants, `PoolRuns` the theorems over all runs from the empty cluster, `PoolEffects` what every step does
  to each label and queue, with the theorems that need it, `PoolLeaks` the steps that lose a worker, and `PoolRaces`
  reachable runs that break the theorems once a hypothesis is dropped. `WorkerPool` holds the pool's own methods as a
  class and shows each of them to be a run of protocol steps. `WorkerKey`, `BindingCount`, `ScaleIn` and `Expiry` treat the textual keys, the count label, scale-in and the time to live.
- **The de-duplicating queue.** `WorkQueue` is the slice window over a backing array with its `dirty` set, refining
  the ordered set of `OrderedSet`; `LockHandshake` is its write-preferring lock together with the unbuffered signal
  channel.
- **The shared route tables.** `RouteTable` (Ingress) and `VirtualService` (routes as heap objects) refine one finite
  map from path to service; `RoutePaths` says when two shells have the same path and `RouteOwnership` that the controller
  finalizer guards every path.
- **Terminal flow control and client options.** `FlowControl` is the counter machine of `zmodemWrite`, `ClientOptions`
  the join in the controller against the split in the startup script.

`dafny verify dfyconfig.toml` checks everything.

## Hypotheses of the pool theorems

The theorems about runs name what they need as predicates on single steps; none is a guard of the protocol.

| hypothesis | what it says | the run without it |
|---|---|---|
| `PoolQueue.ReconcileAddsIdle` | the pod that reconcile puts on the worker queue is still idle (the idle filter of the event handler is not applied again to the pod that reconcile reads) | `PoolRaces.ReconcileOfABoundPodShares` |
| `PoolQueue.BackAddsLive` | the pod that Back puts on the worker queue has not been deleted since Back freed it | `PoolRaces.LateBackQueuesAGonePod` |
| `PoolBinding.Completes` | a sync that returned its worker gets to clear the pod label | `PoolRaces.LostLabelWriteShares` |
| `PoolBinding.BacksCurrent` | the label by which Back finds the worker is the shell's current one, though the sync reads it from a lister copy | `PoolRaces.OutdatedLabelShares` |
| `PoolRuns.AsksBetweenIterations` | a shell does not ask again between the end of the handler's work for its request and the removal of that request | `PoolRaces.InterruptedHandlerLosesAWaiter` |
| `PoolRuns.ListerShowsCreates` | when the handler looks for the workers that were made for a shell, the lister shows them | `PoolRaces.LaggingListerCreatesTwice` |
| `PoolQueue.PicksStaying` | no Borrow picks a key while another Borrow is between its API update and its dequeue | `PoolRaces.MatchOfALeavingKeyShares`, needs two syncs at a time |
| `PoolQueue.BindsUnpicked` | no Borrow binds a pod whose key another Borrow has picked and not yet looked up | `PoolRaces.OvertakenPickShares`, needs two syncs at a time |
| `PoolQueue.BindsQueued` | no Borrow binds a pod that Back has freed and not yet queued | `PoolRaces.LateBackQueuesABoundPod`, needs two syncs at a time |

The program starts its controller with one worker (cmd/app/cloudshell-manager.go:175), so one sync runs at a time. That
is `PoolQueue.OneSync`; it implies the last three hypotheses, and `PoolRuns.OneSyncIsSafe` states the main theorem with
only the others. The theorems with the last three in place of it hold for a controller with any number of workers. Each
run in the last column starts in the empty cluster and keeps every other hypothesis, and all but the last three have one
sync at a time. In the class of `WorkerPool`, where Borrow, Back and a handler iteration run to their end, the last
three, `BackAddsLive` and `AsksBetweenIterations` hold of every call (`CallsAreSafe`, `CallsLoseNoWaiter`).

Where the code and an obvious expectation part: an idle worker that is being deleted has no pool finalizer once
reconcile has dropped it (`OnlyReconcileUncovers` says that no other step does this); the duration computed from a time
to live is negative, and the shell expires at its first sync, exactly when an odd number of whole periods of 2^63
nanoseconds fit into it, for the first time from 9223372037 to 18446744073 seconds (`DurationIsNegativeIff`); with
time to live 0 a shell can be marked Complete at its first sync and become Ready later; when a copy of a shell expires
at one sync and not at the next, because the wall clock stepped back or because the shell has no schedule time and the
first sync was slow, a route can be left without the finalizer (`UnrepeatedExpiryLeavesARoute`); a worker whose label
write fails after the Borrow is lost until it is deleted by hand (`LeaksIff`, `LeakIsPermanent`); scale-in counts ready workers that are
already terminating among the spare ones, so fewer live ones than the core limit can be left (`LiveCoreSurvivesIff`);
the route path does not contain the namespace.

## Model

| member | source | states |
|---|---|---|
| `PoolRuns.OwnerEmptyIffFinalizer` | pkg/workerpool/worker_pool.go:196-227 | in every reachable state a worker that is not being deleted has an empty owner label exactly when it carries the pool finalizer; the finalizer implies an empty owner label even on a deleted one |
| `PoolRuns.OnlyReconcileUncovers` | pkg/workerpool/worker_pool.go:199-217 | from any reachable state, a step leaves a worker with an empty owner label and no finalizer if and only if it is reconcile's finalizer write on an idle deleted worker |
| `PoolRaces.DeletedIdleWorkerIsUncovered` | pkg/workerpool/worker_pool.go:199-217 | such a worker is reachable, so the equivalence cannot be extended to deleted workers |
| `PoolInvariants.WritesAreLegal` | pkg/workerpool/worker_pool.go:382-388 | every API write of every actor keeps the finalizer rule and follows the current version of its pod, or creates a pod under an unused name |
| `PoolInvariants.LedgerKept` | pkg/workerpool/worker_pool.go:460-471 | the version log stays ordered per pod and the current pods stay its newest entries, for every step of every actor |
| `PoolInvariants.BaseKept` | pkg/workerpool/worker_pool.go:162-227 | every copy held by lister, reconcile or a sync is a logged version, and both queues stay free of duplicates, for every step |
| `PoolBinding.BindingKept` | pkg/controllers/cloudshell_controller.go:307-356 | every step with a safe match, a current label in Back and a completed return keeps the invariant that the live pod named by a shell's label, or borrowed by its running sync, is owned by that shell |
| `PoolBinding.BindingIsExclusive` | pkg/controllers/cloudshell_controller.go:1125-1140 | the binding invariant leaves at most one shell per live pod that is not just returning it |
| `PoolBinding.FirstMatchIs` | pkg/workerpool/worker_pool.go:401-423 | the key that a Borrow picks is queued and has the requested namespace and image, and no older key has; there is none exactly when no queued key fits |
| `PoolBinding.MatchForIs` | pkg/workerpool/worker_pool.go:401-423 | for a request: the oldest queued key of its namespace and image, and none exactly when there is no such key |
| `PoolQueue.QueueKept` | pkg/workerpool/worker_pool.go:196-227 | every step that keeps the queue hypotheses keeps the invariant that a queued key names an idle pod of that image with the finalizer, or one that a Borrow is about to dequeue, and that a picked or freed pod stays idle until it is read or queued |
| `PoolQueue.PickedCopyIsSafe` | pkg/workerpool/worker_pool.go:401-423 | under the queue invariant the copy that a Borrow reads for the key it picked is idle, or its update will be refused |
| `PoolRuns.NoSharedWorker` | pkg/workerpool/worker_pool.go:358-398 | in every run with safe matches, current labels and completed returns, no two shells' labels name the same live pod, but for a shell that is just giving it back |
| `PoolQueue.OneSyncIsApart` | cmd/app/cloudshell-manager.go:175-175 | with at most one sync running, no step overlaps with the call of another sync |
| `PoolQueue.OneSyncKept` | pkg/controllers/cloudshell_controller.go:209-217 | starting a sync only when none is running keeps at most one running |
| `PoolRuns.OneSyncIsSafe` | cmd/app/cloudshell-manager.go:175-175 | for the controller as it is started, with one sync at a time: every queued key names an idle pod of the pool, no pod disappears under its key and no two shells share a live pod, in every run where reconcile queues idle pods, no returned worker is deleted before it is queued, and syncs act on current labels and complete their label writes |
| `PoolRuns.QueueNamesIdlePods` | pkg/workerpool/worker_pool.go:196-227 | for any number of syncs, in every disciplined run each queued key names an existing pod of its image with empty owner label and the pool finalizer, unless its Borrow is about to dequeue it |
| `PoolRuns.PodsVanishUnqueued` | pkg/workerpool/worker_pool.go:199-217 | for any number of syncs, in every disciplined run a pod disappears only when no key names it, or while its Borrow is about to dequeue the key |
| `PoolRuns.DisciplinedRunSharesNoWorker` | pkg/workerpool/worker_pool.go:438-479 | for any number of syncs, the discipline implies that no two shells share a live pod |
| `PoolRuns.NoWaiterLost` | pkg/workerpool/worker_pool.go:245-286 | until its next sync, an existing shell whose sync ended in ErrNotWorker has its request queued or its key in the controller queue; its request is dropped otherwise only when the handler has seen that the shell does not exist |
| `PoolRuns.AtMostOneWorkerPerRequest` | pkg/workerpool/worker_pool.go:249-268 | at most one pod of a namespace carries the request label of a given shell, in every run whose lister shows the pool's creates |
| `PoolEffects.BoundWorkersAreNotListed` | pkg/workerpool/worker_pool.go:382-384 | in every run, with no hypothesis, no version of a pod, past, present or listed, has both an owner and a request label |
| `PoolEffects.BorrowedWorkerFits` | pkg/workerpool/worker_pool.go:401-423 | in every run, with no hypothesis, the worker that a Borrow has bound is in the namespace of its shell and has had the image that the sync asked for in all its versions |
| `PoolEffects.NoIdleWorkerForgotten` | pkg/workerpool/worker_pool.go:93-118 | in every run with safe matches, current labels and completed returns, a worker that the lister shows as it is, idle, ready and not being deleted, is in the worker queue or reconcile has yet to look at it |
| `PoolEffects.OneSyncForgetsNoWorker` | cmd/app/cloudshell-manager.go:175-175 | the same for the controller as it is started, under the hypotheses of its safety |
| `PoolEffects.PodsComeAndGo` | pkg/workerpool/worker_pool.go:511-517 | for every step of every actor: pods are created by the request handler alone, idle and unready with the finalizer and the request label of the shell, and end only when the API server lets a deleted one go |
| `PoolEffects.RecFields` | pkg/workerpool/worker_pool.go:199-217 | reconcile changes a worker only by taking the finalizer off in its write |
| `PoolEffects.HandleFields` | pkg/workerpool/worker_pool.go:249-285 | the handler changes no existing worker |
| `PoolEffects.BorrowFields` | pkg/workerpool/worker_pool.go:370-388 | a Borrow leaves exactly the current version of its pod with the shell as owner and without request label and finalizer |
| `PoolEffects.SyncFields` | pkg/workerpool/worker_pool.go:448-465 | Back clears the owner and adds the finalizer, keeping the rest, or marks the pod for deletion; no other step of a sync writes a pod |
| `PoolEffects.FreesIff` | pkg/workerpool/worker_pool.go:438-465 | a Back can free exactly a ready worker that the lister shows in its current version, with its finalizer still there if it is being deleted |
| `PoolEffects.ShellFields` | pkg/controllers/cloudshell_controller.go:318-356 | for every step of every actor: the pod label is set by the write after a Borrow, to that worker, and cleared by the write after Back; the image changes by edits and defaults |
| `PoolEffects.WorkerQueueGains` | pkg/workerpool/worker_pool.go:219-224 | for every step of every actor: a key enters the worker queue, at its end, exactly when reconcile sees its pod ready and not deleted or Back queues it |
| `PoolEffects.WorkerQueueLoses` | pkg/workerpool/worker_pool.go:346-352 | for every step of every actor: a key leaves the worker queue exactly by scale-in, when reconcile sees its pod deleted or unready, or when the Borrow that bound it dequeues it |
| `PoolEffects.RequestQueueChanges` | pkg/workerpool/worker_pool.go:358-368 | for every step of every actor: a request enters exactly when a Borrow found no worker and leaves exactly when the handler drops it |
| `PoolEffects.ControllerQueueChanges` | pkg/controllers/cloudshell_controller.go:188-207 | for every step of every actor: a shell is queued exactly by its own events, by the handler that found a worker, or at the end of a sync that failed or is to come back, and taken off only when its sync starts |
| `PoolEffects.PodQueueChanges` | pkg/workerpool/worker_pool.go:112-118 | for every step of every actor: reconcile hears of a pod exactly when the lister gets or loses an idle version of it or its finalizer write was refused |
| `PoolLeaks.LeaksIff` | pkg/controllers/cloudshell_controller.go:352-356 | in every reachable state in which each live owned pod is named by its shell's label or held by its running sync, a step breaks that if and only if it is a failed label write after a Borrow, a label write over the name of another live worker, a cleared label of a worker that is still bound, or the end of a shell that names one |
| `PoolLeaks.NoWorkerLeaks` | pkg/controllers/cloudshell_controller.go:307-356 | no worker leaks in any run without such a step |
| `PoolLeaks.LeakIsPermanent` | pkg/workerpool/worker_pool.go:300-305 | a leaked worker stays owned and unknown to its shell under every disciplined step until it is deleted; nothing borrows, returns or labels it again |
| `PoolRaces.FailedLabelWriteLeaks` | pkg/controllers/cloudshell_controller.go:352-356 | a reachable run that keeps every hypothesis and leaks a worker by one failed label write |
| `PoolRaces.BorrowSharesIff` | pkg/workerpool/worker_pool.go:358-398 | for every state, an uninterrupted Borrow of a current copy leaves the shell sharing the pod with another shell if and only if that shell was bound to the pod before |
| `PoolRaces.ReconcileOfABoundPodShares` | pkg/workerpool/worker_pool.go:176-224 | a reachable run, one sync at a time, in which reconcile reads a pod that a shell owns and queues it because it does not check the owner label again, ending with two shells on one live pod |
| `PoolRaces.LostLabelWriteShares` | pkg/controllers/cloudshell_controller.go:311-323 | a reachable run, one sync at a time, in which only the label write after Back fails, ending with two shells on one live pod |
| `PoolRaces.OutdatedLabelShares` | pkg/controllers/cloudshell_controller.go:269-280 | a reachable run, one sync at a time, in which a sync on an outdated copy of its shell frees the worker of another shell, ending with two shells on one live pod |
| `PoolRaces.LateBackQueuesAGonePod` | pkg/workerpool/worker_pool.go:463-471 | a reachable run, one sync at a time, in which a worker is deleted and gone before Back queues its key |
| `PoolRaces.MatchOfALeavingKeyShares` | pkg/workerpool/worker_pool.go:370-398 | with two syncs at a time, a reachable run in which a second Borrow matches between update and dequeue, ending with two shells on one live pod |
| `PoolRaces.OvertakenPickShares` | pkg/workerpool/worker_pool.go:401-423 | with two syncs at a time, a reachable run in which a Borrow is overtaken between its queue search and its lister read, ending with two shells on one live pod |
| `PoolRaces.LateBackQueuesABoundPod` | pkg/workerpool/worker_pool.go:463-471 | with two syncs at a time, a reachable run in which Back queues a worker that another shell has borrowed since it was freed |
| `PoolRaces.InterruptedHandlerLosesAWaiter` | pkg/workerpool/worker_pool.go:271-284 | a reachable run in which a Borrow inside a handler iteration leaves a waiting shell with no request and no queued key |
| `PoolRaces.LaggingListerCreatesTwice` | pkg/workerpool/worker_pool.go:256-268 | a reachable run in which a lagging lister gives one shell two workers with its request label |
| `WorkerPool.Pool.MatchWorkerFor` | pkg/workerpool/worker_pool.go:401-423 | the search loop finds the oldest queued key for the namespace and image |
| `WorkerPool.Pool.Borrow` | pkg/workerpool/worker_pool.go:358-398 | an uninterrupted Borrow is a run of protocol steps; it reports ErrNotWorker exactly when no queued key fits and then queues the request; it succeeds exactly when the oldest fitting worker is listed, its listed version is current and the update is accepted; then that pod has the shell as owner, no request label and no finalizer, all its other fields as they were, and only its key leaves the queue; otherwise queue and API are untouched, and after an error the sync comes back |
| `WorkerPool.Pool.Bind` | pkg/workerpool/worker_pool.go:370-398 | update and dequeue are protocol steps; they succeed exactly when the copy is current and the update is accepted; an outdated copy or a refused update changes neither queue nor API and brings the sync back |
| `WorkerPool.Pool.MatchRequestFor` | pkg/workerpool/worker_pool.go:425-436 | a request is found exactly when some queued request has the worker's namespace and image |
| `WorkerPool.Pool.IsUnneeded` | pkg/workerpool/worker_pool.go:450-456 | a worker given back is kept exactly when it is ready and the queue is shorter than the limit or a queued request has its namespace and image |
| `WorkerPool.Pool.Back` | pkg/workerpool/worker_pool.go:438-479 | Back is a run of protocol steps; the worker is freed and queued if and only if it is listed and ready, the queue is shorter than the limit or a queued request has its namespace and image, and the update is accepted; a freed worker that no request fits leaves the queue within the limit; a listed worker that is not kept is marked for deletion; one that is no longer listed is left alone; the queue is otherwise unchanged |
| `WorkerPool.Pool.ProcessNext` | pkg/workerpool/worker_pool.go:162-227 | one round of reconcile is a run of protocol steps; the worker queue gains the key of a ready pod and loses that of a deleted or unready one; the finalizer goes only from a deleted pod; a refused write puts the key back and a failed read does not |
| `WorkerPool.Pool.CreateWorker` | pkg/workerpool/worker_pool.go:511-517 | the create is a protocol step that adds one idle, unready pod with the finalizer and the request label of the shell, under a name not used before; a failed create changes nothing |
| `WorkerPool.Pool.HandleOne` | pkg/workerpool/worker_pool.go:249-285 | one handler iteration is a run of protocol steps: a request that can be served goes to the controller queue and leaves the request queue; for any other whose create is accepted, one unready idle pod with its image and the request label of its shell is new exactly when no listed pod of the namespace has that label; worker queue, lister and shells stay |
| `WorkerPool.Pool.HandleRequestQueue` | pkg/workerpool/worker_pool.go:245-286 | a whole round over the snapshot is a run of protocol steps; the requests that stay, in order, the shells put on the controller queue and the pods created are stated outright: those for the requests that nothing serves and for whose shell the lister shows no pod with its request label |
| `WorkerPool.UnservedKeeps` | pkg/workerpool/worker_pool.go:249-285 | a request leaves the queue in a round if and only if a listed, queued worker serves it and its shell's read did not fail |
| `WorkerPool.ServedIff` | pkg/workerpool/worker_pool.go:401-423 | a request can be served exactly when the oldest queued key of its namespace and image names a listed pod |
| `WorkerPool.RoundCreates` | pkg/workerpool/worker_pool.go:249-268 | over a whole round, the pods afterwards are those before and one for each request that nothing serves, whose create is accepted and for whose shell no listed pod of the namespace has the request label |
| `WorkerPool.RoundCreatesFor` | pkg/workerpool/worker_pool.go:249-268 | and such a pod is idle and unready, with the image of the request and the request label of the shell |
| `WorkerPool.CallsLoseNoWaiter` | pkg/workerpool/worker_pool.go:358-368 | in every run made of uninterrupted calls no waiting shell is lost |
| `WorkerPool.CallsAreSafe` | pkg/workerpool/worker_pool.go:358-479 | in every run made of uninterrupted calls of any number of syncs, queued keys name idle pods, pods disappear unqueued and no worker is shared, when reconcile queues idle pods and labels are current and cleared |
| `WorkerPool.Pool.PerformAll` | pkg/workerpool/worker_pool.go:358-479 | every sequence of calls, with the steps of the outside world between them, is a run of protocol steps that interrupts no call; when calls that would break the discipline are left out, all invariants are kept |
| `WorkerPool.LeadsOn` | pkg/workerpool/worker_pool.go:358-479 | runs of calls compose |
| `WorkerPool.FreedWorkerIsLive` | pkg/workerpool/worker_pool.go:460-471 | a worker that Back may free by a current label is not being deleted, so an uninterrupted Back queues a live one |
| `WorkQueue.Queue.Add` | pkg/workerpool/queue.go:47-57 | on the ordered set: append unless present; the backing array is kept or replaced by a new one |
| `WorkQueue.Queue.Len` | pkg/workerpool/queue.go:59-63 | the number of members |
| `WorkQueue.Queue.Get` | pkg/workerpool/queue.go:65-80 | takes the oldest member, nothing on an empty queue, within the same array |
| `WorkQueue.Queue.Remove` | pkg/workerpool/queue.go:82-102 | deletes the item, if present, and keeps the order of the others |
| `WorkQueue.Queue.CloseGap` | pkg/workerpool/queue.go:96-100 | the in-place move of the tail deletes exactly the item at the index |
| `WorkQueue.Queue.Has` | pkg/workerpool/queue.go:104-109 | membership in `dirty` is membership in the slice |
| `WorkQueue.Queue.All` | pkg/workerpool/queue.go:111-124 | a new array with exactly the members in order |
| `WorkQueue.Execute` | pkg/workerpool/queue.go:47-124 | every sequence of operations on the array window does what it does on the ordered set |
| `WorkQueue.SnapshotIsStable` | pkg/workerpool/queue.go:111-124 | no later sequence of operations changes a snapshot |
| `WorkQueue.ApplyAllKeepsDistinct` | pkg/workerpool/queue.go:47-102 | no sequence of operations makes a duplicate |
| `WorkQueue.Conservation` | pkg/workerpool/queue.go:47-102 | for every sequence of operations and item, accepted adds equal hand-outs plus removals plus one if the item is queued |
| `WorkQueue.FirstInFirstOut` | pkg/workerpool/queue.go:65-80 | after every sequence of operations the members stand in the order in which they were accepted |
| `WorkQueue.SurvivorsKeepOrder` | pkg/workerpool/queue.go:82-102 | two items that survive a removal stood in the same order before |
| `LockHandshake.StepKeepsInv` | pkg/workerpool/queue.go:47-124 | every step of any thread keeps lock ownership consistent and writers exclusive |
| `LockHandshake.WritersAreAlone` | pkg/workerpool/queue.go:47-57 | in every reachable state nobody reads or writes a queue that another thread writes |
| `LockHandshake.WriterIsNotOvertaken` | pkg/workerpool/queue.go:47-63 | in every reachable state no thread gets a read lock while a writer has announced itself on that lock; its readers only become fewer |
| `LockHandshake.SomeStepIsEnabled` | pkg/workerpool/worker_pool.go:229-247 | whenever a thread has work left and no reader blocked itself, some step other than a tick is possible |
| `LockHandshake.NeverStuck` | pkg/workerpool/worker_pool.go:223-243 | in every reachable state of any number of threads that lock and send, with any handler work that does not send, some step is enabled while work is left |
| `LockHandshake.EverythingFinishes` | pkg/workerpool/worker_pool.go:229-247 | from every such state all threads can be brought to their end, without the ticker |
| `LockHandshake.MoveDecreases` | pkg/workerpool/queue.go:47-124 | a move of a thread uses up work and no signal |
| `LockHandshake.MeetDecreases` | pkg/workerpool/worker_pool.go:236-238 | a received signal is used up, whatever work it starts |
| `LockHandshake.NestedReaderDeadlocks` | pkg/workerpool/queue.go:59-63 | a variant with a nested read lock reaches a state where no thread can go on |
| `LockHandshake.DeadlockIsPermanent` | pkg/workerpool/queue.go:111-124 | no step of any thread ends such a deadlock |
| `LockHandshake.OnlyNestingGetsStuck` | pkg/workerpool/queue.go:111-124 | any stuck state contains a reader that nested its read lock behind a waiting writer |
| `WorkerKey.WorkerKeyFunc` | pkg/workerpool/worker_pool.go:593-620 | the key is namespace//image//name, or image//name without a namespace, with the image of the first web-tty container; there is none exactly when that container or its image is missing |
| `WorkerKey.EncodeIs` | pkg/workerpool/worker_pool.go:615-619 | the textual form of a key |
| `WorkerKey.DecodeUndoesEncode` | pkg/workerpool/worker_pool.go:579-591 | splitting a key gives back namespace, image and name if and only if none contains the separator and namespace and image do not end in a slash |
| `WorkerKey.EncodeIsInjective` | pkg/workerpool/worker_pool.go:593-620 | two such workers with the same key are the same worker |
| `WorkerKey.TrailingSlashIsLost` | pkg/workerpool/worker_pool.go:579-591 | an image that ends in a slash is not read back |
| `WorkerKey.MatchWorkerFor` | pkg/workerpool/worker_pool.go:401-423 | the search over textual keys returns the name in the oldest key that hits, or ErrNotWorker |
| `WorkerKey.SearchFindsOldestWorker` | pkg/workerpool/worker_pool.go:401-423 | on the keys of such workers, the oldest hit is the oldest worker of the requested namespace and image |
| `WorkerKey.RemovalTakesOneWorker` | pkg/workerpool/worker_pool.go:393-395 | removing a worker's key takes that worker and no other off the queue |
| `BindingCount.ParsedFits` | pkg/workerpool/worker_pool.go:329-332 | whatever the label, the number sorted by fits 32 bits, is 0 on bad syntax and a bound on a range error |
| `BindingCount.ParsesIff` | pkg/workerpool/worker_pool.go:329-332 | parsing succeeds exactly on an optional sign and at least one digit that denote a 32-bit number, and gives that number; a number beyond is cut to the bound of its sign |
| `BindingCount.NextLabelReads` | pkg/workerpool/worker_pool.go:370-381 | whatever label a worker comes with, the label after a Borrow reads one more, or 1 when there was none or it did not parse |
| `BindingCount.ParseUndoesPrint` | pkg/workerpool/worker_pool.go:376-380 | parsing undoes printing up to 2^31 - 1 and reports everything beyond as out of range |
| `BindingCount.CountWrapsAround` | pkg/workerpool/worker_pool.go:370-381 | after n borrows from no label the label reads ((n - 1) mod 2^31) + 1 |
| `ScaleIn.LessIsStrictWeakOrder` | pkg/workerpool/worker_pool.go:326-339 | the comparator is irreflexive and transitive, and incomparability is transitive |
| `ScaleIn.SortSlice` | pkg/workerpool/worker_pool.go:326-339 | the slice ends up as a sorted permutation of itself |
| `ScaleIn.Pool.MatchRequestFor` | pkg/workerpool/worker_pool.go:425-436 | a request is returned exactly when a queued one has the worker's namespace and image |
| `ScaleIn.Pool.ScaleInWorkerQueue` | pkg/workerpool/worker_pool.go:300-356 | the workers deleted are those unavailable for half an hour and, for excess, a prefix of the ready unwanted ones sorted by the number in the count label and then by age; exactly the keys of successfully deleted excess workers leave the queue |
| `ScaleIn.PassDeletesTheLeastUsed` | pkg/workerpool/worker_pool.go:323-353 | every worker deleted for excess is listed, ready and of no namespace and image that a request asks for; its count label denotes no larger number than that of any kept spare worker, and if the numbers are equal it is not younger |
| `ScaleIn.UnavailableAreDeleted` | pkg/utils/pod.go:9-26 | exactly the listed workers that have been unready for more than 1800 seconds are deleted for that |
| `ScaleIn.ReadyUnwantedAreSpare` | pkg/workerpool/worker_pool.go:308-320 | exactly the listed workers that are ready and that no request could use count as spare |
| `ScaleIn.CoreSurvives` | pkg/workerpool/worker_pool.go:323-352 | over the result of a pass, whatever deletions fail: the spare workers are exactly those deleted and those left, and at least the core limit is left, or all if there were no more |
| `ScaleIn.LiveCoreSurvivesIff` | pkg/workerpool/worker_pool.go:301-352 | for an excess of k spare workers over a positive core limit: at least the core limit of workers that are not terminating is left, for all count labels and creation times, all orders of equal workers and all failing deletions, if and only if no more than floor((k + 1) / 4) of the spare workers are terminating |
| `ScaleIn.FewDyingSurvive` | pkg/workerpool/worker_pool.go:301-352 | the sufficient half for the workers as they are: every sorted order and every failing deletion leaves the core limit of live workers |
| `ScaleIn.FailuresLeaveMore` | pkg/workerpool/worker_pool.go:345-352 | the live workers left are the live ones kept and those whose deletion failed |
| `ScaleIn.TerminatingWorkerTakesAPlace` | pkg/workerpool/worker_pool.go:301-321 | with core limit 2, three live spare workers and a terminating one that sorts last, one live worker is left |
| `ScaleIn.PassLeaves` | pkg/workerpool/worker_pool.go:323-344 | a pass whose deletions succeed leaves floor((k + 1) / 4) of an excess of k and never goes below the core limit |
| `ScaleIn.OnlyDeletedLeaveQueue` | pkg/workerpool/worker_pool.go:344-352 | a key leaves the queue if and only if its worker was in the prefix and its deletion succeeded |
| `ScaleIn.ScaleNumberIsRight` | pkg/workerpool/worker_pool.go:341-342 | for excess k >= 1 the pass deletes between 1 and k workers and leaves floor((k + 1) / 4), at most a third |
| `ScaleIn.PassesReachCoreLimit` | pkg/workerpool/worker_pool.go:288-298 | over n passes on a worker list with no new idle workers, the excess times 3^n is at most the first excess, so the spare workers come down to the core limit once 3^n exceeds it, and never below |
| `RouteTable.UpsertedRepresents` | pkg/controllers/cloudshell_controller.go:730-764 | the upserted list represents the map with the path set; other entries keep place and value |
| `RouteTable.FilteredRepresents` | pkg/controllers/cloudshell_controller.go:950-966 | the filtered list represents the map without the path |
| `RouteTable.FilteredKeepsOrder` | pkg/controllers/cloudshell_controller.go:953-958 | the entries that stay keep their order |
| `RouteTable.LastCallWins` | pkg/controllers/cloudshell_controller.go:730-764 | over every sequence of calls, the map holds a service for a path exactly when the last successful call about that path set it |
| `RouteTable.UpsertPaths` | pkg/controllers/cloudshell_controller.go:730-764 | the update loop computes the upsert on every list |
| `RouteTable.FilterPaths` | pkg/controllers/cloudshell_controller.go:953-958 | the removal loop computes the filter on every list |
| `RouteTable.IngressTable.CreateIngress` | pkg/controllers/cloudshell_controller.go:666-765 | the stored Ingress goes from one map to the map with the path set, or stays when the write fails |
| `RouteTable.IngressTable.RemovePath` | pkg/controllers/cloudshell_controller.go:941-966 | the stored Ingress goes to the map without the path, and is deleted when that is empty |
| `RouteTable.RunIngress` | pkg/controllers/cloudshell_controller.go:730-764 | over every sequence of calls from no object, the Ingress exists exactly when some path is set, and its only rule lists exactly the paths whose last successful call set them, each once and with that service |
| `VirtualService.UpsertRefines` | pkg/controllers/cloudshell_controller.go:850-872 | on routes of the template's shape every indexed access is in range and the upsert is that of the list of entries |
| `VirtualService.FilterRefines` | pkg/controllers/cloudshell_controller.go:976-994 | the route filter is that of the list of entries |
| `VirtualService.FilteredRoutesAre` | pkg/controllers/cloudshell_controller.go:976-994 | on any routes, removal takes away exactly those whose first match condition is the prefix |
| `VirtualService.UpsertedRoutesAre` | pkg/controllers/cloudshell_controller.go:850-872 | on any routes, the upsert changes the first destination of exactly those, in place, or adds one copy of the first route with prefix and destination set |
| `VirtualService.HttpRoute.DeepCopy` | pkg/controllers/cloudshell_controller.go:864-870 | an equal route made of new objects only |
| `VirtualService.SetHosts` | pkg/controllers/cloudshell_controller.go:851-862 | the loop changes the first destination of exactly the routes that are hit, and reports whether there was one |
| `VirtualService.Upsert` | pkg/controllers/cloudshell_controller.go:850-872 | the in-place update of the route objects computes the upsert; a cloned route shares no object with its source |
| `VirtualService.Remove` | pkg/controllers/cloudshell_controller.go:976-994 | the removal loop keeps every route but those for the path, in order |
| `VirtualService.VirtualServiceTable.CreateRoute` | pkg/controllers/cloudshell_controller.go:803-873 | the stored VirtualService goes to the map with the path set, or stays when the write fails |
| `VirtualService.VirtualServiceTable.RemoveRoute` | pkg/controllers/cloudshell_controller.go:967-999 | the stored VirtualService goes to the map without the path, and is deleted when that is empty |
| `VirtualService.RunVirtualService` | pkg/controllers/cloudshell_controller.go:850-872 | over every sequence of calls from no object, the VirtualService exists exactly when some path is set, and its routes are exactly those whose last successful call set them, one for each path |
| `RoutePaths.PathsDiffer` | pkg/controllers/cloudshell_controller.go:1005-1021 | for all prefixes, two shells have the same path if and only if their prefixes agree up to a final slash and name and suffix agree, or the suffix of one contains the default prefix where the prefix of the other ends |
| `RoutePaths.RoutePathIs` | pkg/controllers/cloudshell_controller.go:1005-1021 | the path written out; a final slash of the prefix is not doubled |
| `RoutePaths.SameBaseIff` | pkg/controllers/cloudshell_controller.go:1011-1015 | two prefixes count as the same exactly when they are equal or one is the other with a slash added |
| `RoutePaths.PlainSuffixDoesNotNest` | pkg/controllers/cloudshell_controller.go:1017-1020 | a suffix without a slash rules the second case out |
| `RoutePaths.NamespacesCollide` | pkg/controllers/cloudshell_controller.go:1005-1021 | the namespace does not enter the path |
| `RouteOwnership.LocalInvKept` | pkg/controllers/cloudshell_controller.go:279-289 | every step of a shell's sync, including the write of defaults and the expiry of a shell with or without a schedule time, and of deletion, with any API call failing, keeps the invariant that a routed shell holds the finalizer, if copies that expired once expire again |
| `RouteOwnership.InvKept` | pkg/controllers/cloudshell_controller.go:519-534 | the same for all shells on one table with distinct paths |
| `RouteOwnership.RoutedShellsHoldFinalizer` | pkg/controllers/cloudshell_controller.go:901-926 | in every run in which a copy that expired once expires again, each path in the table is the path of an existing shell with the controller finalizer |
| `RouteOwnership.DeletionCompletes` | pkg/controllers/cloudshell_controller.go:901-926 | from every reachable state a shell that is being deleted can be brought to its end, with its route off the table |
| `RouteOwnership.SyncSettles` | pkg/controllers/cloudshell_controller.go:292-362 | from every reachable state an existing shell can be synced to its route and the finalizer, or, when it expires, out of both, whatever sync was running |
| `RouteOwnership.ExpiresAgrees` | pkg/controllers/cloudshell_controller.go:384-393 | expiry here and in module Expiry are the same for the same clock readings |
| `RouteOwnership.SteadyIff` | pkg/controllers/cloudshell_controller.go:384-393 | with a wall clock that does not step back, a copy expires again at every later reading exactly when it has no time to live, has a schedule time, or has a negative duration |
| `RouteOwnership.ForwardClockSuffices` | pkg/controllers/cloudshell_controller.go:292-305 | with such a clock the result needs only that a sync that outran the time to live of an unscheduled copy does so again |
| `RouteOwnership.SteadyShellsNeedNoMore` | pkg/controllers/cloudshell_controller.go:292-305 | for shells without a time to live, with a schedule time or with a negative duration such a clock is enough |
| `RouteOwnership.UnrepeatedExpiryLeavesARoute` | pkg/controllers/cloudshell_controller.go:293-358 | for every time to live and schedule time, two clock readings of which the first expires the shell and the second does not lead to a route of a shell without the finalizer |
| `RouteOwnership.UnsteadyShellLeavesARoute` | pkg/controllers/cloudshell_controller.go:293-358 | for every other time to live such a run exists with a clock that does not step back |
| `Expiry.DurationIsExact` | pkg/controllers/cloudshell_controller.go:391-391 | the product of seconds and nanoseconds is right exactly up to 9223372036 seconds either way |
| `Expiry.DurationIsNegativeIff` | pkg/controllers/cloudshell_controller.go:391-391 | for every time to live, the duration is negative exactly when an odd number of whole periods of 2^63 nanoseconds fit into it |
| `Expiry.FirstNegativeStretch` | pkg/controllers/cloudshell_controller.go:391-391 | up to 27670116110 seconds the duration is negative exactly from 9223372037 to 18446744073 seconds |
| `Expiry.NewShellExpiresAtOnceIff` | pkg/controllers/cloudshell_controller.go:384-393 | a shell that was never scheduled expires at every first sync exactly for the times to live with a negative duration |
| `Expiry.ScheduleTimeIsWriteOnce` | pkg/controllers/cloudshell_controller.go:376-379 | no run of syncs changes a schedule time once it is written |
| `Expiry.OutcomeDecides` | pkg/controllers/cloudshell_controller.go:292-381 | which outcomes of a sync change phase, label, schedule time and deletion, field by field: only a served one makes the shell Ready and bound with a schedule time, only a completed removal makes it Complete or deletes it |
| `Expiry.PhaseTellsTheRun` | pkg/controllers/cloudshell_controller.go:292-381 | over every run the shell is Ready exactly when it was served and no removal has completed since, and Complete exactly when one has and no sync has served it since, or as it was before |
| `Expiry.DeadStaysDead` | pkg/controllers/cloudshell_controller.go:292-305 | from the deadline on no run makes the shell Ready or binds a worker |
| `Expiry.ExpiryIsFinal` | pkg/controllers/cloudshell_controller.go:292-305 | a Complete, unbound shell stays out of service in every run if and only if its deadline has passed or its time to live is negative |
| `Expiry.CompleteMeansExpired` | pkg/controllers/cloudshell_controller.go:296-304 | a sync marks a shell Complete only after its deadline, or at its first sync when the clock outruns the time to live |
| `Expiry.ZeroTtlComesBack` | pkg/controllers/cloudshell_controller.go:384-393 | the last case exists |
| `Expiry.WakesAtDeadline` | pkg/controllers/cloudshell_controller.go:188-207 | a served sync brings the key back at the deadline plus the time spent in the sync |
| `Expiry.WakeUpsExpire` | pkg/controllers/cloudshell_controller.go:196-206 | in every run of syncs started by wake-ups, a scheduled shell is served at most once more and a new one at most twice before a sync expires it |
| `Expiry.ExpiryEndsService` | pkg/controllers/cloudshell_controller.go:296-304 | after a successful expiry every later run finds the shell deleted or Complete, and labelled only if its label named no listed pod |
| `FlowControl.RunKeepsInv` | html/src/components/zmodem/index.tsx:132-153 | in every run `pending` is the number of outstanding callbacks, so the cut-off at zero never takes effect |
| `FlowControl.CallbacksCoverTheLimit` | html/src/components/zmodem/index.tsx:137-145 | in every run each outstanding callback stands for more than `limit` bytes |
| `FlowControl.SmallWritesAskNothing` | html/src/components/zmodem/index.tsx:137-152 | writes from the start that sum to at most `limit` leave no callback outstanding and the counter at their sum |
| `FlowControl.BytesAreConserved` | html/src/components/zmodem/index.tsx:137-145 | over every run the bytes written are those acknowledged and those still under way |
| `FlowControl.MessagesMarkCrossings` | html/src/components/zmodem/index.tsx:139-149 | in every reachable state the message turns to pause exactly when a write over the limit takes the outstanding callbacks from highWater to highWater + 1, and to resume exactly when a callback takes them from lowWater to lowWater - 1 |
| `FlowControl.PauseIsCoveredIff` | html/src/components/zmodem/index.tsx:139-149 | a paused sender always has at least lowWater callbacks to come if and only if lowWater <= highWater + 1 |
| `FlowControl.DrainingResumesIff` | html/src/components/zmodem/index.tsx:139-149 | draining always ends with resume if and only if lowWater is at least 1 |
| `FlowControl.TerminalLimitsQualify` | html/src/components/terminal/index.tsx:116-122 | the terminal's own limits have both properties |
| `FlowControl.UnacknowledgedIsBounded` | html/src/components/zmodem/index.tsx:137-149 | with chunks of at most c bytes the bytes under way are at most pending * (limit + c) + limit, in every run |
| `FlowControl.ObedientSenderIsBounded` | html/src/components/zmodem/index.tsx:132-153 | if the sender stops while paused, at most highWater + 1 callbacks are outstanding and the bytes under way stay below a constant |
| `FlowControl.CallbackAtOnceDrifts` | html/src/components/zmodem/index.tsx:139-145 | if callbacks ran inside the write, the counter would stand at 1 with nothing outstanding from the first write over the limit on |
| `FlowControl.Zmodem.Write` | html/src/components/zmodem/index.tsx:132-153 | the addon's write is the write step of the counter machine: it asks for a callback exactly when more than `limit` bytes have been written since the last one, and sends pause exactly when more than `highWater` are then outstanding |
| `FlowControl.Zmodem.Processed` | html/src/components/zmodem/index.tsx:139-144 | the addon's callback is the callback step of the counter machine: it sends resume exactly when fewer than `lowWater` are then outstanding |
| `ClientOptions.JoinOptions` | pkg/controllers/cloudshell_controller.go:476-487 | the loop rejects exactly the maps with the delimiter in a key or value and otherwise joins the items in iteration order |
| `ClientOptions.FieldsUndoJoin` | docker/cloudshell/script/startup.sh:74-79 | field splitting gives back the joined items |
| `ClientOptions.JoinUndoesFields` | docker/cloudshell/script/startup.sh:74-79 | joining the fields gives the text back, but for a delimiter at its very end |
| `ClientOptions.ScriptReadsItemsIff` | docker/cloudshell/script/startup.sh:74-79 | the script reads exactly the joined items if and only if there is no newline in them |
| `ClientOptions.OptionsArriveIff` | docker/cloudshell/script/startup.sh:74-79 | for every accepted map and every iteration order the k=v items arrive exactly if and only if no key or value holds a newline |

## Left out

- Kubernetes client, informers, retry on conflict and work-queue internals: API writes are atomic, accepted or refused by resource version, and a retried Borrow that keeps its outdated copy is one refused update.
- In-place changes to objects of the lister: cached pods and shells are copies in the model.
- The finalizer, phase and time to live of a shell are not part of the pool protocol, where a shell may be deleted at any time; they are treated in `RouteOwnership` and `Expiry`.
- `Expiry` has syncs that read the current object and a clock that does not run backwards; outdated copies and a clock that steps back are treated in `RouteOwnership`.
- Crash and restart of the process: the in-memory queues are never lost in the model.
- The binding count, node selector and resources are not part of the protocol state; the count is treated in `BindingCount` and `ScaleIn`.
- Pod names drawn at random are taken to be unused.
- Pods without a Ready condition, which scale-in dereferences, and pods whose first container is not the web-tty one, which the request search reads: not part of this model.
- `WorkQueue.Queue.Grow`: the new capacity is not that of Go's append.
- The queue compares items with equality; deep equality is taken to coincide with it.
- `ScaleIn.SortSlice`: an insertion sort stands for the library sort; results depend only on it being a sorted permutation.
- `ScaleIn.ScaleNumberIsRight`: arithmetic is over reals, exact for the floating-point expression below 2^51 workers.
- `ScaleIn.Pool.ScaleInWorkerQueue`: one pass is atomic; in the pool protocol its writes are single steps.
- Shutdown: after stop is closed a sender may stay blocked on the signal channel, so the progress claims end there.
- Edits of exposure mode, path prefix and suffix or routing configuration of a live shell: old routes are not tracked by the source.
- Startup and reset scripts in the worker, kubeconfig generation, service creation, node lookup and manifest templates: remote execution and text rendering.
- Name hashing and MD5, generated code, command-line options, leader election, charts and end-to-end tests.
- The rest of the web frontend: rendering, sockets and file-transfer sessions.
- NUL bytes in client options, which the shell cannot hold.
