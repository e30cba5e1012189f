# Linqu runtime: a verified model

The Linqu runtime schedules tasks over tensors on a hierarchy of nodes. This project models
its scheduling core and proves what the core keeps over every run:

- **The orchestrator** (`Lifecycle`, `Tally`, `Ledger`, `Submission`, `Groups`, `Invariant`,
  `Runs`, `Progress`, `Dataflow`, `Lifetimes`, `Shortfalls`): task and group submission, completion
  reports, reference counts, scope tokens, in-order retirement and heap reclamation as a state
  machine. Tasks are indexed by id there; one invariant is kept by every step, and the theorems
  about runs follow from it.
- **The orchestrator object** (`TaskRing`, `DepPool`, `HeapRing`, `ScopeStack`, `Refinement`,
  `Orchestrator`, `OrchestratorRuns`): the same calls in place, on a ring of `window` recycled
  descriptors, a pool of list entries, a heap ring, a flat scope buffer and the tensor map. Each
  call is exactly one step of the state machine, and `PerformAll` carries out whole runs, through
  any amount of slot reuse, with every lookup answered by the tensor map.
- **The level runtime** as interleaved atomic steps of submitter, workers and scheduler, with a
  *split* relation (COMPLETED is stored before the lock is taken, as the code does) and a
  *fused* one (stored inside the lock). `LevelProtocol`, `LevelInvariant`, `LevelSteps`,
  `LevelRuns`, `LevelTheorems` and `LevelTwoTasks` treat the protocol over ids, where every
  task keeps a descriptor of its own. `LevelSlots` is the runtime itself: descriptors in slots
  `id` modulo `window` that a submission resets, workers that hold only an id and a list
  position, and a circular ready queue (`ReadyQueue`). `LevelCoupling`, `LevelSimulation` and
  `LevelSlotTheorems` relate the two exactly; `LevelDataflow` tells the dependencies from the
  submitted inputs and outputs, and `LevelQuiescence` shows that the runtime never gets stuck.
  Beyond where they agree, `LevelSlotQueue` and
  `LevelDoubleEnqueue` say what the slots keep in every interleaving; `LevelScripts`,
  `LevelShortfall`, `LevelLostWakeup`, `LevelDoomed` and `LevelStaleWalk` build the runs that go
  wrong; `LevelThirdTask`, `LevelSmallWindows` and `LevelBounds` draw the exact line for every
  window.
- **The remote dispatcher** (`RemoteDispatch`): the outstanding count, run together with the
  orchestrator's state machine by a submitting and a receiving thread.
- **The tensor map** (`TensorMap`, `TensorMapRuns`, `TensorMapObject`), what it answers to the
  orchestrator's lookups (`HandleLog`, `MapService`), and when it does so for ever (`MapRoom`).
- **The binary reduction builder** (`TreeReduce`) and the reduction as the level runtime carries
  it out (`ReduceOnLevel`).

`dafny verify dfyconfig.toml` checks everything.

## What the model shows about the code

Seven shortcomings and two limits came out of the proofs. Each shortcoming has a lemma with a
concrete run, and a theorem that says when the code is right.

- *Reads outside the producer's scope.* A task may name an input whose producer is CONSUMED but
  not retired; that producer then retires although its new consumer is running, and the
  consumer's completion bumps a descriptor in a reused slot (`StaleReadReachesReusedSlot`).
  A step keeps the invariant if and only if it is no submission of a task or a non-empty group
  that reads from a CONSUMED task (`StepKeepsInvExactly`); reading only while the producer's
  scope is open is enough (`ScopedRunKeepsInv`).
- *Groups with a finished producer.* A producer that completed before the group is submitted is
  counted into the group's fan-in and never counted as arrived, so the group waits for ever
  (`LateGroupHangs`). A group starts if and only if all its producers are finished and none was
  finished at submission (`GroupStartedExactly`).
- *Groups that read their own output.* A group that names a handle as output before it names it
  as input becomes its own producer and waits for itself (`SelfReadHangs`,
  `SelfReaderNeverStarts`).
- *COMPLETED is stored outside the lock.* The comment at src/runtime/level_runtime.cpp:348-353
  says that the lock keeps an edge from being counted twice; the store at line 340 precedes the
  lock, and for every window from three on a run exists in which a task with two producers is
  queued while one of them has not started (`PrematureEnqueue`). With the store inside the lock the comment is right
  (`FusedSlotStartsWithInputsReady`); a step keeps the counts exact if and only if no producer
  is told of a consumer between its store and its lock (`LevelRuns.StepKeepsExact`).
- *A slot is reused under a walk.* From the same overlap a task that started too early can
  release a producer before it has told it of itself; that producer is CONSUMED and retires
  between its own store and its lock. One admission more than the window resets its slot, its
  walk finds an empty list, and a waiting consumer is queued in no continuation (`LostWakeup`,
  for every window from four on). A submission is harmless if and only if the slot it takes is
  not that of an unfinished task or of a producer such a task will still release (`MoveFollows`).
  Over all windows the ring accepts, no wake-up is lost in any interleaving of at most n
  admissions if and only if n is at most the window or the window at most two
  (`ExactAdmissionBound`).
- *A walk reaches a reused slot.* The comment at src/runtime/level_runtime.cpp:181-188 says that
  the compare-and-swap keeps an id from being queued twice. With two admissions more than the
  window, the leftover entry of a walk can reach a slot that holds a waiting younger task, and
  the older id, which has run already, is queued again (`DoubleEnqueue`). No id is queued twice in any
  interleaving of at most n admissions if and only if n is at most the window and one, or the
  window at most two (`ExactEnqueueBound`). The queue itself is safe throughout: in every
  interleaving at most a window of entries waits and none is ever overwritten
  (`NeverOverwrites`).
- *Tensor map chains.* An invalidated entry stays linked and is not unlinked when its slot is
  recycled, so three inserts can close a cycle (`ThreeInsertsMakeACycle`). An insert keeps the
  chains acyclic and disjoint if and only if the slot to be recycled is not such an entry
  (`InsertKeepsExactly`), and over whole runs if and only if every insert was safe in this sense
  (`WellFormedExactly`). A program that writes at most q handles a task, none with an unretired
  producer, is served for ever by a pool of window times q entries (`RunIsRoomy`). An orchestrator
  whose tasks update a handle gets there: three submissions and a pool of two are enough
  (`UpdateBreaksMap`).
- No step returns entries to the dependency pool, so its capacity bounds the number of edges
  over the whole life of an orchestrator (`PoolBoundsAllEdges`).
- The level runtime opens no scope, so without the overlap nothing ever retires and at most
  `window` tasks are admitted (`SlotNothingRetires`).

## Model

| member | source | states |
|---|---|---|
| Orchestrators.Orchestrator.Perform | src/runtime/linqu_orchestrator_state.cpp:169-440 | every enabled step that keeps the invariant, whose edges fit the pool and whose lookups the tensor map serves is carried out in place by the object, which stays coupled to a lifecycle state in the whole invariant; the pool grows by two entries for each edge, and the map holds the log with this step's inserts or bound |
| OrchestratorRuns.PerformAll | src/runtime/linqu_orchestrator_state.cpp:95-440 | a new orchestrator carries out any run that reads from no CONSUMED task and ends coupled to the run's last state, its tensor map told exactly the run's log; what it needs is a pool with two entries for each edge of the run and a map that serves the run |
| OrchestratorRuns.PerformFresh | src/runtime/linqu_orchestrator_state.cpp:95-440 | a map pool of window times q entries is enough for any such run, however long, that writes at most q handles a task and none with an unretired producer |
| OrchestratorRuns.PoolBoundsAllEdges | src/ring/linqu_dep_pool.cpp:17-30 | each step in turn finds the pool entries it needs if and only if the pool has two for every edge of the whole run |
| Orchestrators.Orchestrator.SubmitTask | src/runtime/linqu_orchestrator_state.cpp:169-245 | submission through the ring, the pool and the tensor map is the lifecycle's submission, after one advance if the ring was full; false exactly when it is still full |
| Orchestrators.Orchestrator.SubmitTaskGroup | src/runtime/linqu_orchestrator_state.cpp:510-610 | the same for groups: an empty group completes and propagates, one without producers starts, any other stores its spec |
| Orchestrators.Orchestrator.RegisterTask | src/runtime/linqu_orchestrator_state.cpp:187-215 | slot allocation, dependency scan, scope registration and heap mark in place equal the lifecycle's registration; the returned fan-in is the length of the new task's producer list |
| Orchestrators.Orchestrator.ScanParams | src/runtime/linqu_orchestrator_state.cpp:193-209 | the parameter loop, looking up and inserting in the tensor map, leaves the slots showing the scanned task table, the handles updated and the map told in parameter order |
| Orchestrators.Orchestrator.AddEdgeBetween | src/runtime/linqu_orchestrator_state.cpp:197-202 | both list heads are prepended in the pool and the slots then show both ends of the new edge, all other lists unchanged |
| Orchestrators.Orchestrator.OnTaskComplete | src/runtime/linqu_orchestrator_state.cpp:247-271 | a report of a dispatched id, plain or synthetic, is the lifecycle's report step |
| Orchestrators.Orchestrator.PropagateCompletion | src/runtime/linqu_orchestrator_state.cpp:273-309 | the producer walk, the consumer walk, the wake-up walk and the self-check in place are the lifecycle's propagation |
| Orchestrators.Orchestrator.ReleaseProducers | src/runtime/linqu_orchestrator_state.cpp:276-288 | the walk along the pooled list releases each listed producer once, in list order, and ends |
| Orchestrators.Orchestrator.SatisfyConsumers | src/runtime/linqu_orchestrator_state.cpp:290-301 | the walk bumps the fan-in count of each listed consumer once per occurrence |
| Orchestrators.Orchestrator.CheckConsumersReady | src/runtime/linqu_orchestrator_state.cpp:311-348 | the walk starts exactly the waiting groups whose fan-in is satisfied and hands their sub-tasks over |
| Orchestrators.Orchestrator.DispatchGroupSubTasks | src/runtime/linqu_orchestrator_state.cpp:612-643 | n fresh synthetic ids, counting down, are entered for the group and dispatched |
| Orchestrators.Orchestrator.TryAdvanceRingPointers | src/runtime/linqu_orchestrator_state.cpp:363-386 | the cursor stops at the first task that is not CONSUMED, the heap tail moves to the last retired mark, and the tensor map is told the new bound |
| Orchestrators.Orchestrator.ScopeEnd | src/runtime/linqu_orchestrator_state.cpp:393-407 | tokens, re-check of all unretired tasks and retirement in place are the lifecycle's end of scope |
| Orchestrators.Orchestrator.AllocTensor | src/runtime/linqu_orchestrator_state.cpp:413-435 | a fresh handle and a buffer at the first free place in the store, after one advance if the heap was full; false exactly when there is still no free place |
| Orchestrators.ScopeRoom | src/runtime/linqu_orchestrator_state.cpp:103 | whenever a task can be admitted, the flat scope buffer has room, so its capacity assert never fires |
| Orchestrators.RunningListsOwned | src/runtime/linqu_orchestrator_state.cpp:273-309 | while a task is unfinished, its own slot and those of all its producers and consumers have not been reused |
| Orchestrators.NewListsOwned | src/runtime/linqu_orchestrator_state.cpp:578-583 | the lists of a group just registered lead only to tasks that still have their slots |
| Refinement.WriteRepresents | src/ring/linqu_task_ring.cpp:70-76 | a write through id modulo window changes one task and no other task that still has its slot |
| Refinement.AllocRepresents | src/ring/linqu_task_ring.cpp:56-62 | a new task takes over the slot of the task a window earlier, and every younger one keeps its own |
| Refinement.DropRepresents | src/runtime/linqu_scope.cpp:26-39 | bumping descriptors along the flat buffer gives the tokens of the lifecycle |
| Runs.ScopedRunKeepsInv | src/runtime/linqu_orchestrator_state.cpp:193-213 | in every run whose reads stay in their producer's open scope, every state satisfies the invariant and no read meets a CONSUMED task |
| Runs.RunKeepsInv | src/runtime/linqu_orchestrator_state.cpp:169-435 | the invariant holds in every state of every run in which no task or non-empty group reads from a CONSUMED task |
| Runs.FreshReadsExact | src/runtime/linqu_orchestrator_state.cpp:193-209 | submitting a plain task keeps the invariant if and only if no parameter reads from a CONSUMED task |
| Runs.FreshGroupReadsExact | src/runtime/linqu_orchestrator_state.cpp:543-609 | submitting a non-empty group keeps the invariant if and only if no parameter reads from a CONSUMED task |
| Runs.StepKeepsInvExactly | src/runtime/linqu_orchestrator_state.cpp:169-435 | every step keeps the invariant if and only if it is no submission of a task or a non-empty group that reads from a CONSUMED task |
| Invariant.SubmitEmptyGroupKeeps | src/runtime/linqu_orchestrator_state.cpp:578-583 | an empty group keeps the invariant whatever it reads |
| Runs.RetiredIsFinished | src/runtime/linqu_orchestrator_state.cpp:355-386 | each id below last_task_alive has completed, has its scope token, is in no open scope, and all its registered consumers have completed |
| Runs.AccessesOwnSlots | src/ring/linqu_task_ring.cpp:48-76 | every descriptor access of every step of a scoped run lands in a slot that still belongs to that id, before and after the step |
| Runs.ReachedIsLive | src/runtime/linqu_orchestrator_state.cpp:273-309 | the ids whose descriptors a step touches are unretired |
| Runs.RefcountConservation | src/runtime/linqu_orchestrator_state.cpp:273-309 | fanout_count is one plus the consumers, fanout_refcount is the token plus the finished consumers, CONSUMED means finished with both equal, and the two edge lists mirror each other |
| Invariant.StepKeepsInv | src/runtime/linqu_orchestrator_state.cpp:169-435 | each of the eight steps keeps ledger, ring, group accounts, scopes, heap and handle map together |
| Ledger.CompleteKeepsBalance | src/runtime/linqu_orchestrator_state.cpp:247-309 | completing a task changes every counter by exactly its number of occurrences and keeps the ledger of all tasks |
| Ledger.AddEdgeKeepsBalance | src/runtime/linqu_orchestrator_state.cpp:197-202 | a new edge keeps the ledger if and only if its producer was not CONSUMED |
| Submission.ScopedReadsAreFresh | src/runtime/linqu_orchestrator_state.cpp:195-204 | a read whose producer's scope is open never reads from a CONSUMED task |
| Submission.RegisterShows | src/runtime/linqu_orchestrator_state.cpp:187-215 | the new task's producer list is exactly what its reads find, newest first, with later reads seeing the task's own earlier writes |
| Dataflow.EdgesFromParams | src/runtime/linqu_orchestrator_state.cpp:193-209 | told from the submitted parameter lists alone: u is a producer of t once for each input or in-out parameter of t whose handle was last named as output or in-out by u, t's own earlier parameters included and retired tasks excluded; u has t as consumer as often; this never changes |
| Dataflow.GroupStartsExactly | src/runtime/linqu_orchestrator_state.cpp:311-348 | a non-empty group has started if and only if every task that feeds one of its parameters is another task, was unfinished when the group was submitted, and has finished since |
| Dataflow.DisciplinesMean | src/runtime/linqu_orchestrator_state.cpp:193-213 | what fresh and scoped reads ask of the tasks that feed a submission, told from the parameter lists |
| Tally.CompleteAt | src/runtime/linqu_orchestrator_state.cpp:273-309 | the net effect of all walks of a completion on any one task, from how often it is listed |
| Groups.PropagateAccounted | src/runtime/linqu_orchestrator_state.cpp:311-348 | propagation keeps every group's sub-task account and the table of waiting specs |
| Progress.GroupStartedExactly | src/runtime/linqu_orchestrator_state.cpp:290-348 | a non-empty group has started if and only if all its producers are finished and none was at submission; its spec is stored exactly while it waits |
| Progress.GroupStartsWithLastProducer | src/runtime/linqu_orchestrator_state.cpp:311-348 | a waiting group starts only in the step that finishes its last producer, and all its sub-tasks are dispatched in that step |
| Progress.SpecsAreWaitingGroups | src/runtime/linqu_orchestrator_state.cpp:584-609 | pending_group_specs_ holds exactly the PENDING non-empty groups |
| Progress.PreDoneAtSubmission | src/runtime/linqu_orchestrator_state.cpp:543-563 | what the history field records is the number of named producers already finished at submission |
| Progress.LateGroupNeverStarts | src/runtime/linqu_orchestrator_state.cpp:543-563 | a group that named a finished producer stays PENDING and unretired in every continuation |
| Progress.SelfReaderNeverStarts | src/runtime/linqu_orchestrator_state.cpp:544-562 | a group that is its own producer stays PENDING in every continuation |
| Progress.SubTaskConservation | src/runtime/linqu_orchestrator_state.cpp:612-643 | for a running group, counted reports plus outstanding synthetic ids equal the sub-tasks handed over so far |
| Progress.GroupCompletesOnLastReport | src/runtime/linqu_orchestrator_state.cpp:250-264 | a group completes with the report that brings the count to its size and with no earlier one, and the reported id is not issued again |
| Progress.RunAges | src/runtime/linqu_orchestrator_state.cpp:169-435 | along a run, inputs and shape of a task never change and start, completion, consumption and token are never taken back |
| Progress.StepAges | src/runtime/linqu_orchestrator_state.cpp:393-407 | no step takes a task back, and a token is given only when a scope ends, to exactly the tasks of the innermost scope |
| Shortfalls.StaleReadReachesReusedSlot | src/runtime/linqu_orchestrator_state.cpp:197-201 | a run in which a retired task has a running consumer and the next report reaches a slot owned by the task a window later |
| Shortfalls.LateGroupHangs | src/runtime/linqu_orchestrator_state.cpp:543-609 | a scoped run after which a group with one, finished, producer is PENDING in every continuation |
| Shortfalls.SelfReadHangs | src/runtime/linqu_orchestrator_state.cpp:544-609 | a scoped run after which a group that reads its own output is PENDING in every continuation |
| Lifetimes.ScopeBufferBound | src/runtime/linqu_scope.cpp:20-44 | the flat buffer holds, once each, exactly the scoped tasks without token, all unretired, so it never outgrows the window |
| Lifetimes.CallsGoThrough | src/runtime/linqu_orchestrator_state.cpp:169-440 | in every run exactly when each call goes through: fewer than a window of unretired tasks for a submission, a free place for a buffer, a depth below eight for a scope, an id in flight for a report |
| Lifetimes.ScopesAndHeapMove | src/runtime/linqu_orchestrator_state.cpp:388-435 | scopes change only at their begin, at their end and by joining the innermost; the heap grows only by a request, to the end of the first free place |
| Lifetimes.RetiresAllItCan | src/runtime/linqu_orchestrator_state.cpp:363-407 | after the end of a scope or an advance the first unretired task is not CONSUMED; no other step retires anything; what retired is CONSUMED and its heap space is reclaimed up to its mark |
| Lifetimes.LastScopeEmptiesRing | src/runtime/linqu_orchestrator_state.cpp:393-407 | when the outermost scope ends and all unretired tasks are scoped and finished, that very step empties the ring |
| Lifetimes.JoinsInnermostScope | src/runtime/linqu_orchestrator_state.cpp:211-213 | submission adds the new task to the innermost open scope and no other |
| Lifetimes.DrainEmptiesRing | src/runtime/linqu_orchestrator_state.cpp:363-407 | when all unretired tasks are scoped and finished and no scope is open, one advance retires them all |
| Lifetimes.OpenScopeBlocksRing | src/runtime/linqu_orchestrator_state.cpp:172-185 | while the oldest task has no token, no sequence of reports, hand-overs and advances frees a slot |
| Lifetimes.BufferOutlivesOwner | src/runtime/linqu_orchestrator_state.cpp:363-386 | until the task submitted after it retires, a buffer is not reclaimed and shares no byte with another such buffer |
| Lifetimes.BufferOwner | src/runtime/linqu_orchestrator_state.cpp:413-435 | a new buffer starts at or after the end of every earlier one, belongs to the next task to be submitted, and shares no byte with any unreclaimed position |
| TaskRings.TaskRing.TryAlloc | src/ring/linqu_task_ring.cpp:56-62 | the next id with a blank descriptor, or -1 exactly when a window of ids is unretired; every unretired descriptor is untouched |
| TaskRings.TaskRing.Put | src/ring/linqu_task_ring.cpp:70-76 | a write through the pointer for id is seen by no other id that still has its slot |
| TaskRings.TaskRing.Reset | src/ring/linqu_task_ring.cpp:40-46 | all descriptors blank and both indices zero |
| ScopeStacks.ScopeStack.ScopeBegin | src/runtime/linqu_scope.cpp:20-24 | one more, empty, open scope |
| ScopeStacks.ScopeStack.AddTask | src/runtime/linqu_scope.cpp:41-44 | the task joins the innermost scope in the flat buffer |
| ScopeStacks.ScopeStack.ScopeEnd | src/runtime/linqu_scope.cpp:26-39 | each task of the innermost scope loses one reference in submission order, and only that scope is popped |
| ScopeStacks.ScopeStack.TasksInCurrentScope | src/runtime/linqu_scope.cpp:46-49 | the size of the innermost open scope, 0 if none is open |
| DepPools.InterleavedLists | src/ring/linqu_dep_pool.cpp:17-30 | after any interleaving of prepends to any lists, each head denotes exactly the tasks prepended to its own list |
| DepPools.ListStable | src/ring/linqu_dep_pool.cpp:24-30 | new entries change no existing list |
| DepPools.DepListPool.AllocOne | src/ring/linqu_dep_pool.cpp:17-22 | the next entry, blanked, or 0 with nothing changed when the pool is exhausted |
| DepPools.DepListPool.Prepend | src/ring/linqu_dep_pool.cpp:24-30 | the new list is the old one with the task in front; all other lists are as before |
| DepPools.DepListPool.Count | src/ring/linqu_dep_pool.cpp:42-50 | the walk ends and returns the length of the list |
| HeapRings.LiveRegionsDisjoint | src/ring/linqu_heap_ring.cpp:18-55 | over every run, tail <= top <= tail + capacity, regions are contiguous, unreclaimed bytes of different regions never share an offset, and the wrapped branch of used is dead |
| HeapRings.ExactAllocationBound | src/ring/linqu_heap_ring.cpp:23-44 | an empty ring serves a request at every position of top if and only if 0 < size and 2 * size <= capacity + 1 |
| HeapRings.FitsExactly | src/ring/linqu_heap_ring.cpp:27-44 | a request is served if and only if some position from top on is contiguous and clear of unreclaimed bytes; it gets the first such position, and top moves to its end |
| HeapRings.StartIsFirstFit | src/ring/linqu_heap_ring.cpp:31-42 | a block goes to the least position from top on at which it is contiguous |
| HeapRings.HeapRing.TryAlloc | src/ring/linqu_heap_ring.cpp:27-44 | succeeds if and only if there is a free place for the block, takes the first one and returns its offset; otherwise nothing changes |
| LevelRuns.StepKeepsInv | src/runtime/level_runtime.cpp:139-443 | every step over ids, split or fused, keeps the invariant that no completion goes uncounted; MoveFollows says when a move on the slots is such a step |
| LevelRuns.StepKeepsExact | src/runtime/level_runtime.cpp:338-374 | from an exact state a step keeps every edge counted at most once if and only if it does not tell a producer of a consumer between its store of COMPLETED and its lock |
| LevelSimulation.MoveFollows | src/runtime/level_runtime.cpp:203-443 | a move on the slots is the corresponding step over ids, with coupled results, if and only if it is no submission that takes the slot of an unfinished task or of a producer still to be released |
| LevelSlotTheorems.Simulation | src/runtime/level_runtime.cpp:139-585 | every interleaving on the slots whose submissions take no slot in use goes, state by state, through an interleaving over ids |
| LevelSlotTheorems.CleanSimulation | src/runtime/level_runtime.cpp:139-585 | without the overlap of store and registration this is so unconditionally: no slot is ever reused |
| LevelSlotTheorems.StepPossible | src/runtime/level_runtime.cpp:139-585 | conversely every step over ids is a move on the slots, the scheduler's too if the task is unretired and PENDING as its scan asks |
| LevelSlotTheorems.SlotNoLostWakeup | src/runtime/level_runtime.cpp:298-328 | as written, as long as no submission takes a slot in use: a task whose submission is over, whose producers have visited their consumers and whose externals are noticed has been queued |
| LevelSlotTheorems.SlotNoDoubleEnqueue | src/runtime/level_runtime.cpp:161-197 | on the same condition, through any number of admissions, no id is queued twice; ExactEnqueueBound says when that is so for admissions alone |
| LevelSlotQueue.QueueWithinWindow | src/runtime/level_runtime.cpp:161-197 | in every interleaving of the code as written, reused slots and stale ids included, at most a window of entries waits, in different slots, each marked READY |
| LevelSlotQueue.NeverOverwrites | src/runtime/level_runtime.cpp:161-178 | so with a queue at least as large as the window every move takes the oldest entry, appends one, or leaves the waiting entries as they are |
| LevelDoubleEnqueue.QueuedAtMostOnce | src/runtime/level_runtime.cpp:180-197 | in every interleaving of up to one admission more than the window no id is queued twice, whatever slots are reused |
| LevelSlotTheorems.SlotStartsWithInputsReady | src/runtime/level_runtime.cpp:537-585 | without the overlap, a worker that takes a task finds in the slots the task itself, all its producers finished and every input tensor flagged ready |
| LevelSlotTheorems.FusedSlotStartsWithInputsReady | src/runtime/level_runtime.cpp:338-374 | the same in every fused interleaving |
| LevelDataflow.EdgesFromOutputs | src/runtime/level_runtime.cpp:242-330 | in every interleaving as written, told from the submitted inputs and outputs alone: u is a producer of t once for each non-null input whose newest writer is the unretired u; the externals are the other inputs that are not ready; t expects that many completions and is queued at once exactly when it expects none |
| LevelDataflow.ReadyExactly | src/runtime/level_runtime.cpp:537-585 | in every interleaving as written a tensor is flagged ready if and only if it was flagged from outside or a worker has run a task whose slot lists it among its outputs |
| LevelDataflow.StartsAfterWriters | src/runtime/level_runtime.cpp:537-585 | without the overlap, when a worker takes t the newest writer of each of its inputs has stored its completion in a slot that is still its own, and every input is flagged ready |
| LevelDataflow.FusedStartsAfterWriters | src/runtime/level_runtime.cpp:338-374 | the same in every fused interleaving |
| LevelQuiescence.NeverStuck | src/runtime/level_runtime.cpp:139-585 | in every interleaving as written of up to a window of admissions: while a task that depends on no missing external has not run to its end, the submitter, a worker or the scheduler can move |
| LevelQuiescence.StalledNeverTaken | src/runtime/level_runtime.cpp:477-585 | without the overlap a task that depends on a missing external is PENDING and has never been taken |
| LevelSlotTheorems.LockExcludes | src/runtime/level_runtime.cpp:120-155 | as long as no submission takes a slot in use: a lock word is set exactly while the task's one worker walks its consumers, and meanwhile no consumer can register |
| LevelSlotTheorems.FusedSlotRunIsClean | src/runtime/level_runtime.cpp:348-374 | no fused interleaving has the overlap |
| LevelSlotTheorems.SlotNothingRetires | src/runtime/level_runtime.cpp:376-443 | without the overlap fanout_refcount stays below fanout_count in every slot, no task is CONSUMED, last_task_alive stays 0 and at most a window of tasks is admitted |
| LevelSlotTheorems.SlotRetiredExactly | src/runtime/level_runtime.cpp:403-443 | as long as no submission takes a slot in use: the first unretired task is not CONSUMED, and the retired ones that still have their slots are |
| LevelTheorems.RetiredExactly | src/runtime/level_runtime.cpp:403-443 | over ids, in every state of every interleaving: all tasks below last_task_alive are CONSUMED and the next one is not |
| LevelTheorems.ConsumedExactly | src/runtime/level_runtime.cpp:376-417 | over ids, in every interleaving: a finished task is CONSUMED as soon as it has been released as often as it expects, and no task becomes CONSUMED in any other way |
| LevelLostWakeup.LostWakeup | src/runtime/level_runtime.cpp:338-373 | for every window of at least four, a run as written with one admission more after which task 2, whose submission is over and whose only producer 0 has visited its consumers, is queued in no continuation |
| LevelDoomed.DoomedForever | src/runtime/level_runtime.cpp:376-443 | a PENDING task on nobody's list of consumers stays unqueued, and the ring stays behind it, in every continuation |
| LevelStaleWalk.DoubleEnqueue | src/runtime/level_runtime.cpp:354-373 | for every window of at least four, a run as written with two admissions more that ends with id 1 both taken and waiting in the queue |
| LevelBounds.ExactAdmissionBound | src/runtime/level_runtime.cpp:211-226 | for every window the ring accepts, no wake-up is lost in any interleaving of at most n admissions if and only if n is at most the window or the window at most two |
| LevelBounds.ExactEnqueueBound | src/runtime/level_runtime.cpp:354-373 | for every window the ring accepts, no id is queued twice in any interleaving of at most n admissions if and only if n is at most the window and one, or the window at most two |
| LevelBounds.SmallWindowsAreSafe | src/ring/linqu_task_ring.cpp:29-38 | with a window of one or two at most one or three tasks are ever admitted, each is queued once its inputs are there, and none twice |
| LevelSmallWindows.WindowTwoAdmitsThree | src/runtime/level_runtime.cpp:376-443 | with a window of two a third task can only take slot 0, and then task 1 is released once less than it expects, so the ring never moves again |
| LevelTwoTasks.TwoStepKeeps | src/runtime/level_runtime.cpp:338-374 | of the first two tasks the second is never CONSUMED, and the first only after it has taken its lock |
| LevelShortfall.PrematureEnqueue | src/runtime/level_runtime.cpp:338-355 | for every window of at least three, a run of the code as written on its slots in which a task with two producers waits in the queue behind one of them |
| ReadyQueues.ReadyQueue.Enqueue | src/runtime/level_runtime.cpp:161-169 | with room it appends; beyond that exactly the waiting entries in the same place are replaced by the new id, on a just full buffer the oldest |
| ReadyQueues.ReadyQueue.Dequeue | src/runtime/level_runtime.cpp:171-178 | takes the oldest entry, or -1 exactly when the queue is empty |
| RemoteDispatch.NodeRunKeepsInv | src/runtime/remote_dispatcher.cpp:38-101 | over every interleaving of submitter and receiver, outstanding is the number of unsettled counted calls, and each dispatched id is queued, on its way, or failed |
| RemoteDispatch.NoEarlyReturn | src/runtime/remote_dispatcher.cpp:60-101 | while a reply is being handled or a call it enabled is still to be dispatched, outstanding is positive, so wait_all cannot return |
| RemoteDispatch.WaitGoesOn | src/runtime/remote_dispatcher.cpp:60-101 | while outstanding is positive, a thread of the dispatcher or a peer that owes a reply can move |
| RemoteDispatch.WokenAtZero | src/runtime/remote_dispatcher.cpp:44-101 | outstanding reaches zero only at the end of a reply, where the code notifies, or by a failed send of the submitting thread itself |
| RemoteDispatch.RunningAtReturn | src/runtime/remote_dispatcher.cpp:38-63 | when wait_all returns, a plain task is RUNNING if and only if its call failed, a group if and only if the call of one of its sub-tasks failed |
| RemoteDispatch.UnfinishedHasCulprit | src/runtime/remote_dispatcher.cpp:60-63 | when wait_all returns, every unfinished task depends on a failed call, a group with an already finished producer, or a group that reads its own output |
| RemoteDispatch.CallbackEnabled | src/runtime/remote_dispatcher.cpp:85-94 | every reply is about an id the orchestrator still awaits |
| TensorMapRuns.MapRefinesLog | src/runtime/linqu_tensormap.cpp:24-105 | over every run whose inserts are all safe, through any number of wraps and rewritten handles, chains stay well formed and lookup returns the largest live producer among the last pool_size inserts |
| TensorMapRuns.LookupIsLatest | src/runtime/linqu_tensormap.cpp:82-101 | with inserts in task order, lookup answers with the newest live producer if and only if that one, when there is one, is among the last pool_size inserts |
| TensorMapRuns.WellFormedExactly | src/runtime/linqu_tensormap.cpp:24-105 | over every run the chains are acyclic and disjoint in all states if and only if every insert was safe |
| TensorMapRuns.EntriesExactly | src/runtime/linqu_tensormap.cpp:32-80 | over every run whose inserts are all safe, each of the last pool_size inserts is in its place in the pool and on the chain of its bucket, and is valid exactly until a younger task inserts its handle while its own producer is live and it records an output |
| TensorMapRuns.NoOlderIsSafe | src/runtime/linqu_tensormap.cpp:32-80 | a run in which no insert finds a live older output entry is safe throughout |
| TensorMapRuns.FirstLapIsSafe | src/runtime/linqu_tensormap.cpp:47-80 | every insert is safe before the pool wraps for the first time |
| HandleLog.RunAgrees | src/runtime/linqu_orchestrator_state.cpp:194-208 | in every run the log of its inserts and bounds is in task order and says, for every handle, what the lifecycle's handle map says |
| HandleLog.MapAnswersLookup | src/runtime/linqu_tensormap.cpp:82-105 | a tensor map given that log answers as the lifecycle's lookup if and only if the newest producer, when unretired, is among the last pool_size inserts |
| HandleLog.MapServesScan | src/runtime/linqu_orchestrator_state.cpp:194-208 | so it does for every lookup inside a submission, after the submission's own earlier writes |
| MapService.StepKept | src/runtime/linqu_orchestrator_state.cpp:193-209 | a step that the map serves leaves it well formed, holding the log with the step's inserts or bound, in agreement with the lifecycle's handles |
| MapService.KeptAnswers | src/runtime/linqu_tensormap.cpp:82-101 | a map that holds the log answers a lookup as the lifecycle's handles if and only if the newest insert of the handle, when its task is unretired, is still in the pool |
| MapService.ServedIsAnswered | src/runtime/linqu_orchestrator_state.cpp:193-209 | a submission that is served finds for each parameter, after its own earlier writes, the producer that the lifecycle finds |
| MapService.FirstLapServes | src/runtime/linqu_tensormap.cpp:47-80 | a run that makes no more inserts than the pool has entries is served throughout, rewritten handles included |
| MapRoom.RunIsRoomy | src/runtime/linqu_tensormap.cpp:32-101 | a run that writes at most q handles a task, none with an unretired producer, is served throughout by a pool of window times q entries, through any number of wraps |
| MapRoom.UpdateBreaksMap | src/runtime/linqu_tensormap.cpp:47-80 | a run of three submissions, the second of which updates what the first wrote, after which a map with a pool of two has its links in a circle |
| TensorMapRuns.BestIsLargest | src/runtime/linqu_tensormap.cpp:82-101 | the bucket scan returns the largest live producer on the chain, or -1 if there is none |
| TensorMaps.InsertKeepsExactly | src/runtime/linqu_tensormap.cpp:47-80 | an insert leaves chains that are acyclic and disjoint if and only if the recycled slot is not a linked entry that is, or is about to be, invalidated |
| TensorMaps.InsertKeeps | src/runtime/linqu_tensormap.cpp:47-80 | a safe insert links the new entry, keeps every other entry where it is, and invalidates exactly the stale ones |
| TensorMaps.UnlinkKeeps | src/runtime/linqu_tensormap.cpp:54-62 | unlinking takes exactly that entry off and leaves all chains well formed |
| TensorMapObjects.ThreeInsertsMakeACycle | src/runtime/linqu_tensormap.cpp:53-79 | three inserts into one bucket over a pool of two leave two entries linked to each other |
| TensorMapObjects.TensorMap.InsertEntry | src/runtime/linqu_tensormap.cpp:47-80 | the in-place insert has the specified effect on buckets, pool and chains, and leaves the map usable when the insert is safe |
| TensorMapObjects.TensorMap.RemoveStaleForHandle | src/runtime/linqu_tensormap.cpp:32-45 | exactly the live older output entries of the handle lose their valid flag, and no link changes |
| TensorMapObjects.TensorMap.UnlinkEntry | src/runtime/linqu_tensormap.cpp:54-62 | the entry is taken off its chain if it is on it |
| TensorMapObjects.TensorMap.FindProducer | src/runtime/linqu_tensormap.cpp:82-101 | found if and only if the handle has a live producer on its chain, and then the largest |
| TensorMapObjects.TensorMap.InvalidateBelow | src/runtime/linqu_tensormap.cpp:103-105 | only the liveness bound changes, and chains that were well formed stay so |
| TreeReduce.Build | src/runtime/tree_reduce.h:32-64 | exactly one task fewer than leaves, in single-assignment form, the last one producing the root, under which the leaves stand in order; at every task above m leaves the left input stands for the first 2^k of them, 2^k < m <= 2^(k+1); tasks come round by round and from left to right |
| TreeReduce.PairNeighbours | src/runtime/tree_reduce.h:38-61 | a round takes tensors that stand for 2^r leaves each, but for a shorter last one, to half as many that stand for 2^(r+1), with the leaves below them unchanged |
| TreeReduce.DepthBound | src/runtime/tree_reduce.h:37-63 | the longest chain of dependent tasks has length d with 2^(d-1) < n |
| TreeReduce.WrittenIsDenoted | src/runtime/tree_reduce.h:42-55 | whatever the order, exactly the tensors of the tasks that ran are written, each with the value it denotes |
| TreeReduce.ScheduleIndependence | src/runtime/tree_reduce.h:32-64 | with an associative pair function, every order that respects the edges leaves the left-to-right fold of the leaves in the root |
| ReduceOnLevel.RootHoldsFold | src/runtime/tree_reduce.h:38-64 | in every interleaving of the level runtime on its slots without the overlap, with the pair tasks submitted in any order among any other tasks, such as producers of the leaves, the pair tasks run in an order that respects their edges, and once the root's task has run the root holds the fold of the leaves |
| ReduceOnLevel.FusedRootHoldsFold | src/runtime/tree_reduce.h:38-64 | in particular in every fused interleaving |

## Modelling decisions

- Each public call and each completion callback of the orchestrator is one atomic step, except
  that a group handed over by its submitter is dispatched one sub-task per step, so that
  reports may come in between. The dispatcher is asynchronous and reports each dispatched id at
  most once.
- The task fields `scoped`, `released` and `preDone`, the list of buffers, and in the
  level model over ids `credits`, `releases` and `enqueued` are history that no step of the code
  reads.
- The lifecycle uses an abstract map from handles to their latest producer; the object looks up
  and inserts in the tensor map, and `KeptAnswers` says exactly when that answers the same.
- Waiting for a slot or for heap space is a guarded step: a blocked call is the advances and
  reports of the run until the call is enabled. In the object it is one turn of the wait, with
  the answer *still full* as a result.
- `id & (window - 1)` and `h & (num_buckets - 1)` are remainders, which agree for the powers of
  two the code asserts; the model needs no power of two. The bit mixing of the hash is an
  arbitrary function.
- In the level model one submitter publishes a task before the scheduler can see it; a task's
  outputs are flagged ready in one step; tensors without a producer at the level are flagged by
  a separate step at any time. Over ids the noticing of externals does not look at the task's
  status, which allows more interleavings than the code; on the slots it does, as in the code.
- In the dispatcher model a reply comes only to a call whose send succeeded, at most once.

## Left out

- Sockets, daemon loop, discovery, storage, dynamic loading, coordinates: input and output.
- Message and header codecs: byte copying with easy round trips.
- Metrics, peaks, snapshots, tracing: counters and formatting.
- Weak memory and unlocked data races: atomics are sequentially consistent and named steps atomic.
- Spin counts, sleeps, ten-second aborts and condition variables: waiting is a guard.
- Counter overflow: ids, references, top and tail are unbounded.
- free_tensor and the task_freed flag: only counted, and never set by the runtime.
- cleanup_task and per-task chains of the tensor map: unused by the runtimes and not maintained on recycling.
- Synchronous dispatchers, the dispatch function and running without a dispatcher: outside the asynchronous contract.
- The reset methods of the tensor map, heap, pool and scope stack: they would only add easy members.
- The level runtime's heap: its output buffers are not modelled.
- The level runtime as an object: its threads are modelled as interleaved steps over values, slots included, so update in place by a method is captured for its ready queue, ring and pool only.
- SubmitTask: one turn of the wait for a slot, not the spin loop or its abort.
- SubmitTaskGroup: one turn of the wait for a slot, and no parameter merging or per-sub-task kernels.
- AllocTensor: one turn of the wait for heap space.
