# redGrapes in Dafny

A model of the redGrapes runtime and proofs about it. redGrapes runs tasks in parallel that declare
how they use resources; conflicting tasks behave as they would in serial code. The model covers

* the access-policy algebra and what it means for single uses of a resource,
* the event protocol that orders tasks, as a machine whose steps are single atomic actions of any
  number of threads, with one lock per resource,
* what the protocol is for: every complete parallel run leaves the memory of the serial run, for tasks
  of one space that do only what they declare, and for whole task trees, under every access policy, if
  moreover no task meddles with what a child it has submitted declares,
* the containers and the allocator below it: chunked lists with skip offsets, item reference
  counts, the lock-free chunk list, bump allocation,
* the worker side: bit search for a free worker, sleeping and waking, polling of message requests.

`dafny verify dfyconfig.toml` checks the whole project.

## How the pieces fit

`AccessPolicy` and `ResourceUser` define conflicts. `AccessMeaning`, `UserMeaning` and `FieldResource` say
what a conflict stands for. `EventGraph` is the protocol machine; it knows of policies only the laws in
`Lawful`, which `TaskGraph` derives from the algebra. `GraphInvariant` states the inductive invariant
in groups, `GraphCore`, `GraphLists`, `GraphOrder` and `GraphRemoval` prove that each step keeps
them, and `GraphTheorems`, `EventOrder` and `GraphProgress` draw the conclusions for all runs. `GraphNeeds`
adds that nothing is ordered without need, `GraphHandoff` who hands a task over, `ExternalEvents` what an
external event holds back, `GraphCompletion` what can always be brought about, and `SecondLook` treats a
read that the protocol does not order.
`InitGraph` writes the initialisation of a task as the nested loops of the program and shows that it
moves through states of the machine. `SerialEquivalence`, `SerialRuns` and `SerialPrograms` add task
bodies of one space and a memory of cells, and show that the serial run is the only one. `Traces`,
`TreePrograms`, `TreeSerial` and `SerialOrder` do it for nested spaces, every policy tree and any memory
on which uses that do not clash commute; `CellMemory` is one such memory, and `ParentRace` a run on it
that is not serial. `Common` holds what several components share. The remaining files model one
component each.

Assumptions that hold throughout: atomics are sequentially consistent; one thread at a time submits
to a space; each resource has one policy type; the distinct-resource list of a user has no
duplicates; a task stays within the accesses of its parent; a resource created inside a task is used
only below it; dependencies are on post-events, which is the default dependency type.

## Where the code differs from what is said of it

* `Item::acquire` can return 0 without a reference: when the item is removed and destructed between
  its two first loads, it skips its own block and returns the stale offset 0.
  `ItemLifetime.StaleAcquisition` gives the run, `ItemLifetime.DestructedTwice` a run where the value
  is destructed a second time, and `ItemLifetime.AcquireSoundIff` shows that acquisition is sound
  exactly in the runs without such a load. Removal under the list lock excludes it
  (`ItemLifetime.LockedRemovalIsClean`).
* A failed `acquire` undoes its increment without the destruction test of `release`, so it can make
  the last decrement and the value is never destructed (`ItemLifetime.NeverDestructed`).
* `ChunkedBumpAlloc::deallocate` says that it erases a chunk that is not the head, but tests only
  whether the chunk is full. An allocation that exhausts the head between the decrement and the test
  gets its chunk erased under it (`ChunkErasure.ErasedUnderLiveBlock`). Returning the last block is
  safe, whatever happens afterwards, exactly when the chunk is full by then
  (`ChunkErasure.DropSafeIff`), as every chunk behind the head is (`ChunkErasure.FullFirstIsSafe`).
* `ChunkedList::release_chunk` likewise erases the head chunk once all its items are removed,
  contrary to its comment; the model keeps this, and no item is lost by it.
* `roundup_to_poweroftwo` returns 0 for 0 and for sizes above 2^63 (`PowerOfTwo.HighBit`). Such a
  request is granted an empty block, and its chunk does not own it when nothing was taken from the
  chunk before (`Allocator.ChunkedBumpAlloc.Allocate`, `Allocator.NotOwnedIff`); returning it has no
  effect then (`Allocator.EmptyBlockIsLost`). An empty block can also come from a head that was erased
  while its last address was left; once another chunk is the head, returning it has no effect
  (`Allocator.ErasedHeadsBlockIsLost`), or lowers the counter of a chunk that has come to hold its address
  (`Allocator.ChunkedBumpAlloc.Deallocate`).
* A size between the usable and the nominal chunk capacity makes `allocate` add chunks without end
  (`Allocator.ChunkedBumpAlloc.AllocateRounded`, outcome `Starved`).
* A future that was moved from still answers `get`: one `get` in all can then notify result-get twice
  (`Futures.MovedFromGet`). The event is notified exactly once if and only if every `get` is on a
  future not taken or moved from before (`Futures.NotifiedOnceIff`).
* `EventPtr::notify` reads the event once more after the decrement, unless it left more than 1. On a
  post-event the task can have been freed by then if and only if the decrement left exactly 1, whether
  a child, an external event or the executor of the body notifies (`SecondLook.LooksTooLateIff`). Left
  at 1, other threads can do all the rest (`SecondLook.OthersFree`); left at 0, the task is freed after its
  notifier has closed it (`SecondLook.SafeAtZero`). `SecondLook.FreedBeforeSecondLook` is a run of two tasks
  in which a parent is freed under its child.
* Conflicting tasks are ordered, but not a task and its own children: the scan stops at the parent. What a
  task does after submitting a child runs beside the child, and `ParentRace.ParentRacesChild` is a run of
  two tasks within their declarations that ends in another memory than the serial execution. Clashing
  operations come in the serial order if and only if no task clashes with a later operation from below a
  child it had submitted (`TreeSerial.KeepsOffIff`); it suffices that no body, after submitting a child,
  does what clashes with the declaration of that child (`TreeSerial.CarefulRuns`).
* `ChunkedList::remove` at a position whose item is gone leaves the list without its order
  (`ChunkedLists.RemovedIff`) if some iterator still holds the item. If none does, it throws before it
  counts the item as freed, and the order is kept (`ChunkedLists.OverwrittenKept`).
* `probe_by_value` says that it prefers elements behind the start to those in front of it; in the word of
  the start it probes those in front of the start first (`WorkerSearch.ProbeByValue`).
* `exclude_start` of `probe_by_value` clears a bit that is not in the mask it is applied to, so the
  start index is still probed (`WorkerSearch.LowerHalf`, `WorkerSearch.ProbeByValue`).
* An empty interval inside another one counts as a conflict although it shares no index
  (`AccessMeaning.EmptyIntervalClashesForNothing`); `AccessMeaning.SerialMeansClash` and
  `FieldResource.FieldSoundness` give the exact condition.
* The comments on the two `is_serial` overloads of `ArrayAccess` are swapped; the model follows the code.

## Model

| member | source | states |
|---|---|---|
| `AccessPolicy.SerialSymmetric` | redGrapes/resource/access/combine.hpp:56-73 | for every nested policy tree, serial is symmetric |
| `AccessPolicy.SupersetReflexive` | redGrapes/resource/access/combine.hpp:75-82 | superset is reflexive on every policy tree |
| `AccessPolicy.SupersetTransitive` | redGrapes/resource/access/combine.hpp:124-127 | superset is transitive on every policy tree |
| `AccessPolicy.SerialMonotone` | redGrapes/resource/access/combine.hpp:46-127 | a wider access is serial with everything the narrower one is serial with |
| `AccessPolicy.SynchronizingIsTop` | redGrapes/resource/access/area.hpp:36-50 | an access is synchronizing if and only if it is a superset of every access of its type |
| `AccessPolicy.SynchronizingOrdersAll` | redGrapes/resource/access/io.hpp:41-61 | whatever is serial with anything is serial with every synchronizing access |
| `AccessPolicy.SilentAccess` | redGrapes/resource/access/io.hpp:41-56 | an access that is not serial with one synchronizing access is serial with nothing, empty intervals included |
| `AccessPolicy.ArrayIsSerial` | redGrapes/resource/access/combine.hpp:56-73 | the early-exit loops decide serial for both tags |
| `AccessPolicy.ArrayIsSupersetOf` | redGrapes/resource/access/combine.hpp:75-82 | the loop decides element-wise superset |
| `AccessPolicy.ArrayIsSynchronizing` | redGrapes/resource/access/combine.hpp:46-53 | the loop decides whether all elements are synchronizing |
| `AccessMeaning.SupersetMeansInclusion` | redGrapes/resource/access/combine.hpp:75-127 | superset is inclusion of the admitted uses; both directions unless an interval is empty |
| `AccessMeaning.SerialMeansClash` | redGrapes/resource/access/combine.hpp:56-122 | two policies admit uses that clash if and only if they are serial and have no empty interval |
| `AccessMeaning.EmptyIntervalClashesForNothing` | redGrapes/resource/access/area.hpp:42-45 | an empty interval is serial with one around it although no uses clash |
| `ResourceUsers.UserSerialSymmetric` | redGrapes/resource/resource_user.hpp:117-128 | conflict of users is symmetric, through resource identity and policy type |
| `ResourceUsers.SerialIffOnSomeResource` | redGrapes/resource/resource.hpp:145-151 | users conflict if and only if they conflict on a resource both access |
| `ResourceUsers.SyncUserOrdersAll` | redGrapes/resource/resource_user.hpp:90-98 | who conflicts with anyone on a resource conflicts with every user that has synchronizing access to it |
| `ResourceUsers.SerialWidens` | redGrapes/resource/resource_user.hpp:100-115 | a conflict of a sub-user on a resource in scope is a conflict of the covering user |
| `UserMeaning.SerialMeansUsersClash` | redGrapes/resource/resource.hpp:293-297 | users without empty intervals conflict if and only if some resource has a use by the one that clashes with a use by the other |
| `UserMeaning.UsersClashIff` | redGrapes/resource/resource_user.hpp:117-128 | for all users: such uses exist if and only if the users conflict by accesses without empty intervals |
| `UserMeaning.CoveredMeansAdmitted` | redGrapes/resource/resource_user.hpp:100-115 | an access is covered if and only if one access of the user admits all its uses; both directions unless its interval is empty |
| `UserMeaning.SupersetMeansUses` | redGrapes/resource/resource_user.hpp:100-115 | a user is a superset if and only if each access in scope has all its uses admitted by one access |
| `UserMeaning.SyncMeansEveryUse` | redGrapes/resource/resource_user.hpp:90-98 | a user has synchronizing access if and only if one access to the resource admits every use its policy type knows |
| `ResourceUsers.ResourceUser.AddResourceAccess` | redGrapes/resource/resource_user.hpp:68-73 | the access and its resource are appended, duplicates included |
| `ResourceUsers.ResourceUser.BuildUniqueResourceList` | redGrapes/resource/resource_user.hpp:80-88 | afterwards every accessed resource is listed exactly once, other entries as before |
| `ResourceUsers.ResourceUser.HasSyncAccess` | redGrapes/resource/resource_user.hpp:90-98 | true if and only if some access to the resource is synchronizing |
| `ResourceUsers.ResourceUser.IsSupersetOfUser` | redGrapes/resource/resource_user.hpp:100-115 | true if and only if every access is covered or out of scope |
| `ResourceUsers.ResourceUser.IsSerialUsers` | redGrapes/resource/resource_user.hpp:117-128 | true if and only if some pair of accesses is serial |
| `FieldResource.ContainsIndex` | redGrapes/resource/fieldresource.hpp:83-91 | the loop decides membership in the area, in any dimension |
| `FieldResource.GetAt` | redGrapes/resource/fieldresource.hpp:124-130 | an error exactly outside the area; inside it the element, and an unchecked access exactly where the container has none |
| `FieldResource.DerivedKeepsToContainer` | redGrapes/resource/fieldresource.hpp:118-142 | a chain of guards that starts within the container never makes an unchecked access |
| `FieldResource.MakeArea` | redGrapes/resource/fieldresource.hpp:132-142 | refused if and only if a corner leaves the bounds of the area in some dimension; otherwise an area with these corners, which reaches exactly the indices between them |
| `FieldResource.BoxContains` | redGrapes/resource/fieldresource.hpp:83-91 | a box contains exactly the indices between its corners |
| `FieldResource.ReachesLess` | redGrapes/resource/fieldresource.hpp:118-142 | along any chain of derived guards, a guard reaches only indices every ancestor reaches |
| `FieldResource.ChainCovers` | redGrapes/resource/fieldresource.hpp:182-185 | along any chain of derived guards the declared access only narrows |
| `FieldResource.SinglePosition` | redGrapes/resource/fieldresource.hpp:164-170 | the guard of one position contains that index only, and nothing at the largest coordinate |
| `FieldResource.FieldSoundness` | redGrapes/resource/access/field.hpp:23-24 | accesses that are not serial share no index or use the same non-write mode; exact condition with empty areas |
| `GraphCore.ExactStep` | redGrapes/scheduler/event.tpp:70-80 | every step keeps each counter equal to its tokens and undelivered entries |
| `GraphCore.LocalStep` | redGrapes/scheduler/event.tpp:110-193 | every step keeps the life cycle of each task and the shape of its follower list |
| `GraphLists.FamilyStep` | redGrapes/task/task_space.hpp:47-67 | every step keeps the task tree: parents started, siblings entered in order |
| `GraphLists.ListingStep` | redGrapes/task/property/graph.tpp:75-87 | every step keeps user lists, locks and scan positions consistent |
| `GraphOrder.EarlyStop` | redGrapes/task/property/graph.tpp:63-68 | everything in front of a settled synchronizing predecessor that conflicts is ordered before it |
| `GraphOrder.ParentStop` | redGrapes/task/property/graph.tpp:60-61 | no sibling is listed in front of the parent |
| `GraphOrder.ScanSafe` | redGrapes/task/property/graph.tpp:52-69 | every sibling a scan step leaves behind is finished or waited for |
| `GraphOrder.OrderStep` | redGrapes/task/property/graph.tpp:33-72 | every step keeps conflicting siblings in order |
| `GraphRemoval.GuardOutlives` | redGrapes/dispatch/thread/DefaultWorker.tpp:133-136 | a delivery during initialisation never takes the pre-event below the guard |
| `GraphRemoval.HandoffStep` | redGrapes/dispatch/thread/worker_pool.hpp:176-186 | every step keeps claims and activations together at one per ready task |
| `GraphRemoval.RemovalStep` | redGrapes/task/task_space.hpp:72-97 | every step keeps removal countdowns, frees and space counts exact |
| `GraphTheorems.InvRun` | docs/source/internal/races.rst:5-34 | the whole invariant holds in every state of every run |
| `GraphTheorems.PrunedScanSuffices` | redGrapes/task/property/graph.tpp:52-69 | no task starts while an earlier conflicting task of its space is unfinished, in any run, although scans stop early |
| `GraphNeeds.StandingRun` | redGrapes/task/property/graph.tpp:52-69 | in every state of every run, what a task waits for and what a scan is about to add are conflicts, and no scan has passed what ends it |
| `GraphNeeds.WaitsForConflictsOnly` | redGrapes/task/property/graph.tpp:63-65 | a task is to be notified only by earlier tasks of its space that it conflicts with |
| `GraphNeeds.PassedDoNotStop` | redGrapes/task/property/graph.tpp:60-68 | a scan under way has passed neither the parent nor a conflicting sibling with synchronizing access |
| `GraphNeeds.PushedAfterTest` | redGrapes/task/property/graph.tpp:96-97 | a task is entered as follower only after the second test has found the predecessor unfinished |
| `GraphNeeds.ReadyAsSoonAsNotified` | redGrapes/scheduler/event.tpp:157-163 | a waiting task is ready and handed over once all earlier conflicting siblings have notified, and not before all have finished |
| `GraphTheorems.NestedOrder` | redGrapes/task/property/graph.tpp:60-63 | everything below the first of two conflicting siblings ends before anything below the second starts |
| `GraphTheorems.FinishedBelow` | redGrapes/task/task_space.hpp:55-61 | a finished task has no unfinished descendant |
| `GraphTheorems.NoLostNotification` | redGrapes/scheduler/event.tpp:166-181 | pre- and post-counters equal tokens, guard, external events and undelivered entries with multiplicity, in every state |
| `GraphTheorems.ScannedEntryIsLive` | docs/source/internal/races.rst:5-17 | a scan never works on a task that has begun to notify or was freed |
| `GraphTheorems.HandedOffOnce` | redGrapes/dispatch/thread/DefaultWorker.tpp:126-147 | a task is claimed or activated once in all, and exactly when ready |
| `GraphHandoff.StepHands` | redGrapes/scheduler/event.tpp:157-163 | every step: only the end of its initialisation can claim a task, if nobody is left to notify it, and only a notification of a waiting task activates it |
| `GraphHandoff.HandedOverBy` | redGrapes/dispatch/thread/DefaultWorker.tpp:126-147 | over all runs: kept by its initialiser if and only if its initialisation ended with nobody left to notify it; put into a ready queue if and only if it had to wait before and all have notified it |
| `GraphTheorems.FreedOnce` | redGrapes/scheduler/event.tpp:183-188 | a task is freed at most once, if and only if post-event and result-get have both been counted |
| `GraphTheorems.StepsTouchLiveTasks` | docs/source/internal/races.rst:5-34 | no step touches a freed task: its own, the parent submitted into, the entry scanned, or the target of a notification |
| `SecondLook.LooksTooLateIff` | redGrapes/scheduler/event.tpp:114-153 | whoever decrements a post-event, a child, an external event or the executor: some continuation by other threads frees the task before the second look if and only if the decrement left exactly 1 |
| `SecondLook.SafeAtZero` | redGrapes/scheduler/event.tpp:114-188 | left at 0, no continuation without the steps of the notifier frees the task |
| `SecondLook.OthersFree` | redGrapes/scheduler/event.tpp:114-188 | left at 1, other threads can bring the task to its end without the notifier, from every state |
| `SecondLook.StaysUnclosed` | redGrapes/scheduler/event.tpp:166-188 | only the closing step of its own notifier closes a task |
| `SecondLook.FreedBeforeSecondLook` | redGrapes/scheduler/event.tpp:114-153 | a run of two tasks from the start in which the parent is freed while its child is between decrement and second look |
| `GraphTheorems.RootCountExact` | redGrapes/task/task_space.hpp:53-75 | the root count equals submitted minus freed root tasks |
| `GraphTheorems.BarrierWaitsForAll` | redGrapes/redGrapes.tpp:63-69 | when the root space is empty every submitted task at every depth has finished |
| `GraphTheorems.BarrierReturnsIff` | redGrapes/redGrapes.tpp:63-69 | the root space is empty if and only if every root task has notified its followers and its result was taken and counted |
| `GraphTheorems.AllFreedInTheEnd` | redGrapes/task/task_space.hpp:69-97 | where nothing can move, no external event is outstanding and all results are taken, every task has been freed exactly once and every space is empty |
| `GraphTheorems.NeverStuck` | redGrapes/dispatch/thread/DefaultWorker.tpp:34-49 | while a task is unfinished some internal step is enabled or an external event is outstanding |
| `GraphTheorems.Unblocked` | redGrapes/scheduler/event.tpp:92-98 | following what an unfinished task waits for ends at a task that can move |
| `GraphProgress.StepUsesWork` | redGrapes/scheduler/event.tpp:92-98 | every step but a submission and a new external event, delivery of notifications included, strictly lowers a measure of work |
| `GraphProgress.InternalRunsEnd` | redGrapes/dispatch/thread/DefaultWorker.tpp:34-49 | no stretch of internal steps is longer than the work at its start |
| `GraphProgress.LeftAloneAllFinish` | redGrapes/redGrapes.tpp:63-69 | where internal steps can go no further and no external event is outstanding, every task has finished and notified |
| `GraphCompletion.CanComplete` | redGrapes/redGrapes.tpp:63-69 | from every state of tasks of one space some continuation submits the rest, finishes all and frees all |
| `GraphCompletion.CanSubmitNext` | redGrapes/task/task_space.hpp:47-67 | a running task can always submit its next child, once the submission of the one before is completed, which needs nobody else |
| `ExternalEvents.HeldByEvent` | redGrapes/task/property/graph.tpp:18-25 | from the step that makes an external event on, no continuation finishes the task before one of its events is reached |
| `EventOrder.EdgeForward` | redGrapes/task/property/graph.tpp:19-25 | every kind of edge, from external events too, points forward in the nesting order |
| `EventOrder.EntriesAreEdges` | redGrapes/task/property/graph.tpp:90-98 | every follower entry in any state of any run is such an edge |
| `EventOrder.CountedAreEdges` | redGrapes/task/property/graph.tpp:18-25 | all that a post-event counts comes from its body, its external events and its children, along such edges |
| `EventOrder.NoCycle` | redGrapes/scheduler/event.tpp:92-98 | no chain of edges returns to its start |
| `InitGraph.ScanUsers` | redGrapes/task/property/graph.tpp:52-69 | the backward scan of one user list terminates, releases its lock, moves through machine states only, and enters the task at unfinished ones only |
| `InitGraph.ScanResourceUsers` | redGrapes/task/property/graph.tpp:39-70 | one pass of the outer loop takes the lock, scans and releases |
| `InitGraph.InitTask` | redGrapes/task/property/graph.tpp:33-72 | run without interruption: the task is then awaited by unfinished conflicting predecessors and no others, waits for each of them directly or through a task between, and is ready and kept by its initialiser if and only if all had finished; of other tasks only follower lists change |
| `TaskGraph.DeclaredGraphIsLawful` | redGrapes/resource/resource_user.hpp:90-128 | declared accesses satisfy every law the early stop relies on |
| `TaskGraph.SubmissionOrder` | README.md:40-41 | of two conflicting tasks of one space the first submitted finishes before the other starts |
| `TaskGraph.WaitsForClashesOnly` | redGrapes/task/property/graph.tpp:63-65 | a task waits only for earlier tasks of its space whose declared accesses conflict with its own, and which have a use that clashes with one of its uses unless an interval is empty |
| `TaskGraph.ScanEndsAtSync` | redGrapes/task/property/graph.tpp:60-68 | no scan goes on past the parent or a conflicting sibling that declared synchronizing access to the resource |
| `TaskGraph.ConflictRises` | redGrapes/task/task_space.hpp:55-58 | a conflict of a descendant on a visible resource is a conflict of the ancestor |
| `TaskGraph.SharedScope` | redGrapes/resource/resource_user.hpp:110-112 | a resource two tasks share was created above the point where they part |
| `TaskGraph.NestedSubmissionOrder` | redGrapes/task/property/graph.tpp:60-63 | any two conflicting tasks of the tree, neither above the other, run in the order of their ancestors in the common space |
| `SerialEquivalence.SerialRunUnique` | README.md:40-41 | there is at most one serial run of given bodies |
| `SerialEquivalence.ExecutionMeans` | README.md:40-41 | what serial execution is: each read meets the latest write of the task to the location, or what was there at its start, and that is what stays |
| `SerialEquivalence.MeetsSerialValue` | README.md:40-41 | a running task meets at every location it touches the value of the serial run |
| `SerialRuns.RunMatches` | redGrapes/task/property/graph.tpp:33-72 | in every state of every run histories and memory agree with the serial run |
| `SerialRuns.SerialEquivalent` | README.md:40-41 | every complete run of any interleaving ends in the memory of the serial run |
| `SerialPrograms.ClashIsConflict` | redGrapes/resource/resource_user.hpp:117-128 | two declared uses of one location, one writing, make the tasks conflict |
| `SerialPrograms.ProgramIsSerial` | test/random_graph.cpp:187-189 | for any list of tasks of one space whose bodies do only what they declare, a complete run exhibits the one serial run and ends in its memory |
| `Traces.SortLeads` | README.md:40-41 | a trace in which only commuting operations are out of order leads to the same memory and gives the same answers when sorted |
| `Traces.SortOwn` | README.md:40-41 | sorting leaves the operations of each task as they were |
| `TreePrograms.ClashIsConflict` | redGrapes/resource/access/combine.hpp:56-122 | declared uses that clash make two tasks conflict, for every policy tree |
| `TreePrograms.NewPair` | redGrapes/task/property/graph.tpp:60-68 | an operation that comes too early for the serial order does not clash with a later one, unless that one was handed to a child |
| `TreeSerial.KeepsOffIff` | redGrapes/task/property/graph.tpp:60-61 | in every state: operations that clash are in the serial order if and only if no task clashed with a later operation from below a child it had submitted |
| `TreeSerial.CarefulRuns` | redGrapes/task/property/graph.tpp:60-61 | if no operation a body can do after submitting a child clashes with the declaration of that child, this holds in every state of every run |
| `TreeSerial.DeclaredAbove` | redGrapes/task/task_space.hpp:55-58 | what is declared anywhere below a task is declared by the task itself, on resources it can see |
| `TreeSerial.TreeIsSerial` | README.md:40-41 | under that condition on bodies and declarations, a complete run of a whole task tree under any policies ends in the memory of a serial execution in which each task does and sees the same and every child runs where it is submitted |
| `SerialOrder.SerialUnique` | README.md:40-41 | the bodies determine the serial execution and its memory |
| `SerialOrder.TreeEndsSerially` | README.md:40-41 | under the same condition, a complete run of a task tree ends in the memory of the one serial execution of its bodies |
| `TreeSerial.FlatIsCareful` | redGrapes/task/task_space.hpp:55-61 | tasks of one space always meet that condition |
| `ParentRace.ParentRacesChild` | redGrapes/task/property/graph.tpp:60-61 | a run of a parent and its child, both within their declarations, whose end memory is that of no serial execution |
| `CellMemory.CellsRespect` | redGrapes/resource/access/io.hpp:41-61 | a memory of cells, one for each plain resource and each index of a field, is one on which operations that do not clash commute, in all modes |
| `CellMemory.ReadAnswersLastWrite` | redGrapes/resource/access/io.hpp:41-61 | in any trace a read answers the value written last, plus what was added or times what was multiplied since |
| `Futures.Future.constructor` | redGrapes/task/future.hpp:26-28 | the one future of a submitted task, which owes a notification |
| `Futures.Future.MoveFrom` | redGrapes/task/future.hpp:30-34 | a further future that owes what the old one owed; the old one owes nothing |
| `Futures.Future.Get` | redGrapes/task/future.hpp:51-62 | notifies, whether or not the future was taken, as the machine of all futures says |
| `Futures.Future.Destroy` | redGrapes/task/future.hpp:36-43 | notifies if and only if the future was not taken, as the machine of all futures says |
| `Futures.Balance` | redGrapes/task/future.hpp:30-62 | in every state of every history of moves, takings and destructions, notifications made and owed are one, and one more for each late `get` |
| `Futures.NotifiedOnce` | redGrapes/task/future.hpp:30-62 | without a late `get`, result-get is notified at most once, and exactly once when all futures are gone |
| `Futures.NotifiedOnceIff` | redGrapes/task/future.hpp:30-62 | when all futures are gone it was notified once if and only if no `get` was late |
| `Futures.MovedFromGet` | redGrapes/task/future.hpp:30-62 | a history with a single `get` that notifies twice |
| `ChunkedLists.DeletedHoldsNone` | redGrapes/util/chunked_list.hpp:524-528 | a chunk is deleted if and only if all its slots were written and none is live |
| `ChunkedLists.Jump` | redGrapes/util/chunked_list.hpp:383-394 | jumping by a skip offset passes no live item |
| `ChunkedLists.HeldKept` | redGrapes/util/chunked_list.hpp:530-582 | pushing changes nothing for a walk under way |
| `ChunkedLists.BackwardsAt` | redGrapes/util/chunked_list.hpp:634-638 | what reverse order means position by position |
| `ChunkedLists.ChunkedList.Push` | redGrapes/util/chunked_list.hpp:530-582 | appends one item, keeps every written slot, and the returned position holds it |
| `ChunkedLists.ChunkedList.PrevChunk` | redGrapes/util/atomic_list.hpp:77-84 | the next chunk back that is not deleted, with only deleted chunks in between |
| `ChunkedLists.ChunkedList.AcquireNext` | redGrapes/util/chunked_list.hpp:367-400 | terminates at the newest live item at or before a position, or at the end if there is none |
| `ChunkedLists.ChunkedList.RBegin` | redGrapes/util/chunked_list.hpp:623-627 | arrives at the last live item |
| `ChunkedLists.ChunkedList.Next` | redGrapes/util/chunked_list.hpp:482-499 | from any position, removed meanwhile or not, arrives at the next live item |
| `ChunkedLists.ChunkedList.Remove` | redGrapes/util/chunked_list.hpp:584-614 | removes exactly one item; what lies before and after stays, at whatever position; throws at the end position and for a removed item that nobody holds; the list keeps its order if and only if it throws or the item was there |
| `ChunkedLists.OverwrittenKept` | redGrapes/util/chunked_list.hpp:221-234 | a removal that throws has only rewritten the skip offset of a removed item, which keeps the list and its order |
| `ChunkedLists.RemovedIff` | redGrapes/util/chunked_list.hpp:524-528 | counting an item as freed is right exactly when it was live |
| `ChunkedLists.ChunkedList.Erase` | redGrapes/util/chunked_list.hpp:616-621 | removes exactly the equal items, in a list that shrinks under the walk |
| `ChunkedLists.ChunkedList.Reversed` | redGrapes/util/chunked_list.hpp:623-632 | a full walk yields exactly the live items in reverse push order |
| `ItemLifetime.Lifetime` | redGrapes/util/chunked_list.hpp:179-234 | refcount equals holders plus acquisitions in flight minus one if removed; destructed at most once and then read by nobody |
| `ItemLifetime.NoneAfterDestruction` | redGrapes/util/chunked_list.hpp:184-212 | after the destruction no thread holds the item again |
| `ItemLifetime.AcquisitionReturns` | redGrapes/util/chunked_list.hpp:179-213 | while the item is not removed no acquisition fails; one that fails returns the distance stored by the removal |
| `ItemLifetime.SoloAcquires` | redGrapes/util/chunked_list.hpp:179-213 | an acquisition that nobody disturbs holds the item, if that is not removed |
| `ItemLifetime.AcquireSoundIff` | redGrapes/util/chunked_list.hpp:179-213 | every acquisition that returns 0 has a reference if and only if no second load sees a negative count after a first load of offset 0 |
| `ItemLifetime.DestructedOrLost` | redGrapes/util/chunked_list.hpp:201-209 | removed and unreferenced, the value is destructed if and only if no failed acquisition made the last decrement |
| `ItemLifetime.LockedRemovalIsClean` | redGrapes/util/chunked_list.hpp:584-610 | if removal excludes acquisitions in progress, the value is destructed exactly when removed and held by nobody |
| `ItemLifetime.StaleAcquisition` | redGrapes/util/chunked_list.hpp:181-184 | a run in which an acquisition returns 0 for a destructed value |
| `ItemLifetime.DestructedTwice` | redGrapes/util/chunked_list.hpp:221-234 | a run in which the value is destructed twice |
| `ItemLifetime.NeverDestructed` | redGrapes/util/chunked_list.hpp:201-209 | a run in which a removed value is never destructed |
| `AtomicList.InvRun` | redGrapes/util/atomic_list.hpp:77-84 | in every interleaving, stale stores included, a link passes deleted chunks only |
| `AtomicList.LiveChunksReachable` | redGrapes/util/atomic_list.hpp:292-315 | following links from the head meets exactly the live chunks, latest first |
| `AtomicList.LiveDownMembers` | redGrapes/util/atomic_list.hpp:28-33 | that list holds each live chunk once, in reverse append order |
| `AtomicList.StepOnList` | redGrapes/util/atomic_list.hpp:292-315 | every step of any thread is one of the plain list: an append puts a chunk in front, erasing takes one out, all loads and stores of walks change nothing |
| `AtomicList.SoloAppend` | redGrapes/util/atomic_list.hpp:292-315 | an append that nobody disturbs succeeds |
| `AtomicList.SoloWalk` | redGrapes/util/atomic_list.hpp:77-84 | an iterator that nobody disturbs goes to the newest live chunk before its own and leaves a link that skips the deleted ones |
| `AtomicList.WalkMissesNone` | redGrapes/util/atomic_list.hpp:239-248 | an iterator at the end has met every chunk that was there when its walk began and is still live |
| `AtomicList.WalkGoesBack` | redGrapes/util/atomic_list.hpp:239-248 | whatever other threads do, an iterator only moves back |
| `PowerOfTwo.RoundUpToPowerOfTwo` | redGrapes/memory/chunked_bump_alloc.hpp:56-67 | the power of two whose half is the highest bit of n - 1, 0 on overflow |
| `PowerOfTwo.RoundedIsLeast` | redGrapes/memory/chunked_bump_alloc.hpp:56-67 | that is the least power of two that is not smaller than n |
| `PowerOfTwo.HighBit` | redGrapes/memory/chunked_bump_alloc.hpp:58-65 | the overflow case is exactly n = 0 or n above 2^63 |
| `Allocator.AcceptedIff` | redGrapes/memory/bump_allocator.hpp:88-89 | a request is accepted if and only if it fits or, exceeding the address, wraps around |
| `Allocator.BumpAllocator.Allocate` | redGrapes/memory/bump_allocator.hpp:86-96 | for every request: which are granted; a block within the address is new, inside the chunk and apart from all others, and owned unless it is empty and the first; a wrapped one lies in no chunk |
| `Allocator.BumpAllocator.Deallocate` | redGrapes/memory/bump_allocator.hpp:101-105 | returns the count before, which is that of the outstanding blocks in 16 bits |
| `Allocator.GrantedBlock` | redGrapes/memory/bump_allocator.hpp:86-96 | what a granted block is: its place, who owns it, and one more outstanding |
| `Allocator.NotOwnedIff` | redGrapes/memory/bump_allocator.hpp:77-80 | the only outstanding block a chunk does not own is the empty one at its upper end |
| `Allocator.SmallIsCounted` | redGrapes/memory/bump_allocator.hpp:108-112 | without empty blocks the counter of a chunk below 64 KiB is exact |
| `Allocator.OneIsEnough` | redGrapes/memory/chunked_bump_alloc.hpp:76-98 | a size that fits a fresh chunk needs one new chunk at most |
| `Allocator.ChunkedBumpAlloc.AllocateRounded` | redGrapes/memory/chunked_bump_alloc.hpp:76-108 | at most one chunk is added when the size fits a fresh chunk; between usable and nominal capacity any supply of memory is used up; larger sizes are refused; all other blocks stay |
| `Allocator.ChunkedBumpAlloc.Allocate` | redGrapes/memory/chunked_bump_alloc.hpp:69-109 | the same for every request after rounding, with the exact condition for the block to be owned and for the counter to stay exact |
| `Allocator.EmptyBlockIsLost` | redGrapes/memory/chunked_bump_alloc.hpp:111-142 | a first request of 0 or more than 2^63 bytes gets a block whose return has no effect |
| `Allocator.ErasedHeadsBlockIsLost` | redGrapes/memory/chunked_bump_alloc.hpp:129-142 | the same for an empty block taken from a head that was erased before |
| `Allocator.ChunkedBumpAlloc.FindOwner` | redGrapes/memory/chunked_bump_alloc.hpp:120-142 | the first visited chunk whose range holds the pointer, or none |
| `Allocator.HolderIsVisited` | redGrapes/memory/chunked_bump_alloc.hpp:120-142 | a chunk with a block of some length is visited by the walk and owns the block |
| `Allocator.OwnerFound` | redGrapes/memory/bump_allocator.hpp:77-80 | the walk ends at the chunk an outstanding block came from exactly if that is on the walk and owns the block; only an empty block can come from a chunk off the walk |
| `Allocator.ChunkedBumpAlloc.Deallocate` | redGrapes/memory/chunked_bump_alloc.hpp:111-142 | for every outstanding block: it goes to its own chunk if that is on the walk and owns it, and otherwise nowhere, or to another chunk that holds its address by now; that chunk is erased exactly when it is left without a block and full; counts stay right if and only if the chunk had handed out such a block |
| `Allocator.OutstandingApart` | redGrapes/memory/bump_allocator.hpp:70-105 | all outstanding blocks are pairwise disjoint and inside their chunks, and counts are exact |
| `ChunkErasure.DropSafeIff` | redGrapes/memory/chunked_bump_alloc.hpp:129-136 | returning the last block is safe in every continuation if and only if the chunk is full by then |
| `ChunkErasure.SafeIffFullFirst` | redGrapes/memory/chunked_bump_alloc.hpp:129-136 | over a whole run, no return puts the chunk in danger if and only if it was full at each last return |
| `ChunkErasure.FullFirstIsSafe` | redGrapes/memory/chunked_bump_alloc.hpp:125-136 | in such a run an erased chunk has no block and never gets one |
| `ChunkErasure.LateTestErasesLive` | redGrapes/memory/chunked_bump_alloc.hpp:129-136 | a test that passes over a live block lets the chunk be erased under it |
| `ChunkErasure.ErasedUnderLiveBlock` | redGrapes/memory/chunked_bump_alloc.hpp:129-136 | a run that erases the head under a live block |
| `Bits.FirstOneIdx` | redGrapes/util/bitfield.hpp:164-184 | for every 64-bit value, the position of the lowest set bit, 64 if there is none |
| `Bits.Columns` | redGrapes/util/bitfield.hpp:170-181 | each mask selects the positions with one index bit clear |
| `WorkerSearch.AtomicBitfield.Get` | redGrapes/util/bitfield.hpp:61-65 | reads one bit |
| `WorkerSearch.AtomicBitfield.Set` | redGrapes/util/bitfield.hpp:40-57 | exchanges one bit, returns the old value, changes no other bit |
| `WorkerSearch.ProbeChunk` | redGrapes/util/bitfield.hpp:192-219 | against any sequence of loads: terminates, tries each candidate at most once, and failing has tried or passed over every bit of the mask; of a steady word it tries the candidates lowest first |
| `WorkerSearch.LowerHalf` | redGrapes/util/bitfield.hpp:87-99 | the first mask is the bits below the start, with or without `exclude_start` |
| `WorkerSearch.UpperHalf` | redGrapes/util/bitfield.hpp:104-107 | the second mask is the bits from the start on that stand for workers |
| `WorkerSearch.ProbeByValue` | redGrapes/util/bitfield.hpp:78-127 | the masks partition the index range; no index is tried twice; failing has examined every index; with steady words the candidates are tried in the order: below the start, from the start on, following words, lowest first |
| `WorkerSearch.FindFreeWorker` | redGrapes/dispatch/thread/worker_pool.tpp:74-103 | a claimed index, or -1 after every worker was seen busy or lost to another claimant; with steady words all available workers before the one found were tried and lost |
| `WorkerSearch.ClaimedOncePerRelease` | redGrapes/dispatch/thread/worker_pool.hpp:74-77 | between two claims of one worker, by any threads, somebody releases it |
| `WorkerSearch.FoundTwice` | redGrapes/dispatch/thread/worker_pool.tpp:85-92 | two searches that find the same worker are apart by a release of it |
| `WorkerSearch.ClaimsMatchReleases` | redGrapes/util/bitfield.hpp:40-57 | in any order of calls of `set`, a worker is claimed as often as it became available, less one if it is available still |
| `WakeUp.InvRun` | redGrapes/sync/cv.hpp:48-82 | the wake-up invariant holds in every interleaving |
| `WakeUp.NoLostDispatch` | redGrapes/dispatch/thread/DefaultWorker.hpp:74-78 | a worker never waits with a filled queue and the flag up unless a dispatcher is between push and notify |
| `WakeUp.SleeperIsSignalled` | redGrapes/sync/cv.hpp:58-62 | a sleeper with the flag down has a notifier that is still to signal |
| `WakeUp.NoLostStop` | redGrapes/dispatch/thread/DefaultWorker.tpp:26-31 | a raised stop flag is never missed by a waiting worker |
| `WakeUp.SleeperWillWake` | redGrapes/sync/cv.hpp:69-82 | with work or a stop pending, some caller can take the step that leads to the signal |
| `WakeUp.WaitReturns` | redGrapes/sync/cv.hpp:48-67 | with the flag down, no interleaving lets the worker take more than five steps of its own before it comes to consume its queue |
| `WakeUp.HelpIsPossible` | redGrapes/sync/cv.hpp:48-82 | with a task queued, a stop pending or the flag down, a step that helps can always be taken |
| `WakeUp.DispatchedIsTaken` | redGrapes/dispatch/thread/DefaultWorker.tpp:34-49 | unless the worker is stopped, any interleaving with eight helpful steps more than tasks were queued takes all these tasks out |
| `WakeUp.QueueBalances` | redGrapes/dispatch/thread/DefaultWorker.hpp:74-78 | tasks pushed are those taken out and those still queued |
| `WakeUp.StoppedEnds` | redGrapes/dispatch/thread/DefaultWorker.tpp:34-49 | a stopped worker ends within a bounded number of helpful steps, whatever is pushed meanwhile |
| `WakeUp.IdleSleeps` | redGrapes/sync/cv.hpp:48-67 | a worker without work that nobody calls falls asleep within a bounded number of steps other than spinning |
| `WakeUp.IdleGoesOn` | redGrapes/sync/cv.hpp:51-62 | until then it can always take one |
| `WakeUp.StoppedStaysOut` | redGrapes/dispatch/thread/DefaultWorker.tpp:37-48 | once stopped, a worker outside `wait` never enters it again |
| `RequestPool.ShiftDown` | redGrapes/dispatch/mpi/request_pool.hpp:68-70 | exactly the indices behind the erased one are lowered |
| `RequestPool.RequestPool.Add` | redGrapes/dispatch/mpi/request_pool.hpp:91-96 | the three vectors grow together |
| `RequestPool.RequestPool.Poll` | redGrapes/dispatch/mpi/request_pool.hpp:42-73 | for distinct completed indices in any order: each own event notified once in that order, each own status written, and the three vectors hold the incomplete requests in their old order |
| `RequestPool.OwnStatus` | redGrapes/dispatch/mpi/request_pool.hpp:54-62 | each completed request gets its own status and no other cell changes |

## Left out

- Pausing and yielding of a running task, `sg_pause` and the stack switching below it: a task runs from start to finish in one go.
- `update_graph` and `apply_patch`: demotion of accesses of a running task; the monotonicity laws say what it could rely on.
- Dependencies on pre-events, used by the CUDA scheduler only.
- The fallback of `PoolScheduler::activate_task` and `PoolScheduler::wake`; ready and emplacement queues are bags, and any worker may take from them.
- The 16-bit width of event counters and refcounts; skip offsets never exceed the chunk size, which the default types hold.
- Result-set events: nobody registers followers there; a result is available when the body has returned.
- The lock-protected removal from one user list is one step; pushing to a list is one step; a resource lock is one bit.
- SerialPrograms.ProgramIsSerial: bodies of one space that read and write cells under read/write and field policies; nested spaces, other policies and atomic modes are TreeSerial.TreeIsSerial and SerialOrder.TreeEndsSerially.
- TreeSerial.TreeIsSerial: bodies see the answers of their operations, not the results of their children, whose futures are `Futures`; which tasks are submitted, in which order, and what they declare is fixed for a run.
- GraphTheorems: steps that merge neighbouring atomics: the removal countdown with the task count of the space, and at submission the task count, the follower entry at the child and the parent's counter. In between, the first only lets the barrier wait a moment longer, and the second concerns a child that cannot have begun to notify.
- SecondLook.LooksTooLateIff: about post-events. The second look is not a step of the machine; it is placed after the decrement, before whatever the notifier does next. A pre-event is looked at before its task is started or activated, which the machine does in one step.
- ParentRace.ParentRacesChild: one input; which runs end in another memory also depends on the values written.
- ChunkedLists.ChunkedList.Remove: the reference count of the item is a parameter, and destructing the value while it is still held is not shown; reference counts are the subject of ItemLifetime.
- ChunkedLists.ChunkedList.Push: one step, so no slot is reserved and unwritten and no head chunk is empty in between.
- Allocator.ChunkedBumpAlloc.Allocate: the list holds its chunks by value, as the blocks and counters of each; chunks lie above the first chunk-size bytes of the address space, so no request to the list wraps around.
- RequestPool.RequestPool.Poll: the message library reports distinct positions, as section 3.7.5 of MPI 3.1 says of MPI_Testsome.
- An empty chunk that becomes full only later is never erased by the allocator; the model shows erasure safe, not complete.
- Hardware binding, tracing, logging, formatting, CUDA and cupla support, the concurrent queue, property and builder templates.
