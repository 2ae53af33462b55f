# A model of the ComposeCockpit server

ComposeCockpit discovers Docker Compose projects, runs operations on them against a Docker
daemon and streams events and logs to browsers. This project models its control logic and
proves what it can be relied on for. `dafny verify dfyconfig.toml` checks it.

- **Requests, Queue**: the operation queue, a binary heap in place over items that know
  their index, refining a multiset from which the best request is taken.
- **Locker, Executor, Orchestrator, Cancellation, Records**: the project locks, the books of
  running and finished operations, the protocol that connects them, what its cancellation can
  promise, and that records and answers tell the truth. Orchestrator is a machine whose steps
  are the mutex-protected sections, the channel operations and the deferred calls in Go's
  order; any number of workers, synchronous callers, cancellers and readers interleave. The
  classes of Queue, Locker and Executor show the same sections as methods.
- **Daemon, TopoSort, Compose, Operations, OperationsProperties, ServiceProperties**: `Up` and
  `Down` against a daemon of containers, networks and volumes. Every call takes effect or
  fails and changes nothing, and removing what is in use fails. `steady` says that calls that clean up fail for no
  other reason; contracts without it hold under any pattern of failures. `moments` are
  the worlds after each call, so that statements cover every intermediate state, and `undos`
  tells which calls clean up. `Daemon` is the environment of the model and stands in for
  `internal/docker/client.go`; as `internal/docker/sdk_client.go:78-82` does, it attaches a
  container to the first of its networks. What is proved of the order, of rollback and
  cancellation, of a partial `Down` and of `Up` followed by `Down` is the promise of methods
  that make these calls.
- **Merge, Includes, Extends, Expand**: the algebra of merging compose files, and resolution
  of `include`, `extends` and variable references. The file system is given by functions.
- **Broker**: the event broker as a machine with readers, a writer, one step per send and a
  clean-up goroutine per subscriber, and its methods as they run under the lock.
- **Scanner, Walk**: the scan of the file system for compose files, and the order of these.
- **Demux**: the demultiplexer of Docker's framed log stream.

Some things hold only under a condition, which is then proved to be exact, mostly with an
input that fails it:

- `Up` records every declared volume as created. A rollback therefore removes one that was
  there before and that nobody mounts (`RollbackRestoresIff`, `ReusedVolumeIsLost`).
- A cancelled `Up` removes its containers only (`CancelRestoresIff`, `CancelledKeepsNetwork`).
- The default network of a project is used but created only if declared
  (`DefaultNetworkAttachedIff`, `DefaultNetworkMissing`).
- A container is attached to the first network of its service only (`AttachedToAllIff`,
  `SecondNetworkMissed`).
- `Down` finds containers by labels that a service may rebind (`UpDownRestoresContainersIff`,
  `RebindingStays`, and for single services `UpThenDownOne`, `PosingIsTaken`).
- A release is not tied to the holder of the lock (`ReleaseSparesOthersIff`,
  `SecondReleaseFreesAnother`); the executor is safe because each release runs once.
- A successful queued operation has two records in the history, and a request that a worker
  dequeues while it is being stopped has none (`RecordsPerOperation`).
- An operation that waits for the lock of its project cannot be cancelled: the caller is told
  that it was not found or is over, and later it runs (`NotFoundIff`, `NotFoundButRuns`).
- The broker reaches all subscribers only while no id in use is taken again, and ids repeat
  within a second every ten calls (`ReachesAllIff`, `CollisionLosesEvent`, `IdsCollideIff`).
- The scanner knows directories by inode number alone, so one on another file system may be
  passed over (`ScanIsExactIff`, `SharedInodeIsMissed`).
- The scanner follows links and visits a directory once. It misses none if the depth is enough
  for all directories (`ScansAllReached`); with less, a link that leads to one at the greatest
  depth first hides what is below it (`DeepLinkHidesDirectory`).
- The scanner takes names in any case but tells overrides by the word in lower case, so another
  override may come first and be taken as the base (`OverridesLastIff`,
  `MixedCaseOverrideIsFirst`).
- A default behind a dash that contains ":-" is cut there (`DashDefaultIff`,
  `DashDefaultIsCut`).
- Log frames of more than 1 MiB are not skipped (`FrameReadIff`, `LargeFrameIsLost`).

Where a comment and the code differ, the model follows the code: the comment at
`internal/docker/operations.go:639` speaks of networks owned by us, while a label of any project
will do; the history is called a ring buffer and is a window over a slice.

## Model

| member | source | states |
|---|---|---|
| `Requests.DrainsIffOrdered` | internal/orchestrator/queue.go:77-91 | taking the best pending request until none is left yields exactly the permutations in which no request is followed by one that has to go first |
| `Requests.FifoWithinPriority` | internal/orchestrator/queue.go:27-32 | if the requests of a priority arrive with strictly increasing times, whatever the others do, any full drain serves them in arrival order |
| `Requests.OfPriorityCount` | internal/orchestrator/queue.go:27-32 | the requests of a priority are, with their number of occurrences, those of the list that have this priority |
| `Requests.AscendingIsUnique` | internal/orchestrator/queue.go:27-32 | two lists of the same requests, one strictly increasing in time and one not decreasing, are equal |
| `HeapOrder.SiftUpMakesHeap` | internal/orchestrator/queue.go:65-75 | climbing repairs a heap that is broken only above one item |
| `HeapOrder.SiftDownMakesHeap` | internal/orchestrator/queue.go:77-91 | sinking repairs a heap that is broken only below one item |
| `HeapOrder.SettleMakesHeap` | internal/orchestrator/queue.go:124-135 | sinking, and climbing only if nothing sank, repairs a heap in which one arbitrary item was replaced |
| `HeapOrder.SiftDownMoves` | internal/orchestrator/queue.go:124-135 | an item moves down exactly if sinking changes the array, which is how the climb is decided on |
| `HeapOrder.RootIsBest` | internal/orchestrator/queue.go:77-91 | nothing in a heap has to be served before the root |
| `HeapOrder.RootServedFirst` | internal/orchestrator/queue.go:77-91 | the root of a heap is a best one among the multiset of pending requests |
| `HeapOrder.WithoutIsHeap` | internal/orchestrator/queue.go:124-135 | taking any item out of a heap leaves a heap of exactly the other requests |
| `HeapOrder.PushIsHeap` | internal/orchestrator/queue.go:65-75 | adding an item gives a heap of the old requests and the new one |
| `Queue.PriorityQueue.Swap` | internal/orchestrator/queue.go:34-38 | two items trade places and indices, and every index stays the position |
| `Queue.PriorityQueue.Up` | internal/orchestrator/queue.go:40-44 | the loop in place computes the climb of the specification and keeps indices equal to positions |
| `Queue.PriorityQueue.Down` | internal/orchestrator/queue.go:77-91 | the loop in place computes the sinking of the specification, keeps indices equal to positions and tells whether the item moved |
| `Queue.PriorityQueue.Push` | internal/orchestrator/queue.go:40-44 | the queue stays a heap with exact indices and gains exactly the new request |
| `Queue.PriorityQueue.PopLast` | internal/orchestrator/queue.go:46-54 | the last item comes off with index -1 and the others keep their places |
| `Queue.PriorityQueue.MoveToEnd` | internal/orchestrator/queue.go:124-135 | the array becomes that of the removal at an index, with the removed item last |
| `Queue.PriorityQueue.RemoveAt` | internal/orchestrator/queue.go:124-135 | removal at any index keeps heap order and indices and conserves all other requests |
| `Queue.PriorityQueue.Enqueue` | internal/orchestrator/queue.go:65-75 | exactly the request, stamped if it had no time, is added |
| `Queue.PriorityQueue.PopRoot` | internal/orchestrator/queue.go:88-88 | heap.Pop takes a best request and conserves all others |
| `Queue.PriorityQueue.Dequeue` | internal/orchestrator/queue.go:77-91 | waits, gives up or takes a best request, exactly by whether the queue is empty and closed |
| `Queue.PriorityQueue.TryDequeue` | internal/orchestrator/queue.go:93-103 | takes a best request exactly if there is one |
| `Queue.PriorityQueue.Find` | internal/orchestrator/queue.go:128-129 | an item of that id is found exactly if one is queued |
| `Queue.PriorityQueue.RemoveAndReturn` | internal/orchestrator/queue.go:124-135 | one request of that id leaves the queue if there is one, and nothing else does |
| `Locker.LockUnlockWellFormed` | internal/orchestrator/lock.go:34-88 | every lock entry keeps an open channel of its own under locking and releasing, so no channel is closed twice |
| `Locker.UnlockUndoesLock` | internal/orchestrator/lock.go:79-88 | a release right after an acquire restores the lock table and uses up one channel |
| `Locker.ReleaseSparesOthersIff` | internal/orchestrator/lock.go:79-88 | a release frees no one else's lock exactly if the project is free or recorded for the releasing operation |
| `Locker.SecondReleaseFreesAnother` | internal/orchestrator/lock.go:79-88 | a closure called twice frees the lock that another operation took in between |
| `Locker.InMemoryLocker.TryLock` | internal/orchestrator/lock.go:34-56 | one pass of Acquire locks exactly if the project is free, else it reports holder and channel and changes nothing |
| `Locker.InMemoryLocker.TryAcquire` | internal/orchestrator/lock.go:58-68 | locks exactly if the project is free, else changes nothing |
| `Locker.InMemoryLocker.IsLocked` | internal/orchestrator/lock.go:70-77 | reports the recorded holder of the project |
| `Locker.InMemoryLocker.Release` | internal/orchestrator/lock.go:79-88 | frees the project and closes the channel of its entry, which is still open |
| `Executor.AddRecordKeepsNewest` | internal/orchestrator/executor.go:291-298 | adding a record to the last 256 of a list gives the last 256 of the longer list |
| `Executor.FoundIsLatest` | internal/orchestrator/executor.go:277-283 | the search from the end finds the latest record with that id, and nothing only if no record has it |
| `Executor.NewestStillFound` | internal/orchestrator/executor.go:262-298 | a record is found until at least 256 newer ones exist |
| `Executor.Books.Register` | internal/orchestrator/executor.go:151-154 | running and the cancel functions gain the operation together |
| `Executor.Books.Unregister` | internal/orchestrator/executor.go:156-161 | running and the cancel functions lose the operation together |
| `Executor.Books.AddHistory` | internal/orchestrator/executor.go:291-298 | a history that is the last 256 records stays that |
| `Executor.Books.GetOperation` | internal/orchestrator/executor.go:262-284 | the running operation under the id if it is listed, else the latest record with the id, and nothing exactly if it is not listed and no record has it |
| `Orchestrator.NextKeepsInv` | internal/orchestrator/executor.go:78-298 | every step of every thread keeps the invariant |
| `Orchestrator.RunKeepsInv` | internal/orchestrator/executor.go:78-298 | the invariant holds in every state of every interleaving |
| `Orchestrator.RunningIsExclusive` | internal/orchestrator/executor.go:141-161 | running and cancelFns have the same keys, every running operation is the recorded holder of its project, and no project has two |
| `Orchestrator.HoldersAreExclusive` | internal/orchestrator/executor.go:141-161 | no two threads are between acquiring and releasing one project |
| `Orchestrator.DequeuedOnce` | internal/orchestrator/executor.go:78-89 | no operation is dequeued twice |
| `Orchestrator.EnqueuedIsInOnePlace` | internal/orchestrator/executor.go:78-247 | an enqueued request is in exactly one place: queued once, taken by one worker, or removed by one canceller |
| `Orchestrator.WithdrawnNeverRuns` | internal/orchestrator/executor.go:217-247 | an operation cancelled out of the queue is never taken, listed or run later |
| `Orchestrator.TrailGrows` | internal/orchestrator/executor.go:78-298 | what was recorded of an operation, its taker, remover and records, never changes later |
| `Cancellation.NotFoundIff` | internal/orchestrator/executor.go:217-247 | Cancel ends with "not found" exactly if the operation was not listed when it was looked up and not queued when the queue was searched; else its context is done or its request removed |
| `Cancellation.EarlyIsOutOfReach` | internal/orchestrator/executor.go:141-154 | an operation taken but not yet registered, as while it waits for its project, is neither listed nor queued |
| `Cancellation.EarlyIsNotFound` | internal/orchestrator/executor.go:217-247 | so a Cancel of it meanwhile ends with "not found" |
| `Cancellation.NotFoundButRuns` | internal/orchestrator/executor.go:145-154 | a schedule in which such a Cancel is followed by the operation running |
| `Orchestrator.HistoryIsNewest` | internal/orchestrator/executor.go:291-298 | the history is always the last min(n, 256) of all records ever added |
| `Orchestrator.RecordsPerOperation` | internal/orchestrator/executor.go:128-139 | a finished queued operation has two records if it succeeded, one if it failed, none if a stopping worker dropped it; a synchronous one has one or none |
| `Orchestrator.OperationStaysFindable` | internal/orchestrator/executor.go:203-284 | an operation that was listed and did not fail is found by every later GetOperation until all its records have 256 newer ones |
| `Records.NextKeepsTrue` | internal/orchestrator/executor.go:78-298 | every step keeps true what records and answers tell of operations |
| `Records.RunKeepsTrue` | internal/orchestrator/executor.go:78-298 | it holds in every state of every interleaving |
| `Records.HistoryIsTrue` | internal/orchestrator/executor.go:91-298 | in every run a record is of an issued request, as issued: completed exactly if its result was stored, withdrawn exactly if it was cancelled out of the queue, else failed |
| `Records.AnswersAreTrue` | internal/orchestrator/executor.go:262-284 | in every run what GetOperation returns is about the id asked for: the request that ran under it, or a record of it that was made |
| `Records.AbsentIff` | internal/orchestrator/executor.go:262-284 | in every run it returns nothing exactly if the id was not running at its first look and no record in the history had it at the second |
| `Records.CompletedWasExecuted` | internal/orchestrator/executor.go:164-215 | a record of completion implies that some thread executed the operation with success before |
| `Orchestrator.WaiterWillBeWoken` | internal/orchestrator/lock.go:34-56 | a waiter that cannot go on waits for the current lock entry, whose holder's thread is before its release, and that release closes the waiter's channel |
| `Orchestrator.ReleaseWakesItsWaiters` | internal/orchestrator/lock.go:79-88 | a release closes one open channel, that of the releasing operation's own entry, and enables all its waiters |
| `TopoSort.Sorter.Visit` | internal/docker/operations.go:782-793 | a visit keeps the list duplicate-free and dependencies-first on any graph, and ends |
| `TopoSort.LeaveKeepsProgress` | internal/docker/operations.go:782-793 | appending a service after its dependencies keeps each dependency earlier unless it can reach the service |
| `TopoSort.BuildGraph` | internal/docker/operations.go:769-777 | the graph has the dependencies of every service, in some order |
| `TopoSort.Sort` | internal/docker/operations.go:768-799 | for every graph and iteration order: each name once, and b before a whenever a depends on a listed b that cannot reach a |
| `Operations.Operations.CheckNetworkConflict` | internal/docker/operations.go:632-647 | for every order of the listing: a conflict exactly if the first network of that name in it belongs to no project |
| `Operations.Operations.CheckVolumeConflict` | internal/docker/operations.go:649-667 | under a successful listing, a conflict exactly if the volume belongs to another project |
| `Operations.Operations.RollbackContainers` | internal/docker/operations.go:671-681 | in reverse order; on a steady daemon the containers are as before and at every moment a prefix runs |
| `Operations.Operations.RollbackNetworks` | internal/docker/operations.go:683-687 | removes nothing else, and all of them if they are unused |
| `Operations.Operations.RollbackVolumes` | internal/docker/operations.go:689-693 | loses only listed volumes that nobody mounts, and on a steady daemon exactly those |
| `Operations.Operations.ResolveVolumeMounts` | internal/docker/operations.go:697-720 | each mount gets the resolved name of its declared volume and is otherwise unchanged |
| `Operations.Operations.ResolveNetworks` | internal/docker/operations.go:722-742 | each network gets its resolved name; none at all means the default network |
| `Operations.Operations.CreateNetworks` | internal/docker/operations.go:42-101 | on success all own networks exist under their resolved names, and exactly those made now, whose names were not taken, are recorded, with the labels of the project and of their key; on failure nothing old is lost |
| `Operations.Operations.CreateVolumes` | internal/docker/operations.go:103-156 | on success all own volumes exist and are recorded, even those that were there, those made now with their labels, and no others are; on failure at most own volumes that nobody mounts are lost |
| `Operations.Operations.CreateVolumesNext` | internal/docker/operations.go:103-156 | behind the networks: all places are there, or the log ends in the volume conflict and everything made is undone on a steady daemon |
| `Operations.Operations.PrepareImage` | internal/docker/operations.go:191-264 | builds what is to be built, else pulls exactly if the daemon says that the image is missing, with the code of the call that fails |
| `Operations.Operations.CreateContainer` | internal/docker/operations.go:267-318 | a container comes into being with the name, image and labels of its service, attached to the first network and mounting exactly the volumes it asks for, so far as they are there |
| `Operations.Operations.LaunchServices` | internal/docker/operations.go:159-344 | started containers follow the sorted unskipped services, at every moment up to the first undo on any daemon; each status leaves what it promises; the log has the steps of the plan in order up to the failure, whose code tells it; images are pulled only if missing |
| `Operations.Operations.LaunchInOrder` | internal/docker/operations.go:158-344 | the same for the plan of the selected services, which it puts in order, and for the whole log behind the steps of networks and volumes |
| `Operations.Operations.FilterServices` | internal/docker/operations.go:752-766 | all services for no names, else those named, in order |
| `Compose.FilteredKeepsNamed` | internal/docker/operations.go:752-766 | a service is kept exactly if no names are given or it is named |
| `Operations.Operations.Up` | internal/docker/operations.go:27-350 | the whole contract, for every outcome: the plan is that of the project, the launched services are its own, the running prefix at every moment, what each status leaves, the step log with its actions and the failure code, images pulled only if missing, and that nothing old is lost but own volumes that nobody mounts |
| `OperationsProperties.RunningIsPrefix` | internal/docker/operations.go:159-340 | at every moment, whatever comes of Up, the services of the run that run are a prefix of the unskipped services of the plan, and no others |
| `OperationsProperties.DependenciesRun` | internal/docker/operations.go:159-340 | at every moment, whatever comes of Up, a running service has each dependency running that is selected, not skipped and does not depend back |
| `OperationsProperties.UpInOrder` | internal/docker/operations.go:27-350 | Up with just that promise, over the project: at every moment on a steady daemon, up to the first undo on any other |
| `OperationsProperties.PlacesWereThere` | internal/docker/operations.go:282-301 | every container of the run is that of a service to be launched; all own networks and volumes that this references were there, it mounts those volumes and is attached to the first network |
| `OperationsProperties.DefaultNetworkAttachedIff` | internal/docker/operations.go:723-726 | a launched service without networks is attached to the default network exactly if that was there or the project declares its own under the name |
| `OperationsProperties.DefaultNetworkMissing` | internal/docker/operations.go:723-726 | a project without networks, in an empty world, whose service is attached to none |
| `OperationsProperties.RollbackRestoresIff` | internal/docker/operations.go:139-152 | rolled back while launching, the volumes are as before exactly if every own volume that was there is mounted |
| `OperationsProperties.RollbackRestores` | internal/docker/operations.go:671-693 | rolled back at any point, everything is as before if no own volume was there unmounted |
| `OperationsProperties.ReusedVolumeIsLost` | internal/docker/operations.go:139-152 | a project with a service to be launched and a world, in which a rollback while launching loses a volume that was there |
| `OperationsProperties.CancelRestoresIff` | internal/docker/operations.go:167-173 | cancelled, the networks are as before exactly if all own networks were there, and the volumes exactly if all own volumes were |
| `OperationsProperties.CancelledKeepsNetwork` | internal/docker/operations.go:167-173 | a project with a service to be launched and a network, in an empty world, that keeps the network when cancelled |
| `OperationsProperties.UpWithoutSuccess` | internal/docker/operations.go:27-350 | when Up can roll back past the volumes or be cancelled, and what it leaves behind then and after a conflict, over the project and the world before |
| `OperationsProperties.NetworksAreInUse` | internal/docker/operations.go:306-309 | while a container of the run is there the network that its service names first is in use, so that cannot be removed first |
| `OperationsProperties.UpDownRestoresContainersIff` | internal/docker/operations.go:271-394 | after Up and a full Down the containers are as before exactly if no service of the project that was to be launched rebinds the project label |
| `OperationsProperties.RebindingStays` | internal/docker/operations.go:275-278 | a project whose service rebinds the label |
| `OperationsProperties.UpDownRestoresPlaces` | internal/docker/operations.go:70-407 | then networks are as before too, old volumes are unchanged and the own ones kept |
| `OperationsProperties.UpThenDown` | internal/docker/operations.go:27-413 | Up and then Down as calls: that condition decides whether containers, and with them networks, are restored |
| `OperationsProperties.PartialDownTakesNamed` | internal/docker/operations.go:352-394 | a Down of named services: the project's containers of those services are gone, exactly if it succeeds on a steady daemon; everything else stays unchanged in any case |
| `OperationsProperties.FullDownTakesAll` | internal/docker/operations.go:352-413 | a full Down on a steady daemon removes exactly the containers labelled for the project and, if the listing works, those of its networks that no container left is attached to; all else stays in any case |
| `ServiceProperties.LaunchableIff` | internal/docker/operations.go:174-188 | a service is launched exactly if it is the last definition of its name, selected, and has an image or something to build |
| `ServiceProperties.FitsIsContainer` | internal/docker/operations.go:267-318 | a container of the run has the service label of its own service and the labels of its project unless the service rebinds them, its name and image, and the networks and volumes that the service means |
| `ServiceProperties.PreparedAdds` | internal/docker/operations.go:42-156 | the networks and volumes made are own ones of the project under their names and labels, and all own ones are there |
| `ServiceProperties.UpAddsServices` | internal/docker/operations.go:27-350 | a successful Up adds exactly one running container of each service that is to run and the networks and volumes of the project, spelled out over the project |
| `ServiceProperties.UpThenDownOne` | internal/docker/operations.go:27-413 | Up and then Down of one service, as calls on a steady daemon: all services that were to run do but this one, exactly if none rebinds the project or service label so that another answers to its name or it does not itself |
| `ServiceProperties.UnboundAnswers` | internal/docker/operations.go:275-278 | without rebound labels that condition holds |
| `ServiceProperties.PosingIsTaken` | internal/docker/operations.go:275-278 | a project in which the container of another service poses as that of the one to be taken |
| `Compose.NewNetworksUnused` | internal/docker/operations.go:683-687 | no old container is attached to a network that the run made |
| `Compose.ContainerNameInjective` | internal/docker/operations.go:280-280 | services of one project never share a container name |
| `Operations.Operations.TakeContainers` | internal/docker/operations.go:362-394 | exactly the containers of the project for the named services go, and no others in any case; the steps tell what was tried and what is left |
| `Operations.Operations.TakeNetworks` | internal/docker/operations.go:397-407 | networks of others stay; the free ones of the project go if the listing works; each removal is a step |
| `Operations.Operations.Down` | internal/docker/operations.go:352-413 | on success exactly the selected containers and, for a full Down, the free networks of the project are gone; in any case all other containers, networks of others and all volumes stay; the steps tell of each container and network what was done |
| `Operations.Operations.ContainsService` | internal/docker/operations.go:825-832 | membership in the list of names |
| `OperationsProperties.AttachedToAllIff` | internal/docker/sdk_client.go:78-82 | the container of a launched service is attached to all own networks that the service references exactly if these go by the name of the first |
| `OperationsProperties.SecondNetworkMissed` | internal/docker/sdk_client.go:78-82 | a project whose service references two networks and is not attached to the second |
| `Merge.CutAt` | internal/discovery/parser.go:488-488 | the cut is at the first equals sign, and the pieces make up the text |
| `Merge.ParseEnvInterface` | internal/discovery/parser.go:473-496 | the variables are exactly those that a map or a list sets: in a list a name is set by the last item that is it or begins with it and an equals sign, to what follows that; none exactly for no environment, an unreadable or an empty one |
| `Merge.MergeEnvInterface` | internal/discovery/parser.go:498-508 | a variable is set exactly as the override sets it or, if that does not, as the base does |
| `Merge.VarsIff` | internal/discovery/parser.go:473-496 | the variables of an environment are exactly those that its items or values set |
| `Merge.MergeServiceAssociative` | internal/discovery/parser.go:300-341 | merging services is associative up to the form of environment and labels |
| `Merge.MergeServiceNormal` | internal/discovery/parser.go:300-341 | merging does not depend on the form of environment and labels |
| `Merge.MergeFilesAssociative` | internal/discovery/parser.go:284-298 | merging files is associative up to that form |
| `Merge.MergeFilesAlike` | internal/discovery/parser.go:284-298 | merging respects that likeness on both sides |
| `Merge.LastLayerDecides` | internal/discovery/parser.go:300-341 | in a chain of merges every scalar comes from the last layer that sets it |
| `Merge.LayersDecide` | internal/discovery/parser.go:300-341 | no scalar comes from anywhere but a layer |
| `Merge.LastLayerSets` | internal/discovery/parser.go:310-315 | a variable or label that a layer sets and no later one does is set so in the result |
| `Merge.SettingFromLayer` | internal/discovery/parser.go:498-508 | no variable or label comes from anywhere but a layer |
| `Merge.PortsAddUp` | internal/discovery/parser.go:307-309 | the ports of all layers are kept in order, and the Extends of the first layer |
| `Merge.ComposeFile.MergeInto` | internal/discovery/parser.go:284-298 | the loops in place compute the merge of the two files |
| `Includes.ParseIncludeEntries` | internal/discovery/parser.go:210-235 | reference i of a list is that of its i-th entry that refers: the joined path, with the env file of a map entry; a map without a path gives none, a lone text one, anything else none |
| `Includes.ResolveIncludes` | internal/discovery/parser.go:171-203 | the recursion in place, ended by the depth limit, computes the resolved file |
| `Includes.ResolvedIsFlatFold` | internal/discovery/parser.go:171-203 | recursive resolution equals one left fold of mergeInto over the include tree in preorder |
| `Includes.RefsIff` | internal/discovery/parser.go:205-235 | the references followed are exactly those that the directive means, spelled out |
| `Includes.ResolvedLeaves` | internal/discovery/parser.go:171-203 | a list of files that include nothing is merged into the including one in its order |
| `Includes.LaterIncludeDecides` | internal/discovery/parser.go:177-198 | of two includes that set a field, variable or label of a service, the later one decides |
| `Includes.ListedIff` | internal/discovery/parser.go:171-203 | a file takes part exactly if a chain of at most eleven readable includes leads to it, cycles included |
| `Includes.ParseComposeFiles` | internal/discovery/parser.go:89-99 | the loop over the top-level files computes the loaded project |
| `Includes.LoadedIsFlatFold` | internal/discovery/parser.go:89-99 | a loaded project is one left fold over all include trees |
| `Includes.LoadedIff` | internal/discovery/parser.go:89-99 | loading fails exactly if a top-level file is unreadable |
| `Includes.ServiceOfFold` | internal/discovery/parser.go:284-298 | a service of a fold is the layering of all its definitions and of nothing else |
| `Includes.LastFileDeclares` | internal/discovery/parser.go:292-297 | a network or volume of a fold comes from the last file that declares it |
| `Includes.SomeFileDeclares` | internal/discovery/parser.go:292-297 | no network or volume comes from anywhere but a file |
| `Includes.LoadedService` | internal/discovery/parser.go:89-99 | so is a service of a loaded project, over all include trees |
| `Extends.ResolvesIff` | internal/discovery/parser.go:343-370 | resolution succeeds exactly if the chain of services ends within eleven files, all there, and gives its layering from the most distant ancestor on |
| `Extends.FailsIff` | internal/discovery/parser.go:343-370 | it fails exactly where the chain breaks off: too deep, no such file or no such service, each with its own failure |
| `Extends.ExtendedIsLayered` | internal/discovery/parser.go:101-112 | a service with extends becomes the layering of its ancestors and itself, with none pending |
| `Extends.ExtendServices` | internal/discovery/parser.go:101-112 | for every iteration order: fails exactly if some service does not resolve, and leaves no extends pending |
| `Expand.Index` | internal/discovery/parser.go:410-414 | the first occurrence, or -1 if there is none |
| `Expand.MatchIff` | internal/discovery/parser.go:74-74 | a match is found exactly if a prefix has one of the two forms of the pattern, braced or the longest bare name |
| `Expand.ExpandEvaluates` | internal/discovery/parser.go:398-430 | expanding a rendered template is evaluating its tokens, in one pass |
| `Expand.DashDefaultIff` | internal/discovery/parser.go:410-417 | a default behind a dash is taken as written, in all environments, exactly if it is free of ":-" |
| `Expand.DashDefaultIsCut` | internal/discovery/parser.go:410-417 | references such as ${A-b:-c}, of whose default only what follows ":-" is left |
| `Expand.NothingToExpand` | internal/discovery/parser.go:398-399 | a text without a match stays as it is |
| `Expand.PartsIff` | internal/discovery/parser.go:410-417 | name and default of a reference are what is before and behind its first ":-", else its first dash |
| `Expand.ExpandIff` | internal/discovery/parser.go:398-430 | for every text: the result has each reference, longest and from left to right, replaced by the value, the default or itself, and all else as it is, stated without the functions of the code |
| `Broker.StepKeepsInv` | internal/sse/broker.go:59-145 | every step keeps the invariant of the channels, the map, the lock and deliveries |
| `Broker.NeverPanics` | internal/sse/broker.go:59-145 | in every interleaving, id collisions included, nothing is sent on a closed channel and each is closed once, by its clean-up |
| `Broker.DeliversExactly` | internal/sse/broker.go:96-125 | a channel carries, in order, exactly the messages that found fewer than 128 pending, and of each sender those owed while the map has the subscriber |
| `Broker.LogIsRecord` | internal/sse/broker.go:59-145 | what is told of a run is the record of its schedule, and each subscriber has the id and topics that it subscribed with |
| `Broker.AttemptsAreCounted` | internal/sse/broker.go:119-123 | a step tries at most one message on a channel, and counts it with what was pending then |
| `Broker.DeliversWhatIsDue` | internal/sse/broker.go:96-125 | unless an id is taken again in use, that is all that is published on the topics while registered and open |
| `Broker.ReachesAllIff` | internal/sse/broker.go:79-84 | the map has all registered subscribers at all times exactly under that condition |
| `Broker.CollisionLosesEvent` | internal/sse/broker.go:79-94 | a schedule of two subscriptions under one id, in which the first misses an event that is due to it |
| `Broker.ClosedIsQuiet` | internal/sse/broker.go:100-102 | after Close no publisher is sending |
| `Broker.CloseCancels` | internal/sse/broker.go:127-145 | when the loop of Close is through, every subscriber in the map is cancelled |
| `Broker.IdsCollideIff` | internal/sse/broker.go:150-156 | two ids are equal exactly if made within a second at counts that agree in the last digit |
| `Broker.EventBroker.Subscribe` | internal/sse/broker.go:59-94 | a new open channel with these topics is put under the id |
| `Broker.EventBroker.Publish` | internal/sse/broker.go:96-125 | exactly the subscribers of the topic or of "*" get the event, under the topic, if the broker is open and fewer than 128 are pending |
| `Broker.EventBroker.Close` | internal/sse/broker.go:127-145 | every subscriber gets the shutdown event if fewer than 128 are pending, and is cancelled |
| `Broker.EventBroker.CleanUp` | internal/sse/broker.go:81-87 | the id leaves the map and the channel is closed |
| `Scanner.DeduplicateAndOrder` | internal/discovery/scanner.go:171-189 | the loop computes the first occurrences, overrides last |
| `Scanner.NamesIff` | internal/discovery/scanner.go:127-139 | the names looked for are the eight of Compose, letter by letter in either case, with the Kelvin sign for k and the long s for s |
| `Scanner.OverrideIff` | internal/discovery/scanner.go:182-186 | an override is told by the word "override" somewhere in the name |
| `Scanner.OrderedIsStable` | internal/discovery/scanner.go:171-189 | no repeats, none lost, names that contain "override" in lower case behind all others, otherwise in order of first occurrence |
| `Scanner.OverridesLastIff` | internal/discovery/scanner.go:135-139 | files that match an override pattern in any case come behind all primary files exactly if those without "override" in lower case were listed behind them |
| `Scanner.MixedCaseOverrideIsFirst` | internal/discovery/scanner.go:182-186 | an override in mixed case that stays before the file it is to override |
| `Walk.ProjectOverridesLastIff` | internal/discovery/scanner.go:128-146 | the same of a project over the entries of its directory |
| `Walk.ComposeFilesIff` | internal/discovery/scanner.go:128-139 | a directory's compose files are its entries that equal a known name in any case |
| `Walk.EnvFilesIff` | internal/discovery/scanner.go:140-142 | its environment files are its entries named ".env" |
| `Walk.FoundIff` | internal/discovery/scanner.go:145-152 | a directory has a project exactly if it was scanned and holds such an entry |
| `Walk.FoundInOrder` | internal/discovery/scanner.go:145-152 | the projects are, in the order of the scan, one for each directory scanned with a compose file, and each holds the files of its directory, overrides last and else in entry order, and the environment file |
| `Walk.WalkedIsSound` | internal/discovery/scanner.go:84-114 | on any graph of symlinks, whatever fails, no inode is scanned twice |
| `Walk.ScansOnce` | internal/discovery/scanner.go:69-169 | without links and errors only directories in depth and outside hidden, node_modules and vendor paths are scanned, each once |
| `Walk.ScanIsExactIff` | internal/discovery/scanner.go:69-169 | all of them are, exactly if no two share an inode number |
| `Walk.SharedInodeIsMissed` | internal/discovery/scanner.go:106-114 | a link-free file system with a directory that shares its number with the root and is not scanned |
| `Walk.ScansAllReached` | internal/discovery/scanner.go:84-169 | with symlinks, and depth for all directories, exactly the readable directories that are reached from the root through entries not skipped are scanned |
| `Walk.DeepLinkHidesDirectory` | internal/discovery/scanner.go:84-114 | with less depth a directory is missed that is within the depth, as a link led to its parent at the greatest depth first |
| `Walk.FsScanner.Walk` | internal/discovery/scanner.go:69-114 | the recursion, ended by the depth, computes the walk, or stops early without scanning an inode twice |
| `Walk.FsScanner.CollectFiles` | internal/discovery/scanner.go:125-152 | the first loop appends the project of the directory |
| `Walk.FsScanner.WalkEntries` | internal/discovery/scanner.go:154-168 | the second loop walks the directories that are not skipped, in order |
| `Demux.OrAdds` | internal/docker/streamer.go:124-124 | an or below the lowest bit of a shifted number is a sum |
| `Demux.SizeRoundTrip` | internal/docker/streamer.go:124-124 | shifting and or-ing the bytes inverts the big-endian encoding of the size |
| `Demux.TrimRight` | internal/docker/streamer.go:135-135 | the longest prefix that does not end in a line break |
| `Demux.DemuxDockerLogs` | internal/docker/streamer.go:107-149 | the loop publishes the lines of the input in order, or a prefix of them if cancelled |
| `Demux.DemuxUndoesFraming` | internal/docker/streamer.go:107-149 | of any frames of at most 1 MiB and an incomplete end, the i-th line published is the i-th payload that is not blank, without the line breaks at its end, and of stderr exactly if its kind is 2 |
| `Demux.LinesOfFrame` | internal/docker/streamer.go:119-146 | one frame publishes nothing if blank, else its payload so trimmed with that stream |
| `Demux.OversizeRead` | internal/docker/streamer.go:125-127 | the payload of a larger frame is read as frames |
| `Demux.FrameReadIff` | internal/docker/streamer.go:124-137 | a frame is handled properly before any input exactly if it is at most 1 MiB, or blank and a multiple of eight bytes |
| `Demux.LargeFrameIsLost` | internal/docker/streamer.go:125-127 | a frame one byte larger, whose line is not published |

## Left out

- HTTP handlers, middleware, JSON, tokens, passwords, roles, SQL, migrations, telemetry, configuration and process startup.
- The Docker SDK client: its daemon is modelled, with these differences: a mount of a missing volume does not create it, and no one else acts on the daemon while `Up` or `Down` runs.
- `Stop`, `Restart` and the other operations: they add nothing to the properties of `Up` and `Down`.
- Of containers: command, environment, ports, mount targets and restart policy; of images: the stream of a pull, whose content the code discards.
- Port conflicts and port probing: an early exit that may or may not be taken.
- Timeouts and clocks: a context may end at any time; times are integers.
- The condition variable of the queue: Dequeue reports that it would wait, and signals are not modelled.
- Ids of operations: assumed new, as the handlers make them from UUIDs; ids of projects are hashes and never empty.
- The id and the time that Publish stamps on an event.
- Audit entries and the content of results in the orchestrator: they do not influence the protocol.
- YAML decoding, reading of files, formatting of scalars: the parsed form is the input, and a file reads the same at every reading.
- Go's sharing of maps and slices between merged services: merged values are values.
- `Parse` after its extends pass: env files of services and the conversion to the domain types.
- The regular expression engine: the one pattern is matched by hand, and its two alternatives are characterised by `MatchIff`.
- Int as 64 bits: sizes of log frames fit; nothing wraps around.
- Paths are lists of names in Walk: cleaning of paths is not modelled.
- Reading Docker's statistics and events, and writing server-sent events.
- Operations.Operations.Up: if the daemon is not steady, clean-up may leave new containers, networks or volumes behind, because failures of clean-up calls are ignored; what was there before survives in any case, but for own volumes that nobody mounts.
- Operations.Operations.Down: on a daemon that is not steady it may leave some of the selected containers, because the failure of a removal is only logged as a step.
- Walk.ScansAllReached: only if the depth is not less than the number of directories; which directories a walk with links reaches under less depth is not characterised, beyond soundness and the failing case.
- Walk.FsScanner.Walk: after a cancellation only soundness is promised, because the result is discarded.
