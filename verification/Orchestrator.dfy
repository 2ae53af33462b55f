/** The operation orchestrator as a machine whose steps are the mutex-protected blocks, the
    channel operations and the deferred calls of internal/orchestrator. Any number of
    workers, synchronous callers, cancellers and readers interleave. */
module Orchestrator {
  import opened Requests
  import opened Locker
  import opened Executor

  type ThreadId = nat

  /** Where a thread is inside run. The deferred calls come in Go's order: the delete from
      the maps, the release of the lock, the cancel of the context. */
  datatype RunPoint =
    | Acquiring
    | Waiting(ch: ChanId)
    | Holding
    | Resolving
    | Executing
    | Storing
    | Deleting(outcome: Outcome)
    | Releasing(outcome: Outcome)
    | Cancelling(outcome: Outcome)

  datatype Thread =
    | Idle                                          // worker, about to call Dequeue
    | Dequeued(request: Request)                    // worker, about to look at its context
    | Exited                                        // worker
    | Calling(request: Request)                     // caller, about to call IsLocked
    | Returned                                      // caller
    | Run(request: Request, queued: bool, at: RunPoint)
    | Recording(request: Request, outcome: Outcome) // worker, about to add executeQueued's record
    | LookingUp(id: OpId)                           // canceller, about to read cancelFns
    | Signalling(fn: CancelFunc)                    // canceller, about to call the cancel function
    | Withdrawing(id: OpId)                         // canceller, about to search the queue
    | Noting(request: Request)                      // canceller, about to add its record
    | CancelDone(found: bool)                       // false for "not found or already completed"
    | ReadingRunning(id: OpId)                      // reader, about to look at running
    | ReadingHistory(id: OpId)                      // reader, about to look at history
    | ReadDone(id: OpId, result: Lookup)

  /** What happened so far. Written by the steps, read by none of them. */
  datatype Trail = Trail(
    log: seq<Record>,               // every record ever added
    issued: map<OpId, Request>,     // every operation
    submitted: map<OpId, Request>,  // the operations that went through the queue
    taken: map<OpId, ThreadId>,     // who runs an operation
    removed: map<OpId, ThreadId>,   // who cancelled an operation out of the queue
    entered: set<OpId>,             // the operations that were ever in running
    errored: set<OpId>,             // the operations whose run failed after that
    stored: set<OpId>,              // the operations recorded by run
    noted: set<OpId>,               // the operations recorded by executeQueued or Cancel
    dropped: set<OpId>)             // the operations given up by a worker that was told to stop

  datatype State = State(
    threads: map<ThreadId, Thread>,
    queue: multiset<Request>, closed: bool,
    shutdown: bool,
    table: Table,
    running: map<OpId, Request>, cancelFns: map<OpId, CancelFunc>,
    history: seq<Record>,
    done: set<OpId>,                // operations whose context is done
    trail: Trail)

  const START := State(map[], multiset{}, false, false, EMPTY, map[], map[], [], {},
                       Trail([], map[], map[], map[], map[], {}, {}, {}, {}, {}))

  datatype Step =
    | StartWorker(t: ThreadId)
    | StartCaller(t: ThreadId, request: Request)
    | StartCancel(t: ThreadId, id: OpId)
    | StartRead(t: ThreadId, id: OpId)
    | Submit(request: Request)
    | CloseQueue
    | Shutdown
    | ContextDone(id: OpId)
    | Dequeue(t: ThreadId, request: Request)
    | Stop(t: ThreadId)
    | CheckContext(t: ThreadId)
    | CheckLocked(t: ThreadId)
    | TryLock(t: ThreadId)
    | Wake(t: ThreadId)
    | GiveUp(t: ThreadId)
    | Register(t: ThreadId)
    | Resolve(t: ThreadId, ok: bool)
    | Execute(t: ThreadId, ok: bool)
    | Store(t: ThreadId)
    | Delete(t: ThreadId)
    | Release(t: ThreadId)
    | CancelContext(t: ThreadId)
    | Note(t: ThreadId)
    | LookUp(t: ThreadId)
    | Signal(t: ThreadId)
    | Withdraw(t: ThreadId, request: Request)
    | WithdrawNothing(t: ThreadId)
    | ReadRunning(t: ThreadId)
    | ReadHistory(t: ThreadId)

  predicate Is(s: State, t: ThreadId, th: Thread) {
    t in s.threads && s.threads[t] == th
  }

  predicate RunsAt(s: State, t: ThreadId, at: RunPoint) {
    t in s.threads && s.threads[t].Run? && s.threads[t].at == at
  }

  function Goto(s: State, t: ThreadId, th: Thread): State {
    s.(threads := s.threads[t := th])
  }

  function Advance(s: State, t: ThreadId, at: RunPoint): State
    requires t in s.threads && s.threads[t].Run?
  {
    Goto(s, t, s.threads[t].(at := at))
  }

  function Fail(s: State, t: ThreadId): State
    requires t in s.threads && s.threads[t].Run?
  {
    Advance(s, t, Deleting(Failed))
    .(trail := s.trail.(errored := s.trail.errored + {s.threads[t].request.id}))
  }

  function Log(s: State, r: Record): State {
    s.(history := AddRecord(s.history, r), trail := s.trail.(log := s.trail.log + [r]))
  }

  /** Steps of the environment and beginnings of threads. Operation ids are new, as the
      handlers make them. */
  ghost predicate NextOutside(s: State, step: Step, s': State) {
    match step
    case StartWorker(t) => t !in s.threads && s' == Goto(s, t, Idle)
    case StartCaller(t, r) =>
      && t !in s.threads && r.id !in s.trail.issued
      && s' == Goto(s, t, Calling(r)).(trail := s.trail.(issued := s.trail.issued[r.id := r],
                                                         taken := s.trail.taken[r.id := t]))
    case StartCancel(t, id) => t !in s.threads && s' == Goto(s, t, LookingUp(id))
    case StartRead(t, id) => t !in s.threads && s' == Goto(s, t, ReadingRunning(id))
    case Submit(r) =>
      && r.id !in s.trail.issued
      && s' == s.(queue := s.queue + multiset{r},
                  trail := s.trail.(issued := s.trail.issued[r.id := r],
                                    submitted := s.trail.submitted[r.id := r]))
    case CloseQueue => s' == s.(closed := true)
    case Shutdown => s' == s.(shutdown := true)
    case ContextDone(id) => s' == s.(done := s.done + {id})
    case _ => false
  }

  /** Steps of a worker outside run. */
  ghost predicate NextWorker(s: State, step: Step, s': State) {
    match step
    case Dequeue(t, r) =>
      && Is(s, t, Idle) && Best(r, s.queue)
      && s' == Goto(s, t, Dequeued(r)).(queue := s.queue - multiset{r},
                                        trail := s.trail.(taken := s.trail.taken[r.id := t]))
    case Stop(t) => Is(s, t, Idle) && s.closed && s.queue == multiset{} && s' == Goto(s, t, Exited)
    case CheckContext(t) =>
      && t in s.threads && s.threads[t].Dequeued?
      && var r := s.threads[t].request;
         s' == if s.shutdown
               then Goto(s, t, Exited).(trail := s.trail.(dropped := s.trail.dropped + {r.id}))
               else Goto(s, t, Run(r, true, Acquiring))
    case Note(t) =>
      && t in s.threads && s.threads[t].Recording?
      && var th := s.threads[t];
         s' == Log(Goto(s, t, Idle).(trail := s.trail.(noted := s.trail.noted + {th.request.id})),
                   Record(th.request, th.outcome))
    case _ => false
  }

  /** Steps of Execute and run up to the registration. */
  ghost predicate NextAcquire(s: State, step: Step, s': State) {
    match step
    case CheckLocked(t) =>
      && t in s.threads && s.threads[t].Calling?
      && var r := s.threads[t].request;
         s' == Goto(s, t, if r.project in s.table.locks then Returned else Run(r, false, Acquiring))
    case TryLock(t) =>
      && RunsAt(s, t, Acquiring)
      && var r := s.threads[t].request;
         if r.project in s.table.locks
         then s' == Advance(s, t, Waiting(s.table.locks[r.project].ch))
         else s' == Advance(s, t, Holding).(table := Lock(s.table, r.project, r.id))
    case Wake(t) =>
      && t in s.threads && s.threads[t].Run? && s.threads[t].at.Waiting?
      && s.threads[t].at.ch in s.table.closed && s' == Advance(s, t, Acquiring)
    case GiveUp(t) =>
      && t in s.threads && s.threads[t].Run? && s.threads[t].at.Waiting?
      && (s.threads[t].request.id in s.done || (s.threads[t].queued && s.shutdown))
      && s' == Advance(s, t, Cancelling(Failed))
    case Register(t) =>
      && RunsAt(s, t, Holding)
      && var r := s.threads[t].request;
         s' == Advance(s, t, Resolving).(
               running := s.running[r.id := r], cancelFns := s.cancelFns[r.id := CancelFunc(r.id)],
               trail := s.trail.(entered := s.trail.entered + {r.id}))
    case _ => false
  }

  /** Steps of run from the registration on. */
  ghost predicate NextRun(s: State, step: Step, s': State) {
    match step
    case Resolve(t, ok) =>
      RunsAt(s, t, Resolving) && s' == if ok then Advance(s, t, Executing) else Fail(s, t)
    case Execute(t, ok) =>
      RunsAt(s, t, Executing) && s' == if ok then Advance(s, t, Storing) else Fail(s, t)
    case Store(t) =>
      && RunsAt(s, t, Storing)
      && var r := s.threads[t].request;
         s' == Log(Advance(s, t, Deleting(Completed)).(trail := s.trail.(stored := s.trail.stored + {r.id})),
                   Record(r, Completed))
    case Delete(t) =>
      && t in s.threads && s.threads[t].Run? && s.threads[t].at.Deleting?
      && var th := s.threads[t];
         s' == Advance(s, t, Releasing(th.at.outcome)).(
               running := s.running - {th.request.id}, cancelFns := s.cancelFns - {th.request.id})
    case Release(t) =>
      && t in s.threads && s.threads[t].Run? && s.threads[t].at.Releasing?
      && var th := s.threads[t];
         s' == Advance(s, t, Cancelling(th.at.outcome)).(table := Unlock(s.table, th.request.project))
    case CancelContext(t) =>
      && t in s.threads && s.threads[t].Run? && s.threads[t].at.Cancelling?
      && var th := s.threads[t];
         s' == Goto(s, t, if th.queued then Recording(th.request, th.at.outcome) else Returned)
               .(done := s.done + {th.request.id})
    case _ => false
  }

  /** Steps of Cancel and GetOperation. */
  ghost predicate NextClient(s: State, step: Step, s': State) {
    match step
    case LookUp(t) =>
      && t in s.threads && s.threads[t].LookingUp?
      && var id := s.threads[t].id;
         s' == Goto(s, t, if id in s.cancelFns then Signalling(s.cancelFns[id]) else Withdrawing(id))
    case Signal(t) =>
      && t in s.threads && s.threads[t].Signalling?
      && s' == Goto(s, t, CancelDone(true)).(done := s.done + {s.threads[t].fn.op})
    case Withdraw(t, r) =>
      && t in s.threads && s.threads[t].Withdrawing? && r in s.queue && r.id == s.threads[t].id
      && s' == Goto(s, t, Noting(r)).(queue := s.queue - multiset{r},
                                      trail := s.trail.(removed := s.trail.removed[r.id := t]))
    case WithdrawNothing(t) =>
      && t in s.threads && s.threads[t].Withdrawing?
      && (forall r | r in s.queue :: r.id != s.threads[t].id) && s' == Goto(s, t, CancelDone(false))
    case Note(t) =>
      && t in s.threads && s.threads[t].Noting?
      && var r := s.threads[t].request;
         s' == Log(Goto(s, t, CancelDone(true)).(trail := s.trail.(noted := s.trail.noted + {r.id})),
                   Record(r, Withdrawn))
    case ReadRunning(t) =>
      && t in s.threads && s.threads[t].ReadingRunning?
      && var id := s.threads[t].id;
         s' == Goto(s, t, if id in s.running then ReadDone(id, Running(s.running[id])) else ReadingHistory(id))
    case ReadHistory(t) =>
      && t in s.threads && s.threads[t].ReadingHistory?
      && var id := s.threads[t].id;
         s' == Goto(s, t, ReadDone(id, FindRecord(s.history, id)))
    case _ => false
  }

  ghost predicate Next(s: State, step: Step, s': State) {
    || NextOutside(s, step, s')
    || NextWorker(s, step, s')
    || NextAcquire(s, step, s')
    || NextRun(s, step, s')
    || NextClient(s, step, s')
  }

  /** A run: its states, each reached from the one before by the step in between. */
  ghost predicate IsRun(states: seq<State>, steps: seq<Step>) {
    && |states| == |steps| + 1 && states[0] == START
    && forall i | 0 <= i < |steps| :: Next(states[i], steps[i], states[i + 1])
  }

  // ----- the invariant -----

  /** The thread is responsible for a request that it took. */
  predicate Works(th: Thread) {
    th.Dequeued? || th.Calling? || th.Run? || th.Recording?
  }

  /** The thread is between acquiring and releasing the lock of its project. */
  predicate Holds(th: Thread) {
    th.Run? && (th.at.Holding? || th.at.Resolving? || th.at.Executing? || th.at.Storing?
                || th.at.Deleting? || th.at.Releasing?)
  }

  /** The thread is between registering its operation and deleting it again. */
  predicate Listed(th: Thread) {
    th.Run? && (th.at.Resolving? || th.at.Executing? || th.at.Storing? || th.at.Deleting?)
  }

  type Threads = map<ThreadId, Thread>
  type Takers = map<OpId, ThreadId>

  ghost predicate OwnedBy(taken: Takers, t: ThreadId, th: Thread) {
    Works(th) ==> th.request.id in taken && taken[th.request.id] == t
  }

  /** An operation is worked on by the thread that took it and by no other. */
  ghost predicate Owned(threads: Threads, taken: Takers) {
    forall t | t in threads :: OwnedBy(taken, t, threads[t])
  }

  /** Every lock is held by the thread working on the recorded holder, for that project. */
  ghost predicate LocksOwned(threads: Threads, taken: Takers, locks: map<ProjectId, Entry>) {
    forall p | p in locks ::
      && locks[p].holder in taken && taken[locks[p].holder] in threads
      && var th := threads[taken[locks[p].holder]];
         Holds(th) && th.request.id == locks[p].holder && th.request.project == p
  }

  /** A thread between acquire and release is the recorded holder of its project's lock. */
  ghost predicate HoldersRecorded(threads: Threads, locks: map<ProjectId, Entry>) {
    forall t | t in threads && Holds(threads[t]) ::
      && threads[t].request.project in locks
      && locks[threads[t].request.project].holder == threads[t].request.id
  }

  /** A waiter's channel is closed or belongs to the current lock entry of its project. */
  ghost predicate Covered(th: Thread, table: Table) {
    th.Run? && th.at.Waiting? ==>
      (|| th.at.ch in table.closed
       || (th.request.project in table.locks && table.locks[th.request.project].ch == th.at.ch))
  }

  ghost predicate WaitersCovered(threads: Threads, table: Table) {
    forall t | t in threads :: Covered(threads[t], table)
  }

  ghost predicate ListedRun(threads: Threads, running: map<OpId, Request>) {
    forall t | t in threads && Listed(threads[t]) ::
      threads[t].request.id in running && running[threads[t].request.id] == threads[t].request
  }

  ghost predicate RunningOwned(threads: Threads, taken: Takers, running: map<OpId, Request>) {
    forall id | id in running ::
      && id in taken && taken[id] in threads
      && var th := threads[taken[id]];
         Listed(th) && th.request == running[id] && th.request.id == id
  }

  ghost predicate SameKeys(running: map<OpId, Request>, cancelFns: map<OpId, CancelFunc>) {
    running.Keys == cancelFns.Keys && forall id | id in cancelFns :: cancelFns[id] == CancelFunc(id)
  }

  /** The queue holds exactly the enqueued requests that were neither taken nor removed,
      each once. */
  ghost predicate QueueExact(queue: multiset<Request>, submitted: map<OpId, Request>, taken: Takers, removed: Takers) {
    && (forall r | r in queue ::
          && queue[r] == 1
          && r.id in submitted && submitted[r.id] == r
          && r.id !in taken && r.id !in removed)
    && (forall id | id in submitted && id !in taken && id !in removed ::
          submitted[id].id == id && submitted[id] in queue)
  }

  ghost predicate TrailSound(
    issued: map<OpId, Request>, submitted: map<OpId, Request>, taken: Takers, removed: Takers)
  {
    && submitted.Keys <= issued.Keys && taken.Keys <= issued.Keys
    && removed.Keys <= submitted.Keys && taken.Keys !! removed.Keys
  }

  ghost predicate Safe(s: State) {
    && Owned(s.threads, s.trail.taken)
    && WellFormed(s.table)
    && LocksOwned(s.threads, s.trail.taken, s.table.locks)
    && HoldersRecorded(s.threads, s.table.locks)
    && WaitersCovered(s.threads, s.table)
    && ListedRun(s.threads, s.running)
    && RunningOwned(s.threads, s.trail.taken, s.running)
    && SameKeys(s.running, s.cancelFns)
    && QueueExact(s.queue, s.trail.submitted, s.trail.taken, s.trail.removed)
    && TrailSound(s.trail.issued, s.trail.submitted, s.trail.taken, s.trail.removed)
  }

  // ----- a thread moves -----

  /** The thread holds a lock after the move just if it held the same one before. */
  ghost predicate SameLock(threads: Threads, t: ThreadId, th: Thread) {
    && (Holds(th) <==> t in threads && Holds(threads[t]))
    && (Holds(th) ==> th.request == threads[t].request)
  }

  /** The thread has its operation listed after the move just if it had before. */
  ghost predicate SameListing(threads: Threads, t: ThreadId, th: Thread) {
    && (Listed(th) <==> t in threads && Listed(threads[t]))
    && (Listed(th) ==> th.request == threads[t].request)
  }

  lemma MoveKeepsOwned(threads: Threads, taken: Takers, t: ThreadId, th: Thread)
    requires Owned(threads, taken) && OwnedBy(taken, t, th)
    ensures Owned(threads[t := th], taken)
  {
  }

  lemma TakeKeepsOwned(threads: Threads, taken: Takers, t: ThreadId, th: Thread)
    requires Owned(threads, taken) && Works(th) && th.request.id !in taken
    ensures Owned(threads[t := th], taken[th.request.id := t])
  {
  }

  lemma MoveKeepsLocks(threads: Threads, taken: Takers, locks: map<ProjectId, Entry>, t: ThreadId, th: Thread)
    requires LocksOwned(threads, taken, locks) && HoldersRecorded(threads, locks) && SameLock(threads, t, th)
    ensures LocksOwned(threads[t := th], taken, locks) && HoldersRecorded(threads[t := th], locks)
  {
  }

  lemma TakeKeepsLocks(threads: Threads, taken: Takers, locks: map<ProjectId, Entry>, t: ThreadId, id: OpId)
    requires LocksOwned(threads, taken, locks) && id !in taken
    ensures LocksOwned(threads, taken[id := t], locks)
  {
  }

  lemma MoveKeepsRunning(threads: Threads, taken: Takers, running: map<OpId, Request>, t: ThreadId, th: Thread)
    requires ListedRun(threads, running) && RunningOwned(threads, taken, running) && SameListing(threads, t, th)
    ensures ListedRun(threads[t := th], running) && RunningOwned(threads[t := th], taken, running)
  {
  }

  lemma TakeKeepsRunning(threads: Threads, taken: Takers, running: map<OpId, Request>, t: ThreadId, id: OpId)
    requires RunningOwned(threads, taken, running) && id !in taken
    ensures RunningOwned(threads, taken[id := t], running)
  {
  }

  lemma MoveKeepsWaiters(threads: Threads, table: Table, t: ThreadId, th: Thread)
    requires WaitersCovered(threads, table) && Covered(th, table)
    ensures WaitersCovered(threads[t := th], table)
  {
  }

  /** Acquiring: the thread becomes the recorded holder. */
  lemma LockKeepsLocks(threads: Threads, taken: Takers, table: Table, t: ThreadId, th: Thread)
    requires LocksOwned(threads, taken, table.locks) && HoldersRecorded(threads, table.locks)
    requires Holds(th) && OwnedBy(taken, t, th) && th.request.project !in table.locks
    requires t in threads && !Holds(threads[t])
    ensures var locks := Lock(table, th.request.project, th.request.id).locks;
            LocksOwned(threads[t := th], taken, locks) && HoldersRecorded(threads[t := th], locks)
  {
  }

  lemma LockKeepsWaiters(threads: Threads, table: Table, p: ProjectId, op: OpId)
    requires WaitersCovered(threads, table) && p !in table.locks
    ensures WaitersCovered(threads, Lock(table, p, op))
  {
  }

  /** Releasing: only the releasing thread held the lock. */
  lemma UnlockKeepsLocks(threads: Threads, taken: Takers, table: Table, t: ThreadId, th: Thread)
    requires Owned(threads, taken) && t in threads && Holds(threads[t]) && !Holds(th)
    requires LocksOwned(threads, taken, table.locks) && HoldersRecorded(threads, table.locks)
    ensures var locks := Unlock(table, threads[t].request.project).locks;
            LocksOwned(threads[t := th], taken, locks) && HoldersRecorded(threads[t := th], locks)
  {
  }

  lemma UnlockKeepsWaiters(threads: Threads, table: Table, p: ProjectId)
    requires WaitersCovered(threads, table)
    ensures WaitersCovered(threads, Unlock(table, p))
  {
  }

  lemma RegisterKeepsRunning(threads: Threads, taken: Takers, running: map<OpId, Request>, t: ThreadId, th: Thread)
    requires ListedRun(threads, running) && RunningOwned(threads, taken, running) && Owned(threads, taken)
    requires Listed(th) && OwnedBy(taken, t, th)
    requires t in threads && !Listed(threads[t])
    ensures ListedRun(threads[t := th], running[th.request.id := th.request])
    ensures RunningOwned(threads[t := th], taken, running[th.request.id := th.request])
  {
  }

  lemma DeleteKeepsRunning(threads: Threads, taken: Takers, running: map<OpId, Request>, t: ThreadId, th: Thread)
    requires Owned(threads, taken) && t in threads && Listed(threads[t]) && !Listed(th)
    requires ListedRun(threads, running) && RunningOwned(threads, taken, running)
    ensures ListedRun(threads[t := th], running - {threads[t].request.id})
    ensures RunningOwned(threads[t := th], taken, running - {threads[t].request.id})
  {
  }

  lemma SubmitKeepsQueue(queue: multiset<Request>, trail: Trail, r: Request)
    requires QueueExact(queue, trail.submitted, trail.taken, trail.removed)
    requires TrailSound(trail.issued, trail.submitted, trail.taken, trail.removed)
    requires r.id !in trail.issued
    ensures QueueExact(queue + multiset{r}, trail.submitted[r.id := r], trail.taken, trail.removed)
  {
  }

  lemma OutKeepsQueue(queue: multiset<Request>, submitted: map<OpId, Request>, taken: Takers, removed: Takers,
                      t: ThreadId, r: Request)
    requires QueueExact(queue, submitted, taken, removed) && r in queue
    ensures QueueExact(queue - multiset{r}, submitted, taken[r.id := t], removed)
    ensures QueueExact(queue - multiset{r}, submitted, taken, removed[r.id := t])
  {
  }

  // ----- every step keeps the invariant -----

  /** A move that changes neither locks nor maps nor queue. */
  ghost predicate PlainMove(s: State, t: ThreadId, th: Thread, s': State) {
    && s'.threads == s.threads[t := th]
    && s'.table == s.table && s'.running == s.running && s'.cancelFns == s.cancelFns && s'.queue == s.queue
    && s'.trail.issued == s.trail.issued && s'.trail.submitted == s.trail.submitted
    && s'.trail.taken == s.trail.taken && s'.trail.removed == s.trail.removed
  }

  lemma PlainMoveKeepsSafe(s: State, t: ThreadId, th: Thread, s': State)
    requires Safe(s) && PlainMove(s, t, th, s')
    requires SameLock(s.threads, t, th) && SameListing(s.threads, t, th)
    requires OwnedBy(s.trail.taken, t, th) && Covered(th, s.table)
    ensures Safe(s')
  {
    MoveKeepsOwned(s.threads, s.trail.taken, t, th);
    MoveKeepsLocks(s.threads, s.trail.taken, s.table.locks, t, th);
    MoveKeepsRunning(s.threads, s.trail.taken, s.running, t, th);
    MoveKeepsWaiters(s.threads, s.table, t, th);
  }

  /** Taking an operation that nobody took, without starting to run it yet. */
  lemma TakeKeepsSafe(s: State, t: ThreadId, th: Thread, s': State)
    requires Safe(s) && s'.threads == s.threads[t := th]
    requires (th.Calling? || th.Dequeued?) && th.request.id !in s.trail.taken
    requires !(t in s.threads && s.threads[t].Run?)
    requires s'.table == s.table && s'.running == s.running && s'.cancelFns == s.cancelFns
    requires s'.trail.taken == s.trail.taken[th.request.id := t]
    requires QueueExact(s'.queue, s'.trail.submitted, s'.trail.taken, s'.trail.removed)
    requires TrailSound(s'.trail.issued, s'.trail.submitted, s'.trail.taken, s'.trail.removed)
    ensures Safe(s')
  {
    TakeKeepsOwned(s.threads, s.trail.taken, t, th);
    MoveKeepsLocks(s.threads, s.trail.taken, s.table.locks, t, th);
    TakeKeepsLocks(s'.threads, s.trail.taken, s.table.locks, t, th.request.id);
    MoveKeepsRunning(s.threads, s.trail.taken, s.running, t, th);
    TakeKeepsRunning(s'.threads, s.trail.taken, s.running, t, th.request.id);
    MoveKeepsWaiters(s.threads, s.table, t, th);
  }

  lemma StartCallerKeepsSafe(s: State, t: ThreadId, r: Request, s': State)
    requires Safe(s) && NextOutside(s, StartCaller(t, r), s')
    ensures Safe(s')
  {
    TakeKeepsSafe(s, t, Calling(r), s');
  }

  lemma DequeueKeepsSafe(s: State, t: ThreadId, r: Request, s': State)
    requires Safe(s) && NextWorker(s, Dequeue(t, r), s')
    ensures Safe(s')
  {
    OutKeepsQueue(s.queue, s.trail.submitted, s.trail.taken, s.trail.removed, t, r);
    TakeKeepsSafe(s, t, Dequeued(r), s');
  }

  lemma OutsideKeepsSafe(s: State, step: Step, s': State)
    requires Safe(s) && NextOutside(s, step, s')
    ensures Safe(s')
  {
    match step {
      case StartWorker(t) => PlainMoveKeepsSafe(s, t, Idle, s');
      case StartCaller(t, r) => StartCallerKeepsSafe(s, t, r, s');
      case StartCancel(t, id) => PlainMoveKeepsSafe(s, t, LookingUp(id), s');
      case StartRead(t, id) => PlainMoveKeepsSafe(s, t, ReadingRunning(id), s');
      case Submit(r) => SubmitKeepsQueue(s.queue, s.trail, r);
      case _ =>
    }
  }

  lemma WorkerKeepsSafe(s: State, step: Step, s': State)
    requires Safe(s) && NextWorker(s, step, s')
    ensures Safe(s')
  {
    if step.Dequeue? {
      DequeueKeepsSafe(s, step.t, step.request, s');
    } else {
      assert OwnedBy(s.trail.taken, step.t, s.threads[step.t]);
      PlainMoveKeepsSafe(s, step.t, s'.threads[step.t], s');
    }
  }

  lemma LockKeepsSafe(s: State, t: ThreadId, s': State)
    requires Safe(s) && NextAcquire(s, TryLock(t), s') && s.threads[t].request.project !in s.table.locks
    ensures Safe(s')
  {
    assert OwnedBy(s.trail.taken, t, s.threads[t]);
    var r, th := s.threads[t].request, s'.threads[t];
    LockUnlockWellFormed(s.table, r.project, r.id);
    MoveKeepsOwned(s.threads, s.trail.taken, t, th);
    LockKeepsLocks(s.threads, s.trail.taken, s.table, t, th);
    MoveKeepsRunning(s.threads, s.trail.taken, s.running, t, th);
    MoveKeepsWaiters(s.threads, s.table, t, th);
    LockKeepsWaiters(s'.threads, s.table, r.project, r.id);
  }

  /** A move that changes the maps along with the thread. */
  lemma ListingMoveKeepsSafe(s: State, t: ThreadId, th: Thread, s': State)
    requires Safe(s) && PlainMove(s, t, th, s'.(running := s.running, cancelFns := s.cancelFns))
    requires SameLock(s.threads, t, th) && OwnedBy(s.trail.taken, t, th) && Covered(th, s.table)
    requires ListedRun(s'.threads, s'.running) && RunningOwned(s'.threads, s.trail.taken, s'.running)
    requires SameKeys(s'.running, s'.cancelFns)
    ensures Safe(s')
  {
  }

  lemma MapsKeepKeys(running: map<OpId, Request>, cancelFns: map<OpId, CancelFunc>, r: Request)
    requires SameKeys(running, cancelFns)
    ensures SameKeys(running[r.id := r], cancelFns[r.id := CancelFunc(r.id)])
    ensures SameKeys(running - {r.id}, cancelFns - {r.id})
  {
  }

  lemma RegisterShape(s: State, t: ThreadId, s': State)
    requires NextAcquire(s, Register(t), s')
    ensures t in s.threads && t in s'.threads && s.threads[t].Run? && s'.threads[t].Run?
    ensures var r, th := s.threads[t].request, s'.threads[t];
            && PlainMove(s, t, th, s'.(running := s.running, cancelFns := s.cancelFns))
            && SameLock(s.threads, t, th) && Covered(th, s.table)
            && !Listed(s.threads[t]) && Listed(th) && th.request == r
            && s'.running == s.running[r.id := r] && s'.cancelFns == s.cancelFns[r.id := CancelFunc(r.id)]
  {
  }

  lemma RegisterKeepsSafe(s: State, t: ThreadId, s': State)
    requires Safe(s) && NextAcquire(s, Register(t), s')
    ensures Safe(s')
  {
    RegisterShape(s, t, s');
    MapsKeepKeys(s.running, s.cancelFns, s.threads[t].request);
    assert OwnedBy(s.trail.taken, t, s.threads[t]);
    RegisterKeepsRunning(s.threads, s.trail.taken, s.running, t, s'.threads[t]);
    ListingMoveKeepsSafe(s, t, s'.threads[t], s');
  }

  lemma DeleteKeepsSafe(s: State, t: ThreadId, s': State)
    requires Safe(s) && NextRun(s, Delete(t), s')
    ensures Safe(s')
  {
    assert OwnedBy(s.trail.taken, t, s.threads[t]);
    MapsKeepKeys(s.running, s.cancelFns, s.threads[t].request);
    DeleteKeepsRunning(s.threads, s.trail.taken, s.running, t, s'.threads[t]);
    ListingMoveKeepsSafe(s, t, s'.threads[t], s');
  }

  lemma ReleaseKeepsSafe(s: State, t: ThreadId, s': State)
    requires Safe(s) && NextRun(s, Release(t), s')
    ensures Safe(s')
  {
    assert OwnedBy(s.trail.taken, t, s.threads[t]);
    var p, th := s.threads[t].request.project, s'.threads[t];
    LockUnlockWellFormed(s.table, p, "");
    MoveKeepsOwned(s.threads, s.trail.taken, t, th);
    UnlockKeepsLocks(s.threads, s.trail.taken, s.table, t, th);
    MoveKeepsRunning(s.threads, s.trail.taken, s.running, t, th);
    MoveKeepsWaiters(s.threads, s.table, t, th);
    UnlockKeepsWaiters(s'.threads, s.table, p);
  }

  lemma WithdrawKeepsSafe(s: State, t: ThreadId, r: Request, s': State)
    requires Safe(s) && NextClient(s, Withdraw(t, r), s')
    ensures Safe(s')
  {
    OutKeepsQueue(s.queue, s.trail.submitted, s.trail.taken, s.trail.removed, t, r);
    MoveKeepsOwned(s.threads, s.trail.taken, t, Noting(r));
    MoveKeepsLocks(s.threads, s.trail.taken, s.table.locks, t, Noting(r));
    MoveKeepsRunning(s.threads, s.trail.taken, s.running, t, Noting(r));
    MoveKeepsWaiters(s.threads, s.table, t, Noting(r));
  }

  /** What a plain move asks of the thread that makes it. */
  ghost predicate PlainThread(s: State, t: ThreadId, th: Thread) {
    && SameLock(s.threads, t, th) && SameListing(s.threads, t, th) && Covered(th, s.table)
    && t in s.threads && (OwnedBy(s.trail.taken, t, s.threads[t]) ==> OwnedBy(s.trail.taken, t, th))
  }

  lemma AcquireStepIsPlain(s: State, step: Step, s': State)
    requires NextAcquire(s, step, s') && !step.Register?
    requires step.TryLock? ==> s.threads[step.t].request.project in s.table.locks
    ensures step.t in s'.threads && PlainMove(s, step.t, s'.threads[step.t], s')
    ensures PlainThread(s, step.t, s'.threads[step.t])
  {
  }

  lemma AcquireKeepsSafe(s: State, step: Step, s': State)
    requires Safe(s) && NextAcquire(s, step, s')
    ensures Safe(s')
  {
    if step.TryLock? && s.threads[step.t].request.project !in s.table.locks {
      LockKeepsSafe(s, step.t, s');
    } else if step.Register? {
      RegisterKeepsSafe(s, step.t, s');
    } else {
      AcquireStepIsPlain(s, step, s');
      assert OwnedBy(s.trail.taken, step.t, s.threads[step.t]);
      PlainMoveKeepsSafe(s, step.t, s'.threads[step.t], s');
    }
  }

  lemma RunStepMovesPlainly(s: State, step: Step, s': State)
    requires NextRun(s, step, s') && !step.Delete? && !step.Release?
    ensures step.t in s'.threads && PlainMove(s, step.t, s'.threads[step.t], s')
  {
  }

  lemma ResolveIsPlain(s: State, step: Step, s': State)
    requires NextRun(s, step, s') && step.Resolve?
    ensures step.t in s'.threads && PlainThread(s, step.t, s'.threads[step.t])
  {
  }

  lemma ExecuteIsPlain(s: State, step: Step, s': State)
    requires NextRun(s, step, s') && step.Execute?
    ensures step.t in s'.threads && PlainThread(s, step.t, s'.threads[step.t])
  {
  }

  lemma RunStepIsPlain(s: State, step: Step, s': State)
    requires NextRun(s, step, s') && !step.Delete? && !step.Release?
    ensures step.t in s'.threads && PlainThread(s, step.t, s'.threads[step.t])
  {
    if step.Resolve? {
      ResolveIsPlain(s, step, s');
    } else if step.Execute? {
      ExecuteIsPlain(s, step, s');
    }
  }

  lemma RunKeepsSafe(s: State, step: Step, s': State)
    requires Safe(s) && NextRun(s, step, s')
    ensures Safe(s')
  {
    if step.Delete? {
      DeleteKeepsSafe(s, step.t, s');
    } else if step.Release? {
      ReleaseKeepsSafe(s, step.t, s');
    } else {
      RunStepMovesPlainly(s, step, s');
      RunStepIsPlain(s, step, s');
      assert OwnedBy(s.trail.taken, step.t, s.threads[step.t]);
      PlainMoveKeepsSafe(s, step.t, s'.threads[step.t], s');
    }
  }

  lemma ClientStepIsPlain(s: State, step: Step, s': State)
    requires NextClient(s, step, s') && !step.Withdraw?
    ensures step.t in s.threads && step.t in s'.threads
    ensures var t, th := step.t, s'.threads[step.t];
            && PlainMove(s, t, th, s') && !Works(s.threads[t]) && !Works(th)
  {
  }

  lemma ClientKeepsSafe(s: State, step: Step, s': State)
    requires Safe(s) && NextClient(s, step, s')
    ensures Safe(s')
  {
    if step.Withdraw? {
      WithdrawKeepsSafe(s, step.t, step.request, s');
    } else {
      ClientStepIsPlain(s, step, s');
      PlainMoveKeepsSafe(s, step.t, s'.threads[step.t], s');
    }
  }

  lemma NextKeepsSafe(s: State, step: Step, s': State)
    requires Safe(s) && Next(s, step, s')
    ensures Safe(s')
  {
    if NextOutside(s, step, s') {
      OutsideKeepsSafe(s, step, s');
    } else if NextWorker(s, step, s') {
      WorkerKeepsSafe(s, step, s');
    } else if NextAcquire(s, step, s') {
      AcquireKeepsSafe(s, step, s');
    } else if NextRun(s, step, s') {
      RunKeepsSafe(s, step, s');
    } else {
      ClientKeepsSafe(s, step, s');
    }
  }

  // ----- what is recorded -----

  function Count(log: seq<Record>, id: OpId): nat {
    if log == [] then 0
    else
      var last := log[|log| - 1];
      Count(log[..|log| - 1], id) + if last.request.id == id then 1 else 0
  }

  lemma {:induction false} CountedIsThere(log: seq<Record>, id: OpId)
    requires Count(log, id) > 0
    ensures exists i :: 0 <= i < |log| && log[i].request.id == id
  {
    var n := |log| - 1;
    if log[n].request.id != id {
      CountedIsThere(log[..n], id);
      var i :| 0 <= i < n && log[..n][i].request.id == id;
      assert log[i].request.id == id;
    }
  }

  function One(b: bool): nat {
    if b then 1 else 0
  }

  /** Every record was added by run, by executeQueued or by Cancel, each once per operation. */
  ghost predicate CountsExact(log: seq<Record>, stored: set<OpId>, noted: set<OpId>) {
    forall id :: Count(log, id) == One(id in stored) + One(id in noted)
  }

  lemma StoreKeepsCounts(log: seq<Record>, stored: set<OpId>, noted: set<OpId>, r: Record)
    requires CountsExact(log, stored, noted)
    ensures r.request.id !in stored ==> CountsExact(log + [r], stored + {r.request.id}, noted)
    ensures r.request.id !in noted ==> CountsExact(log + [r], stored, noted + {r.request.id})
  {
  }

  /** The thread has an outcome to report. */
  predicate Decided(th: Thread) {
    th.Recording? || (th.Run? && (th.at.Deleting? || th.at.Releasing? || th.at.Cancelling?))
  }

  function OutcomeOf(th: Thread): Outcome
    requires Decided(th)
  {
    if th.Recording? then th.outcome else th.at.outcome
  }

  /** The thread works on an operation that it has not yet registered. */
  predicate Early(th: Thread) {
    th.Dequeued? || th.Calling? || (th.Run? && (th.at.Acquiring? || th.at.Waiting? || th.at.Holding?))
  }

  /** How far the trail of an operation goes, given where its thread is. */
  ghost predicate InStep(th: Thread, t: ThreadId, trail: Trail) {
    && (Works(th) ==>
          var id := th.request.id;
          && id !in trail.noted && id !in trail.dropped
          && (id in trail.submitted <==> th.Dequeued? || th.Recording? || (th.Run? && th.queued))
          && (Decided(th) ==> !OutcomeOf(th).Withdrawn?)
          && (Early(th) ==> id !in trail.entered)
          && (Listed(th) || (th.Run? && th.at.Releasing?) ==> id in trail.entered)
          && (id in trail.stored <==> Decided(th) && OutcomeOf(th).Completed?)
          && (id in trail.stored ==> id in trail.entered)
          && (id in trail.errored <==> id in trail.entered && Decided(th) && OutcomeOf(th).Failed?))
    && (th.Noting? ==>
          && th.request.id in trail.removed && trail.removed[th.request.id] == t
          && th.request.id !in trail.noted)
  }

  ghost predicate AllInStep(threads: Threads, trail: Trail) {
    forall t | t in threads :: InStep(threads[t], t, trail)
  }

  /** What is left of an operation when no thread works on it any more. */
  ghost predicate Finished(id: OpId, trail: Trail) {
    && (id in trail.submitted ==> (id in trail.noted <==> id !in trail.dropped))
    && (id !in trail.submitted ==> id !in trail.noted)
    && (id in trail.dropped ==> id !in trail.stored)
    && (id in trail.entered <==> id in trail.stored || id in trail.errored)
    && !(id in trail.stored && id in trail.errored)
  }

  /** Whether thread `t` still works on `id`. */
  predicate WorksOn(threads: Threads, t: ThreadId, id: OpId) {
    t in threads && Works(threads[t]) && threads[t].request.id == id
  }

  ghost predicate TakenSettled(threads: Threads, trail: Trail) {
    forall id | id in trail.taken :: WorksOn(threads, trail.taken[id], id) || Finished(id, trail)
  }

  predicate Notes(threads: Threads, t: ThreadId, id: OpId) {
    t in threads && threads[t].Noting? && threads[t].request.id == id
  }

  ghost predicate RemovedSettled(threads: Threads, trail: Trail) {
    forall id | id in trail.removed ::
      && id !in trail.entered && id !in trail.stored
      && (id in trail.noted <==> !Notes(threads, trail.removed[id], id))
  }

  /** Nothing is said of operations that were neither taken nor removed. */
  ghost predicate UntouchedBlank(trail: Trail) {
    forall id | id !in trail.taken ::
      && id !in trail.entered && id !in trail.stored && id !in trail.errored && id !in trail.dropped
      && (id !in trail.removed ==> id !in trail.noted)
  }

  /** An operation that was ever listed as running still is, or left a record, or failed. */
  ghost predicate EnteredAccounted(running: map<OpId, Request>, trail: Trail) {
    forall id | id in trail.entered :: id in running || id in trail.stored || id in trail.errored
  }

  ghost predicate Audited(s: State) {
    && s.history == Newest(s.trail.log)
    && CountsExact(s.trail.log, s.trail.stored, s.trail.noted)
    && AllInStep(s.threads, s.trail)
    && TakenSettled(s.threads, s.trail)
    && RemovedSettled(s.threads, s.trail)
    && UntouchedBlank(s.trail)
    && EnteredAccounted(s.running, s.trail)
  }

  /** The trails say the same of every operation but `id`. */
  ghost predicate SameElsewhere(a: Trail, b: Trail, id: OpId) {
    forall x | x != id ::
      && (x in a.submitted <==> x in b.submitted)
      && (x in a.taken <==> x in b.taken) && (x in a.taken ==> a.taken[x] == b.taken[x])
      && (x in a.removed <==> x in b.removed) && (x in a.removed ==> a.removed[x] == b.removed[x])
      && (x in a.entered <==> x in b.entered) && (x in a.errored <==> x in b.errored)
      && (x in a.stored <==> x in b.stored) && (x in a.noted <==> x in b.noted)
      && (x in a.dropped <==> x in b.dropped)
  }

  /** The thread works on, or notes, no operation but `id`. */
  predicate OnlyOn(th: Thread, id: OpId) {
    Works(th) || th.Noting? ==> th.request.id == id
  }

  /** No thread but `t` works on or notes `id`. */
  ghost predicate Alone(threads: Threads, t: ThreadId, id: OpId) {
    forall u | u in threads && u != t && (Works(threads[u]) || threads[u].Noting?) :: threads[u].request.id != id
  }

  lemma MoveKeepsInStep(threads: Threads, a: Trail, b: Trail, t: ThreadId, th: Thread, id: OpId)
    requires AllInStep(threads, a) && SameElsewhere(a, b, id) && Alone(threads, t, id) && InStep(th, t, b)
    ensures AllInStep(threads[t := th], b)
  {
  }

  lemma MoveKeepsTaken(threads: Threads, a: Trail, b: Trail, t: ThreadId, th: Thread, id: OpId)
    requires TakenSettled(threads, a) && SameElsewhere(a, b, id)
    requires t in threads ==> OnlyOn(threads[t], id)
    requires id in b.taken ==> (b.taken[id] == t && WorksOn(map[t := th], t, id)) || Finished(id, b)
    ensures TakenSettled(threads[t := th], b)
  {
  }

  lemma MoveKeepsRemoved(threads: Threads, a: Trail, b: Trail, t: ThreadId, th: Thread, id: OpId)
    requires RemovedSettled(threads, a) && SameElsewhere(a, b, id)
    requires OnlyOn(th, id) && (t in threads ==> OnlyOn(threads[t], id))
    requires id in b.removed ==>
               && id !in b.entered && id !in b.stored && b.removed[id] == t
               && (id in b.noted <==> !th.Noting?)
    ensures RemovedSettled(threads[t := th], b)
  {
  }

  lemma MoveKeepsBlank(a: Trail, b: Trail, id: OpId)
    requires UntouchedBlank(a) && SameElsewhere(a, b, id)
    requires id !in b.taken ==>
               && id !in b.entered && id !in b.stored && id !in b.errored && id !in b.dropped
               && (id !in b.removed ==> id !in b.noted)
    ensures UntouchedBlank(b)
  {
  }

  lemma MoveKeepsAccounted(running: map<OpId, Request>, running': map<OpId, Request>, a: Trail, b: Trail, id: OpId)
    requires EnteredAccounted(running, a) && SameElsewhere(a, b, id)
    requires forall x | x != id :: x in running <==> x in running'
    requires id in b.entered ==> id in running' || id in b.stored || id in b.errored
    ensures EnteredAccounted(running', b)
  {
  }

  /** Everything a step of thread `t` on operation `id` has to provide. */
  ghost predicate TellsOf(s: State, t: ThreadId, th: Thread, id: OpId, s': State) {
    var a, b := s.trail, s'.trail;
    && s'.threads == s.threads[t := th] && SameElsewhere(a, b, id)
    && Alone(s.threads, t, id) && OnlyOn(th, id) && (t in s.threads ==> OnlyOn(s.threads[t], id))
    && InStep(th, t, b)
    && (id in b.taken ==> (b.taken[id] == t && WorksOn(map[t := th], t, id)) || Finished(id, b))
    && (id in b.removed ==>
          && id !in b.entered && id !in b.stored && b.removed[id] == t
          && (id in b.noted <==> !th.Noting?))
    && (id !in b.taken ==>
          && id !in b.entered && id !in b.stored && id !in b.errored && id !in b.dropped
          && (id !in b.removed ==> id !in b.noted))
    && (forall x | x != id :: x in s.running <==> x in s'.running)
    && (id in b.entered ==> id in s'.running || id in b.stored || id in b.errored)
  }

  lemma TellingKeepsAudited(s: State, t: ThreadId, th: Thread, id: OpId, s': State)
    requires Audited(s) && TellsOf(s, t, th, id, s')
    requires s'.history == Newest(s'.trail.log) && CountsExact(s'.trail.log, s'.trail.stored, s'.trail.noted)
    ensures Audited(s')
  {
    MoveKeepsInStep(s.threads, s.trail, s'.trail, t, th, id);
    MoveKeepsTaken(s.threads, s.trail, s'.trail, t, th, id);
    MoveKeepsRemoved(s.threads, s.trail, s'.trail, t, th, id);
    MoveKeepsBlank(s.trail, s'.trail, id);
    MoveKeepsAccounted(s.running, s'.running, s.trail, s'.trail, id);
  }

  lemma WorkerIsAlone(s: State, t: ThreadId)
    requires Safe(s) && AllInStep(s.threads, s.trail)
    requires t in s.threads && (Works(s.threads[t]) || s.threads[t].Noting?)
    ensures Alone(s.threads, t, s.threads[t].request.id)
  {
  }

  lemma UntakenIsAlone(s: State, t: ThreadId, id: OpId)
    requires Safe(s) && AllInStep(s.threads, s.trail) && id !in s.trail.taken && id !in s.trail.removed
    ensures Alone(s.threads, t, id)
  {
  }

  /** A thread that works on nothing, before and after, leaves the trail alone. */
  lemma QuietKeepsAudited(s: State, t: ThreadId, th: Thread, s': State)
    requires Audited(s) && s'.threads == s.threads[t := th]
    requires s'.trail == s.trail && s'.history == s.history && s'.running == s.running
    requires !Works(th) && !th.Noting?
    requires t in s.threads ==> !Works(s.threads[t]) && !s.threads[t].Noting?
    ensures Audited(s')
  {
  }

  lemma SubmitKeepsAudited(s: State, r: Request, s': State)
    requires Safe(s) && Audited(s) && NextOutside(s, Submit(r), s')
    ensures Audited(s')
  {
    assert SameElsewhere(s.trail, s'.trail, r.id);
    forall u | u in s'.threads ensures InStep(s'.threads[u], u, s'.trail) {
      assert OwnedBy(s.trail.taken, u, s.threads[u]) && InStep(s.threads[u], u, s.trail);
    }
    forall id | id in s'.trail.taken
      ensures WorksOn(s'.threads, s'.trail.taken[id], id) || Finished(id, s'.trail)
    {
      if Finished(id, s.trail) {
        assert Finished(id, s'.trail);
      }
    }
    forall id | id in s'.trail.removed
      ensures id in s'.trail.noted <==> !Notes(s'.threads, s'.trail.removed[id], id)
    {
      assert id in s.trail.removed;
    }
  }

  lemma StartCallerKeepsAudited(s: State, t: ThreadId, r: Request, s': State)
    requires Safe(s) && Audited(s) && NextOutside(s, StartCaller(t, r), s')
    ensures Audited(s')
  {
    UntakenIsAlone(s, t, r.id);
    TellingKeepsAudited(s, t, Calling(r), r.id, s');
  }

  lemma DequeueTells(s: State, t: ThreadId, r: Request, s': State)
    requires NextWorker(s, Dequeue(t, r), s') && Alone(s.threads, t, r.id) && UntouchedBlank(s.trail)
    requires EnteredAccounted(s.running, s.trail)
    requires r.id in s.trail.submitted && r.id !in s.trail.taken && r.id !in s.trail.removed
    ensures TellsOf(s, t, Dequeued(r), r.id, s')
  {
  }

  lemma DequeueKeepsAudited(s: State, t: ThreadId, r: Request, s': State)
    requires Safe(s) && Audited(s) && NextWorker(s, Dequeue(t, r), s')
    ensures Audited(s')
  {
    UntakenIsAlone(s, t, r.id);
    DequeueTells(s, t, r, s');
    TellingKeepsAudited(s, t, Dequeued(r), r.id, s');
  }

  lemma WithdrawKeepsAudited(s: State, t: ThreadId, r: Request, s': State)
    requires Safe(s) && Audited(s) && NextClient(s, Withdraw(t, r), s')
    ensures Audited(s')
  {
    UntakenIsAlone(s, t, r.id);
    TellingKeepsAudited(s, t, Noting(r), r.id, s');
  }

  lemma OutsideKeepsAudited(s: State, step: Step, s': State)
    requires Safe(s) && Audited(s) && NextOutside(s, step, s')
    ensures Audited(s')
  {
    match step {
      case StartWorker(t) => QuietKeepsAudited(s, t, Idle, s');
      case StartCaller(t, r) => StartCallerKeepsAudited(s, t, r, s');
      case StartCancel(t, id) => QuietKeepsAudited(s, t, LookingUp(id), s');
      case StartRead(t, id) => QuietKeepsAudited(s, t, ReadingRunning(id), s');
      case Submit(r) => SubmitKeepsAudited(s, r, s');
      case _ =>
    }
  }

  /** What is known of a thread that works on an operation. */
  ghost predicate AtWork(s: State, t: ThreadId) {
    && t in s.threads && Works(s.threads[t])
    && OwnedBy(s.trail.taken, t, s.threads[t]) && InStep(s.threads[t], t, s.trail)
    && s.threads[t].request.id !in s.trail.removed
    && Alone(s.threads, t, s.threads[t].request.id)
  }

  lemma WorkerIsAtWork(s: State, t: ThreadId)
    requires Safe(s) && Audited(s) && t in s.threads && Works(s.threads[t])
    ensures AtWork(s, t)
  {
  }

  lemma CheckContextTells(s: State, t: ThreadId, s': State)
    requires NextWorker(s, CheckContext(t), s') && AtWork(s, t)
    ensures TellsOf(s, t, s'.threads[t], s.threads[t].request.id, s')
  {
  }

  lemma NoteTells(s: State, t: ThreadId, s': State)
    requires NextWorker(s, Note(t), s') && AtWork(s, t)
    ensures TellsOf(s, t, Idle, s.threads[t].request.id, s')
  {
  }

  lemma WorkerKeepsAudited(s: State, step: Step, s': State)
    requires Safe(s) && Audited(s) && NextWorker(s, step, s')
    ensures Audited(s')
  {
    match step {
      case Dequeue(t, r) => DequeueKeepsAudited(s, t, r, s');
      case Stop(t) => QuietKeepsAudited(s, t, Exited, s');
      case CheckContext(t) =>
        WorkerIsAtWork(s, t);
        CheckContextTells(s, t, s');
        TellingKeepsAudited(s, t, s'.threads[t], s.threads[t].request.id, s');
      case Note(t) =>
        var r := Record(s.threads[t].request, s.threads[t].outcome);
        WorkerIsAtWork(s, t);
        NoteTells(s, t, s');
        StoreKeepsCounts(s.trail.log, s.trail.stored, s.trail.noted, r);
        AddRecordKeepsNewest(s.trail.log, r);
        TellingKeepsAudited(s, t, Idle, s.threads[t].request.id, s');
      case _ =>
    }
  }

  /** The ways on from a point before the registration that leave the trail alone. */
  predicate StaysEarly(was: Thread, th: Thread) {
    && Early(was) && !was.Dequeued?
    && (|| (was.Calling? && th == Returned)
        || (was.Calling? && th.Run? && !th.queued && th.request == was.request && th.at.Acquiring?)
        || (was.Run? && th.Run? && th.queued == was.queued && th.request == was.request
            && (Early(th) || th.at == Cancelling(Failed))))
  }

  lemma EarlyTells(s: State, t: ThreadId, th: Thread, s': State)
    requires AtWork(s, t) && StaysEarly(s.threads[t], th)
    requires s'.threads == s.threads[t := th] && s'.trail == s.trail && s'.running == s.running
    ensures TellsOf(s, t, th, s.threads[t].request.id, s')
  {
  }

  lemma AcquireStaysEarly(s: State, step: Step, s': State)
    requires NextAcquire(s, step, s') && !step.Register?
    ensures var t := step.t;
            && t in s.threads && t in s'.threads && s'.threads == s.threads[t := s'.threads[t]]
            && StaysEarly(s.threads[t], s'.threads[t])
    ensures s'.trail == s.trail && s'.running == s.running && s'.history == s.history
  {
  }

  lemma RegisterTells(s: State, t: ThreadId, s': State)
    requires NextAcquire(s, Register(t), s') && AtWork(s, t)
    ensures TellsOf(s, t, s'.threads[t], s.threads[t].request.id, s')
  {
  }

  lemma AcquireKeepsAudited(s: State, step: Step, s': State)
    requires Safe(s) && Audited(s) && NextAcquire(s, step, s')
    ensures Audited(s')
  {
    WorkerIsAtWork(s, step.t);
    if step.Register? {
      RegisterTells(s, step.t, s');
    } else {
      AcquireStaysEarly(s, step, s');
      EarlyTells(s, step.t, s'.threads[step.t], s');
    }
    TellingKeepsAudited(s, step.t, s'.threads[step.t], s.threads[step.t].request.id, s');
  }

  lemma FailTells(s: State, t: ThreadId, s': State)
    requires AtWork(s, t) && (RunsAt(s, t, Resolving) || RunsAt(s, t, Executing)) && s' == Fail(s, t)
    ensures TellsOf(s, t, s'.threads[t], s.threads[t].request.id, s')
  {
  }

  lemma ListedOnTells(s: State, t: ThreadId, s': State)
    requires AtWork(s, t) && s.threads[t].request.id in s.running
    requires || (RunsAt(s, t, Resolving) && s' == Advance(s, t, Executing))
             || (RunsAt(s, t, Executing) && s' == Advance(s, t, Storing))
    ensures TellsOf(s, t, s'.threads[t], s.threads[t].request.id, s')
  {
  }

  lemma StoreTells(s: State, t: ThreadId, s': State)
    requires AtWork(s, t) && NextRun(s, Store(t), s')
    ensures TellsOf(s, t, s'.threads[t], s.threads[t].request.id, s')
  {
  }

  lemma DeleteTells(s: State, t: ThreadId, s': State)
    requires AtWork(s, t) && NextRun(s, Delete(t), s')
    ensures TellsOf(s, t, s'.threads[t], s.threads[t].request.id, s')
  {
  }

  lemma ReleaseTells(s: State, t: ThreadId, s': State)
    requires AtWork(s, t) && NextRun(s, Release(t), s')
    ensures TellsOf(s, t, s'.threads[t], s.threads[t].request.id, s')
  {
  }

  lemma CancelContextTells(s: State, t: ThreadId, s': State)
    requires AtWork(s, t) && NextRun(s, CancelContext(t), s')
    ensures TellsOf(s, t, s'.threads[t], s.threads[t].request.id, s')
  {
  }

  lemma RunTells(s: State, step: Step, s': State)
    requires Safe(s) && NextRun(s, step, s') && AtWork(s, step.t)
    ensures step.t in s'.threads && TellsOf(s, step.t, s'.threads[step.t], s.threads[step.t].request.id, s')
  {
    match step {
      case Resolve(t, ok) =>
        if ok { ListedOnTells(s, t, s'); } else { FailTells(s, t, s'); }
      case Execute(t, ok) =>
        if ok { ListedOnTells(s, t, s'); } else { FailTells(s, t, s'); }
      case Store(t) => StoreTells(s, t, s');
      case Delete(t) => DeleteTells(s, t, s');
      case Release(t) => ReleaseTells(s, t, s');
      case CancelContext(t) => CancelContextTells(s, t, s');
      case _ =>
    }
  }

  lemma StoreKeepsLog(s: State, t: ThreadId, s': State)
    requires AtWork(s, t) && NextRun(s, Store(t), s')
    requires s.history == Newest(s.trail.log) && CountsExact(s.trail.log, s.trail.stored, s.trail.noted)
    ensures s'.history == Newest(s'.trail.log) && CountsExact(s'.trail.log, s'.trail.stored, s'.trail.noted)
  {
    var r := Record(s.threads[t].request, Completed);
    StoreKeepsCounts(s.trail.log, s.trail.stored, s.trail.noted, r);
    AddRecordKeepsNewest(s.trail.log, r);
  }

  lemma RunKeepsLog(s: State, step: Step, s': State)
    requires NextRun(s, step, s') && !step.Store?
    ensures s'.history == s.history && s'.trail.log == s.trail.log
    ensures s'.trail.stored == s.trail.stored && s'.trail.noted == s.trail.noted
  {
  }

  lemma RunKeepsAudited(s: State, step: Step, s': State)
    requires Safe(s) && Audited(s) && NextRun(s, step, s')
    ensures Audited(s')
  {
    WorkerIsAtWork(s, step.t);
    RunTells(s, step, s');
    if step.Store? {
      StoreKeepsLog(s, step.t, s');
    } else {
      RunKeepsLog(s, step, s');
    }
    TellingKeepsAudited(s, step.t, s'.threads[step.t], s.threads[step.t].request.id, s');
  }

  lemma NotingTells(s: State, t: ThreadId, s': State)
    requires NextClient(s, Step.Note(t), s') && Alone(s.threads, t, s.threads[t].request.id)
    requires InStep(s.threads[t], t, s.trail) && RemovedSettled(s.threads, s.trail) && UntouchedBlank(s.trail)
    requires s.threads[t].request.id !in s.trail.taken
    ensures TellsOf(s, t, CancelDone(true), s.threads[t].request.id, s')
  {
  }

  lemma NotingKeepsAudited(s: State, t: ThreadId, s': State)
    requires Safe(s) && Audited(s) && NextClient(s, Step.Note(t), s')
    ensures Audited(s')
  {
    var r := Record(s.threads[t].request, Withdrawn);
    WorkerIsAlone(s, t);
    assert InStep(s.threads[t], t, s.trail);
    NotingTells(s, t, s');
    StoreKeepsCounts(s.trail.log, s.trail.stored, s.trail.noted, r);
    AddRecordKeepsNewest(s.trail.log, r);
    TellingKeepsAudited(s, t, CancelDone(true), s.threads[t].request.id, s');
  }

  lemma ClientStepIsQuiet(s: State, step: Step, s': State)
    requires NextClient(s, step, s') && !step.Withdraw? && !step.Note?
    ensures step.t in s.threads && !Works(s.threads[step.t]) && !s.threads[step.t].Noting?
    ensures step.t in s'.threads && !Works(s'.threads[step.t]) && !s'.threads[step.t].Noting?
    ensures s'.threads == s.threads[step.t := s'.threads[step.t]]
    ensures s'.trail == s.trail && s'.history == s.history && s'.running == s.running
  {
  }

  lemma ClientKeepsAudited(s: State, step: Step, s': State)
    requires Safe(s) && Audited(s) && NextClient(s, step, s')
    ensures Audited(s')
  {
    if step.Withdraw? {
      WithdrawKeepsAudited(s, step.t, step.request, s');
    } else if step.Note? {
      NotingKeepsAudited(s, step.t, s');
    } else {
      ClientStepIsQuiet(s, step, s');
      QuietKeepsAudited(s, step.t, s'.threads[step.t], s');
    }
  }

  ghost predicate Inv(s: State) {
    Safe(s) && Audited(s)
  }

  lemma NextKeepsInv(s: State, step: Step, s': State)
    requires Inv(s) && Next(s, step, s')
    ensures Inv(s')
  {
    NextKeepsSafe(s, step, s');
    if NextOutside(s, step, s') {
      OutsideKeepsAudited(s, step, s');
    } else if NextWorker(s, step, s') {
      WorkerKeepsAudited(s, step, s');
    } else if NextAcquire(s, step, s') {
      AcquireKeepsAudited(s, step, s');
    } else if NextRun(s, step, s') {
      RunKeepsAudited(s, step, s');
    } else {
      ClientKeepsAudited(s, step, s');
    }
  }

  lemma StartIsInv()
    ensures Inv(START)
  {
  }

  /** The invariant holds in every state of every run. */
  lemma {:induction false} RunKeepsInv(states: seq<State>, steps: seq<Step>, i: nat)
    requires IsRun(states, steps) && i < |states|
    ensures Inv(states[i])
    decreases i
  {
    if i == 0 {
      StartIsInv();
    } else {
      RunKeepsInv(states, steps, i - 1);
      assert Next(states[i - 1], steps[i - 1], states[i - 1 + 1]);
      NextKeepsInv(states[i - 1], steps[i - 1], states[i]);
    }
  }

  // ----- what callers rely on, in every state of every run -----

  /** The operations in `running` and `cancelFns` are the same, each is the recorded holder of
      its project's lock, and no project has two of them. */
  lemma RunningIsExclusive(states: seq<State>, steps: seq<Step>, i: nat)
    requires IsRun(states, steps) && i < |states|
    ensures var s := states[i];
            && s.running.Keys == s.cancelFns.Keys
            && (forall id | id in s.running ::
                  && s.running[id].project in s.table.locks
                  && s.table.locks[s.running[id].project].holder == id)
            && (forall a, b | a in s.running && b in s.running && s.running[a].project == s.running[b].project ::
                  a == b)
  {
    RunKeepsInv(states, steps, i);
    var s := states[i];
    forall id | id in s.running
      ensures s.running[id].project in s.table.locks
      ensures s.table.locks[s.running[id].project].holder == id
    {
      var t := s.trail.taken[id];
      assert Listed(s.threads[t]) && Holds(s.threads[t]);
    }
  }

  /** No two threads are between acquiring and releasing the lock of one project. */
  lemma HoldersAreExclusive(states: seq<State>, steps: seq<Step>, i: nat, t: ThreadId, u: ThreadId)
    requires IsRun(states, steps) && i < |states|
    requires t in states[i].threads && u in states[i].threads
    requires Holds(states[i].threads[t]) && Holds(states[i].threads[u])
    requires states[i].threads[t].request.project == states[i].threads[u].request.project
    ensures t == u
  {
    RunKeepsInv(states, steps, i);
    var s := states[i];
    assert OwnedBy(s.trail.taken, t, s.threads[t]) && OwnedBy(s.trail.taken, u, s.threads[u]);
  }

  /** No lost wake-up: a waiter that cannot go on waits for a lock whose holder's thread is on
      its way to the release, and that release closes the channel the waiter listens to. */
  lemma WaiterWillBeWoken(states: seq<State>, steps: seq<Step>, i: nat, t: ThreadId)
    requires IsRun(states, steps) && i < |states|
    requires t in states[i].threads && states[i].threads[t].Run? && states[i].threads[t].at.Waiting?
    requires states[i].threads[t].at.ch !in states[i].table.closed
    ensures var s := states[i];
            var p := s.threads[t].request.project;
            && p in s.table.locks && s.table.locks[p].ch == s.threads[t].at.ch
            && s.table.locks[p].holder in s.trail.taken
            && var u := s.trail.taken[s.table.locks[p].holder];
               && u in s.threads && Holds(s.threads[u]) && s.threads[u].request.project == p
               && forall s' | Next(s, Step.Release(u), s') :: s.threads[t].at.ch in s'.table.closed
  {
    RunKeepsInv(states, steps, i);
    var s := states[i];
    assert Covered(s.threads[t], s.table);
    var p := s.threads[t].request.project;
    var u := s.trail.taken[s.table.locks[p].holder];
    forall s' | Next(s, Step.Release(u), s') ensures s.threads[t].at.ch in s'.table.closed {
      assert NextRun(s, Step.Release(u), s');
    }
  }

  /** A release closes an open channel, that of the releasing operation's own lock, and
      enables exactly the waiters of that lock entry. */
  lemma ReleaseWakesItsWaiters(states: seq<State>, steps: seq<Step>, i: nat, t: ThreadId)
    requires IsRun(states, steps) && i < |steps| && steps[i] == Step.Release(t)
    ensures var s, s' := states[i], states[i + 1];
            && t in s.threads && s.threads[t].Run?
            && var r := s.threads[t].request;
               && r.project in s.table.locks && s.table.locks[r.project].holder == r.id
               && var ch := s.table.locks[r.project].ch;
                  && ch !in s.table.closed && s'.table.closed == s.table.closed + {ch}
                  && forall u | u in s.threads && u != t && s.threads[u].Run? && s.threads[u].at.Waiting? ::
                       u in s'.threads && s'.threads[u] == s.threads[u]
                       && (s.threads[u].request.project == r.project ==> s.threads[u].at.ch in s'.table.closed)
  {
    RunKeepsInv(states, steps, i);
    var s, s' := states[i], states[i + 1];
    assert Next(s, steps[i], s') && NextRun(s, Step.Release(t), s');
    forall u | u in s.threads && u != t && s.threads[u].Run? && s.threads[u].at.Waiting?
                 && s.threads[u].request.project == s.threads[t].request.project
      ensures s.threads[u].at.ch in s'.table.closed
    {
      assert Covered(s.threads[u], s.table);
    }
  }

  ghost predicate Queued(s: State, id: OpId) {
    exists r :: r in s.queue && r.id == id
  }

  /** An enqueued request is in exactly one place, and in the queue at most once. */
  lemma EnqueuedIsInOnePlace(states: seq<State>, steps: seq<Step>, i: nat, id: OpId)
    requires IsRun(states, steps) && i < |states| && id in states[i].trail.submitted
    ensures var s := states[i];
            && One(Queued(s, id)) + One(id in s.trail.taken) + One(id in s.trail.removed) == 1
            && s.queue[s.trail.submitted[id]] <= 1
            && (forall t | t in s.threads && Works(s.threads[t]) && s.threads[t].request.id == id ::
                  id in s.trail.taken && s.trail.taken[id] == t)
            && (forall t | t in s.threads && s.threads[t].Noting? && s.threads[t].request.id == id ::
                  id in s.trail.removed && s.trail.removed[id] == t)
  {
    RunKeepsInv(states, steps, i);
    var s := states[i];
    if id !in s.trail.taken && id !in s.trail.removed {
      assert s.trail.submitted[id] in s.queue && s.trail.submitted[id].id == id;
    }
    if s.trail.submitted[id] in s.queue {
      assert s.queue[s.trail.submitted[id]] == 1;
    }
    forall t | t in s.threads
      ensures OwnedBy(s.trail.taken, t, s.threads[t]) && InStep(s.threads[t], t, s.trail)
    {
    }
  }

  /** `b` says all that `a` says, and changes none of it. */
  ghost predicate Extends(a: Trail, b: Trail) {
    && a.log <= b.log && a.submitted.Keys <= b.submitted.Keys
    && (forall id | id in a.issued :: id in b.issued && b.issued[id] == a.issued[id])
    && (forall id | id in a.taken :: id in b.taken && b.taken[id] == a.taken[id])
    && (forall id | id in a.removed :: id in b.removed && b.removed[id] == a.removed[id])
    && a.entered <= b.entered && a.errored <= b.errored && a.stored <= b.stored && a.noted <= b.noted
  }

  lemma OutsideExtends(s: State, step: Step, s': State)
    requires NextOutside(s, step, s') && s.trail.taken.Keys <= s.trail.issued.Keys
    ensures Extends(s.trail, s'.trail)
  {
    if !step.StartCaller? && !step.Submit? {
      assert s'.trail == s.trail;
    }
  }

  lemma WorkerExtends(s: State, step: Step, s': State)
    requires NextWorker(s, step, s')
    requires QueueExact(s.queue, s.trail.submitted, s.trail.taken, s.trail.removed)
    ensures Extends(s.trail, s'.trail)
  {
  }

  lemma AcquireExtends(s: State, step: Step, s': State)
    requires NextAcquire(s, step, s')
    ensures Extends(s.trail, s'.trail)
  {
    assert s'.trail == s.trail.(entered := s'.trail.entered) && s.trail.entered <= s'.trail.entered;
  }

  lemma RunExtends(s: State, step: Step, s': State)
    requires NextRun(s, step, s')
    ensures Extends(s.trail, s'.trail)
  {
  }

  lemma ClientExtends(s: State, step: Step, s': State)
    requires NextClient(s, step, s')
    requires QueueExact(s.queue, s.trail.submitted, s.trail.taken, s.trail.removed)
    ensures Extends(s.trail, s'.trail)
  {
    if !step.Withdraw? && !step.Note? {
      ClientStepIsQuiet(s, step, s');
    }
  }

  lemma NextExtends(s: State, step: Step, s': State)
    requires Safe(s) && Next(s, step, s')
    ensures Extends(s.trail, s'.trail)
  {
    if NextAcquire(s, step, s') {
      AcquireExtends(s, step, s');
    } else if NextRun(s, step, s') {
      RunExtends(s, step, s');
    } else if NextClient(s, step, s') {
      ClientExtends(s, step, s');
    } else if NextWorker(s, step, s') {
      WorkerExtends(s, step, s');
    } else {
      OutsideExtends(s, step, s');
    }
  }

  lemma ExtendsFurther(a: Trail, b: Trail, c: Trail)
    requires Extends(a, b) && Extends(b, c)
    ensures Extends(a, c)
  {
  }

  lemma StepExtends(states: seq<State>, steps: seq<Step>, i: nat)
    requires IsRun(states, steps) && i < |steps|
    ensures Extends(states[i].trail, states[i + 1].trail)
  {
    RunKeepsInv(states, steps, i);
    assert Next(states[i], steps[i], states[i + 1]);
    NextExtends(states[i], steps[i], states[i + 1]);
  }

  lemma {:induction false} ChainGrows(trails: seq<Trail>, i: nat, j: nat)
    requires i <= j < |trails|
    requires forall k | 0 < k < |trails| :: Extends(trails[k - 1], trails[k])
    ensures Extends(trails[i], trails[j])
    decreases j
  {
    if i < j {
      ChainGrows(trails, i, j - 1);
      ExtendsFurther(trails[i], trails[j - 1], trails[j]);
    }
  }

  /** What was said of an operation stays said. */
  lemma TrailGrows(states: seq<State>, steps: seq<Step>, i: nat, j: nat)
    requires IsRun(states, steps) && i <= j < |states|
    ensures Extends(states[i].trail, states[j].trail)
  {
    var trails := seq(|states|, k requires 0 <= k < |states| => states[k].trail);
    forall k | 0 < k < |trails| ensures Extends(trails[k - 1], trails[k]) {
      StepExtends(states, steps, k - 1);
    }
    ChainGrows(trails, i, j);
  }

  /** A request is handed to one worker once: two Dequeue steps never yield one operation. */
  lemma DequeuedOnce(states: seq<State>, steps: seq<Step>, i: nat, j: nat)
    requires IsRun(states, steps) && i < j < |steps|
    requires steps[i].Dequeue? && steps[j].Dequeue?
    ensures steps[i].request.id != steps[j].request.id
  {
    assert Next(states[i], steps[i], states[i + 1]) && Next(states[j], steps[j], states[j + 1]);
    assert NextWorker(states[i], steps[i], states[i + 1]) && NextWorker(states[j], steps[j], states[j + 1]);
    assert steps[i].request.id in states[i + 1].trail.taken;
    TrailGrows(states, steps, i + 1, j);
    RunKeepsInv(states, steps, j);
    assert steps[j].request in states[j].queue;
  }

  /** Once cancelled out of the queue, an operation is never taken, run or listed. */
  lemma WithdrawnNeverRuns(states: seq<State>, steps: seq<Step>, i: nat, j: nat, id: OpId)
    requires IsRun(states, steps) && i <= j < |states| && id in states[i].trail.removed
    ensures id !in states[j].trail.taken && id !in states[j].trail.entered && id !in states[j].running
    ensures forall t | t in states[j].threads && Works(states[j].threads[t]) ::
              states[j].threads[t].request.id != id
  {
    TrailGrows(states, steps, i, j);
    RunKeepsInv(states, steps, j);
    var s := states[j];
    forall t | t in s.threads && Works(s.threads[t]) ensures s.threads[t].request.id != id {
      assert OwnedBy(s.trail.taken, t, s.threads[t]);
    }
  }

  /** The history is always the last min(n, 256) of all records ever added. */
  lemma HistoryIsNewest(states: seq<State>, steps: seq<Step>, i: nat)
    requires IsRun(states, steps) && i < |states|
    ensures var s := states[i];
            var n := |s.trail.log|;
            && |s.history| == (if n < 256 then n else 256)
            && s.history == s.trail.log[n - |s.history|..]
  {
    RunKeepsInv(states, steps, i);
  }

  /** How many records an operation has left once nobody works on it: a successful queued one
      has two, a failed queued one or a successful synchronous one has one. */
  lemma RecordsPerOperation(states: seq<State>, steps: seq<Step>, i: nat, id: OpId)
    requires IsRun(states, steps) && i < |states| && id in states[i].trail.taken
    requires !WorksOn(states[i].threads, states[i].trail.taken[id], id)
    ensures var tr := states[i].trail;
            Count(tr.log, id) == if id in tr.submitted
                                 then (if id in tr.dropped then 0 else if id in tr.stored then 2 else 1)
                                 else (if id in tr.stored then 1 else 0)
  {
    RunKeepsInv(states, steps, i);
    var s := states[i];
    assert Finished(id, s.trail);
    assert Count(s.trail.log, id) == One(id in s.trail.stored) + One(id in s.trail.noted);
  }

  /** The record is added before the operation leaves `running`: an operation that was listed
      and did not fail is found by every GetOperation that starts later, running or recorded,
      until 256 records newer than any of its own exist. */
  lemma OperationStaysFindable(states: seq<State>, steps: seq<Step>, i: nat, j: nat, t: ThreadId, id: OpId)
    requires IsRun(states, steps) && i < j < |steps|
    requires steps[i] == Step.ReadRunning(t) && steps[j] == Step.ReadHistory(t)
    requires t in states[i].threads && states[i].threads[t] == ReadingRunning(id)
    requires t in states[i + 1].threads && states[i + 1].threads[t] == ReadingHistory(id)
    requires t in states[j].threads && states[j].threads[t] == ReadingHistory(id)
    requires id in states[i].trail.entered && id !in states[i].trail.errored
    ensures t in states[j + 1].threads && states[j + 1].threads[t].ReadDone?
    ensures var log := states[j].trail.log;
            || states[j + 1].threads[t].result.Past?
            || ((exists k :: 0 <= k < |log| && log[k].request.id == id) && AllAged(log, id))
  {
    var s := states[j];
    assert Next(states[i], steps[i], states[i + 1]) && NextClient(states[i], steps[i], states[i + 1]);
    StoredWhenUnlisted(states, steps, i, id);
    TrailGrows(states, steps, i, j);
    RunKeepsInv(states, steps, j);
    assert Next(s, steps[j], states[j + 1]) && NextClient(s, steps[j], states[j + 1]);
    assert Count(s.trail.log, id) == One(id in s.trail.stored) + One(id in s.trail.noted) > 0;
    FoundUnlessAged(s.trail.log, id);
  }

  lemma StoredWhenUnlisted(states: seq<State>, steps: seq<Step>, i: nat, id: OpId)
    requires IsRun(states, steps) && i < |states| && id !in states[i].running
    requires id in states[i].trail.entered && id !in states[i].trail.errored
    ensures id in states[i].trail.stored
  {
    RunKeepsInv(states, steps, i);
  }

  /** All records of the operation have 256 newer ones. */
  ghost predicate AllAged(log: seq<Record>, id: OpId) {
    forall k | 0 <= k < |log| && log[k].request.id == id :: |log| - 1 - k >= 256
  }

  lemma FoundUnlessAged(log: seq<Record>, id: OpId)
    requires Count(log, id) > 0
    ensures FindRecord(Newest(log), id).Past? ||
            ((exists k :: 0 <= k < |log| && log[k].request.id == id) && AllAged(log, id))
  {
    CountedIsThere(log, id);
    forall k | 0 <= k < |log| && log[k].request.id == id {
      NewestStillFound(log, id, k);
    }
    FoundIsLatest(Newest(log), id);
  }
}
