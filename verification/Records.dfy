/** What the history and GetOperation of internal/orchestrator/executor.go tell is true, in every
    state of every run. */
module Records {
  import opened Requests
  import opened Executor
  import opened Orchestrator

  /** The thread works on, or notes, a request as it was issued. */
  ghost predicate RequestTrue(th: Thread, trail: Trail) {
    Works(th) || th.Noting? ==>
      th.request.id in trail.issued && trail.issued[th.request.id] == th.request
  }

  /** The answer of a reader is about the operation that it asked for. */
  ghost predicate AnswerTrue(th: Thread, trail: Trail) {
    th.ReadDone? ==>
      match th.result
      case Absent => true
      case Running(r) =>
        && r.id == th.id && th.id in trail.entered
        && th.id in trail.issued && trail.issued[th.id] == r
      case Past(r) => r in trail.log && r.request.id == th.id
  }

  /** The record has the request of its operation, and the outcome that this had. */
  ghost predicate RecordTrue(r: Record, trail: Trail) {
    var id := r.request.id;
    && id in trail.issued && trail.issued[id] == r.request
    && match r.outcome
       case Completed => id in trail.stored
       case Withdrawn => id in trail.removed
       case Failed => id in trail.taken && id in trail.noted && id !in trail.stored
  }

  ghost predicate ThreadTrue(th: Thread, trail: Trail) {
    RequestTrue(th, trail) && AnswerTrue(th, trail)
  }

  ghost predicate ThreadsTrue(threads: Threads, trail: Trail) {
    forall t | t in threads :: ThreadTrue(threads[t], trail)
  }

  ghost predicate LogTrue(trail: Trail) {
    forall r | r in trail.log :: RecordTrue(r, trail)
  }

  ghost predicate SubmittedTrue(trail: Trail) {
    forall id | id in trail.submitted :: id in trail.issued && trail.issued[id] == trail.submitted[id]
  }

  ghost predicate True(s: State) {
    ThreadsTrue(s.threads, s.trail) && LogTrue(s.trail) && SubmittedTrue(s.trail)
  }

  // ----- threads -----

  lemma StaysTrue(th: Thread, a: Trail, b: Trail)
    requires ThreadTrue(th, a) && Extends(a, b)
    ensures ThreadTrue(th, b)
  {
    if th.ReadDone? && th.result.Past? {
      var k :| 0 <= k < |a.log| && a.log[k] == th.result.record;
      assert b.log[k] == th.result.record;
    }
  }

  /** One thread moves, to a point at which it is true. */
  lemma MoveKeepsThreads(s: State, t: ThreadId, th: Thread, s': State)
    requires ThreadsTrue(s.threads, s.trail) && Extends(s.trail, s'.trail)
    requires s'.threads == s.threads[t := th] && ThreadTrue(th, s'.trail)
    ensures ThreadsTrue(s'.threads, s'.trail)
  {
    forall u | u in s'.threads ensures ThreadTrue(s'.threads[u], s'.trail) {
      if u != t {
        StaysTrue(s.threads[u], s.trail, s'.trail);
      }
    }
  }

  /** The thread has no answer and no request but the one that it had. */
  predicate Carries(was: Thread, th: Thread) {
    && !th.ReadDone?
    && (Works(th) || th.Noting? ==> (Works(was) || was.Noting?) && th.request == was.request)
  }

  lemma CarrierKeepsThreads(s: State, t: ThreadId, s': State)
    requires ThreadsTrue(s.threads, s.trail) && Extends(s.trail, s'.trail)
    requires t in s.threads && t in s'.threads && s'.threads == s.threads[t := s'.threads[t]]
    requires Carries(s.threads[t], s'.threads[t])
    ensures ThreadsTrue(s'.threads, s'.trail)
  {
    StaysTrue(s.threads[t], s.trail, s'.trail);
    MoveKeepsThreads(s, t, s'.threads[t], s');
  }

  lemma OutsideKeepsThreads(s: State, step: Step, s': State)
    requires ThreadsTrue(s.threads, s.trail) && Extends(s.trail, s'.trail) && NextOutside(s, step, s')
    ensures ThreadsTrue(s'.threads, s'.trail)
  {
    if step.StartWorker? || step.StartCaller? || step.StartCancel? || step.StartRead? {
      MoveKeepsThreads(s, step.t, s'.threads[step.t], s');
    } else {
      assert s'.threads == s.threads;
      forall u | u in s'.threads ensures ThreadTrue(s'.threads[u], s'.trail) {
        StaysTrue(s.threads[u], s.trail, s'.trail);
      }
    }
  }

  lemma WorkerKeepsThreads(s: State, step: Step, s': State)
    requires True(s) && Safe(s) && Extends(s.trail, s'.trail) && NextWorker(s, step, s')
    ensures ThreadsTrue(s'.threads, s'.trail)
  {
    if step.Dequeue? {
      assert step.request in s.queue && step.request.id in s.trail.submitted;
      MoveKeepsThreads(s, step.t, Dequeued(step.request), s');
    } else {
      CarrierKeepsThreads(s, step.t, s');
    }
  }

  lemma AcquireCarries(s: State, step: Step, s': State)
    requires NextAcquire(s, step, s')
    ensures step.t in s.threads && step.t in s'.threads
    ensures s'.threads == s.threads[step.t := s'.threads[step.t]]
    ensures Carries(s.threads[step.t], s'.threads[step.t])
  {
  }

  lemma RunCarries(s: State, step: Step, s': State)
    requires NextRun(s, step, s')
    ensures step.t in s.threads && step.t in s'.threads
    ensures s'.threads == s.threads[step.t := s'.threads[step.t]]
    ensures Carries(s.threads[step.t], s'.threads[step.t])
  {
    if !step.Delete? && !step.Release? {
      RunStepMovesPlainly(s, step, s');
    }
  }

  lemma CancelCarries(s: State, step: Step, s': State)
    requires NextClient(s, step, s') && (step.LookUp? || step.Signal? || step.WithdrawNothing? || step.Note?)
    ensures step.t in s.threads && step.t in s'.threads
    ensures s'.threads == s.threads[step.t := s'.threads[step.t]]
    ensures Carries(s.threads[step.t], s'.threads[step.t])
  {
  }

  lemma WithdrawKeepsThreads(s: State, t: ThreadId, r: Request, s': State)
    requires True(s) && Safe(s) && Extends(s.trail, s'.trail) && NextClient(s, Withdraw(t, r), s')
    ensures ThreadsTrue(s'.threads, s'.trail)
  {
    assert r in s.queue && r.id in s.trail.submitted && s.trail.submitted[r.id] == r;
    MoveKeepsThreads(s, t, Noting(r), s');
  }

  lemma ReadRunningAnswers(s: State, t: ThreadId, s': State)
    requires NextClient(s, ReadRunning(t), s') && s.threads[t].id in s.running
    requires var id := s.threads[t].id;
             && s.running[id].id == id && id in s.trail.entered
             && id in s.trail.issued && s.trail.issued[id] == s.running[id]
    ensures ThreadTrue(ReadDone(s.threads[t].id, Running(s.running[s.threads[t].id])), s'.trail)
  {
  }

  lemma ReadRunningKeepsThreads(s: State, t: ThreadId, s': State)
    requires True(s) && Extends(s.trail, s'.trail) && NextClient(s, ReadRunning(t), s')
    requires var id := s.threads[t].id;
             id in s.running ==> ThreadTrue(ReadDone(id, Running(s.running[id])), s'.trail)
    ensures ThreadsTrue(s'.threads, s'.trail)
  {
    var id := s.threads[t].id;
    MoveKeepsThreads(
      s, t, if id in s.running then ReadDone(id, Running(s.running[id])) else ReadingHistory(id), s');
  }

  lemma ReadHistoryKeepsThreads(s: State, t: ThreadId, s': State)
    requires True(s) && s.history == Newest(s.trail.log) && Extends(s.trail, s'.trail)
    requires NextClient(s, ReadHistory(t), s')
    ensures ThreadsTrue(s'.threads, s'.trail)
  {
    var id := s.threads[t].id;
    FoundIsLatest(s.history, id);
    if FindRecord(s.history, id).Past? {
      var k :| IsLatest(s.history, id, k) && s.history[k] == FindRecord(s.history, id).record;
      InNewest(s.trail.log, k);
    }
    MoveKeepsThreads(s, t, ReadDone(id, FindRecord(s.history, id)), s');
  }

  lemma ClientKeepsThreads(s: State, step: Step, s': State)
    requires True(s) && Inv(s) && Extends(s.trail, s'.trail) && NextClient(s, step, s')
    ensures ThreadsTrue(s'.threads, s'.trail)
  {
    if step.Withdraw? {
      WithdrawKeepsThreads(s, step.t, step.request, s');
    } else if step.ReadRunning? {
      if s.threads[step.t].id in s.running {
        RunningIsIssued(s, s.threads[step.t].id);
        ReadRunningAnswers(s, step.t, s');
      }
      ReadRunningKeepsThreads(s, step.t, s');
    } else if step.ReadHistory? {
      ReadHistoryKeepsThreads(s, step.t, s');
    } else {
      CancelCarries(s, step, s');
      CarrierKeepsThreads(s, step.t, s');
    }
  }

  lemma InNewest(all: seq<Record>, k: nat)
    requires k < |Newest(all)|
    ensures Newest(all)[k] in all
  {
  }

  lemma RunningIsIssued(s: State, id: OpId)
    requires True(s) && Inv(s) && id in s.running
    ensures s.running[id].id == id && id in s.trail.entered
    ensures id in s.trail.issued && s.trail.issued[id] == s.running[id]
  {
    var t := s.trail.taken[id];
    assert RequestTrue(s.threads[t], s.trail) && InStep(s.threads[t], t, s.trail);
  }

  // ----- records -----

  lemma RecordStays(r: Record, a: Trail, b: Trail)
    requires RecordTrue(r, a) && Extends(a, b)
    requires r.outcome.Failed? && r.request.id in b.stored ==> r.request.id in a.stored
    ensures RecordTrue(r, b)
  {
  }

  /** Steps that add no record, and store no result. */
  lemma QuietKeepsLog(a: Trail, b: Trail)
    requires LogTrue(a) && Extends(a, b) && b.log == a.log && b.stored == a.stored
    ensures LogTrue(b)
  {
    forall r | r in b.log ensures RecordTrue(r, b) {
      RecordStays(r, a, b);
    }
  }

  /** A record is added of an operation of which none says that it failed, or no result is stored. */
  lemma NewKeepsLog(a: Trail, b: Trail, r: Record)
    requires LogTrue(a) && Extends(a, b) && b.log == a.log + [r] && RecordTrue(r, b)
    requires b.stored == a.stored || (b.stored == a.stored + {r.request.id} && r.request.id !in a.noted)
    ensures LogTrue(b)
  {
    forall x | x in b.log ensures RecordTrue(x, b) {
      if x in a.log {
        RecordStays(x, a, b);
      }
    }
  }

  lemma OutsideIsQuiet(s: State, step: Step, s': State)
    requires NextOutside(s, step, s')
    ensures s'.trail.log == s.trail.log && s'.trail.stored == s.trail.stored
  {
  }

  lemma AcquireIsQuiet(s: State, step: Step, s': State)
    requires NextAcquire(s, step, s')
    ensures s'.trail.log == s.trail.log && s'.trail.stored == s.trail.stored
  {
  }

  lemma WorkerKeepsLogTrue(s: State, step: Step, s': State)
    requires True(s) && Inv(s) && Extends(s.trail, s'.trail) && NextWorker(s, step, s')
    ensures LogTrue(s'.trail)
  {
    if step.Note? {
      var th := s.threads[step.t];
      assert RequestTrue(th, s.trail) && InStep(th, step.t, s.trail) && OwnedBy(s.trail.taken, step.t, th);
      NewKeepsLog(s.trail, s'.trail, Record(th.request, th.outcome));
    } else {
      assert s'.trail.log == s.trail.log && s'.trail.stored == s.trail.stored;
      QuietKeepsLog(s.trail, s'.trail);
    }
  }

  lemma RunKeepsLogTrue(s: State, step: Step, s': State)
    requires True(s) && Inv(s) && Extends(s.trail, s'.trail) && NextRun(s, step, s')
    ensures LogTrue(s'.trail)
  {
    if step.Store? {
      var th := s.threads[step.t];
      assert RequestTrue(th, s.trail) && InStep(th, step.t, s.trail);
      NewKeepsLog(s.trail, s'.trail, Record(th.request, Completed));
    } else {
      RunKeepsLog(s, step, s');
      assert s'.trail.stored == s.trail.stored;
      QuietKeepsLog(s.trail, s'.trail);
    }
  }

  lemma ClientKeepsLogTrue(s: State, step: Step, s': State)
    requires True(s) && Inv(s) && Extends(s.trail, s'.trail) && NextClient(s, step, s')
    ensures LogTrue(s'.trail)
  {
    if step.Note? {
      var th := s.threads[step.t];
      assert RequestTrue(th, s.trail) && InStep(th, step.t, s.trail);
      NewKeepsLog(s.trail, s'.trail, Record(th.request, Withdrawn));
    } else {
      assert s'.trail.log == s.trail.log && s'.trail.stored == s.trail.stored;
      QuietKeepsLog(s.trail, s'.trail);
    }
  }

  // ----- every run -----

  lemma SubmittedStaysTrue(s: State, step: Step, s': State)
    requires True(s) && Extends(s.trail, s'.trail) && Next(s, step, s')
    ensures SubmittedTrue(s'.trail)
  {
    if NextOutside(s, step, s') {
    } else {
      SubmittedSame(s, step, s');
    }
  }

  lemma WorkerSubmitsNone(s: State, step: Step, s': State)
    requires NextWorker(s, step, s')
    ensures s'.trail.submitted == s.trail.submitted
  {
  }

  lemma AcquireSubmitsNone(s: State, step: Step, s': State)
    requires NextAcquire(s, step, s')
    ensures s'.trail.submitted == s.trail.submitted
  {
  }

  lemma RunSubmitsNone(s: State, step: Step, s': State)
    requires NextRun(s, step, s')
    ensures s'.trail.submitted == s.trail.submitted
  {
  }

  lemma ClientSubmitsNone(s: State, step: Step, s': State)
    requires NextClient(s, step, s')
    ensures s'.trail.submitted == s.trail.submitted
  {
  }

  lemma SubmittedSame(s: State, step: Step, s': State)
    requires Next(s, step, s') && !NextOutside(s, step, s')
    ensures s'.trail.submitted == s.trail.submitted
  {
    if NextWorker(s, step, s') {
      WorkerSubmitsNone(s, step, s');
    } else if NextAcquire(s, step, s') {
      AcquireSubmitsNone(s, step, s');
    } else if NextRun(s, step, s') {
      RunSubmitsNone(s, step, s');
    } else {
      ClientSubmitsNone(s, step, s');
    }
  }

  lemma NextKeepsThreads(s: State, step: Step, s': State)
    requires True(s) && Inv(s) && Next(s, step, s') && Extends(s.trail, s'.trail)
    ensures ThreadsTrue(s'.threads, s'.trail)
  {
    if NextOutside(s, step, s') {
      OutsideKeepsThreads(s, step, s');
    } else if NextWorker(s, step, s') {
      WorkerKeepsThreads(s, step, s');
    } else if NextAcquire(s, step, s') {
      AcquireCarries(s, step, s');
      CarrierKeepsThreads(s, step.t, s');
    } else if NextRun(s, step, s') {
      RunCarries(s, step, s');
      CarrierKeepsThreads(s, step.t, s');
    } else {
      ClientKeepsThreads(s, step, s');
    }
  }

  lemma NextKeepsLogTrue(s: State, step: Step, s': State)
    requires True(s) && Inv(s) && Next(s, step, s') && Extends(s.trail, s'.trail)
    ensures LogTrue(s'.trail)
  {
    if NextOutside(s, step, s') {
      OutsideIsQuiet(s, step, s');
      QuietKeepsLog(s.trail, s'.trail);
    } else if NextWorker(s, step, s') {
      WorkerKeepsLogTrue(s, step, s');
    } else if NextAcquire(s, step, s') {
      AcquireIsQuiet(s, step, s');
      QuietKeepsLog(s.trail, s'.trail);
    } else if NextRun(s, step, s') {
      RunKeepsLogTrue(s, step, s');
    } else {
      ClientKeepsLogTrue(s, step, s');
    }
  }

  lemma NextKeepsTrue(s: State, step: Step, s': State)
    requires True(s) && Inv(s) && Next(s, step, s')
    ensures True(s')
  {
    NextExtends(s, step, s');
    SubmittedStaysTrue(s, step, s');
    NextKeepsThreads(s, step, s');
    NextKeepsLogTrue(s, step, s');
  }

  lemma {:induction false} RunKeepsTrue(states: seq<State>, steps: seq<Step>, i: nat)
    requires IsRun(states, steps) && i < |states|
    ensures True(states[i])
    decreases i
  {
    if i > 0 {
      RunKeepsTrue(states, steps, i - 1);
      RunKeepsInv(states, steps, i - 1);
      assert Next(states[i - 1], steps[i - 1], states[i - 1 + 1]);
      NextKeepsTrue(states[i - 1], steps[i - 1], states[i]);
    }
  }

  /** Every record in the history is of an issued request, as it was issued, and tells what became
      of it: that it completed exactly if its result was stored, that it was withdrawn exactly if a
      cancel took it out of the queue, and else that it failed. */
  lemma HistoryIsTrue(states: seq<State>, steps: seq<Step>, i: nat, r: Record)
    requires IsRun(states, steps) && i < |states| && r in states[i].history
    ensures var tr, id := states[i].trail, r.request.id;
            && id in tr.issued && tr.issued[id] == r.request
            && (r.outcome.Completed? <==> id in tr.stored) && (r.outcome.Withdrawn? <==> id in tr.removed)
            && (r.outcome.Failed? ==> id in tr.taken)
  {
    RunKeepsTrue(states, steps, i);
    RunKeepsInv(states, steps, i);
    var s := states[i];
    var k :| 0 <= k < |s.history| && s.history[k] == r;
    InNewest(s.trail.log, k);
    assert RecordTrue(r, s.trail);
    assert UntouchedBlank(s.trail) && RemovedSettled(s.threads, s.trail);
  }

  /** What a reader was told is about the operation that it asked for: its request while it was
      running, or a record of it. */
  lemma AnswersAreTrue(states: seq<State>, steps: seq<Step>, i: nat, t: ThreadId)
    requires IsRun(states, steps) && i < |states| && t in states[i].threads && states[i].threads[t].ReadDone?
    ensures var tr, th := states[i].trail, states[i].threads[t];
            match th.result
            case Absent => true
            case Running(r) => r.id == th.id && th.id in tr.entered && th.id in tr.issued && tr.issued[th.id] == r
            case Past(r) => r.request.id == th.id && r in tr.log
  {
    RunKeepsTrue(states, steps, i);
    assert ThreadTrue(states[i].threads[t], states[i].trail);
  }

  /** Of a GetOperation that looks at the running operations in state `i` and, if it goes on, at the
      history in state `j`: it is told of the running operation exactly if that is listed in the
      one, else of the latest record in the other, and of nothing exactly if there is none. */
  lemma AbsentIff(states: seq<State>, steps: seq<Step>, t: ThreadId, id: OpId, i: nat, j: nat)
    requires IsRun(states, steps) && i < j < |steps|
    requires steps[i] == ReadRunning(t) && Is(states[i], t, ReadingRunning(id))
    requires steps[j] == ReadHistory(t) && t in states[i + 1].threads && Is(states[j], t, states[i + 1].threads[t])
    ensures id !in states[i].running
    ensures t in states[j + 1].threads && states[j + 1].threads[t].ReadDone? && states[j + 1].threads[t].id == id
    ensures var result, history := states[j + 1].threads[t].result, states[j].history;
            && (result.Absent? <==> forall r | r in history :: r.request.id != id)
            && !result.Running?
            && (result.Past? ==> exists k :: IsLatest(history, id, k) && history[k] == result.record)
  {
    assert Next(states[i], steps[i], states[i + 1]) && Next(states[j], steps[j], states[j + 1]);
    assert NextClient(states[i], steps[i], states[i + 1]) && NextClient(states[j], steps[j], states[j + 1]);
    FoundIsLatest(states[j].history, id);
  }

  // ----- what completed was executed -----

  /** A thread has come to the point where it stores its result. */
  predicate ComesToStore(s: State, t: ThreadId, s': State) {
    RunsAt(s', t, Storing) && !(t in s.threads && s.threads[t] == s'.threads[t])
  }

  lemma OutsideComesNot(s: State, step: Step, s': State, t: ThreadId)
    requires NextOutside(s, step, s')
    ensures !ComesToStore(s, t, s') && s'.trail.stored == s.trail.stored
  {
  }

  lemma WorkerComesNot(s: State, step: Step, s': State, t: ThreadId)
    requires NextWorker(s, step, s')
    ensures !ComesToStore(s, t, s') && s'.trail.stored == s.trail.stored
  {
  }

  lemma AcquireComesNot(s: State, step: Step, s': State, t: ThreadId)
    requires NextAcquire(s, step, s')
    ensures !ComesToStore(s, t, s') && s'.trail.stored == s.trail.stored
  {
  }

  lemma ClientComesNot(s: State, step: Step, s': State, t: ThreadId)
    requires NextClient(s, step, s')
    ensures !ComesToStore(s, t, s') && s'.trail.stored == s.trail.stored
  {
  }

  lemma OnlyRunComes(s: State, step: Step, s': State, t: ThreadId)
    requires Next(s, step, s') && !NextRun(s, step, s')
    ensures !ComesToStore(s, t, s') && s'.trail.stored == s.trail.stored
  {
    if NextOutside(s, step, s') {
      OutsideComesNot(s, step, s', t);
    } else if NextWorker(s, step, s') {
      WorkerComesNot(s, step, s', t);
    } else if NextAcquire(s, step, s') {
      AcquireComesNot(s, step, s', t);
    } else {
      ClientComesNot(s, step, s', t);
    }
  }

  lemma ComesByExecuting(s: State, step: Step, s': State, t: ThreadId)
    requires Next(s, step, s') && ComesToStore(s, t, s')
    ensures step == Execute(t, true) && t in s.threads && s.threads[t] == s'.threads[t].(at := Executing)
  {
    if NextRun(s, step, s') {
      RunCarries(s, step, s');
    } else {
      OnlyRunComes(s, step, s', t);
    }
  }

  /** Thread `t` executed the operation successfully before state `i`. */
  ghost predicate Executed(states: seq<State>, steps: seq<Step>, i: nat, t: ThreadId, id: OpId)
    requires |states| == |steps| + 1
  {
    exists k :: 0 <= k < i && k < |steps| && steps[k] == Execute(t, true) && WorksOn(states[k].threads, t, id)
  }

  lemma ExecutedLater(states: seq<State>, steps: seq<Step>, i: nat, j: nat, t: ThreadId, id: OpId)
    requires |states| == |steps| + 1 && i <= j && Executed(states, steps, i, t, id)
    ensures Executed(states, steps, j, t, id)
  {
  }

  lemma ExecutedJustNow(states: seq<State>, steps: seq<Step>, i: nat, t: ThreadId)
    requires IsRun(states, steps) && i < |steps| && ComesToStore(states[i], t, states[i + 1])
    ensures Executed(states, steps, i + 1, t, states[i + 1].threads[t].request.id)
  {
    assert Next(states[i], steps[i], states[i + 1]);
    ComesByExecuting(states[i], steps[i], states[i + 1], t);
  }

  lemma {:induction false} StoringWasExecuted(states: seq<State>, steps: seq<Step>, i: nat, t: ThreadId)
    requires IsRun(states, steps) && i < |states| && RunsAt(states[i], t, Storing)
    ensures Executed(states, steps, i, t, states[i].threads[t].request.id)
    decreases i
  {
    if i > 0 {
      if ComesToStore(states[i - 1], t, states[i]) {
        ExecutedJustNow(states, steps, i - 1, t);
      } else {
        StoringWasExecuted(states, steps, i - 1, t);
        ExecutedLater(states, steps, i - 1, i, t, states[i].threads[t].request.id);
      }
    }
  }

  lemma StoredIsNew(s: State, step: Step, s': State, id: OpId)
    requires Next(s, step, s') && id in s'.trail.stored && id !in s.trail.stored
    ensures step.Store? && RunsAt(s, step.t, Storing) && s.threads[step.t].request.id == id
  {
    if !NextRun(s, step, s') {
      OnlyRunComes(s, step, s', 0);
    } else if !step.Store? {
      RunKeepsLog(s, step, s');
    }
  }

  lemma StoredJustNow(states: seq<State>, steps: seq<Step>, i: nat, id: OpId)
    requires IsRun(states, steps) && i < |steps|
    requires id in states[i + 1].trail.stored && id !in states[i].trail.stored
    ensures exists t :: Executed(states, steps, i, t, id)
  {
    StoredIsNew(states[i], steps[i], states[i + 1], id);
    StoringWasExecuted(states, steps, i, steps[i].t);
  }

  lemma {:induction false} StoredWasExecuted(states: seq<State>, steps: seq<Step>, i: nat, id: OpId)
    requires IsRun(states, steps) && i < |states| && id in states[i].trail.stored
    ensures exists t :: Executed(states, steps, i, t, id)
    decreases i
  {
    if i > 0 {
      if id in states[i - 1].trail.stored {
        StoredWasExecuted(states, steps, i - 1, id);
      } else {
        StoredJustNow(states, steps, i - 1, id);
      }
      var t :| Executed(states, steps, i - 1, t, id);
      ExecutedLater(states, steps, i - 1, i, t, id);
    }
  }

  /** An operation whose record says that it completed was executed with success. */
  lemma CompletedWasExecuted(states: seq<State>, steps: seq<Step>, i: nat, r: Record)
    requires IsRun(states, steps) && i < |states| && r in states[i].history && r.outcome.Completed?
    ensures exists t :: Executed(states, steps, i, t, r.request.id)
  {
    HistoryIsTrue(states, steps, i, r);
    StoredWasExecuted(states, steps, i, r.request.id);
  }
}
