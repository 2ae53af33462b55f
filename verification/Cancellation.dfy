/** What Cancel of internal/orchestrator/executor.go can say of an operation. */
module Cancellation {
  import opened Requests
  import opened Locker
  import opened Executor
  import opened Orchestrator

  // ----- when an operation is not found -----

  /** The step that a canceller takes after it has looked the operation up. */
  predicate FollowsLookUp(step: Step, t: ThreadId) {
    step == Signal(t) || step == WithdrawNothing(t) || (step.Withdraw? && step.t == t)
  }

  /** A Cancel of the operation looks it up in state `i` and makes its next step in state `j`. */
  ghost predicate CancelsAt(states: seq<State>, steps: seq<Step>, t: ThreadId, id: OpId, i: nat, j: nat)
    requires |states| == |steps| + 1
  {
    && i < j < |steps| && steps[i] == LookUp(t) && FollowsLookUp(steps[j], t)
    && Is(states[i], t, LookingUp(id))
    && t in states[i + 1].threads && Is(states[j], t, states[i + 1].threads[t])
  }

  lemma LookUpDecides(s: State, s': State, t: ThreadId, id: OpId)
    requires SameKeys(s.running, s.cancelFns) && NextClient(s, LookUp(t), s') && Is(s, t, LookingUp(id))
    ensures Is(s', t, if id in s.running then Signalling(CancelFunc(id)) else Withdrawing(id))
  {
    assert s.running.Keys == s.cancelFns.Keys;
  }

  lemma SearchDecides(s: State, step: Step, s': State, t: ThreadId, id: OpId)
    requires FollowsLookUp(step, t) && NextClient(s, step, s') && Is(s, t, Withdrawing(id))
    ensures t in s'.threads
    ensures if Queued(s, id)
            then s'.threads[t].Noting? && id in s'.trail.removed && s'.trail.removed[id] == t
            else s'.threads[t] == CancelDone(false)
  {
    if step.Withdraw? {
      assert step.request in s.queue && step.request.id == id;
    }
  }

  lemma SignalDecides(s: State, step: Step, s': State, t: ThreadId, id: OpId)
    requires FollowsLookUp(step, t) && NextClient(s, step, s') && Is(s, t, Signalling(CancelFunc(id)))
    ensures Is(s', t, CancelDone(true)) && id in s'.done
  {
  }

  /** Of a Cancel that looks the operation up in state `i` and goes on in state `j`: it ends with
      "not found" exactly if the operation was not listed in the one and not queued in the
      other. Otherwise the context of the operation is done, or its request is removed. */
  lemma NotFoundIff(states: seq<State>, steps: seq<Step>, t: ThreadId, id: OpId, i: nat, j: nat)
    requires IsRun(states, steps) && CancelsAt(states, steps, t, id, i, j)
    ensures Is(states[j + 1], t, CancelDone(false)) <==> id !in states[i].running && !Queued(states[j], id)
    ensures Is(states[j + 1], t, CancelDone(true)) <==> id in states[i].running
    ensures id in states[i].running ==> id in states[j + 1].done
    ensures id !in states[i].running && Queued(states[j], id) ==>
              id in states[j + 1].trail.removed && states[j + 1].trail.removed[id] == t
  {
    RunKeepsInv(states, steps, i);
    assert Next(states[i], steps[i], states[i + 1]) && Next(states[j], steps[j], states[j + 1]);
    LookUpDecides(states[i], states[i + 1], t, id);
    if id in states[i].running {
      SignalDecides(states[j], steps[j], states[j + 1], t, id);
    } else {
      SearchDecides(states[j], steps[j], states[j + 1], t, id);
    }
  }

  /** The thread has taken the operation but not yet registered it. */
  predicate IsEarly(s: State, t: ThreadId, id: OpId) {
    t in s.threads && Early(s.threads[t]) && s.threads[t].request.id == id
  }

  /** An operation that a thread has taken but not yet registered, as while it waits for the lock
      of its project, is neither listed nor queued. */
  lemma EarlyIsOutOfReach(states: seq<State>, steps: seq<Step>, i: nat, t: ThreadId, id: OpId)
    requires IsRun(states, steps) && i < |states| && IsEarly(states[i], t, id)
    ensures id !in states[i].running && !Queued(states[i], id)
  {
    RunKeepsInv(states, steps, i);
    var s := states[i];
    assert OwnedBy(s.trail.taken, t, s.threads[t]);
  }

  /** A Cancel of such an operation ends with "not found". */
  lemma EarlyIsNotFound(states: seq<State>, steps: seq<Step>, t: ThreadId, u: ThreadId, id: OpId, i: nat, j: nat)
    requires IsRun(states, steps) && CancelsAt(states, steps, t, id, i, j)
    requires IsEarly(states[i], u, id) && IsEarly(states[j], u, id)
    ensures Is(states[j + 1], t, CancelDone(false))
  {
    EarlyIsOutOfReach(states, steps, i, u, id);
    EarlyIsOutOfReach(states, steps, j, u, id);
    NotFoundIff(states, steps, t, id, i, j);
  }

  // ----- the failing case -----

  /** Two operations of one project. */
  const FIRST := Request("a", "app", 0, 1)
  const SECOND := Request("b", "app", 0, 2)

  function Last(states: seq<State>): State
    requires states != []
  {
    states[|states| - 1]
  }

  /** The run goes on by a step. */
  lemma Extended(states: seq<State>, steps: seq<Step>, step: Step, s': State)
    returns (states': seq<State>, steps': seq<Step>)
    requires IsRun(states, steps) && Next(Last(states), step, s')
    ensures IsRun(states', steps') && states <= states' && |states'| == |states| + 1 && Last(states') == s'
  {
    states', steps' := states + [s'], steps + [step];
    forall i | 0 <= i < |steps'| ensures Next(states'[i], steps'[i], states'[i + 1]) {
      if i < |steps| {
        assert Next(states[i], steps[i], states[i + 1]);
      }
    }
  }

  /** A synchronous caller comes as far as Acquire. */
  lemma CallerArrives(states: seq<State>, steps: seq<Step>, t: ThreadId, r: Request)
    returns (states': seq<State>, steps': seq<Step>)
    requires IsRun(states, steps) && t !in Last(states).threads && r.id !in Last(states).trail.issued
    requires r.project !in Last(states).table.locks
    ensures IsRun(states', steps') && states <= states'
    ensures Last(states').threads == Last(states).threads[t := Run(r, false, Acquiring)]
    ensures Last(states').trail.issued == Last(states).trail.issued[r.id := r]
    ensures SameBooks(Last(states), Last(states')) && Last(states').table == Last(states).table
  {
    var s := Last(states);
    var s1 := Goto(s, t, Calling(r)).(trail := s.trail.(issued := s.trail.issued[r.id := r],
                                                        taken := s.trail.taken[r.id := t]));
    states', steps' := Extended(states, steps, StartCaller(t, r), s1);
    var s2 := Goto(s1, t, Run(r, false, Acquiring));
    states', steps' := Extended(states', steps', CheckLocked(t), s2);
    assert s2.threads == s.threads[t := Run(r, false, Acquiring)];
  }

  ghost predicate SameBooks(s: State, s': State) {
    s'.queue == s.queue && s'.running == s.running && s'.cancelFns == s.cancelFns && s'.done == s.done
  }

  /** The first operation gets the lock, the second waits for it. */
  lemma SecondWaits(states: seq<State>, steps: seq<Step>) returns (states': seq<State>, steps': seq<Step>)
    requires IsRun(states, steps) && Last(states).table == EMPTY
    requires Is(Last(states), 0, Run(FIRST, false, Acquiring)) && Is(Last(states), 1, Run(SECOND, false, Acquiring))
    ensures IsRun(states', steps') && states <= states'
    ensures Last(states').threads
            == Last(states).threads[0 := Run(FIRST, false, Holding)][1 := Run(SECOND, false, Waiting(0))]
    ensures Last(states').table == Lock(EMPTY, "app", "a") && SameBooks(Last(states), Last(states'))
  {
    var s := Last(states);
    var s1 := Advance(s, 0, Holding).(table := Lock(s.table, "app", "a"));
    states', steps' := Extended(states, steps, TryLock(0), s1);
    states', steps' := Extended(states', steps', TryLock(1), Advance(s1, 1, Waiting(0)));
  }

  lemma CancelLooksUp(states: seq<State>, steps: seq<Step>, t: ThreadId, id: OpId)
    returns (states': seq<State>, steps': seq<Step>)
    requires IsRun(states, steps) && t !in Last(states).threads && id !in Last(states).cancelFns
    ensures IsRun(states', steps') && states <= states' && |states'| == |states| + 2
    ensures Is(states'[|states|], t, LookingUp(id))
    ensures Last(states') == Goto(Last(states), t, Withdrawing(id))
  {
    var s := Last(states);
    var s1 := Goto(s, t, LookingUp(id));
    states', steps' := Extended(states, steps, StartCancel(t, id), s1);
    assert NextClient(s1, LookUp(t), Goto(s1, t, Withdrawing(id)));
    states', steps' := Extended(states', steps', LookUp(t), Goto(s1, t, Withdrawing(id)));
    assert s1.threads[t := Withdrawing(id)] == s.threads[t := Withdrawing(id)];
  }

  /** A Cancel of an operation that is neither listed nor queued meanwhile. */
  lemma CancelFails(states: seq<State>, steps: seq<Step>, t: ThreadId, id: OpId)
    returns (states': seq<State>, steps': seq<Step>)
    requires IsRun(states, steps) && t !in Last(states).threads
    requires id !in Last(states).cancelFns && !Queued(Last(states), id)
    ensures IsRun(states', steps') && states <= states' && |states'| == |states| + 3
    ensures Is(states'[|states|], t, LookingUp(id))
    ensures Last(states').threads == Last(states).threads[t := CancelDone(false)]
    ensures Last(states').table == Last(states).table && SameBooks(Last(states), Last(states'))
  {
    states', steps' := CancelLooksUp(states, steps, t, id);
    var s := Last(states');
    assert NextClient(s, WithdrawNothing(t), Goto(s, t, CancelDone(false)));
    states', steps' := Extended(states', steps', WithdrawNothing(t), Goto(s, t, CancelDone(false)));
  }

  lemma FirstRegisters(states: seq<State>, steps: seq<Step>) returns (states': seq<State>, steps': seq<Step>)
    requires IsRun(states, steps) && Is(Last(states), 0, Run(FIRST, false, Holding))
    ensures IsRun(states', steps') && states <= states'
    ensures Last(states').threads == Last(states).threads[0 := Run(FIRST, false, Resolving)]
    ensures Last(states').table == Last(states).table
  {
    var s := Last(states);
    var s1 := Advance(s, 0, Resolving).(
      running := s.running["a" := FIRST], cancelFns := s.cancelFns["a" := CancelFunc("a")],
      trail := s.trail.(entered := s.trail.entered + {"a"}));
    assert NextAcquire(s, Register(0), s1);
    states', steps' := Extended(states, steps, Register(0), s1);
  }

  /** The first operation registers, fails to find its project, and is deleted again. */
  lemma FirstFails(states: seq<State>, steps: seq<Step>) returns (states': seq<State>, steps': seq<Step>)
    requires IsRun(states, steps) && Is(Last(states), 0, Run(FIRST, false, Holding))
    ensures IsRun(states', steps') && states <= states'
    ensures Last(states').threads == Last(states).threads[0 := Run(FIRST, false, Releasing(Failed))]
    ensures Last(states').table == Last(states).table
  {
    states', steps' := FirstRegisters(states, steps);
    var s := Last(states');
    var s1 := Fail(s, 0);
    assert NextRun(s, Resolve(0, false), s1);
    states', steps' := Extended(states', steps', Resolve(0, false), s1);
    var s2 := Advance(s1, 0, Releasing(Failed)).(
      running := s1.running - {"a"}, cancelFns := s1.cancelFns - {"a"});
    assert NextRun(s1, Step.Delete(0), s2);
    states', steps' := Extended(states', steps', Step.Delete(0), s2);
    assert s2.threads == Last(states).threads[0 := Run(FIRST, false, Releasing(Failed))];
  }

  /** The first operation releases the lock, which wakes the second. */
  lemma SecondWakes(states: seq<State>, steps: seq<Step>) returns (states': seq<State>, steps': seq<Step>)
    requires IsRun(states, steps) && Last(states).table == Lock(EMPTY, "app", "a")
    requires Is(Last(states), 0, Run(FIRST, false, Releasing(Failed)))
    requires Is(Last(states), 1, Run(SECOND, false, Waiting(0)))
    ensures IsRun(states', steps') && states <= states'
    ensures Is(Last(states'), 1, Run(SECOND, false, Acquiring)) && Last(states').table.locks == map[]
  {
    var s := Last(states);
    var s1 := Advance(s, 0, Cancelling(Failed)).(table := Unlock(s.table, "app"));
    assert NextRun(s, Step.Release(0), s1);
    states', steps' := Extended(states, steps, Step.Release(0), s1);
    assert NextAcquire(s1, Wake(1), Advance(s1, 1, Acquiring));
    states', steps' := Extended(states', steps', Wake(1), Advance(s1, 1, Acquiring));
  }

  /** It gets the lock and registers. */
  lemma SecondRuns(states: seq<State>, steps: seq<Step>) returns (states': seq<State>, steps': seq<Step>)
    requires IsRun(states, steps) && Last(states).table.locks == map[]
    requires Is(Last(states), 1, Run(SECOND, false, Acquiring))
    ensures IsRun(states', steps') && states <= states'
    ensures "b" in Last(states').running && RunsAt(Last(states'), 1, Resolving)
  {
    var s := Last(states);
    var s1 := Advance(s, 1, Holding).(table := Lock(s.table, "app", "b"));
    states', steps' := Extended(states, steps, TryLock(1), s1);
    var s2 := Advance(s1, 1, Resolving).(
      running := s1.running["b" := SECOND], cancelFns := s1.cancelFns["b" := CancelFunc("b")],
      trail := s1.trail.(entered := s1.trail.entered + {"b"}));
    states', steps' := Extended(states', steps', Register(1), s2);
  }

  lemma WaiterIsCancelled() returns (states: seq<State>, steps: seq<Step>, i: nat)
    ensures IsRun(states, steps) && i + 3 == |states| && Is(states[i], 2, LookingUp("b"))
    ensures Last(states).threads == map[0 := Run(FIRST, false, Holding), 1 := Run(SECOND, false, Waiting(0)),
                                        2 := CancelDone(false)]
    ensures Last(states).table == Lock(EMPTY, "app", "a") && Last(states).done == {}
  {
    states, steps := [START], [];
    states, steps := CallerArrives(states, steps, 0, FIRST);
    states, steps := CallerArrives(states, steps, 1, SECOND);
    states, steps := SecondWaits(states, steps);
    i := |states|;
    states, steps := CancelFails(states, steps, 2, "b");
  }

  /** The failing case: a Cancel is told that an operation was not found or is over, while that
      operation waits for the lock of its project; later it runs. */
  lemma NotFoundButRuns() returns (states: seq<State>, steps: seq<Step>, i: nat)
    ensures IsRun(states, steps) && i + 2 < |states|
    ensures Is(states[i], 2, LookingUp("b")) && Is(states[i + 2], 2, CancelDone(false))
    ensures Is(states[i + 2], 1, Run(SECOND, false, Waiting(0))) && "b" !in states[i + 2].done
    ensures SECOND.id == "b" && "b" in Last(states).running && RunsAt(Last(states), 1, Resolving)
  {
    states, steps, i := WaiterIsCancelled();
    states, steps := FirstFails(states, steps);
    states, steps := SecondWakes(states, steps);
    states, steps := SecondRuns(states, steps);
  }
}
