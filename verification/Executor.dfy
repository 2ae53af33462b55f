/** The bookkeeping of internal/orchestrator/executor.go: the running operations, their
    cancel functions and the bounded history. */
module Executor {
  import opened Requests

  /** How a record came about: a result was returned, an error was returned, or the request
      was cancelled while it was queued. */
  datatype Outcome = Completed | Failed | Withdrawn

  datatype Record = Record(request: Request, outcome: Outcome)

  /** A cancel function ends the context of one run. */
  datatype CancelFunc = CancelFunc(op: OpId)

  datatype Lookup = Absent | Running(request: Request) | Past(record: Record)

  const MAX_HISTORY := 256

  function AddRecord(history: seq<Record>, r: Record): seq<Record> {
    (if |history| >= MAX_HISTORY then history[1..] else history) + [r]
  }

  /** The last 256 of all records ever added. */
  function Newest(all: seq<Record>): seq<Record> {
    if |all| <= MAX_HISTORY then all else all[|all| - MAX_HISTORY..]
  }

  /** Adding to the window of newest records gives the window of the longer list. */
  lemma AddRecordKeepsNewest(all: seq<Record>, r: Record)
    ensures AddRecord(Newest(all), r) == Newest(all + [r])
  {
  }

  function FindRecord(history: seq<Record>, id: OpId): Lookup {
    if history == [] then Absent
    else
      var last := history[|history| - 1];
      if last.request.id == id then Past(last) else FindRecord(history[..|history| - 1], id)
  }

  /** The record at this place is the latest of the operation. */
  ghost predicate IsLatest(history: seq<Record>, id: OpId, k: int) {
    && 0 <= k < |history| && history[k].request.id == id
    && forall m | k < m < |history| :: history[m].request.id != id
  }

  /** What is found belongs to the operation, and nothing is found only if nothing does. */
  lemma {:induction false} FoundIsLatest(history: seq<Record>, id: OpId)
    ensures match FindRecord(history, id)
            case Absent => forall r | r in history :: r.request.id != id
            case Running(_) => false
            case Past(r) => exists k :: IsLatest(history, id, k) && history[k] == r
    decreases |history|
  {
    if history != [] {
      var n := |history| - 1;
      assert history == history[..n] + [history[n]];
      if history[n].request.id == id {
        assert IsLatest(history, id, n);
      } else {
        FoundIsLatest(history[..n], id);
        if FindRecord(history[..n], id).Past? {
          var k :| IsLatest(history[..n], id, k) && history[..n][k] == FindRecord(history[..n], id).record;
          assert IsLatest(history, id, k);
        }
      }
    }
  }

  /** A record is found until 256 newer ones exist. */
  lemma NewestStillFound(all: seq<Record>, id: OpId, i: nat)
    requires i < |all| && all[i].request.id == id
    ensures FindRecord(Newest(all), id) == Absent ==> |all| - 1 - i >= 256
  {
    var skipped := if |all| <= MAX_HISTORY then 0 else |all| - MAX_HISTORY;
    if i >= skipped {
      assert Newest(all)[i - skipped] == all[i];
      FoundIsLatest(Newest(all), id);
    }
  }

  class Books {
    var running: map<OpId, Request>
    var cancelFns: map<OpId, CancelFunc>
    var history: seq<Record>

    constructor ()
      ensures running == map[] && cancelFns == map[] && history == []
    {
      running := map[];
      cancelFns := map[];
      history := [];
    }

    /** The locked section of run after Acquire. */
    method Register(request: Request, cancel: CancelFunc)
      modifies this`running, this`cancelFns
      ensures running == old(running)[request.id := request]
      ensures cancelFns == old(cancelFns)[request.id := cancel]
      ensures old(running).Keys == old(cancelFns).Keys ==> running.Keys == cancelFns.Keys
    {
      running := running[request.id := request];
      cancelFns := cancelFns[request.id := cancel];
    }

    /** The deferred function of run. */
    method Unregister(id: OpId)
      modifies this`running, this`cancelFns
      ensures running == old(running) - {id} && cancelFns == old(cancelFns) - {id}
      ensures old(running).Keys == old(cancelFns).Keys ==> running.Keys == cancelFns.Keys
    {
      running := running - {id};
      cancelFns := cancelFns - {id};
    }

    method AddHistory(r: Record)
      modifies this`history
      ensures history == AddRecord(old(history), r)
      ensures forall all | old(history) == Newest(all) :: history == Newest(all + [r])
    {
      forall all | history == Newest(all) ensures AddRecord(history, r) == Newest(all + [r]) {
        AddRecordKeepsNewest(all, r);
      }
      if |history| >= MAX_HISTORY {
        history := history[1..];
      }
      history := history + [r];
    }

    /** GetOperation: the running operations first, then the history from its end. The answer is the
        request under the id while it is running, else the latest record of the operation, and
        absent exactly if there is neither. */
    method GetOperation(id: OpId) returns (r: Lookup)
      ensures r == if id in running then Running(running[id]) else FindRecord(history, id)
      ensures r.Running? <==> id in running
      ensures r.Running? ==> r.request == running[id]
      ensures r.Past? ==> exists k :: IsLatest(history, id, k) && history[k] == r.record
      ensures r.Absent? <==> id !in running && forall x | x in history :: x.request.id != id
    {
      FoundIsLatest(history, id);
      if id in running {
        return Running(running[id]);
      }
      var i := |history|;
      assert history[..i] == history;
      while i > 0
        invariant 0 <= i <= |history|
        invariant FindRecord(history, id) == FindRecord(history[..i], id)
      {
        i := i - 1;
        if history[i].request.id == id {
          return Past(history[i]);
        }
        assert history[..i + 1][..i] == history[..i];
      }
      r := Absent;
    }
  }
}
