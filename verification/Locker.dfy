/** internal/orchestrator/lock.go */
module Locker {
  import opened Requests

  /** Channels are numbered in the order in which they are made. */
  type ChanId = nat

  datatype Entry = Entry(holder: OpId, ch: ChanId)

  /** The lock table, the channels closed so far and the number of channels made so far. */
  datatype Table = Table(locks: map<ProjectId, Entry>, closed: set<ChanId>, made: nat)

  const EMPTY := Table(map[], {}, 0)

  /** A lock entry has a channel of its own that is still open. */
  ghost predicate WellFormed(t: Table) {
    && (forall p | p in t.locks :: t.locks[p].ch < t.made && t.locks[p].ch !in t.closed)
    && (forall p, q | p in t.locks && q in t.locks && p != q :: t.locks[p].ch != t.locks[q].ch)
    && (forall c | c in t.closed :: c < t.made)
  }

  function Lock(t: Table, p: ProjectId, op: OpId): Table
    requires p !in t.locks
  {
    Table(t.locks[p := Entry(op, t.made)], t.closed, t.made + 1)
  }

  /** What a release closure for `p` does, whoever created it. */
  function Unlock(t: Table, p: ProjectId): Table {
    if p in t.locks then Table(t.locks - {p}, t.closed + {t.locks[p].ch}, t.made) else t
  }

  lemma LockUnlockWellFormed(t: Table, p: ProjectId, op: OpId)
    requires WellFormed(t)
    ensures p !in t.locks ==> WellFormed(Lock(t, p, op))
    ensures WellFormed(Unlock(t, p))
  {
  }

  /** Releasing right after acquiring restores the table but for the used-up channel. */
  lemma UnlockUndoesLock(t: Table, p: ProjectId, op: OpId)
    requires p !in t.locks
    ensures Unlock(Lock(t, p, op), p).locks == t.locks
    ensures Unlock(Lock(t, p, op), p).closed == t.closed + {t.made}
  {
  }

  /** A release frees no lock held by another operation exactly when the project is free or
      its recorded holder, which IsLocked reports, is the releasing operation. */
  lemma ReleaseSparesOthersIff(t: Table, p: ProjectId, op: OpId)
    ensures (forall q | q in t.locks && t.locks[q].holder != op ::
               q in Unlock(t, p).locks && Unlock(t, p).locks[q] == t.locks[q])
            <==> (p !in t.locks || t.locks[p].holder == op)
  {
  }

  /** The failing case: a closure called a second time frees the lock that another
      operation acquired in between. */
  lemma SecondReleaseFreesAnother(p: ProjectId, first: OpId, second: OpId)
    ensures var t1 := Lock(EMPTY, p, first);
            var t2 := Lock(Unlock(t1, p), p, second);
            && t2.locks[p].holder == second
            && p !in Unlock(t2, p).locks
  {
  }

  /** What the locked section of Acquire's loop finds. */
  datatype Attempt = Got | MustWait(holder: OpId, ch: ChanId)

  datatype Holder = Unlocked | LockedBy(holder: OpId)

  class InMemoryLocker {
    var locks: map<ProjectId, Entry>
    var closed: set<ChanId>
    var made: nat

    ghost function View(): Table
      reads this
    {
      Table(locks, closed, made)
    }

    constructor ()
      ensures View() == EMPTY
    {
      locks := map[];
      closed := {};
      made := 0;
    }

    method MakeChan() returns (ch: ChanId)
      modifies this`made
      ensures ch == old(made) && made == old(made) + 1
    {
      ch := made;
      made := made + 1;
    }

    /** Go panics on a second close. */
    method CloseChan(ch: ChanId)
      requires ch !in closed
      modifies this`closed
      ensures closed == old(closed) + {ch}
    {
      closed := closed + {ch};
    }

    /** One pass through the locked section of Acquire. */
    method TryLock(p: ProjectId, op: OpId) returns (r: Attempt)
      modifies this
      ensures r.Got? <==> p !in old(locks)
      ensures r.Got? ==> View() == Lock(old(View()), p, op)
      ensures r.MustWait? ==> View() == old(View()) && locks[p] == Entry(r.holder, r.ch)
    {
      if p !in locks {
        var ch := MakeChan();
        locks := locks[p := Entry(op, ch)];
        return Got;
      }
      r := MustWait(locks[p].holder, locks[p].ch);
    }

    method TryAcquire(p: ProjectId, op: OpId) returns (acquired: bool)
      modifies this
      ensures acquired <==> p !in old(locks)
      ensures View() == if acquired then Lock(old(View()), p, op) else old(View())
    {
      if p in locks {
        return false;
      }
      var ch := MakeChan();
      locks := locks[p := Entry(op, ch)];
      acquired := true;
    }

    method IsLocked(p: ProjectId) returns (r: Holder)
      ensures r == if p in locks then LockedBy(locks[p].holder) else Unlocked
    {
      if p in locks {
        return LockedBy(locks[p].holder);
      }
      r := Unlocked;
    }

    /** The body of the closure made by releaseFunc. */
    method Release(p: ProjectId)
      requires WellFormed(View())
      modifies this
      ensures View() == Unlock(old(View()), p) && WellFormed(View())
    {
      LockUnlockWellFormed(View(), p, "");
      if p in locks {
        CloseChan(locks[p].ch);
        locks := locks - {p};
      }
    }
  }
}
