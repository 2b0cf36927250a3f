/**
 * The mutual-exclusion lock of synch.c: an `occupied` flag and a `holder`
 * that move together.
 *
 * Acquire is one atomic pass of the source's wait loop: the caller goes to
 * sleep on the lock only when the lock is occupied by a different thread;
 * otherwise (free, or already held by the caller) it takes the lock. Release
 * clears both fields whoever calls it and wakes every sleeper on the lock.
 */
module Locks {
  import opened Threads

  datatype LockState = LockState(occupied: int, holder: Option<ThreadId>, sleepers: set<ThreadId>)

  /**
   * What the code keeps true: the flag is 0 or 1 and is 1 exactly when there
   * is a holder; nobody sleeps on a free lock; the holder never sleeps on its
   * own lock.
   */
  ghost predicate Inv(s: LockState)
  {
    && (s.occupied == 0 || s.occupied == 1)
    && (s.occupied == 1 <==> s.holder.Some?)
    && (s.occupied == 0 ==> s.sleepers == {})
    && (s.holder.Some? ==> s.holder.value !in s.sleepers)
  }

  /** The caller must wait: the lock is occupied by a different thread. */
  predicate HeldByOther(s: LockState, me: ThreadId)
  {
    s.occupied == 1 && s.holder != Some(me)
  }

  /** One pass of lock_acquire by the running thread `me`; the flag says whether it took the lock. */
  function AcquireStep(s: LockState, me: ThreadId): (r: (LockState, bool))
    requires me !in s.sleepers
    ensures r.1 <==> !HeldByOther(s, me)
    ensures r.1 ==> r.0.occupied == 1 && r.0.holder == Some(me) && r.0.sleepers == s.sleepers
    ensures !r.1 ==> r.0 == LockState(s.occupied, s.holder, s.sleepers + {me})
    ensures Inv(s) ==> Inv(r.0)
  {
    if HeldByOther(s, me) then (LockState(s.occupied, s.holder, s.sleepers + {me}), false)
    else (LockState(1, Some(me), s.sleepers), true)
  }

  /** lock_release: free the lock, whoever the caller, and wake all its sleepers. */
  function ReleaseStep(s: LockState): (r: LockState)
    ensures r.occupied == 0 && r.holder == None && r.sleepers == {}
    ensures Inv(r)
  {
    LockState(0, None, {})
  }

  /** A step of some thread on the lock. */
  datatype LockOp = AcquireOp(t: ThreadId) | ReleaseOp(t: ThreadId)

  /**
   * Runs `ops` from `s`; None when some step is issued by a thread that is
   * asleep on the lock (such a thread cannot run).
   */
  function Run(s: LockState, ops: seq<LockOp>): Option<LockState>
    decreases |ops|
  {
    if ops == [] then Some(s)
    else if ops[0].t in s.sleepers then None
    else match ops[0]
      case AcquireOp(t) => Run(AcquireStep(s, t).0, ops[1..])
      case ReleaseOp(_) => Run(ReleaseStep(s), ops[1..])
  }

  /** lock_create, lock_acquire and lock_release keep the invariant in every reachable state. */
  lemma {:induction false} RunKeepsInv(s: LockState, ops: seq<LockOp>)
    requires Inv(s)
    ensures Run(s, ops).Some? ==> Inv(Run(s, ops).value)
    decreases |ops|
  {
    if ops != [] && ops[0].t !in s.sleepers {
      match ops[0]
      case AcquireOp(t) => RunKeepsInv(AcquireStep(s, t).0, ops[1..]);
      case ReleaseOp(_) => RunKeepsInv(ReleaseStep(s), ops[1..]);
    }
  }

  /** No release among `ops`. */
  predicate NoRelease(ops: seq<LockOp>)
  {
    forall i :: 0 <= i < |ops| ==> ops[i].AcquireOp?
  }

  /**
   * Mutual exclusion: once `t` holds the lock, only a release takes it away;
   * every other thread's acquire puts that thread to sleep.
   */
  lemma {:induction false} OnlyReleaseFreesLock(s: LockState, ops: seq<LockOp>, t: ThreadId)
    requires Inv(s) && s.holder == Some(t) && NoRelease(ops)
    ensures Run(s, ops).Some? ==> Run(s, ops).value.holder == Some(t)
    decreases |ops|
  {
    if ops != [] && ops[0].t !in s.sleepers {
      assert ops[0].AcquireOp?;
      var s' := AcquireStep(s, ops[0].t).0;
      assert NoRelease(ops[1..]) by {
        forall i | 0 <= i < |ops[1..]| ensures ops[1..][i].AcquireOp? {
          assert ops[1..][i] == ops[i + 1];
        }
      }
      OnlyReleaseFreesLock(s', ops[1..], t);
    }
  }

  /**
   * The contention scenario: `a` takes the lock, `b` blocks on it, `a`
   * releases, `b` runs its pass again and now holds the lock.
   */
  lemma Contention(a: ThreadId, b: ThreadId)
    requires a != b
    ensures Run(LockState(0, None, {}), [AcquireOp(a), AcquireOp(b), ReleaseOp(a), AcquireOp(b)])
         == Some(LockState(1, Some(b), {}))
  {
    var ops := [AcquireOp(a), AcquireOp(b), ReleaseOp(a), AcquireOp(b)];
    assert ops[1..][1..][1..] == [AcquireOp(b)] && ops[1..][1..][1..][1..] == [];
    assert Run(LockState(0, None, {}), ops[1..][1..][1..]) == Some(LockState(1, Some(b), {}));
    assert Run(LockState(1, Some(a), {b}), ops[1..][1..]) == Some(LockState(1, Some(b), {}));
    assert Run(LockState(1, Some(a), {}), ops[1..]) == Some(LockState(1, Some(b), {}));
  }

  /** struct lock. */
  class Lock {
    /** lock_occupied: 1 while held, 0 while free. */
    var occupied: int
    /** lock_holder: the owning thread, None for NULL. */
    var holder: Option<ThreadId>
    /** False once lock_destroy has freed the lock. */
    ghost var live: bool

    ghost predicate Valid()
      reads this
    {
      live && (occupied == 0 || occupied == 1) && (occupied == 1 <==> holder.Some?)
    }

    /** The abstract state: the two fields and the threads asleep on this lock. */
    ghost function View(sched: WaitChannels): LockState
      reads this, sched
    {
      LockState(occupied, holder, SleepersOn(sched.asleep, ObjChan(this)))
    }

    /** lock_create, when allocation succeeds: free, no holder. */
    constructor ()
      ensures Valid() && occupied == 0 && holder == None
    {
      occupied := 0;
      holder := None;
      live := true;
    }

    /** lock_destroy: frees the lock; the code checks nothing about holders or sleepers. */
    method Destroy()
      requires Valid()
      modifies this
      ensures !live && occupied == old(occupied) && holder == old(holder)
    {
      live := false;
    }

    /**
     * lock_acquire: one pass of the wait loop. Returns true when the caller
     * now holds the lock; false when it went to sleep on the lock and has to
     * run the pass again once woken.
     */
    method Acquire(cur: ThreadId, sched: WaitChannels) returns (acquired: bool)
      requires Valid() && sched.Valid() && cur !in sched.asleep
      modifies this, sched
      ensures Valid() && sched.Valid()
      ensures (View(sched), acquired) == AcquireStep(old(View(sched)), cur)
      ensures acquired ==> sched.asleep == old(sched.asleep)
      ensures !acquired ==> sched.asleep == Sleep(old(sched.asleep), cur, ObjChan(this))
    {
      if occupied == 1 && holder != Some(cur) {
        sched.ThreadSleep(cur, ObjChan(this));
        acquired := false;
      } else {
        occupied := 1;
        holder := Some(cur);
        acquired := true;
      }
    }

    /** lock_release: clears both fields whoever calls, and wakes all sleepers on the lock. */
    method Release(sched: WaitChannels)
      requires Valid() && sched.Valid()
      modifies this, sched
      ensures Valid() && sched.Valid()
      ensures View(sched) == ReleaseStep(old(View(sched)))
      ensures sched.asleep == Wakeup(old(sched.asleep), ObjChan(this))
    {
      occupied := 0;
      holder := None;
      sched.ThreadWakeup(ObjChan(this));
    }

    /** lock_do_i_hold: a query that changes nothing. */
    function DoIHold(cur: ThreadId): (held: bool)
      reads this
      ensures held <==> holder == Some(cur)
      ensures held && Valid() ==> occupied == 1
    {
      holder == Some(cur)
    }
  }
}
