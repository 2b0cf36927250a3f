/**
 * The condition variable of synch.c: a waiter `count` and an explicit FIFO
 * queue of waiting threads, always used with a lock the caller holds.
 *
 * cv_wait releases the lock, joins the tail of the queue and sleeps on the
 * caller's own thread address (Wait); once woken, the thread re-acquires the
 * lock (WaitReacquire). cv_signal removes the head of the queue and wakes
 * exactly that thread; cv_broadcast signals until the count is zero.
 */
module CondVars {
  import opened Threads
  import Locks

  datatype CvState = CvState(count: int, queue: seq<ThreadId>)

  /** No thread is queued twice. */
  predicate Distinct(q: seq<ThreadId>)
  {
    forall i, j :: 0 <= i < j < |q| ==> q[i] != q[j]
  }

  /** What the code keeps true: the count is the queue's length, and the queue has no repeats. */
  ghost predicate Inv(s: CvState)
  {
    s.count == |s.queue| && Distinct(s.queue)
  }

  /** The queue part of cv_wait by the running thread `me` (which is not queued: queued threads sleep). */
  function WaitStep(s: CvState, me: ThreadId): (r: CvState)
    requires me !in s.queue
    ensures r.count == s.count + 1 && r.queue == s.queue + [me]
    ensures Inv(s) ==> Inv(r)
  {
    CvState(s.count + 1, s.queue + [me])
  }

  /** The queue part of cv_signal: the oldest waiter leaves the queue and is the one woken. */
  function SignalStep(s: CvState): (r: (CvState, ThreadId))
    requires Inv(s) && s.count > 0
    ensures [r.1] + r.0.queue == s.queue
    ensures r.0.count == s.count - 1
    ensures Inv(r.0) && r.1 !in r.0.queue
  {
    (CvState(s.count - 1, s.queue[1..]), s.queue[0])
  }

  /** A step of some thread on the condition variable. */
  datatype CvOp = WaitOp(t: ThreadId) | SignalOp

  /** The threads that call wait in `ops`, in order. */
  function Waiters(ops: seq<CvOp>): seq<ThreadId>
  {
    if ops == [] then []
    else (if ops[0].WaitOp? then [ops[0].t] else []) + Waiters(ops[1..])
  }

  /** `n` consecutive signals. */
  function Signals(n: nat): seq<CvOp>
  {
    if n == 0 then [] else [SignalOp] + Signals(n - 1)
  }

  /**
   * Runs `ops` from `s`. The result is the final state and the threads woken,
   * in wake order; None when a queued (hence sleeping) thread calls wait, or
   * when a signal finds no waiter (the source then removes the head of an
   * empty queue).
   */
  function Run(s: CvState, ops: seq<CvOp>): Option<(CvState, seq<ThreadId>)>
    requires Inv(s)
    decreases |ops|
  {
    if ops == [] then Some((s, []))
    else match ops[0]
      case WaitOp(t) =>
        if t in s.queue then None else Run(WaitStep(s, t), ops[1..])
      case SignalOp =>
        if s.count == 0 then None
        else
          var (s', h) := SignalStep(s);
          (match Run(s', ops[1..])
           case None => None
           case Some((f, w)) => Some((f, [h] + w)))
  }

  /** One wait at the front of a run: the run continues from the longer queue. */
  lemma RunWaitFirst(s: CvState, ops: seq<CvOp>)
    requires Inv(s) && ops != [] && ops[0].WaitOp? && ops[0].t !in s.queue
    ensures Run(s, ops) == Run(WaitStep(s, ops[0].t), ops[1..])
    ensures Waiters(ops) == [ops[0].t] + Waiters(ops[1..])
  {
  }

  /** One signal at the front of a run: the head is woken first, the run continues from the rest. */
  lemma RunSignalFirst(s: CvState, ops: seq<CvOp>)
    requires Inv(s) && s.count > 0 && ops != [] && ops[0].SignalOp?
    ensures Run(SignalStep(s).0, ops[1..]).None? ==> Run(s, ops).None?
    ensures Run(SignalStep(s).0, ops[1..]).Some? ==>
      Run(s, ops) == Some((Run(SignalStep(s).0, ops[1..]).value.0, [s.queue[0]] + Run(SignalStep(s).0, ops[1..]).value.1))
    ensures Waiters(ops) == Waiters(ops[1..])
  {
  }

  /**
   * Sequence bookkeeping for FifoAfterSignal only: putting the same thread in
   * front of both sides of a queue equation keeps it.
   */
  lemma PrependBoth(h: ThreadId, q: seq<ThreadId>, arriving: seq<ThreadId>, woken: seq<ThreadId>, left: seq<ThreadId>)
    requires q + arriving == woken + left
    ensures ([h] + q) + arriving == ([h] + woken) + left
  {
    calc {
      ([h] + q) + arriving;
      [h] + (q + arriving);
      [h] + (woken + left);
      ([h] + woken) + left;
    }
  }

  /** The property RunIsFifo proves of every run. */
  ghost predicate FifoOutcome(s: CvState, ops: seq<CvOp>)
    requires Inv(s)
  {
    Run(s, ops).Some? ==>
      Inv(Run(s, ops).value.0) &&
      s.queue + Waiters(ops) == Run(s, ops).value.1 + Run(s, ops).value.0.queue
  }

  /**
   * Strict FIFO: threads are woken in the order in which they waited. The
   * waiters already queued followed by those that wait during the run are
   * exactly the threads woken, in order, followed by those still queued;
   * and count == |queue| holds throughout.
   */
  lemma {:induction false} RunIsFifo(s: CvState, ops: seq<CvOp>)
    requires Inv(s)
    ensures Run(s, ops).Some? ==> Inv(Run(s, ops).value.0)
    ensures Run(s, ops).Some? ==> s.queue + Waiters(ops) == Run(s, ops).value.1 + Run(s, ops).value.0.queue
    decreases |ops|, 1
  {
    if ops == [] {
      assert s.queue + [] == [] + s.queue;
    } else if ops[0].WaitOp? {
      FifoAfterWait(s, ops);
    } else {
      FifoAfterSignal(s, ops);
    }
  }

  /** RunIsFifo when the run starts with a wait. */
  lemma {:induction false} FifoAfterWait(s: CvState, ops: seq<CvOp>)
    requires Inv(s) && ops != [] && ops[0].WaitOp?
    ensures FifoOutcome(s, ops)
    decreases |ops|, 0
  {
    var t := ops[0].t;
    if t !in s.queue {
      RunWaitFirst(s, ops);
      RunIsFifo(WaitStep(s, t), ops[1..]);
      assert s.queue + Waiters(ops) == (s.queue + [t]) + Waiters(ops[1..]);
    }
  }

  /** RunIsFifo when the run starts with a signal. */
  lemma {:induction false} FifoAfterSignal(s: CvState, ops: seq<CvOp>)
    requires Inv(s) && ops != [] && ops[0].SignalOp?
    ensures FifoOutcome(s, ops)
    decreases |ops|, 0
  {
    if s.count != 0 {
      var s' := SignalStep(s).0;
      RunSignalFirst(s, ops);
      RunIsFifo(s', ops[1..]);
      if Run(s', ops[1..]).Some? {
        PrependBoth(s.queue[0], s'.queue, Waiters(ops[1..]), Run(s', ops[1..]).value.1, Run(s', ops[1..]).value.0.queue);
      }
    }
  }

  /**
   * cv_broadcast: signalling while the count is positive takes exactly
   * `count` signals, wakes every waiter in queue order and ends with a zero
   * count and an empty queue.
   */
  lemma {:induction false} BroadcastWakesAllInOrder(s: CvState)
    requires Inv(s)
    ensures Run(s, Signals(s.count)) == Some((CvState(0, []), s.queue))
    decreases s.count
  {
    if s.count > 0 {
      var (s', h) := SignalStep(s);
      BroadcastWakesAllInOrder(s');
      assert Signals(s.count)[1..] == Signals(s'.count);
    }
  }

  /**
   * The FIFO scenario: `a`, `b` and `c` wait in that order; three signals
   * wake `a`, then `b`, then `c`.
   */
  lemma ThreeWaiters(a: ThreadId, b: ThreadId, c: ThreadId)
    requires a != b && b != c && a != c
    ensures Run(CvState(0, []), [WaitOp(a), WaitOp(b), WaitOp(c), SignalOp, SignalOp, SignalOp])
         == Some((CvState(0, []), [a, b, c]))
  {
    var ops := [WaitOp(a), WaitOp(b), WaitOp(c), SignalOp, SignalOp, SignalOp];
    var s := CvState(3, [a, b, c]);
    BroadcastWakesAllInOrder(s);
    assert Signals(3) == [SignalOp, SignalOp, SignalOp];
    assert ops[1..][1..][1..] == Signals(3);
    assert [] + [a] == [a] && [a] + [b] == [a, b] && [a, b] + [c] == [a, b, c];
    assert Run(CvState(2, [a, b]), ops[1..][1..]) == Run(s, Signals(3));
    assert Run(CvState(1, [a]), ops[1..]) == Run(s, Signals(3));
  }

  /** struct cv. */
  class CondVar {
    /** The number of threads waiting. */
    var count: int
    /** thread_queue: the waiting threads, oldest first. */
    var queue: seq<ThreadId>
    /** False once cv_destroy has freed the condition variable. */
    ghost var live: bool

    ghost predicate Valid()
      reads this
    {
      live && Inv(CvState(count, queue))
    }

    /** Every queued thread is asleep on its own thread address. */
    ghost predicate WaitersAsleep(sched: WaitChannels)
      reads this, sched
    {
      forall t :: t in queue ==> t in sched.asleep && sched.asleep[t] == ThreadChan(t)
    }

    ghost function View(): CvState
      reads this
    {
      CvState(count, queue)
    }

    /** cv_create, when allocation succeeds: no waiters. */
    constructor ()
      ensures Valid() && count == 0 && queue == []
    {
      count := 0;
      queue := [];
      live := true;
    }

    /** cv_destroy: requires a zero count and an empty queue. */
    method Destroy()
      requires Valid() && count == 0 && queue == []
      modifies this
      ensures !live && count == old(count) && queue == old(queue)
    {
      live := false;
    }

    /**
     * cv_wait up to the point where the caller sleeps: the caller must hold
     * the lock; it releases the lock, joins the tail of the queue and sleeps
     * on its own thread address.
     */
    method Wait(lock: Locks.Lock, cur: ThreadId, sched: WaitChannels)
      requires Valid() && WaitersAsleep(sched) && sched.Valid()
      requires lock.Valid() && lock.DoIHold(cur)
      requires cur !in sched.asleep
      modifies this, lock, sched
      ensures Valid() && WaitersAsleep(sched) && sched.Valid() && lock.Valid()
      ensures View() == WaitStep(old(View()), cur)
      ensures lock.View(sched) == Locks.ReleaseStep(old(lock.View(sched)))
      ensures sched.asleep == Sleep(Wakeup(old(sched.asleep), ObjChan(lock)), cur, ThreadChan(cur))
    {
      lock.Release(sched);
      count := count + 1;
      queue := queue + [cur];
      sched.ThreadSleep(cur, ThreadChan(cur));
    }

    /**
     * The rest of cv_wait, run by the waiter once a signal has woken it:
     * re-acquire the lock (one pass of lock_acquire; the thread may go back
     * to sleep on the lock). On completion the caller holds the lock again.
     * Only the lock is used: the condition variable may already have been
     * destroyed by the thread that broadcast.
     */
    method WaitReacquire(lock: Locks.Lock, cur: ThreadId, sched: WaitChannels) returns (acquired: bool)
      requires WaitersAsleep(sched) && sched.Valid()
      requires lock.Valid() && cur !in sched.asleep
      modifies lock, sched
      ensures WaitersAsleep(sched) && sched.Valid() && lock.Valid()
      ensures (lock.View(sched), acquired) == Locks.AcquireStep(old(lock.View(sched)), cur)
      ensures acquired ==> lock.DoIHold(cur) && lock.occupied == 1
      ensures acquired ==> sched.asleep == old(sched.asleep)
      ensures !acquired ==> sched.asleep == Sleep(old(sched.asleep), cur, ObjChan(lock))
    {
      acquired := lock.Acquire(cur, sched);
    }

    /**
     * cv_signal: the caller must hold the lock and someone must be waiting.
     * The count drops by one, the oldest waiter leaves the queue, and exactly
     * that thread is woken.
     */
    method Signal(lock: Locks.Lock, cur: ThreadId, sched: WaitChannels)
      requires Valid() && WaitersAsleep(sched) && sched.Valid()
      requires lock.Valid() && lock.DoIHold(cur)
      requires count > 0
      modifies this, sched
      ensures Valid() && WaitersAsleep(sched) && sched.Valid()
      ensures (View(), old(queue[0])) == SignalStep(old(View()))
      ensures sched.asleep == old(sched.asleep) - {old(queue[0])}
    {
      count := count - 1;
      var next := queue[0];
      queue := queue[1..];
      ghost var before := sched.asleep;
      sched.ThreadWakeup(ThreadChan(next));
      assert sched.asleep == before - {next};
    }

    /**
     * cv_broadcast: the caller must hold the lock. Signals until the count
     * is zero: every thread that was waiting is woken, nobody else is, and
     * the count and the queue end empty.
     */
    method Broadcast(lock: Locks.Lock, cur: ThreadId, sched: WaitChannels)
      requires Valid() && WaitersAsleep(sched) && sched.Valid()
      requires lock.Valid() && lock.DoIHold(cur)
      modifies this, sched
      ensures Valid() && WaitersAsleep(sched) && sched.Valid()
      ensures count == 0 && queue == []
      ensures sched.asleep == old(sched.asleep) - (set t | t in old(queue))
    {
      ghost var woken: seq<ThreadId> := [];
      while count > 0
        invariant Valid() && WaitersAsleep(sched) && sched.Valid()
        invariant old(queue) == woken + queue
        invariant sched.asleep == old(sched.asleep) - (set t | t in woken)
        decreases count
      {
        woken := woken + [queue[0]];
        Signal(lock, cur, sched);
      }
    }
  }

  /**
   * A waiter outlives its condition variable: `a` waits, `b` takes the lock,
   * broadcasts, destroys the condition variable and releases the lock; `a`
   * then re-acquires the lock and holds it.
   */
  method DestroyBeforeReacquire(a: ThreadId, b: ThreadId) returns (acquired: bool, holder: Option<ThreadId>)
    requires a != b
    ensures acquired && holder == Some(a)
  {
    var sched := new WaitChannels();
    var lock := new Locks.Lock();
    var cv := new CondVar();
    var got := lock.Acquire(a, sched);
    cv.Wait(lock, a, sched);
    got := lock.Acquire(b, sched);
    cv.Broadcast(lock, b, sched);
    cv.Destroy();
    lock.Release(sched);
    acquired := cv.WaitReacquire(lock, a, sched);
    holder := lock.holder;
  }
}
