/**
 * The counting semaphore of synch.c: a non-negative `count`, P and V.
 *
 * A semaphore's abstract state is its count together with the set of threads
 * asleep on its wait channel. P is one atomic pass of the source's wait loop:
 * either the count is zero and the caller goes to sleep on the semaphore (the
 * pass ends in thread_sleep; after a wakeup the thread runs the pass again),
 * or the count is positive and the caller takes one unit.
 */
module Semaphores {
  import opened Threads

  datatype SemState = SemState(count: int, sleepers: set<ThreadId>)

  /**
   * What the code keeps true: the count is never negative, and no thread is
   * left asleep while units are available (V wakes every sleeper).
   */
  ghost predicate Inv(s: SemState)
  {
    s.count >= 0 && (s.count > 0 ==> s.sleepers == {})
  }

  /** One pass of P by the running thread `me`; the flag says whether P completed. */
  function PStep(s: SemState, me: ThreadId): (r: (SemState, bool))
    requires s.count >= 0 && me !in s.sleepers
    ensures r.1 <==> s.count > 0
    ensures r.1 ==> r.0.count == s.count - 1 && r.0.sleepers == s.sleepers
    ensures !r.1 ==> r.0.count == 0 && r.0.sleepers == s.sleepers + {me}
    ensures r.0.count >= 0
    ensures Inv(s) ==> Inv(r.0)
  {
    if s.count == 0 then (SemState(s.count, s.sleepers + {me}), false)
    else (SemState(s.count - 1, s.sleepers), true)
  }

  /** V: one more unit, and every sleeper is woken to recheck the count. */
  function VStep(s: SemState): (r: SemState)
    ensures r.count == s.count + 1
    ensures s.count >= 0 ==> r.count > 0 && Inv(r)
    ensures r.sleepers == {}
  {
    SemState(s.count + 1, {})
  }

  /** A step of some thread on the semaphore. */
  datatype SemOp = Down(t: ThreadId) | Up(t: ThreadId)

  /** The number of V operations in `ops`. */
  function Ups(ops: seq<SemOp>): nat
  {
    if ops == [] then 0 else (if ops[0].Up? then 1 else 0) + Ups(ops[1..])
  }

  /**
   * Runs `ops` from `s`. The result is the final state and the number of P
   * passes that completed, or None when some step is issued by a thread that
   * is asleep on the semaphore (such a thread cannot run).
   */
  function Run(s: SemState, ops: seq<SemOp>): Option<(SemState, nat)>
    requires s.count >= 0
    decreases |ops|
  {
    if ops == [] then Some((s, 0))
    else if ops[0].t in s.sleepers then None
    else match ops[0]
      case Down(t) =>
        var (s', done) := PStep(s, t);
        (match Run(s', ops[1..])
         case None => None
         case Some((f, n)) => Some((f, n + if done then 1 else 0)))
      case Up(_) => Run(VStep(s), ops[1..])
  }

  /**
   * Over every run, the count equals the initial count plus the V operations
   * minus the completed P operations; hence completed P operations never
   * exceed the initial count plus the V operations, and the invariant holds
   * in every reachable state.
   */
  lemma {:induction false} RunAccounting(s: SemState, ops: seq<SemOp>)
    requires Inv(s)
    ensures Run(s, ops).Some? ==>
      var (f, done) := Run(s, ops).value;
      Inv(f) && f.count == s.count + Ups(ops) - done && done <= s.count + Ups(ops)
    decreases |ops|
  {
    if ops != [] && ops[0].t !in s.sleepers {
      match ops[0]
      case Down(t) =>
        var (s', done) := PStep(s, t);
        RunAccounting(s', ops[1..]);
      case Up(_) =>
        RunAccounting(VStep(s), ops[1..]);
    }
  }

  /**
   * The hand-off scenario: with count 0, `a` blocks in P, `b` calls V, `a`
   * runs its pass again and completes; the count is back to 0.
   */
  lemma HandOff(a: ThreadId, b: ThreadId)
    requires a != b
    ensures Run(SemState(0, {}), [Down(a), Up(b), Down(a)]) == Some((SemState(0, {}), 1))
  {
    var ops := [Down(a), Up(b), Down(a)];
    assert ops[1..][1..] == [Down(a)] && ops[1..][1..][1..] == [];
    assert Run(SemState(1, {}), [Down(a)]) == Some((SemState(0, {}), 1));
    assert Run(SemState(0, {a}), ops[1..]) == Some((SemState(0, {}), 1));
  }

  /** struct semaphore. */
  class Semaphore {
    var count: int
    /** False once sem_destroy has freed the semaphore. */
    ghost var live: bool

    ghost predicate Valid()
      reads this
    {
      live && count >= 0
    }

    /** The abstract state: the count and the threads asleep on this semaphore. */
    ghost function View(sched: WaitChannels): SemState
      reads this, sched
    {
      SemState(count, SleepersOn(sched.asleep, ObjChan(this)))
    }

    /** sem_create, when allocation succeeds. */
    constructor (initialCount: int)
      requires initialCount >= 0
      ensures Valid() && count == initialCount
    {
      count := initialCount;
      live := true;
    }

    /** sem_destroy: nobody may be asleep on the semaphore. */
    method Destroy(sched: WaitChannels)
      requires Valid() && SleepersOn(sched.asleep, ObjChan(this)) == {}
      modifies this
      ensures !live && count == old(count)
    {
      live := false;
    }

    /**
     * P: one pass of the wait loop. Returns true when the caller took a unit;
     * false when it went to sleep on the semaphore and has to run the pass
     * again once woken.
     */
    method P(cur: ThreadId, sched: WaitChannels) returns (done: bool)
      requires Valid() && sched.Valid() && cur !in sched.asleep
      modifies this, sched
      ensures Valid() && sched.Valid()
      ensures (View(sched), done) == PStep(old(View(sched)), cur)
      ensures done ==> sched.asleep == old(sched.asleep)
      ensures !done ==> sched.asleep == Sleep(old(sched.asleep), cur, ObjChan(this))
    {
      if count == 0 {
        sched.ThreadSleep(cur, ObjChan(this));
        done := false;
      } else {
        count := count - 1;
        done := true;
      }
    }

    /** V: release one unit and wake everyone asleep on the semaphore. */
    method V(sched: WaitChannels)
      requires Valid() && sched.Valid()
      modifies this, sched
      ensures Valid() && sched.Valid()
      ensures View(sched) == VStep(old(View(sched)))
      ensures sched.asleep == Wakeup(old(sched.asleep), ObjChan(this))
    {
      count := count + 1;
      sched.ThreadWakeup(ObjChan(this));
    }
  }
}
