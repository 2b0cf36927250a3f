/**
 * The part of the thread subsystem that the synchronization primitives use:
 * thread identities, wait channels, and the table of sleeping threads behind
 * thread_sleep / thread_wakeup / thread_hassleepers. Context switching, run
 * queues and fairness are not modelled: a thread is either asleep on exactly
 * one channel or it may run.
 */
module Threads {

  /** Identity of a thread (the address of its thread structure); never NULL. */
  type ThreadId = nat

  /** A pointer that may be NULL. */
  datatype Option<T> = None | Some(value: T)

  /**
   * A wait channel is an address. Semaphores and locks put sleepers on their
   * own address; the condition variable puts each waiter to sleep on the
   * address of its own thread structure.
   */
  datatype Chan = ObjChan(addr: object) | ThreadChan(thread: ThreadId)

  /** Which channel each sleeping thread sleeps on. */
  type Sleepers = map<ThreadId, Chan>

  /** The threads asleep on channel `c`. */
  ghost function SleepersOn(asleep: Sleepers, c: Chan): set<ThreadId>
  {
    set t | t in asleep && asleep[t] == c
  }

  /** thread_sleep(c) by the running thread `t`. */
  function Sleep(asleep: Sleepers, t: ThreadId, c: Chan): (r: Sleepers)
    requires t !in asleep
    ensures r.Keys == asleep.Keys + {t} && r[t] == c
    ensures forall u :: u in asleep ==> r[u] == asleep[u]
    ensures SleepersOn(r, c) == SleepersOn(asleep, c) + {t}
  {
    asleep[t := c]
  }

  /** thread_wakeup(c): every thread asleep on `c` may run again, nobody else does. */
  function Wakeup(asleep: Sleepers, c: Chan): (r: Sleepers)
    ensures forall t :: t in r <==> t in asleep && asleep[t] != c
    ensures forall t :: t in r ==> r[t] == asleep[t]
    ensures SleepersOn(r, c) == {}
  {
    map t | t in asleep && asleep[t] != c :: asleep[t]
  }

  /**
   * Only the condition variable sleeps on a thread address, and always on the
   * address of the sleeping thread itself (thread_sleep(curthread)).
   */
  ghost predicate OwnThreadChannels(asleep: Sleepers)
  {
    forall t :: t in asleep && asleep[t].ThreadChan? ==> asleep[t].thread == t
  }

  /** The scheduler's table of sleeping threads. */
  class WaitChannels {
    var asleep: Sleepers

    ghost predicate Valid()
      reads this
    {
      OwnThreadChannels(asleep)
    }

    constructor ()
      ensures Valid() && asleep == map[]
    {
      asleep := map[];
    }

    /** thread_sleep: the running thread `cur` blocks on channel `c`. */
    method ThreadSleep(cur: ThreadId, c: Chan)
      requires Valid() && cur !in asleep
      requires c.ThreadChan? ==> c.thread == cur
      modifies this
      ensures Valid() && asleep == Sleep(old(asleep), cur, c)
    {
      asleep := Sleep(asleep, cur, c);
    }

    /** thread_wakeup: all threads asleep on `c` become runnable. */
    method ThreadWakeup(c: Chan)
      requires Valid()
      modifies this
      ensures Valid() && asleep == Wakeup(old(asleep), c)
    {
      asleep := Wakeup(asleep, c);
    }
  }
}
