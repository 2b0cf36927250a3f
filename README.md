# os161 synchronization primitives in Dafny

This project models the three synchronization primitives of the os161 kernel
(`kern/thread/synch.c`) as sequential state machines over thread identities:

- the counting **semaphore** (`sem_create`, `sem_destroy`, `P`, `V`);
- the **lock**, with an `occupied` flag and a `holder` that move together
  (`lock_create`, `lock_destroy`, `lock_acquire`, `lock_release`,
  `lock_do_i_hold`);
- the **condition variable**, with a waiter `count` and an explicit FIFO
  queue of waiting threads (`cv_create`, `cv_destroy`, `cv_wait`,
  `cv_signal`, `cv_broadcast`).

Each C structure is a class whose fields the methods update in place
(`Semaphores.Semaphore`, `Locks.Lock`, `CondVars.CondVar`). The scheduler's
wait channels are a fourth class, `Threads.WaitChannels`: a map from each
sleeping thread to the channel (address) it sleeps on. `thread_sleep` adds
the caller to it and `thread_wakeup` removes every thread asleep on the given
channel.

Blocking is modelled one atomic pass at a time. P, V, `lock_acquire`,
`lock_release`, `cv_wait` and `cv_signal` each turn interrupts off
(`splhigh`), so a pass of any of them is one indivisible step.
`cv_broadcast` does not: it is a loop of `cv_signal` calls, and another
thread can run between two of them (see "## Left out"). One call to
`Semaphore.P` or `Lock.Acquire` is one pass of the source's wait loop:
either the guard lets the caller through and the call completes (`true`), or
the caller goes to sleep on the primitive's channel and the call returns
`false`. After a wakeup, the thread runs the pass again. This repeat is the
loop's recheck. `cv_wait` is split at its `thread_sleep`. `CondVar.Wait`
releases the lock, enqueues the caller and puts it to sleep.
`CondVar.WaitReacquire` is the `lock_acquire` that the woken waiter runs
afterwards.

Beside each class there is a value-level specification: `SemState`,
`LockState` and `CvState`. It has step functions, an invariant `Inv` and a
trace semantics `Run` over sequences of operations by arbitrary threads.
The postconditions of P, V, `Lock.Acquire`, `Lock.Release`, `CondVar.Wait`,
`CondVar.WaitReacquire` and `CondVar.Signal` state the new state as the step
function applied to the old state. `CondVar.Broadcast` states its final state
directly: count 0, an empty queue, and exactly the queued threads woken.
`BroadcastWakesAllInOrder` ties that outcome to repeated signals. Lemmas then prove the following properties over all traces:

- the semaphore's count never goes negative, and it balances its P and V
  operations;
- the lock invariant holds, and only a release takes the lock away from its
  holder;
- the condition variable wakes waiters in strict FIFO order, and
  `count == |queue|` holds.

Where the usual description of these primitives and the code disagree, the
model follows the code:

- `cv_signal` with no waiter is not a no-op. The code decrements `count` and
  removes the head of the queue unconditionally, so `CondVar.Signal` requires
  a waiter.
- The holder of a lock that calls `lock_acquire` again passes straight
  through. The loop blocks only when the lock is occupied by a different
  thread.
- `lock_destroy` asserts nothing about holders or sleepers, so
  `Lock.Destroy` requires nothing beyond a live lock.
- `lock_release` does not check who calls it.

## Model

| member | source | states |
|---|---|---|
| Threads.Sleep | os161/kern/thread/synch.c:79 | thread_sleep: the running caller becomes the only new sleeper; everyone else keeps its channel; the channel's sleeper set grows by exactly the caller |
| Threads.Wakeup | os161/kern/thread/synch.c:94 | thread_wakeup: exactly the threads asleep on the channel leave the table, the others keep their channel; afterwards nobody sleeps on it |
| Threads.WaitChannels.ThreadSleep | os161/kern/thread/synch.c:149 | the scheduler table changes as Sleep says; thread addresses are only slept on by their own thread |
| Threads.WaitChannels.ThreadWakeup | os161/kern/thread/synch.c:175 | the scheduler table changes as Wakeup says |
| Semaphores.PStep | os161/kern/thread/synch.c:77-83 | a pass of P completes iff count > 0; then count is exactly one lower; otherwise the caller sleeps on the semaphore and count stays 0; count never goes negative; the invariant (count >= 0, no sleeper while count > 0) is kept |
| Semaphores.VStep | os161/kern/thread/synch.c:91-95 | V raises count by exactly one, so it is > 0, and leaves no sleeper on the semaphore; the invariant is kept |
| Semaphores.RunAccounting | os161/kern/thread/synch.c:78-94 | over every sequence of P/V steps by any threads: final count = initial count + V operations - completed P operations, so completed P operations never exceed initial count + V operations, and the invariant holds in every reachable state |
| Semaphores.HandOff | os161/kern/thread/synch.c:78-94 | with count 0, a blocks in P, b calls V, a's retried pass completes, and count is 0 again |
| Semaphores.Semaphore.constructor | os161/kern/thread/synch.c:23-37 | sem_create demands initial_count >= 0 and yields a semaphore whose count equals it |
| Semaphores.Semaphore.Destroy | os161/kern/thread/synch.c:44-48 | sem_destroy demands that no thread sleeps on the semaphore |
| Semaphores.Semaphore.P | os161/kern/thread/synch.c:63-84 | P changes count and the sleepers exactly as PStep says; it either completes or puts the caller to sleep on the semaphore's channel, and no other thread's sleep state changes |
| Semaphores.Semaphore.V | os161/kern/thread/synch.c:86-96 | V changes count as VStep says and wakes exactly the sleepers on the semaphore's channel |
| Locks.AcquireStep | os161/kern/thread/synch.c:146-154 | a pass of lock_acquire blocks iff the lock is occupied by a different thread, so the holder re-acquiring passes; on completion occupied == 1 and holder == caller; the lock invariant is kept |
| Locks.ReleaseStep | os161/kern/thread/synch.c:168-175 | lock_release sets occupied = 0 and holder = NULL whoever calls, leaves no sleeper, and establishes the invariant |
| Locks.RunKeepsInv | os161/kern/thread/synch.c:119-175 | starting from any state satisfying the invariant, every sequence of acquire/release steps keeps it: occupied is 0 or 1, occupied == 1 iff holder != NULL, nobody sleeps on a free lock, the holder never sleeps on its own lock |
| Locks.OnlyReleaseFreesLock | os161/kern/thread/synch.c:147-154 | once t holds the lock, acquires by other threads never take it: without a release t remains the holder |
| Locks.Contention | os161/kern/thread/synch.c:135-181 | a acquires, b's acquire blocks, a releases, b's retried acquire completes and b is the holder |
| Locks.Lock.constructor | os161/kern/thread/synch.c:119-122 | lock_create yields a free lock with no holder |
| Locks.Lock.Destroy | os161/kern/thread/synch.c:125-133 | lock_destroy frees the lock and demands nothing else |
| Locks.Lock.Acquire | os161/kern/thread/synch.c:135-160 | lock_acquire changes the fields and the sleepers exactly as AcquireStep says; the invariant is kept |
| Locks.Lock.Release | os161/kern/thread/synch.c:162-181 | lock_release changes the fields as ReleaseStep says, wakes exactly the sleepers on the lock, and keeps the invariant |
| Locks.Lock.DoIHold | os161/kern/thread/synch.c:183-189 | lock_do_i_hold is true iff the caller is the holder, and (for a valid lock) holding implies the lock is occupied; it reads state and changes nothing |
| CondVars.WaitStep | os161/kern/thread/synch.c:259-263 | cv_wait raises count by one and appends the caller at the tail of the queue, keeping count == \|queue\| and no repeats |
| CondVars.SignalStep | os161/kern/thread/synch.c:288-291 | cv_signal (with count > 0) lowers count by one and removes the head of the queue, which is the oldest waiter and the thread woken; count == \|queue\| is kept |
| CondVars.RunIsFifo | os161/kern/thread/synch.c:257-294 | over every sequence of waits and signals: the queued waiters followed by the threads that wait during the run equal the threads woken, in wake order, followed by those still queued (strict FIFO), and count == \|queue\| holds at the end |
| CondVars.BroadcastWakesAllInOrder | os161/kern/thread/synch.c:310-319 | signalling until count == 0 takes exactly count signals, wakes every waiter in queue order, and ends with count == 0 and an empty queue |
| CondVars.ThreeWaiters | os161/kern/thread/synch.c:259-294 | a, b and c wait in that order; three signals wake a, then b, then c |
| CondVars.CondVar.constructor | os161/kern/thread/synch.c:212-216 | cv_create yields count 0 and an empty queue |
| CondVars.CondVar.Destroy | os161/kern/thread/synch.c:226-228 | cv_destroy demands count == 0 and an empty queue |
| CondVars.CondVar.Wait | os161/kern/thread/synch.c:245-265 | cv_wait demands that the caller holds the lock. It releases the lock (as ReleaseStep says, waking the lock's sleepers), changes count and queue as WaitStep says, and puts the caller to sleep on its own thread address; every queued thread stays asleep |
| CondVars.CondVar.WaitReacquire | os161/kern/thread/synch.c:267 | once woken, the waiter runs one pass of lock_acquire, using only the lock, so the condition variable may already be destroyed: the lock and its sleepers change exactly as AcquireStep says; it blocks only if another thread holds the lock, and then sleeps on the lock's channel with no other change to the scheduler table; on completion it holds the lock again and the table is unchanged |
| CondVars.CondVar.Signal | os161/kern/thread/synch.c:282-294 | cv_signal demands that the caller holds a live lock and that count > 0; it changes count and queue as SignalStep says and wakes exactly the old head of the queue and no other thread |
| CondVars.CondVar.Broadcast | os161/kern/thread/synch.c:303-319 | cv_broadcast demands that the caller holds a live lock; it ends with count == 0 and an empty queue, having woken exactly the threads that were queued |
| CondVars.DestroyBeforeReacquire | os161/kern/thread/synch.c:222-267 | a waits; b takes the lock, broadcasts, destroys the condition variable (its count is 0 and its queue empty, so cv_destroy's checks pass) and releases the lock; a's re-acquire then completes and a holds the lock |

## Left out

- Allocation failure in `sem_create`, `lock_create` and `cv_create`. The
  `kmalloc` and `kstrdup` calls can fail and return NULL. The constructors
  model the successful path only.
- Name strings (`kstrdup`, `kfree` of the name). They are diagnostics only.
- Freeing memory. `kfree` is modelled only as a ghost `live` flag. Each
  Destroy clears it, and every method that uses a primitive requires it. The
  query `Lock.DoIHold` does not require it, because it is a function that
  only reads the fields. `CondVar.WaitReacquire` requires a live lock but not
  a live condition variable, because it touches only the lock.
- `splhigh`/`splx` and the `in_interrupt` assertions. Each operation is
  treated as one atomic step.
- `q_preallocate` and the queue library's storage. The queue is a Dafny
  `seq`.
- The scheduler behind `thread_sleep`/`thread_wakeup`: context switches, run
  queues and fairness. Only the table of sleeping threads is modelled.
  `thread_hassleepers` is read directly from that table in
  `Semaphore.Destroy`'s precondition.
- Interleavings of many threads, liveness and deadlock. The model is
  sequential. A thread that is blocked inside P, `lock_acquire` or `cv_wait`
  and is then woken resumes by calling the pass again. The traces in the
  `Run` functions treat a step by a sleeping thread as impossible (`None`).
- Semaphores.VStep: does not model overflow of the C `int` count at
  `INT_MAX`. The count is an unbounded integer.
- Other code sleeping on a thread's address. The model assumes that a thread
  address is slept on only by that thread itself, as `cv_wait` does with
  `thread_sleep(curthread)`. `WaitChannels.ThreadSleep` enforces this. Code
  outside this file that sleeps on another thread's address is not
  modelled. `CondVar.Signal`'s promise to wake exactly the old head, and no
  other thread, rests on this assumption.
- Locks.Lock.Destroy: the code does not check that the lock is free or
  unwaited, so the model does not either.
- CondVars.CondVar.Broadcast: is one atomic method, but `cv_broadcast` does
  not turn interrupts off itself. Each `cv_signal` does so on its own, so
  another thread can run between two signals. The promise to wake exactly
  the threads queued at the call therefore holds only when every thread uses
  the condition variable with the same lock, which the broadcaster holds
  throughout. The code does not enforce this: `cv_wait` and `cv_signal`
  accept any lock the caller holds, and so do `CondVar.Wait` and
  `CondVar.Signal`.
