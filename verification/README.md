# Verified model of a pthread library

The library is the Hurd's implementation of POSIX threads. Every blocking primitive is built on one small
protocol: an intrusive queue link in each thread (`next`, `prevp`), a private wakeup port that holds one message,
a spin lock and a wait queue per primitive, and direct handoff to the thread that is taken off. This project
models that protocol, everything that blocks through it, the lifecycle of threads, thread-specific data, and two
small companions.

The configuration is the one with assertions enabled and without owner tracking for normal mutexes, so that an
unlock sets the owner of a typed mutex when it hands the mutex over.

| files | what they model |
|---|---|
| `base.dfy` | shared vocabulary |
| `links.dfy` | the thread structure, its queue links at the level of pointers |
| `mutex.dfy`, `rwlock.dfy`, `semaphore.dfy`, `barrier.dfy`, `condition.dfy` | each primitive: every spin-locked section as a function on values, and as code on the heap proved to compute it |
| `blocking.dfy` | queues, ports and sends in flight, for any number of threads; the one-place invariant |
| `*_protocol.dfy` | one primitive among any number of threads, with the history that says what it refines |
| `system.dfy`, `system_proof.dfy`, `theorems.dfy` | all primitives together, the steps, the invariant and runs |
| `frames.dfy` | what each kind of step leaves alone |
| `mutex_results.dfy`, `counting_results.dfy`, `cancel_results.dfy` | what holds in every reachable state and every run |
| `progress_results.dfy` | who is stuck, and what for |
| `effects.dfy` | what each call does to the abstract state of its primitive, in every reachable state |
| `wait_results.dfy`, `call_results.dfy` | what condition waits and cancellation calls do and return, traced through runs |
| `timeout_results.dfy`, `leak_results.dfy`, `breach_results.dfy` | where the code falls short: exactly when, with runs that show it |
| `thread_table.dfy`, `lifecycle*.dfy` | the thread table, creation, exit, join, detach and reuse |
| `join_results.dfy`, `join_runs.dfy` | what a join returns and who wakes it, and runs that show how it can go wrong |
| `flag_results.dfy` | where a thread's cancellation flags and detached state come from |
| `keys.dfy`, `specific.dfy`, `specific_world.dfy` | keys, thread-specific values, their destructors; both together with the lifecycle |
| `deadline.dfy` | the conversion of a deadline to milliseconds |
| `atfork.dfy` | fork handlers |

A spin-locked section is one atomic step. Sending a wakeup after the section, receiving it, timing out, retaking
the queue lock and draining the port are steps of their own, in any order that the program of each thread allows.
Functions on values specify the sections; the methods on the heap have them as their contracts; the transition
systems are built from the same functions. Fields called history in the comments are read by no step.

## What the code does that its documentation does not say

* A timed lock, read lock, write lock or wait on a semaphore that times out just as it is handed what it waits
  for drains the message and reports ETIMEDOUT all the same. The grant is lost: `LateTimeout`, `LateRead`,
  `LateWrite` and `LateDown` say exactly when, `GivenAway` what is lost, four lemmas exhibit runs, and
  `OrphanForever` and `RwOrphanForever` say that it stays lost.
* An invalid deadline noticed with the spin lock taken leaves it taken for good, and so does a barrier with a count
  of one: `LeaksIff`, `WedgedIff`, `LeakedForever`, `LeaksHappen`.
* The cancellation hook dequeues the thread it finds queued, on whatever queue. If that is the thread's own
  `cancel_lock`, the thread is let in while the canceller still holds it: `HookTestAgreesIff`, `BreachedIff`,
  `BreachHappens`.
* Transferring a normal mutex always fails the assertion that the caller is its owner: `TransferAssertionIff`.
* Queues are last in, first out, and readers pass waiting writers: `EntersIff`.
* The broadcast of `__pthread_dealloc` is meant to release a joiner of a thread that was never started. It comes
  before the state change such a joiner looks for; a joiner that looks in between goes on waiting, on a structure
  that is free for reuse, until it is woken for the next thread that gets the structure; if that is by its exit, the
  join returns the status of that thread: `StrandedIff`, `StrandedHappens`, `LaterUseHappens`.
* Fork handlers run in the opposite of the documented order: `PromiseKeptIff`.
* A later deadline can get a shorter timeout, by a millisecond, and one beyond 2^32 - 1 milliseconds one that has
  wrapped: `ShorterIff`, `FitsIff`.

## Model

| member | source | states |
|---|---|---|
| `Links.WaitQueue.Enqueue` | pthread/pt-internal.h:120-131 | on the pointers: the element goes to the front of the queue, in constant time, and gets a `prevp`; the queue stays well linked |
| `Links.Pthread.Dequeue` | pthread/pt-internal.h:133-144 | an element is unlinked from any position without knowing the head; exactly it goes, the others keep their order, its stale `next` is left alone |
| `Links.Pthread.Unlink` | pthread/pt-internal.h:133-144 | the same by position: the sequence loses exactly index k |
| `Links.Pthread.Recheck` | sysdeps/generic/pt-mutex-timedlock.c:139-153 | retaking the queue lock after blocking: the caller is on no queue afterwards, and has a message to drain exactly if it timed out and had already been taken off |
| `Links.Pthread.Wakeup` | sysdeps/mach/pt-wakeup.c:29-38 | a send puts one message into a port that must be empty, and is entered in the sender's log with what `prevp` was at that moment |
| `Links.WaitQueue.WakeAll` | pthread/pt-internal.h:154-162 | the dequeuing iteration clears the `prevp` of every element and then sends it one message, in order, and sends nothing else |
| `Links.WalkDetached` | sysdeps/generic/pt-barrier-wait.c:37-45 | the unlocked walk sends exactly one message to each thread of the chain that was cut off, in order, each with its `prevp` cleared before, and none to anybody else, though every thread woken so far and every outsider may relink itself at once |
| `Links.SoleMembership` | pthread/pt-internal.h:114-117 | one `prevp` per thread: a thread is in at most one queue, at one position |
| `Links.PrevpIffQueued` | pthread/pt-internal.h:115-144 | over all queues and threads: `prevp` is set exactly if the thread is in a queue, and then in one only |
| `Links.EnqueueAmong` | pthread/pt-internal.h:120-131 | queueing keeps that true of all queues and changes no other queue |
| `Links.DequeueAmong` | pthread/pt-internal.h:133-144 | so does dequeuing |
| `Mutex.PthreadMutex.LockEnter` | sysdeps/generic/pt-mutex-timedlock.c:43-128 | the section up to blocking: new state, new queue and result are those of `LockSection`; the spin lock stays taken exactly on EINVAL |
| `Mutex.PthreadMutex.LockEpilogue` | sysdeps/generic/pt-mutex-timedlock.c:164-188 | the tail of a lock that was handed the mutex takes it over as a fresh holder would |
| `Mutex.PthreadMutex.TryLock` | sysdeps/generic/pt-mutex-trylock.c:28-109 | succeeds exactly for a free mutex, which it takes, or a recursive one of the caller, which it nests; otherwise nothing changes; never EDEADLK |
| `Mutex.PthreadMutex.Unlock` | sysdeps/generic/pt-mutex-unlock.c:38-104 | EPERM, one level less, release, or handoff to the first waiter, with the exact new state and queue |
| `Mutex.PthreadMutex.PassOn` | sysdeps/generic/pt-mutex-unlock.c:79-101 | the last hold goes to the head of the queue, which alone is removed, or the mutex is free |
| `Mutex.PthreadMutex.Transfer` | sysdeps/generic/pt-mutex-transfer-np.c:27-64 | fails exactly for an unknown thread, and then changes nothing; otherwise the owner is the thread named, of a mutex of any type that has one, and nothing else changes |
| `RwLock.PthreadRwlock.ReadEnter` | sysdeps/generic/pt-rwlock-timedrdlock.c:36-71 | reader entry up to blocking, with the code's assertions |
| `RwLock.PthreadRwlock.WriteEnter` | sysdeps/generic/pt-rwlock-timedwrlock.c:36-57 | writer entry up to blocking |
| `RwLock.PthreadRwlock.TryRead` | sysdeps/generic/pt-rwlock-tryrdlock.c:27-56 | a reader joins or is refused at once |
| `RwLock.PthreadRwlock.TryWrite` | sysdeps/generic/pt-rwlock-trywrlock.c:27-46 | a writer gets a free lock or is refused at once |
| `RwLock.PthreadRwlock.Unlock` | sysdeps/generic/pt-rwlock-unlock.c:32-86 | one reader less, handoff to the first writer, admission of all queued readers, or release; both queues exactly |
| `Semaphore.Sem.Down` | sysdeps/generic/sem-timedwait.c:34-53 | a unit is taken exactly if the value is positive; otherwise the caller queues, or is refused with EINVAL and leaves the spin lock taken |
| `Semaphore.Sem.TryDown` | sysdeps/generic/sem-trywait.c:26-42 | succeeds exactly if the value is positive, and takes one unit then; otherwise nothing changes |
| `Semaphore.Sem.Post` | sysdeps/generic/sem-post.c:30-59 | a unit is counted or goes to the first waiter, never both |
| `Barrier.PthreadBarrier.Enter` | sysdeps/generic/pt-barrier-wait.c:29-56 | the locked section: counts down and queues, or resets the count and cuts off exactly the threads of the round; the spin lock leaks exactly if the count is one |
| `Barrier.PthreadBarrier.Wait` | sysdeps/generic/pt-barrier-wait.c:37-60 | the whole call: whoever is not last must wait and sends nothing; the last thread of a round sends one message to each of the others, in order, and no other, though those already woken and any outsider may enter the same barrier or another meanwhile |
| `Condition.PthreadCond.Signal` | sysdeps/generic/pt-cond-signal.c:31-38 | takes the first waiter off, if there is one |
| `Condition.PthreadCond.Broadcast` | sysdeps/generic/pt-cond-brdcast.c:30-35 | takes every waiter off and wakes each, in order |
| `Condition.PthreadCond.CancelHook` | sysdeps/generic/pt-cond-timedwait.c:45-62 | the code's test and its dequeue: a wakeup is due exactly if `prevp` was set; then the thread is taken off whatever queue its `prevp` puts it on, and of that queue it alone goes |
| `Condition.PthreadCond.WaitArm` | sysdeps/generic/pt-cond-timedwait.c:93-116 | under `cancel_lock`: act on a pending request, or set the hook, go deferred and queue, all or nothing |
| `Condition.PthreadCond.WaitRecheck` | sysdeps/generic/pt-cond-timedwait.c:133-156 | afterwards the waiter is on no queue; it drains exactly if it timed out and somebody else had taken it off |
| `Condition.PthreadCond.WaitDisarm` | sysdeps/generic/pt-cond-timedwait.c:163-169 | the hook is cleared and the type restored before a pending request is looked for |
| `Condition.PthreadCond.RequestCancel` | pthread/pt-cancel.c:34-60 | afterwards the request is pending, whatever the target was doing; a hook is to be run exactly for a new request to an enabled, deferred and hooked thread, and then the target's own; cancelling at once is due exactly for an enabled asynchronous one |
| `Blocking.ExactlyOnePlace` | sysdeps/generic/pt-mutex-timedlock.c:126-156 | where the wakeup of a blocked thread is: on its queue, owed by exactly one waker, or in its port, and only one of these |
| `Blocking.SendKeeps` | sysdeps/mach/pt-wakeup.c:29-38 | a send never finds the port full, and keeps the invariant |
| `Blocking.RecheckKeeps` | sysdeps/generic/pt-mutex-timedlock.c:139-153 | a thread that finds itself queued timed out: no call leaves early with success |
| `Theorems.StepKeeps` | sysdeps/generic/pt-cond-timedwait.c:77-177 | every atomic step of every thread, on any mix of primitives, keeps the invariant of the whole library |
| `Theorems.RunKeeps` | sysdeps/generic/pt-cond-timedwait.c:77-177 | so it holds in every state of every run of any number of threads and primitives |
| `Theorems.AssertionsNeverFail` | sysdeps/generic/pt-rwlock-timedrdlock.c:40-62 | none of the assertions on owners, held flags, counts, empty queues, timeouts and recursion depths of lock, unlock, wait and post can fail in a reachable state; the one in transfer can, see `TransferAssertionIff` |
| `Frames.OthersUntouched` | sysdeps/generic/pt-mutex-timedlock.c:126-162 | leaving a wait, with success or not, touches no queue and no primitive but the one that was waited for |
| `MutexResults.OneWakeup` | sysdeps/generic/pt-mutex-timedlock.c:126-156 | in every reachable state: a thread that has taken neither wakeup nor timeout exit is in exactly one of queue, owed send, port; any other is in none |
| `MutexResults.PortNeverOverflows` | sysdeps/mach/pt-wakeup.c:34-37 | the one-message port is empty whenever a send to it is due |
| `MutexProtocol.LockAcquiresIff` | sysdeps/generic/pt-mutex-timedlock.c:43-116 | when a lock succeeds or reports a deadlock, and when trylock succeeds, in terms of the abstract holder |
| `MutexProtocol.UnlockRefusesIff` | sysdeps/generic/pt-mutex-unlock.c:53-104 | when an unlock is refused, and that it frees the mutex exactly if nobody waits and otherwise hands it to a waiter |
| `MutexProtocol.LockOutcome` | sysdeps/generic/pt-mutex-timedlock.c:43-128 | a caller that returns success owns the mutex, one that must wait is queued, and otherwise nothing changes hands |
| `MutexProtocol.EpilogueKeeps` | sysdeps/generic/pt-mutex-timedlock.c:164-188 | a woken caller really was granted the mutex; its assertions on owner and depth hold |
| `MutexResults.MutexSectionRefines` | sysdeps/generic/pt-mutex-unlock.c:38-104 | each section is a step of a single-owner lock with direct handoff |
| `MutexResults.MutexRefines` | sysdeps/generic/pt-mutex-unlock.c:38-104 | in every run, every step of every thread is such a step, for every mutex that is neither tainted (`TaintedIff`) nor a breached `cancel_lock` (`BreachedIff`): from a grant only its grantee goes on |
| `MutexResults.TaintedIff` | sysdeps/generic/pt-mutex-timedlock.c:155-162 | a mutex is tainted exactly if some timed lock gave up a grant of it earlier in the run |
| `MutexResults.UntimedNeverTainted` | sysdeps/generic/pt-mutex-timedlock.c:130-136 | so one that is never locked with a deadline is not |
| `MutexResults.TransferAssertionIff` | sysdeps/generic/pt-mutex-transfer-np.c:27-37 | the assertion that opens a transfer holds exactly for the holder of a typed mutex; on a normal one it fails for everybody |
| `MutexProtocol.QueuesAgree` | sysdeps/generic/pt-mutex-timedlock.c:126-128 | the queue in the transition system after a lock or unlock is the one the code's section computes |
| `MutexResults.MutexExclusive` | sysdeps/generic/pt-mutex-timedlock.c:43-188 | at most one holder or grantee, of any mutex of the program and of any `cancel_lock` not breached; a free mutex has no waiters and no owner; a recursive mutex's `locks` is the nesting depth and 0 only while granted |
| `TimeoutResults.LateTimeout` | sysdeps/generic/pt-mutex-timedlock.c:139-162 | a timed-out lock that retakes the queue lock leaves at once exactly if it is still queued; it is off the queue exactly if it has been granted the mutex |
| `TimeoutResults.LateRead` | sysdeps/generic/pt-rwlock-timedrdlock.c:82-105 | the same for a read lock and its grant |
| `TimeoutResults.LateWrite` | sysdeps/generic/pt-rwlock-timedwrlock.c:68-91 | the same for a write lock |
| `TimeoutResults.LateDown` | sysdeps/generic/sem-timedwait.c:64-88 | the same for a unit of a semaphore |
| `TimeoutResults.GivenAway` | sysdeps/generic/sem-timedwait.c:80-88 | what reporting ETIMEDOUT then gives away: the mutex, the read hold, the write hold or the unit that was granted, exactly that, and the primitive itself does not notice |
| `TimeoutResults.OrphanReadHappens` | sysdeps/generic/pt-rwlock-timedrdlock.c:98-105 | a run after which nobody reads and the lock counts a reader |
| `TimeoutResults.OrphanWriteHappens` | sysdeps/generic/pt-rwlock-timedwrlock.c:84-91 | a run after which nobody writes and the lock is held |
| `TimeoutResults.LostUnitHappens` | sysdeps/generic/sem-timedwait.c:80-88 | a run with one post and no successful wait after which the value is zero and nobody waits |
| `TimeoutResults.OrphanHappens` | sysdeps/generic/pt-mutex-timedlock.c:155-162 | a run in which both threads are back in user code, neither has the mutex, and it is held |
| `TimeoutResults.OrphanStays` | sysdeps/generic/pt-mutex-timedlock.c:155-162 | no step of any thread frees or hands on a normal mutex orphaned so |
| `TimeoutResults.OrphanForever` | sysdeps/generic/pt-mutex-timedlock.c:155-162 | so it stays orphaned to the end of every run |
| `LeakResults.LeaksIff` | sysdeps/generic/pt-mutex-timedlock.c:123-124 | a step of any thread leaves the spin lock of a mutex, read-write lock, semaphore or barrier taken exactly if it was, or if it is a timed call with an invalid deadline that finds the primitive busy, or enters a barrier with a count of one |
| `LeakResults.WedgedIff` | sysdeps/generic/pt-rwlock-timedwrlock.c:50-51 | so in a run a spin lock is left taken exactly if some earlier call leaked it |
| `LeakResults.LeaksHappen` | sysdeps/generic/sem-timedwait.c:43-47 | and each kind of leak is reachable |
| `LeakResults.LeakedForever` | sysdeps/generic/pt-mutex-timedlock.c:123-124 | once leaked, no section of that primitive is entered again to the end of the run |
| `RwLockProtocol.EntersIff` | sysdeps/generic/pt-rwlock-timedrdlock.c:36-57 | a reader enters exactly if no writer has the lock or was promised it, a writer exactly if nobody has or was promised anything; waiting writers do not keep readers out |
| `RwLockProtocol.UnlockPassesOn` | sysdeps/generic/pt-rwlock-unlock.c:36-86 | the last unlock passes the lock to exactly one queued writer, else to every queued reader, else to nobody; an earlier one lets nobody in |
| `RwLockProtocol.UnlockKeeps` | sysdeps/generic/pt-rwlock-unlock.c:32-86 | an unlock by a holder keeps reader count, grants and queues in agreement |
| `RwLockProtocol.AssertionsHold` | sysdeps/generic/pt-rwlock-timedrdlock.c:40-53 | a free lock has empty queues and no readers; with readers inside, no reader is queued |
| `CountingResults.RwExclusive` | sysdeps/generic/pt-rwlock-unlock.c:32-86 | in every reachable state: one writer, or readers only, counting those still on their way in; `readers` is active plus granted plus orphaned readers |
| `CountingResults.RwOrphanForever` | sysdeps/generic/pt-rwlock-timedwrlock.c:84-91 | to the end of every run a write grant drained by a timeout shuts everybody out and a drained read grant shuts writers out |
| `RwLockProtocol.QueuesAgree` | sysdeps/generic/pt-rwlock-unlock.c:32-86 | the two queues in the transition system are those the code's sections compute |
| `SemaphoreProtocol.PostKeeps` | sysdeps/generic/sem-post.c:30-57 | a post keeps the ledger balanced whether it counts or hands over |
| `CountingResults.SemaphoreBalances` | sysdeps/generic/sem-timedwait.c:34-90 | initial value + posts = value + successful waits + grants in flight + grants drained by a timeout; nobody waits ungranted while the value is positive |
| `SemaphoreProtocol.QueuesAgree` | sysdeps/generic/sem-post.c:30-59 | the queue in the transition system is the one the code's sections compute |
| `BarrierProtocol.EnterKeeps` | sysdeps/generic/pt-barrier-wait.c:28-58 | entering keeps every round, past and current, consistent |
| `BarrierProtocol.RoundsAreExact` | sysdeps/generic/pt-barrier-wait.c:28-60 | a completed round has exactly count members, one serial; the rest have left with 0 or are on their way out |
| `CountingResults.BarrierRounds` | sysdeps/generic/pt-barrier-wait.c:28-60 | the same in every reachable state, over any number of rounds |
| `CountingResults.BarrierWakesCompletedRounds` | sysdeps/generic/pt-barrier-wait.c:44-59 | a thread woken from a barrier belongs to a completed round and is not its serial thread |
| `CountingResults.WokenMayLeave` | sysdeps/generic/pt-barrier-wait.c:53-60 | a thread that has received its wakeup finds its round complete: nothing can keep it in the barrier |
| `BarrierProtocol.QueuesAgree` | sysdeps/generic/pt-barrier-wait.c:28-52 | the queue in the transition system is the one the code's section computes |
| `CancelResults.CancelNotLost` | pthread/pt-cancel.c:41-60 | once a request is pending (`CancelRecords`), an enabled thread is on no condition queue, unless its canceller holds its `cancel_lock` and is about to run the hook |
| `CancelResults.HookTestAgreesIff` | sysdeps/generic/pt-cond-timedwait.c:52-57 | the hook asks whether the thread is on any queue where it means the condition's: the two agree exactly if the thread is not queued on its own `cancel_lock` |
| `CancelResults.HookTakesWaiterOff` | sysdeps/generic/pt-cond-timedwait.c:52-61 | running the hook takes the thread off whatever queue it is on and owes it a wakeup |
| `BreachResults.BreachedIff` | sysdeps/generic/pt-cond-timedwait.c:52-61 | in a run a `cancel_lock` is breached exactly if some canceller's hook ran while the thread it cancels was queued on that lock |
| `BreachResults.BreachLetsIn` | sysdeps/generic/pt-cond-timedwait.c:52-61 | then the canceller still holds the lock, and the thread is on no queue and owed a wakeup that lets it in |
| `BreachResults.BreachHappens` | pthread/pt-cancel.c:54-59 | a run of three threads after which a canceller and the thread it cancels are both inside sections of the same `cancel_lock` |
| `BreachResults.NoBreachNoOverlap` | pthread/pt-cancel.c:34-60 | without a breach no two threads ever are |
| `CancelResults.HookArgumentIsLive` | sysdeps/generic/pt-cond-timedwait.c:99-100 | the hook argument is set only while the frame it points into is live, names the condition waited on, and is what a canceller follows |
| `CancelResults.CancelLockIsSound` | pthread/pt-cancel.c:34-60 | a `cancel_lock` that is not breached is held by the one thread inside a section that needs it, and never orphaned |
| `CancelResults.SignalFindsWaiter` | sysdeps/generic/pt-cond-timedwait.c:110-122 | release and wait are atomic: in every run a signal or broadcast after the waiter's release finds it queued, or one of the four causes has taken it off since it armed this wait |
| `CancelResults.WaitsBeforeRelease` | sysdeps/generic/pt-cond-timedwait.c:110-122 | from before the mutex is released the waiter waits on the condition, and it has the mutex up to its release |
| `CancelResults.ReleaseReleases` | sysdeps/generic/pt-cond-timedwait.c:121-122 | the release gives the mutex up, unless a recursive one is held more than once |
| `CancelResults.ExitHoldsMutex` | sysdeps/generic/pt-cond-timedwait.c:77-177 | woken, timed out, refused or cancelled, the waiter has the mutex when it leaves; one orphaned before is at least left with it (what it returns is `WaitReturns`) |
| `CancelResults.SignalTakesOne` | sysdeps/generic/pt-cond-signal.c:31-38 | a signal takes exactly the first waiter and owes it a wakeup |
| `CancelResults.BroadcastTakesAll` | sysdeps/generic/pt-cond-brdcast.c:30-35 | a broadcast leaves nobody queued and owes each thread it took off one wakeup, in order; each of them, and nobody else, is still waiting for one, on no queue and with an empty port |
| `CancelResults.RemovalCause` | sysdeps/generic/pt-cond-timedwait.c:52-57 | a waiter leaves a condition queue by a signal, a broadcast, its own canceller's hook or its own timeout, and by no other step of any thread |
| `WaitResults.WaitReturns` | sysdeps/generic/pt-cond-timedwait.c:77-177 | in every run, every wait that returns was called before, and comes back with the mutex it was called with and the cancellation state and type as they were at the call; ETIMEDOUT exactly if its receive timed out since the call, EINVAL at once for an invalid deadline, cancelled exactly if one of its two sections under `cancel_lock` found an enabled request |
| `WaitResults.UntimedReturnsNoError` | sysdeps/generic/pt-cond-timedwait.c:126-177 | a wait without a deadline returns 0 |
| `WaitResults.CancelRecords` | pthread/pt-cancel.c:34-41 | in every run, when a pthread_cancel has returned its request is pending, and stays so, whatever the target was doing and whoever else cancels |
| `WaitResults.PendingForever` | pthread/pt-cancel.c:41-42 | no step of any thread takes a pending request back |
| `WaitResults.RequestIsHeeded` | sysdeps/generic/pt-cond-timedwait.c:93-172 | a wait that comes to one of its sections under `cancel_lock` with a request recorded earlier and cancellation enabled is cancelled |
| `CallResults.WaitReleases` | sysdeps/generic/pt-cond-timedwait.c:110-126 | in every run, a wait that blocks released the mutex it was called with after its call and before |
| `CallResults.SettingInForce` | pthread/pt-setcancelstate.c:26-47 | in every run, when pthread_setcancelstate or (pthread/pt-setcanceltype.c) -type is back in user code, what it set is in force and the other setting is as it was, whatever other threads did |
| `ProgressResults.StuckIff` | sysdeps/generic/pt-mutex-timedlock.c:126-162 | in every reachable state, a thread has no step left exactly if it is asleep in a receive without a deadline, has to drain a message still to come, needs a spin lock that was leaked, or is about to cancel another thread asynchronously: no call gets stuck anywhere else |
| `ProgressResults.NobodySleepsInVain` | sysdeps/generic/pt-mutex-timedlock.c:109-141 | whoever sleeps either is in the queue for something that is not to be had (a held mutex, a lock with a writer or readers, a semaphore at zero, a condition, a barrier not complete), or is owed a wakeup by a thread that is free to send it |
| `ProgressResults.DrainIsOwed` | sysdeps/generic/pt-mutex-timedlock.c:155-162 | the message that a timed-out thread stays to drain is always on its way |
| `Effects.LockEffect` | sysdeps/generic/pt-mutex-timedlock.c:43-128 | in every reachable state: locks at once exactly if the mutex is free or a recursive one of the caller, one level deeper; EDEADLK changes nothing; otherwise the caller is first in the queue and nothing changes hands |
| `Effects.TryLockEffect` | sysdeps/generic/pt-mutex-trylock.c:28-109 | succeeds exactly in those two cases, and holds the mutex then; otherwise nothing changes |
| `Effects.UnlockEffect` | sysdeps/generic/pt-mutex-unlock.c:38-104 | refused without a change, one level less, free with nobody waiting, or granted to the first waiter, who is off the queue and owed a wakeup |
| `Effects.TransferEffect` | sysdeps/generic/pt-mutex-transfer-np.c:38-64 | fails exactly for no such thread, without a change; otherwise the thread named is the owner, for the mutex and in its record, at the same depth |
| `Effects.ReadEffect` | sysdeps/generic/pt-rwlock-timedrdlock.c:36-71 | one more reader exactly if no writer has the lock or was promised it; otherwise the caller is first in the readers' queue |
| `Effects.WriteEffect` | sysdeps/generic/pt-rwlock-timedwrlock.c:36-57 | the writer exactly if the lock is free; otherwise first in the writers' queue |
| `Effects.TryReadEffect` | sysdeps/generic/pt-rwlock-tryrdlock.c:27-56 | one more reader in that case, otherwise nothing changes |
| `Effects.TryWriteEffect` | sysdeps/generic/pt-rwlock-trywrlock.c:27-46 | the writer in that case, otherwise nothing changes |
| `Effects.RwUnlockEffect` | sysdeps/generic/pt-rwlock-unlock.c:32-86 | the caller's hold goes, and no other |
| `Effects.DownEffect` | sysdeps/generic/sem-timedwait.c:34-53 | a wait takes a unit exactly if the value is positive; otherwise the caller is first in the queue |
| `Effects.TryDownEffect` | sysdeps/generic/sem-trywait.c:26-42 | a trywait succeeds exactly if the value is positive: one less, one wait more; otherwise nothing changes |
| `Effects.PostEffect` | sysdeps/generic/sem-post.c:30-59 | one unit more if nobody waits; otherwise the first waiter gets it, is off the queue and owed a wakeup |
| `Effects.BarrierEffect` | sysdeps/generic/pt-barrier-wait.c:28-60 | all but the last of a round wait; the last one does not, completes the round as its serial and owes each of the others one wakeup, in order |
| `Effects.SetEffect` | pthread/pt-setcancelstate.c:26-47 | sets the caller's state or (pthread/pt-setcanceltype.c) type, whichever it names, and nothing else |
| `Effects.RequestEffect` | pthread/pt-cancel.c:34-60 | the request is recorded, and the hook run exactly if it is new and the target enabled, deferred and hooked |
| `ThreadTable.Table.Recycle` | pthread/pt-alloc.c:102-116 | the first structure on the free list whose state is TERMINATED is taken off; the others stay |
| `ThreadTable.Table.TakeSlot` | pthread/pt-alloc.c:154-167 | a free slot gives the next ID and is cleared; a full table gives none |
| `ThreadTable.Table.Enlarge` | pthread/pt-alloc.c:196-225 | if nobody else resized, the new table holds all old entries and one new ID; otherwise nothing changes |
| `ThreadTable.Table.SetId` | pthread/pt-internal.h:188-191 | exactly slot ID - 1 changes |
| `ThreadTable.Table.Dealloc` | pthread/pt-dealloc.c:33-64 | withdrawn from the table, put at the head of the free list, TERMINATED; unless it had exited, every waiter is taken off and sent one message |
| `ThreadTable.Exit` | pthread/pt-exit.c:67-106 | detached: the thread must give its structure back; joinable: EXITED, PTHREAD_CANCELED stored exactly if enabled with a request pending and the value passed otherwise, and one message sent to every waiter |
| `ThreadTable.Join` | pthread/pt-join.c:45-87 | each verdict exactly in its state: waits for a joinable thread, reaps an exited one with its status, EINVAL for a detached one, ESRCH for a terminated one |
| `ThreadTable.Detach` | pthread/pt-detach.c:39-89 | each verdict exactly in its state of the thread; the detach of a running thread sends its broadcast, one message to each joiner that waits |
| `LifecycleResults.StepKeeps` | pthread/pt-create.c:95-230 | every locked section and unlocked store of create, exit, join, detach and dealloc keeps the invariant, whoever names whom and when |
| `LifecycleResults.RunKeeps` | pthread/pt-alloc.c:102-230 | so it holds in every state of every run of any number of callers, up to a second reaping of the same thread |
| `JoinResults.DoubledIff` | pthread/pt-join.c:50-75 | that has happened in a run exactly if two joins or detaches have seen EXITED in the same use of a structure |
| `JoinResults.FairNeverDoubles` | pthread/pt-join.c:35-56 | it takes a structure that some call named against the rule |
| `JoinResults.FairIff` | pthread/pt-join.c:35-37 | which is: before its thread was started, or beside another join or detach of it |
| `JoinRuns.DoubledHappens` | pthread/pt-join.c:50-63 | two joins of one thread do it |
| `LifecycleResults.IdsDistinct` | pthread/pt-alloc.c:153-167 | IDs are distinct, positive and within the table; slot i is empty or holds the structure whose ID is i + 1 |
| `LifecycleResults.IdIsPermanent` | pthread/pt-alloc.c:157-160 | once given, an ID is never changed or taken away |
| `LifecycleResults.UnchangedMeansFull` | pthread/pt-alloc.c:179-199 | a table size found unchanged after reallocation means the table is still exactly full |
| `LifecycleResults.TableSteps` | pthread/pt-alloc.c:153-225 | capacity and the number of IDs never decrease, and only an allocation changes them |
| `LifecycleResults.LostOnlyByWithdrawal` | pthread/pt-alloc.c:209-219 | a published entry disappears only when its own thread is withdrawn; no resize loses one |
| `LifecycleResults.OneCustodian` | pthread/pt-dealloc.c:35-63 | every structure is being created, in the table, being torn down or free for reuse, and only one of these; a recycled one whose initialization fails, which it never does in this port, is in none |
| `LifecycleResults.RecycledIsUnused` | pthread/pt-alloc.c:103-115 | a structure handed out again is one that nobody makes or reaps and whose last thread has no step left: TERMINATED was its last store; if all calls on it kept the rule, none refers to it (callers of `pthread_cancel` apart) |
| `LifecycleResults.CreatorIsAlone` | pthread/pt-create.c:99-206 | until it starts the thread, the creator has the structure to itself, but for callers that look at it against the rule |
| `LifecycleResults.AssertionsNeverFail` | pthread/pt-join.c:45-87 | the assertions on the stack, on the state at deallocation and at exit, and on the list link hold; under the rule a join or detach never meets a detached or terminated thread |
| `LifecycleResults.ProvideEffect` | pthread/pt-create.c:124-169 | a creation goes on to publish its thread exactly if there is a stack and nothing else failed; otherwise it is unwound; either way it is not in the table yet |
| `LifecycleResults.LaunchEffect` | pthread/pt-create.c:203-230 | the thread runs exactly if the kernel starts it; otherwise the creation takes it out of the table and gives its stack back |
| `FlagResults.FlagsIff` | pthread/pt-alloc.c:58-63 | in every run, a request is pending exactly if one was made since the structure was last handed out, and cancellation is disabled exactly if the thread disabled it since and has not enabled it again: nothing is inherited from an earlier use |
| `FlagResults.DetachedIff` | pthread/pt-create.c:103-104 | in every run, a live thread is detached exactly if the last decision since it was handed out says so: its creation asked for it, or a detach did |
| `JoinResults.JoinHasExitStatus` | pthread/pt-join.c:50-57 | a joiner has its value only once the thread is EXITED and stopped, and it is the one recorded for the present use of the structure; under the rule, the use it named |
| `JoinResults.ExitRecorded` | pthread/pt-exit.c:69-98 | what is recorded for a use was put there by one earlier exit of that use |
| `JoinResults.JoinReturnsExitStatus` | pthread/pt-join.c:39-75 | in every run, what a join returns is what the present use of the structure passed to pthread_exit before, or PTHREAD_CANCELED if the thread was enabled and had a request pending then; under the rule that is the thread it asked for |
| `JoinRuns.LaterUseHappens` | pthread/pt-join.c:45-57 | without it, a run in which a join returns the status of a later thread |
| `JoinResults.WaiterNotStranded` | pthread/pt-join.c:45-46 | a joiner that did not look too late waits for a thread that is joinable and runs or is being started; under the rule it runs and is the one named |
| `JoinResults.StrandedIff` | pthread/pt-dealloc.c:40-63 | in a run a joiner is still waiting although the use it last looked at is over, or its broadcast sent, exactly if that look fell between the broadcast and the mark of a creation that could not start its thread |
| `JoinResults.LateIff` | pthread/pt-dealloc.c:40-63 | the same of a single state: a wait is late exactly if its use is over or its broadcast sent |
| `JoinRuns.StrandedHappens` | pthread/pt-dealloc.c:40-63 | a run that ends so, with the structure on the free list; the exit of the next thread that gets it ends the wait |
| `JoinResults.ExitReleasesWaiter` | pthread/pt-exit.c:94-103 | an exit wakes whoever waits, for this use or too late for an earlier one, and what it then finds is the exit and its status |
| `JoinResults.DetachReleasesWaiter` | pthread/pt-detach.c:43-52 | a detach that gets there first wakes the waiting joiner, whose next check ends its call |
| `JoinResults.NobodyWaitsForDetached` | pthread/pt-detach.c:46-52 | nobody is left waiting for a use that was detached or has exited |
| `JoinRuns.DetachBesideJoinHappens` | pthread/pt-detach.c:35-39 | a run in which a detach stands beside a waiting join |
| `Keys.KeyTable.Create` | sysdeps/hurd/pt-key-create.c:43-107 | the table and key of `CreateStep`; it fails exactly if a full table with nothing worth a rescan cannot grow; at most one rescan, which always finds a slot and never grows the table |
| `Keys.KeyTable.Find` | sysdeps/hurd/pt-key-create.c:43-76 | the search loop with its jump back ends at the place `CreateStep` uses |
| `Keys.KeyTable.Invalidate` | sysdeps/hurd/pt-key-delete.c:33-41 | EINVAL exactly for a key that is not live; otherwise its slot alone is invalidated and counted |
| `Keys.CreateKeeps` | sysdeps/hurd/pt-key-create.c:43-107 | creation keeps `invalid_count` exact and hint <= count <= size, never hands out a live key, and changes no other key |
| `Keys.NextFit` | sysdeps/hurd/pt-key-create.c:47-76 | a new key is the first hole at or after the static index, or new at the end, or the first hole of all where a rescan is worth it; the next search starts right behind it |
| `Keys.DeleteKeeps` | sysdeps/hurd/pt-key-delete.c:33-41 | deletion likewise; it succeeds exactly for live keys |
| `Keys.RescanSucceeds` | sysdeps/hurd/pt-key-create.c:69-75 | when the code decides to rescan there is a hole to find |
| `Keys.SizeBound` | sysdeps/hurd/pt-key-create.c:78-98 | for every sequence of creations and deletions the array is at most max(8, 4 x the peak number of live keys) |
| `Keys.PeakIsNotExceeded` | sysdeps/hurd/pt-key-create.c:78-98 | that peak is at least the number of live keys at every point on the way |
| `Specific.SetSpecific` | sysdeps/hurd/pt-setspecific.c:26-47 | EINVAL exactly for a dead key, ENOMEM exactly if an allocation it needs fails, otherwise the value is stored; it is then read back, and no other key of the thread changes |
| `Specific.GetSpecific` | sysdeps/hurd/pt-getspecific.c:26-39 | the stored value, NULL for a dead key, no map or no entry |
| `Specific.Delete` | sysdeps/hurd/pt-key-delete.c:25-64 | the key is gone from the table and from every published thread |
| `Specific.Sweep` | sysdeps/hurd/pt-key-delete.c:43-58 | the loop removes the key from each thread in the table and nothing else |
| `Specific.Pass` | sysdeps/hurd/pt-destroy-specific.c:42-67 | one pass, whatever the destructors do: if it calls none, no live key has a value left |
| `Specific.DestroySpecific` | sysdeps/hurd/pt-destroy-specific.c:27-79 | it stops short only when its budget of calls is used up; what the last step frees holds no value under a live key, though other threads create and delete keys throughout, even between the last pass and the free; with quiet destructors there are at most two passes and the calls are exactly `Calls` |
| `Specific.CallsAreExact` | sysdeps/hurd/pt-destroy-specific.c:46-65 | each non-NULL value with a destructor is passed to it once, in increasing order of keys, and nothing else is |
| `SpecificWorld.ValuesAreSwept` | sysdeps/hurd/pt-key-delete.c:43-58 | a thread that has values is in the thread table, and stores them under live keys only |
| `SpecificWorld.NewKeyReadsNull` | sysdeps/hurd/pt-key-create.c:43-107 | a new key was not live before and reads NULL in every thread |
| `SpecificWorld.ReadsNullUntilSet` | sysdeps/hurd/pt-setspecific.c:31-46 | in every run, from its creation on a key reads NULL in a thread until that thread sets it |
| `SpecificWorld.OnlySetChangesNull` | sysdeps/hurd/pt-setspecific.c:31-46 | no step of another thread, no creation, deletion, start or recycling makes a NULL value anything else |
| `SpecificWorld.SetIsLocal` | sysdeps/hurd/pt-setspecific.c:31-46 | a set is seen by the setter alone, under that key alone |
| `SpecificWorld.DeleteLeavesNothing` | sysdeps/hurd/pt-key-delete.c:40-58 | after a deletion no thread has a value for the key; other keys read as before |
| `SpecificWorld.DestroyingForgets` | sysdeps/hurd/pt-destroy-specific.c:52-79 | after a thread has destroyed its values it reads NULL under every key; no other thread reads anything else |
| `Deadline.Timeout` | sysdeps/mach/pt-timedblock.c:47-58 | the immediate ETIMEDOUT exactly for a deadline that has passed; otherwise the rounded interval, modulo 2^32 |
| `Deadline.RoundedIsClose` | sysdeps/mach/pt-timedblock.c:52-58 | never negative, within 1 ms, and early exactly when the subtraction borrows and part of a millisecond is left |
| `Deadline.RoundedBySteps` | sysdeps/mach/pt-timedblock.c:52-58 | the two branches compute the exact ceiling and the exact floor of the interval |
| `Deadline.FitsIff` | sysdeps/mach/pt-timedblock.c:52-62 | the 32-bit timeout is right exactly for an interval of at most 2^32 - 1 ms, and of less than 2^32 ms where the subtraction borrows |
| `Deadline.WrapsToZero` | sysdeps/mach/pt-timedblock.c:52-62 | one nanosecond more, and the receive does not wait at all |
| `Deadline.ShorterIff` | sysdeps/mach/pt-timedblock.c:52-58 | a later deadline gets a shorter timeout exactly if it alone borrows and the earlier one was rounded up within the same millisecond; and then by 1 ms |
| `Deadline.NotMonotone` | sysdeps/mach/pt-timedblock.c:52-58 | which happens |
| `AtFork.ForkHandlers.Register` | forward.c:206-230 | the new record becomes the head of a consistent doubly linked list |
| `AtFork.ForkHandlers.RunPrepare` | forward.c:145-166 | the unlocked walk calls exactly the prepare handlers of its snapshot, once each, oldest first, despite concurrent registrations |
| `AtFork.ForkHandlers.RunParent` | forward.c:169-184 | the same for the parent handlers, newest first |
| `AtFork.ForkHandlers.RunChild` | forward.c:187-202 | the same for the child handlers, newest first |
| `AtFork.RunsTheRightOnes` | forward.c:145-202 | what the three walks call is, record by record, the function registered for that phase, each once, and the child handlers are never run in the parent or the other way round |
| `AtFork.PromiseKeptIff` | include/pthread/pthread.h:701-707 | a fork calls the functions it promises to in the opposite order; the promise is kept exactly if their sequence is its own reverse |
| `AtFork.OrderKeptIff` | include/pthread/pthread.h:701-707 | as for registrations, it is kept exactly if at most one has a handler of the kind |

## Left out

- MutexResults.MutexRefines: covers a mutex up to the first grant that a timeout drains (`TaintedIff`) or the first breach of a `cancel_lock` (`BreachedIff`); what happens from there on is `GivenAway`, `OrphanStays`, `OrphanForever` and `BreachLetsIn`.
- MutexResults.MutexExclusive: for a `cancel_lock`, up to its first breach, like `CancelResults.CancelLockIsSound`.
- System.DoHook: the hook dequeues a thread that waits for its `cancel_lock` under the wrong spin lock (that of the condition); here that dequeue is atomic all the same, so a list it corrupts is not modelled.
- TimeoutResults.OrphanForever: about normal mutexes; the thread that gave up can still unlock a typed one, whose owner field names it.
- System.Enabled: a normal mutex or a read-write lock is unlocked by a holder only; the code does not check, and POSIX leaves anything else undefined.
- Condition.PthreadCond.RequestCancel: asynchronous cancellation rewrites the program counter of a running thread; the section says that it is due (`Kernel`), and no thread takes that step in the transition system.
- LifecycleResults.StepKeeps: says nothing once two calls have seen the same exit (`DoubledIff`): both then take the structure down, which POSIX leaves undefined; most results on the lifecycle and on thread-specific data are for runs up to that point.
- LifecycleResults.RecycledIsUnused: a caller of `pthread_cancel` may still hold a structure it looked up before, and set `pending` in a later use of it; the step `Cancel` allows that, and the lemma does not exclude it.
- Lifecycle.DoDetachCheck: locked sections are atomic against the two stores of the state that take no lock (a creation's first, a teardown's last), so a detach that straddles one of them is not modelled.
- Lifecycle.Apply: `pthread_exit` starts at its last section here; cleanup handlers and the count of threads whose last exit ends the process are not modelled.
- Specific.DestroySpecific: user destructors may keep the loop going for ever, so the number of calls is bounded by a parameter; `done` says that the bound was not reached.
- SpecificWorld.Apply: each operation on keys is atomic, although the code tests a key without the key lock; using a key while it is being deleted is undefined in POSIX.
- CancelResults.ReleaseReleases: for a mutex none of whose grants a timeout drained, like `MutexRefines`.
- Error codes of `pthread_create`: a creation succeeds or is unwound; which code it reports is not modelled (the path for a failed TLS block, pthread/pt-create.c:145-148, leaves the code at 0).
- Deadline.Timeout: the 32-bit unsigned timeout type comes from the Mach headers, which are not part of this model; the product of seconds and 1000 is taken in unbounded integers.
- Counters: `locks`, `readers`, the semaphore value, IDs and sizes are unbounded, except that decrementing `locks` at 0 wraps as in C.
- Broadcasts and reader admissions send inside the section; the transition system lets these sends come later, which allows more interleavings, not fewer.
- Mach: message passing, kernel threads, stacks and port rights are foreign; a port is a counter of messages, halting a thread ends its steps, and ports of recycled threads are not modelled.
- Waiting on the locks of the thread table, the free list, the keys and the fork handlers: their sections are atomic.
- Thread attributes, user-supplied stacks, scheduling, signals, `sem_open`, `pthread_once`, `pthread_testcancel`, spin locks themselves, cleanup handlers and the Hurd's own condition wait: trivial, foreign, or dependent on hardware.
- Out-of-range thread IDs, fairness (that a thread which can go on does) and memory-model effects.
- hurd_ihash: a map from keys to values.
