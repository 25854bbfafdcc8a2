# The concurrency core of magic, modelled and proved

This project models the concurrent core of the *magic* library as step machines
and proves what the library relies on: the split-reference-count lock-free stack
and the queue made of two of them, the strand, the fiber mutex with direct
hand-off and the fiber run loop under it, the condition variable and the
semaphore built on it, the wait group, future pipelines and the thread pool.

Every protocol is a machine of shared memory plus one program counter for each
thread, fiber or worker. One step is one atomic operation (or one critical
section of a system mutex that touches no atomic); any number of threads act in
any order, a weak compare-exchange may fail by itself, an allocator may hand out
any dead address again, and an executor may run what it was given in any order.
`Run(s, es)` is the state after the events `es`; the theorems hold for all `es`,
so for every schedule. Where the source can panic, fail an assertion, overflow a
signed addition or reach memory that is gone, the machine sets `fault`, and the
theorems prove when it stays clear.

| files | protocol |
|---|---|
| `stamped_ptr` | pointer and 16-bit stamp packed in a word |
| `stack_model`, `stack_invariant`, `stack_reclamation`, `stack_theorems`, `stack_linearizability`, `stack_progress`, `stack_overflow`, `stack` | the lock-free stack |
| `queue_model`, `queue_proof`, `queue_calls`, `queue_progress`, `queue` | the queue made of two stacks |
| `strand_model`, `strand_invariant`, `strand_lifetime`, `strand_theorems`, `strand_runs`, `strand_progress`, `strand` | the strand over its intrusive queue |
| `mutex_model`, `mutex_invariant`, `mutex_steps`, `mutex_theorems`, `mutex_progress`, `mutex` | the fiber mutex and `Fiber::Run` |
| `condvar_model`, `condvar_invariant`, `condvar_steps`, `condvar_theorems`, `condvar_calls`, `condvar` | futex, condition variable, semaphore |
| `waitgroup_model`, `waitgroup_invariant`, `waitgroup_steps`, `waitgroup_theorems`, `waitgroup_calls`, `waitgroup` | one-shot event and wait group |
| `future_model`, `future_invariant`, `future_steps`, `future_theorems`, `future` | shared states, combinators, manual executor |
| `pool_model`, `pool_invariant`, `pool_steps`, `pool_theorems`, `pool_fates`, `pool` | thread pool, blocking queue, counter |
| `collections`, `wrappers` | sequences, chains, counting, missing values |

In each group `*_model` defines the machine as functions on values, the proof
files establish its invariant and the theorems, and the last file is the class
whose fields are updated in place: one method for each atomic operation, each
proved to take the object to the state the machine's step gives, loops included
where the source has them, and `RunSchedule` for any sequence of events. So what
the theorems say of `Run` holds of the object. Its `Valid()`
carries the machine's invariant to a caller.

The logs in a machine's state are written by the very steps they record. What nobody
may lose is therefore counted from the calls, that is from the events of the run and
the states before them (`*_calls`, `*_fates`, `*_runs`, `AllSubmitted`): everything
submitted, added, notified or asked for has been done, or is with a call in progress.
And a call that is left alone, wherever the others are stopped, ends with what it was
made for (`*_progress`).

Some of what one might expect is false of the code, and then the exact condition
is proved, and runs that break it are shown:

- A stack can touch a deleted node, or overflow a node's `global`, if and only if
  it can miscount (`FaultsExactlyByMiscounting`): bring `global` to zero under
  another holder, or leave the range of `int32_t`. It cannot while there are at most
  2^16 threads and no node is acquired more than 2^31 times
  (`FewThreadsAreCounted`), and the first bound is exact
  (`SafeExactlyUpTo65536Threads`), and so is the second (`ManyFailuresOverflow`).
  Stamps may wrap meanwhile.
- What a stack leaks between operations is one node for each settlement with a stamp
  short of the acquisitions (`LeaksExactlyTheShortfalls`), which is when a node was
  acquired more than 2^16 times before a pop, or 2^16 times or more before a
  ConsumeAll (`WhenItFallsShort`, `WrappedStampLeaks`).
- A wait group can touch what is gone if and only if it can be misused
  (`FaultsExactlyByMisuse`): a firing finds waiters while another is on its way to
  take them, or the object is destroyed under a Done or a firing
  (`OverlappingFiringsFault`, `DestroyedUnderAFiring`). Neither can happen unless
  somebody adds to a count that has come to zero (`SafeAndNotEarly`). Wait goes by
  the signal alone, so in a second round it holds nobody (`WaitGoesByTheSignal`,
  `SecondRoundDoesNotWait`).
- A fiber with an outdated epoch parks if and only if the notifications since it
  prepared are a positive multiple of 2^64 (`TakenForCurrent`). Such a late waiter
  can be missed by NotifyAll (`NotifyAllMissesOne`) and can sleep beside a free
  permit (`WakeUpIsLost`); what is promised to those who parked on time holds on
  every run.
- A pipeline delivers if and only if no asynchronous continuation or handler that
  is reached throws (`DeliversTheFold`); the exception of such a one is swallowed
  and its promise never set.

Assumptions: sequential consistency; a spinlock and a system mutex exclude;
coroutine switches take no step of their own; task nodes of a strand are distinct
objects at 47-bit addresses and threads have 32-bit names, which is what keeps
its 64-bit counter from going all the way round.

## Model

| member | source | states |
|---|---|---|
| StampedPtrs.PackUnpack | src/magic/concurrency/lockfree/stamped_ptr.h:66-74 | every 64-bit word is what packing the pair unpacked from it gives |
| StampedPtrs.UnpackPack | src/magic/concurrency/lockfree/stamped_ptr.h:57-105 | a canonical 48-bit pointer survives packing, its stamp survives modulo 2^16 |
| StampedPtrs.PackedEquality | src/magic/concurrency/lockfree/stamped_ptr.h:148-155 | a word equals a packed pair exactly if it unpacks to that pair with the stamp cut to 16 bits |
| StampedPtrs.PackedEqualityIsExact | src/magic/concurrency/lockfree/stamped_ptr.h:148-155 | comparing words compares pointers and stamps modulo 2^16; with both stamps below 2^16 it compares the pairs |
| StampedPtrs.AtomicStampedPtr.constructor | src/magic/concurrency/lockfree/stamped_ptr.h:129-133 | the packed word stands for the pair given, with the stamp cut to 16 bits |
| StampedPtrs.AtomicStampedPtr.Store | src/magic/concurrency/lockfree/stamped_ptr.h:135-137 | afterwards the word stands for the pair stored |
| StampedPtrs.AtomicStampedPtr.Load | src/magic/concurrency/lockfree/stamped_ptr.h:139-141 | returns the pair that the word stands for |
| StampedPtrs.AtomicStampedPtr.Exchange | src/magic/concurrency/lockfree/stamped_ptr.h:143-146 | returns the pair there was and leaves the target |
| StampedPtrs.AtomicStampedPtr.CompareExchangeWeak | src/magic/concurrency/lockfree/stamped_ptr.h:148-155 | replaces the pair if it is the expected one and the weak exchange does not fail by itself; on failure reports the pair found |
| StackTheorems.SafeReclamation | src/magic/concurrency/lockfree/stack.h:23-75 | on every run that does not miscount, stamps that wrap included, with addresses reused and exchanges failing at will: no dead node is touched, no addition overflows, no node has two deleters, none is deleted while another thread uses it or the head leads to it |
| StackTheorems.Accounting | src/magic/concurrency/lockfree/stack.h:23-28 | for every live node `global` is the threads that hold an acquisition less the acquisitions no stamp has paid for; a link's stamp, and a detacher's, is the latter modulo 2^16, and while there is a link it is at least the holders |
| StackTheorems.FewThreadsAreCounted | src/magic/concurrency/lockfree/stack.h:23-28 | with at most 2^16 threads and no node acquired more than 2^31 times through one link, nothing is miscounted |
| StackTheorems.MiscountFaults | src/magic/concurrency/lockfree/stack.h:23-28 | whatever the state, after a miscount some continuation touches a deleted node or has overflowed |
| StackTheorems.FaultsExactlyByMiscounting | src/magic/concurrency/lockfree/stack.h:23-75 | the stack can touch what is gone, or overflow, if and only if it can miscount |
| StackOverflow.SafeExactlyUpTo65536Threads | src/magic/concurrency/lockfree/stack.h:23-102 | while no node is acquired more than 2^31 times, every run is safe if there are at most 2^16 threads, and some run deletes a node under its holders if there are more |
| StackOverflow.ManyFailuresOverflow | src/magic/concurrency/lockfree/stack.h:41-58 | one thread that fails to pop a node 2^31 times is safe, and overflows `global` with the next reference it gives back |
| StackReclamation.StepKeepsInv | src/magic/concurrency/lockfree/stack.h:23-102 | every action of every operation keeps the invariant that ties links, stamps, `global`, acquisitions and holders, unless it miscounts |
| StackLinearizability.StepRefines | src/magic/concurrency/lockfree/stack.h:35-79 | every action that does not miscount is either invisible or the one step of the sequential stack that its label names |
| StackLinearizability.Linearizable | src/magic/concurrency/lockfree/stack.h:35-79 | every run that does not miscount ends with the head spelling the sequential stack's contents, every finished operation with the sequential result, and everything pushed either removed or still there |
| StackProgress.ActionIsProgress | src/magic/concurrency/lockfree/stack.h:35-79 | with the other threads stopped anywhere, each action of a thread inside an operation strictly lowers a natural measure, if its exchange does not fail by itself |
| StackProgress.FinishesAlone | src/magic/concurrency/lockfree/stack.h:35-79 | from any state of a counted run, a thread left alone finishes its operation with the result and the effect the sequential stack gives it, unless it miscounts |
| StackProgress.CalledAlone | src/magic/concurrency/lockfree/stack.h:35-79 | called and left alone, Push puts its value on top, TryPop takes the top or finds nothing exactly when there is nothing, ConsumeAll hands over everything from the top down, IsEmpty answers rightly |
| StackLinearizability.LeaksExactlyTheShortfalls | src/magic/concurrency/lockfree/stack.h:35-75 | between operations the live nodes are one for each item on the sequential stack and one for each settlement whose stamp fell short |
| StackTheorems.WhenItFallsShort | src/magic/concurrency/lockfree/stack.h:53-74 | a stamp falls short if and only if its node was acquired more than 2^16 times before a pop, or 2^16 times or more before a ConsumeAll |
| StackTheorems.QuietNodes | src/magic/concurrency/lockfree/stack.h:87-95 | between operations a live node is on the chain from the head or is one of the lost, and not both |
| StackOverflow.WrappedStampLeaks | src/magic/concurrency/lockfree/stack.h:41-58 | after 2^16 failed pops of one node it is popped and never deleted |
| LockFreeStacks.LockFreeStack.RunSchedule | src/magic/concurrency/lockfree/stack.h:35-102 | any schedule performed on the object leaves it in the state of the machine's run, and valid if nothing was miscounted |
| LockFreeStacks.LockFreeStack.DestroySelf | src/magic/concurrency/lockfree/stack.h:81-95 | with no operation in progress the nodes on the stack are deleted once each, in order from the head, and only those that a short settlement lost stay |
| QueueProof.QStepKeeps | src/magic/concurrency/lockfree/queue.h:25-37 | every action on either stack keeps the correspondence with a FIFO queue whose contents are the reserve, what ConsumeAll has still to hand over and the main stack, in that order of age with the two latter reversed and the values in transit in between |
| QueueProof.QueueIsFifo | src/magic/concurrency/lockfree/queue.h:25-37 | on every run the answers of Take are those of a sequential FIFO queue asked once between call and return: the oldest item, or nothing when it was empty |
| QueueCalls.EveryTakeIsAnswered | src/magic/concurrency/lockfree/queue.h:29-37 | every Take called has come back with an answer of its own, but for the one in progress |
| QueueCalls.OutInOrder | src/magic/concurrency/lockfree/queue.h:25-37 | the items brought back by the Takes, then the one in the hand of a running Take, then those in the queue are everything put, once each and in order |
| QueueProgress.ConsumerIsProgress | src/magic/concurrency/lockfree/queue.h:29-37 | each action of Take on its own, the callback's pushes onto the reserve included, brings it lexicographically nearer to its answer |
| QueueProgress.TakeFinishesAlone | src/magic/concurrency/lockfree/queue.h:29-37 | from any state of any run a Take left alone comes back with the sequential queue's answer, as long as memory lasts and no node of the reserve is acquired too often |
| QueueProgress.TakeCalledAlone | src/magic/concurrency/lockfree/queue.h:29-37 | called and left alone it brings the oldest item, or nothing exactly when there is none |
| LockFreeQueues.LockFreeQueue.RunSchedule | src/magic/concurrency/lockfree/queue.h:21-37 | any schedule performed on the object leaves it in the state of the machine's run, with the answer of every Take that of the sequential queue at its linearization point |
| StrandInvariant.CounterIsExact | src/magic/executors/strand.cpp:12-17 | though `counter_` is unsigned and wraps, it reads zero exactly when the signed count is zero |
| StrandInvariant.StepKeepsInv | src/magic/executors/strand.cpp:12-39 | every step keeps: one batch token, the order of Puts, and the counter as the signed number of tasks put and not subtracted less the Executes yet to add |
| StrandTheorems.SerialFifo | src/magic/executors/strand.cpp:12-39 | tasks, those submitted by running tasks included, start once each in the order of their Puts; at most one batch is pending or in progress; a batch is never empty |
| StrandTheorems.NestedExecuteFindsTheBatch | src/magic/executors/strand.cpp:12-17 | an Execute called by a running task finds the counter above zero and goes back to the task without starting a batch |
| StrandTheorems.AllSubmitted | src/magic/executors/strand.cpp:12-17 | on every run the calls of Execute, told from the events, are as a multiset the tasks put and those in the hands of threads still putting them |
| StrandTheorems.NoTaskLost | src/magic/executors/strand.cpp:12-39 | as long as fewer tasks have started than Executes were called, a batch is pending or running, or some Execute is between its call and its fetch_add |
| StrandTheorems.QuietMeansDone | src/magic/executors/strand.cpp:12-39 | with nothing in flight the tasks executed are those submitted, once for each call, in the order they were put; the queue is empty and the counter is 0 |
| StrandRuns.ExecutedMeansRun | src/magic/executors/strand.cpp:24-32 | the log of executed tasks is the sequence of tasks whose code threads entered, and all of these have returned but the one that a thread is in |
| StrandRuns.QuietMeansRun | src/magic/executors/strand.cpp:12-39 | with nothing in flight the code of every task submitted was entered and has returned, once for each call |
| StrandProgress.ActionIsProgress | src/magic/executors/strand.cpp:12-39 | each action of a thread on its own strictly lowers a natural measure, through Execute, a whole batch with nested Executes, or a release; a failed exchange is followed by one that succeeds |
| StrandProgress.LeftAloneItEnds | src/magic/executors/strand.cpp:12-39 | from any state of any run a thread left alone becomes idle, so its Execute ends with the task put and counted |
| StrandTheorems.CounterWraps | src/magic/executors/strand.cpp:14-34 | with no batch the counter is, modulo 2^64, the queued tasks minus the Executes yet to add, and these are at least as many |
| StrandTheorems.BelowZero | src/magic/executors/strand.cpp:14-34 | some run does take the counter below zero, to 2^64 - 1 |
| StrandTheorems.Lifetime | src/magic/common/refer/ref_counted.h:15-23 | on runs without Discard the count is the handle plus batches scheduled and not released; nobody touches a destroyed strand; it is destroyed once, by the last one out |
| StrandLifetime.StepKeepsRefs | src/magic/common/refer/ref_counted.h:15-23 | every step keeps the reference count equal to what is owed |
| Strands.StrandImpl.TakeAll | src/magic/concurrency/lockfree/lockfree_intrusive_queue.h:21-27 | the chain is exchanged for null and comes out reversed, oldest first |
| Strands.StrandImpl.RunSchedule | src/magic/executors/strand.cpp:12-39 | any schedule performed on the object leaves it in the state of the machine's run |
| MutexTheorems.MutualExclusion | src/magic/fibers/sync/mutex.h:72-166 | at most one fiber is between getting the lock and giving it back, a hand-off in flight included; it is the one granted last, and only it touches `waiters_` |
| MutexTheorems.NoLostWaiter | src/magic/fibers/sync/mutex.h:107-166 | the enqueued Lockers are, once each, in `waiters_`, on the chain being appended or on the chain from the state word, and nothing else is; unlocked means nobody waits |
| MutexTheorems.FiberPlacement | src/magic/fibers/core/fiber.cpp:49-115 | no check of a fiber's state ever fails and no destroyed fiber or Locker is touched; every live fiber is in exactly one place: queued once, with one worker, or waiting |
| MutexTheorems.QuietMeansDone | src/magic/fibers/core/fiber.cpp:74-104 | when nothing is queued and all workers are idle, the lock is free and every fiber has completed: nobody is left waiting |
| MutexTheorems.WaitingMeansLocked | src/magic/fibers/sync/mutex.h:72-84 | while a fiber waits the word is not Unlocked, so no TryLock succeeds |
| MutexTheorems.BypassBound | src/magic/fibers/sync/mutex.h:107-166 | from the moment a fiber's node is in the state word until it gets the lock, no other fiber is given the lock more than twice |
| MutexTheorems.HandOffsBringNearer | src/magic/fibers/sync/mutex.h:128-156 | each hand-off strictly lowers a waiting fiber's lexicographic distance from the lock, and no step raises it |
| MutexTheorems.StepMoves | src/magic/fibers/sync/mutex.h:107-166 | every step keeps the invariant and does one of four things to the waiters: nothing, a push, the grab of the whole stack by an owner with an empty list, or a grant to the first in line |
| MutexTheorems.StepBypasses | src/magic/fibers/sync/mutex.h:107-166 | a grant to another fiber uses up one of its remaining bypasses, and no step gives one back |
| MutexProgress.UnlockAlone | src/magic/fibers/sync/mutex.h:128-166 | from any point of Release in any state, an unlock left alone frees the lock if nobody waits and otherwise grants it to somebody who does |
| MutexProgress.TryLockExactly | src/magic/fibers/sync/mutex.h:72-84 | TryLock and the fast path of Lock take the lock exactly if it is free; a TryLock that fails changes nothing, a Lock that fails suspends |
| MutexProgress.LockAlone | src/magic/fibers/sync/mutex.h:107-126 | from any point of TryLockOrEnqueue, left alone for at most four actions, a fiber has the lock if it is free and is enqueued otherwise |
| MutexProgress.SomebodyCanMove | src/magic/fibers/core/fiber.cpp:49-115 | a worker with a fiber can always act, an idle one can take what is queued |
| FiberMutex.Mutex.TryLock | src/magic/fibers/sync/mutex.h:72-76 | succeeds exactly if the word was Unlocked |
| FiberMutex.Mutex.AppendToList | src/magic/fibers/sync/mutex.h:158-166 | the owner's empty list becomes the chain, in the chain's order |
| FiberMutex.Mutex.RunSchedule | src/magic/fibers/core/fiber.cpp:49-115 | any schedule performed on the object leaves it in the state of the machine's run |
| CondVarTheorems.PermitsConserved | tests/fibers/condvar_test.cpp:36-59 | permits free and permits held always add up to the initial number; one fiber at a time in the monitor and under the spinlock; Resume never meets a fiber that is not suspended |
| CondVarTheorems.NoLostWakeUp | src/magic/fibers/sync/detail/futex.h:51-74 | somebody on the waiters' list who parked on time implies permits at most the notified fibers that have not rechecked, plus one for a releaser between its increment and its notification |
| CondVarTheorems.RestMeansNoPermits | src/magic/fibers/sync/condvar.cpp:5-18 | when nobody can move, a fiber that parked on time is parked only because every permit is held |
| CondVarTheorems.NotifyAllReachesAll | src/magic/fibers/sync/detail/futex.h:51-83 | everybody on the list who parked on time prepared to wait after the last WakeAll moved the epoch |
| CondVarTheorems.TakenForCurrent | src/magic/fibers/sync/detail/futex.h:55-62 | ParkIfEqual parks a fiber with an outdated key if and only if the notifications since PrepareWait are a positive multiple of 2^64 |
| CondVarTheorems.NotifyAllMissesOne | src/magic/fibers/sync/detail/futex.h:51-83 | and some run does it: a fiber parks after 2^64 NotifyAlls that all followed its PrepareWait |
| CondVarTheorems.WakeUpIsLost | src/magic/fibers/sync/detail/futex.h:51-74 | some run does it and nobody moves any more with a fiber parked late, a permit free and no notification on its way |
| CondVarCalls.NotificationTakes | src/magic/fibers/sync/detail/futex.h:64-84 | on every run, whom a bump takes is decided by the fiber's last call: after a Release or NotifyOne the first waiter, if any, after a NotifyAll everybody, in order |
| CondVarCalls.CallsBalance | tests/fibers/condvar_test.cpp:36-59 | Acquires called less Releases called are the fibers inside Acquire or holding; Releases and notifications called are the moves of the epoch plus those still on their way to one |
| CondVarCalls.AcquireEndsWithPermit | tests/fibers/condvar_test.cpp:36-47 | a fiber inside Acquire leaves it only for holding a permit, by its own action |
| CondVarCalls.SomebodyCanMove | src/magic/fibers/sync/condvar.cpp:5-18 | while a fiber is in the middle of a call and not parked, some fiber can move |
| CondVarSteps.StepKeepsInv | src/magic/fibers/sync/detail/futex.h:51-97 | every step of acquiring, releasing, parking and notifying keeps the invariant |
| CondVars.Semaphore.Bump | src/magic/fibers/sync/detail/futex.h:64-84 | the epoch moves on by one; for a releaser or a NotifyOne the first waiter leaves the list if there is one and nobody else, for a NotifyAll all leave |
| CondVars.Semaphore.Wake | src/magic/fibers/sync/detail/futex.h:89-97 | everybody on the list is resumed once, nobody else moves, and their number is returned |
| CondVars.Semaphore.RunSchedule | src/magic/fibers/sync/condvar.cpp:5-18 | any schedule performed on the object leaves it in the state of the machine's run |
| FutureTheorems.ScheduleIndependent | src/magic/futures/core/future.h:157-218 | on every schedule: no panic, no missing result or callback, no promise used twice; the final callback gets the fold or nothing, at most once, on the executor set last by Via; continuations run at most once, on their own branch, with the fold so far |
| FutureTheorems.DeliversTheFold | src/magic/futures/core/future.h:99-218 | when nothing is left to do the final callback has been called if and only if no asynchronous continuation or handler that was reached threw, then once and with the fold, which exists exactly then; and exactly the stages reached on their own branch were called |
| FutureTheorems.RendezvousOnce | src/magic/concurrency/rendezvous.h:23-47 | a shared state's callback has gone out, once, with its result and to its executor, exactly if both parties are through; they are never both the second |
| FutureTheorems.StepIsProgress | src/magic/executors/manual.cpp:16-24 | every event that does anything lowers a natural measure of the work left, so every schedule ends |
| FutureSteps.StepKeepsInv | src/magic/futures/core/detail/shared_state.h:47-66 | every step of SetResult, SetCallback, InvokeCallback and of the combinators keeps the invariant |
| FutureSteps.CellFires | src/magic/futures/core/detail/shared_state.h:61-66 | whoever comes second submits the callback with the produced result to the last executor set |
| Futures.FutureChain.RunAll | src/magic/executors/manual.cpp:16-24 | runs callbacks until none is queued and returns how many, each of them queued when it was run; a fully attached pipeline whose stages do not throw has then delivered the fold, on the executor that the last Via named |
| Futures.FutureChain.RunAtMost | src/magic/executors/manual.cpp:26-34 | runs and counts queued callbacks, each queued when it was run, at most the limit and fewer only if none is queued any more |
| Futures.FutureChain.RunNextTask | src/magic/executors/manual.cpp:36-39 | the queued callback it is given runs first, with the SetResult or Subscribe it ends in, and the work left shrinks |
| WaitGroupTheorems.SafeAndNotEarly | src/magic/fibers/sync/oneshotevent.h:52-122 | unless Add follows the zero: nothing gone is touched, neither the event nor an awaiter; whoever has come back from Wait finds the count at zero; once the object is destroyed nobody is about to touch it |
| WaitGroupCalls.CounterIsAddsLessDones | src/magic/fibers/sync/wait_group.h:14-22 | on every run the counter is the sum of the Adds less the Dones that have subtracted, told from the events; every Done called has subtracted or is about to |
| WaitGroupCalls.WaitsForEveryDone | src/magic/fibers/sync/wait_group.h:14-26 | unless something is added after the sum has come to zero, whoever has come back from Wait finds exactly as many Dones called, and subtracted, as were added, and nothing that is gone is touched |
| WaitGroupCalls.WaitEndsOnSignal | src/magic/fibers/sync/oneshotevent.h:52-94 | a fiber inside Wait leaves it only by its own action on a signalled event, after the sum has come to zero |
| WaitGroupCalls.ActionIsProgress | src/magic/fibers/sync/oneshotevent.h:52-122 | each action of a fiber on its own strictly lowers a natural measure of what it has to do, or goes wrong |
| WaitGroupTheorems.SafeUnlessMisused | src/magic/fibers/sync/oneshotevent.h:52-122 | a run without misuse, rearmed or not, touches nothing that is gone; at most one firing is bound for the exchange, with waiters to take |
| WaitGroupTheorems.MisuseFaults | src/magic/fibers/sync/oneshotevent.h:96-110 | whatever the state, after a misuse some continuation touches what is gone or takes the signal for an address |
| WaitGroupTheorems.FaultsExactlyByMisuse | src/magic/fibers/sync/oneshotevent.h:52-122 | fibers can touch what is gone if and only if they can misuse the object |
| WaitGroupTheorems.AwaitersAreAlive | src/magic/fibers/sync/oneshotevent.h:104-122 | on every run the awaiters that a firing walks through and schedules belong to fibers suspended on them |
| WaitGroupTheorems.WaitGoesByTheSignal | src/magic/fibers/sync/oneshotevent.h:52-58 | Wait comes back at once exactly if the event is signalled, whatever the count; it is signalled only if the count has been zero, and with a count above zero only if somebody added after that |
| WaitGroupTheorems.ScheduledOnce | src/magic/fibers/sync/oneshotevent.h:96-122 | on every run waiters are scheduled once each, newest first, and those suspended are exactly those enqueued and not scheduled |
| WaitGroupTheorems.NobodyLeftWaiting | src/magic/fibers/sync/wait_group.h:18-26 | on every run, once the count has been zero and nobody is on the move, every waiter has been scheduled |
| WaitGroupTheorems.NoneAfterSignaled | src/magic/fibers/sync/oneshotevent.h:78-94 | on every run the signal is for good and nobody enqueues after it |
| WaitGroupTheorems.OverlappingFiringsFault | src/magic/fibers/sync/oneshotevent.h:96-110 | two firings can overlap after an Add to a count at zero, and the second takes the signal for an awaiter's address |
| WaitGroupTheorems.DestroyedUnderAFiring | src/magic/fibers/sync/wait_group.h:18-22 | a waiter that comes back and destroys the object can do so under a second firing, which then touches it |
| WaitGroupTheorems.SecondRoundDoesNotWait | src/magic/fibers/sync/wait_group.h:24-26 | in a second round a fiber comes back from Wait with a Done still to be called |
| WaitGroupSteps.StepKeepsInv | src/magic/fibers/sync/oneshotevent.h:52-122 | every step, those that rearm and those that go wrong included, keeps the invariant |
| WaitGroups.WaitGroup.CreateWaiterList | src/magic/fibers/sync/oneshotevent.h:112-122 | the list is the chain, in the chain's order |
| WaitGroups.WaitGroup.RunSchedule | src/magic/fibers/sync/wait_group.h:14-26 | any schedule performed on the object leaves it in the state of the machine's run |
| PoolTheorems.CounterIsWork | src/magic/executors/thread_pool.cpp:30-46 | the counter is the work outstanding: queued, running, and submissions and disposals in progress; it is 0 exactly if there is none |
| PoolTheorems.WaitIdleReturnsIdle | src/magic/concurrency/atomic_counter.h:25-30 | WaitZero's load ends the wait if and only if the pool has no work at that moment |
| PoolTheorems.EachTaskOnce | src/magic/executors/thread_pool.cpp:30-71 | every submission is in exactly one place: with its submitter, queued, started or discarded, and started or discarded once |
| PoolTheorems.NoLostNotification | src/magic/concurrency/intrusive/blocking_queue.h:22-69 | if a worker sleeps, enough workers are on their way for all that is queued; if somebody waits for zero at zero, a notification is coming; a closed queue is empty and nobody sleeps on it |
| PoolTheorems.QueueIsFifo | src/magic/concurrency/intrusive/blocking_queue.h:22-69 | the tasks started and those Stop disposed of, merged as they left, and then those still queued are what was put, in order; what was discarded is the disposed of and the refused, each in order |
| PoolTheorems.StartedInOrder | src/magic/concurrency/intrusive/blocking_queue.h:22-69 | of two tasks started, the one started first was put first |
| PoolTheorems.RestMeansDone | src/magic/executors/thread_pool.cpp:30-71 | when nobody can move, every submission was started or discarded, nobody waits for idleness, and for a stopper every worker has gone |
| PoolFates.DiscardedOnlyByStop | src/magic/concurrency/intrusive/blocking_queue.h:22-69 | a task is refused only by a closed queue; the queue is closed, or a task discarded, only if Stop was called |
| PoolFates.StartedMeansRun | src/magic/executors/thread_pool.cpp:66-71 | there is a ticket for each call of Execute, and of the tasks started those whose code has not returned are the ones workers are running, each its own |
| PoolFates.RestMeansAllRun | src/magic/executors/thread_pool.cpp:30-71 | when nobody can move on a pool never stopped, every task submitted was started and its code has returned |
| PoolFates.StopWaitsForWorkers | src/magic/executors/thread_pool.cpp:48-50 | Stop's join ends exactly when every worker has left its loop; the queue is closed and empty then and no task is running |
| PoolFates.CallsEndWhenDone | src/magic/executors/thread_pool.cpp:38-50 | Stop comes back only from its join with every worker gone, WaitIdle only by an action of its own that finds no work outstanding |
| PoolFates.SomebodyCanMove | src/magic/executors/thread_pool.cpp:30-71 | while a thread is not at rest, some action or the end of some task's code changes something |
| PoolSteps.StepKeepsInv | src/magic/executors/thread_pool.cpp:30-71 | every step of workers, submitters, waiters and stoppers keeps the invariant |
| Pools.ThreadPool.DiscardAll | src/magic/concurrency/intrusive/blocking_queue.h:60-69 | everything queued is discarded in order and taken off the counter |
| Pools.ThreadPool.RunSchedule | src/magic/executors/thread_pool.cpp:30-71 | any schedule performed on the object leaves it in the state of the machine's run |

## Left out

- Weak memory orders: every atomic operation is sequentially consistent.
- The intrusive lists of `wheels`, context switching and thread-locals: lists owned by one party are sequences, and a coroutine is a step that runs until it suspends or completes.
- `std::unique_lock::unlock` inside `FutexAwaiter::AwaitSuspend` (`src/magic/fibers/sync/detail/futex.h:24-28`): one atomic step, although the lock object lives on the fiber that may be woken at once.
- The semaphore's mutex is an atomic lock here; the fiber mutex itself is proved separately, and the two proofs are not composed.
- Values on the stack are integers; move-only and throwing element types are not modelled.
- StackTheorems.SafeReclamation: of a run that miscounts nothing is promised after the miscount, since a node may be gone that threads still use; likewise StackLinearizability.Linearizable.
- QueueProof.QueueIsFifo: one consumer, as the two-stack design requires, which acquires no node of the reserve more than 2^31 times; the main stack needs no bound.
- CondVarTheorems.NoLostWakeUp: promises nothing to a waiter that parked on an epoch that had gone once round.
- FutureTheorems.DeliversTheFold: the inner future of an asynchronous continuation is one whose promise is fulfilled with a given result at some time, not a pipeline of its own.
- `LockFreeQueue::TakeAll`, a loop over Take, and `IsEmpty` of the queue, which looks at the two stacks at different times.
- A task that destroys the last handle of the strand it runs on: handles are dropped outside tasks.
- `StrandImpl::Discard`: it neither adjusts the counter nor gives back its reference; the strand theorems are about runs without it.
- `Future::GetResult`, `IsReady`, `Forget`, and the combinators `All` and `FirstOf`.
- The order of a manual executor's queue: its callbacks run in any order here, first-in first-out among them.
- Counters of outstanding tasks in the pool are unbounded integers: a task is an object, so there are fewer than 2^64.
- Fibers that finish while they own the lock, or lock it twice: outside the contract of a mutex.
- `AtomicSharedPtr`, `FutureLite`, the coroutine mutex of `src/magic/coroutine/stackless/sync/mutex.h` (the same protocol, with the next owner resumed inside the unlock), generators and processors.
- Fairness of the scheduler, and termination of retry loops under it: what is proved is that a call left alone ends, and that somebody can always move.
- WaitGroupCalls.CounterIsAddsLessDones: an Add that would take the count past 2^64 - 1 is not made here.
- HTTP, files, time, random numbers and strings: input, output and wrappers.
