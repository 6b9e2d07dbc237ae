# libcr single-threaded synchronisation core, in Dafny

This project models the single-threaded half (`cr::sync`) of libcr, a C++
library of stackless coroutines. It covers three parts.

- **Coroutine frames.** A `Coroutine` is a resumable frame. It holds a
  saved resume point (its `Protothread` part), a parent frame, a shared
  context, an error flag and an intrusive `next` link.
- **Intrusive condition variables.** Waiting frames are chained through
  their own `next` links. `FifoConditionVariable` keeps `first` and `last`
  and wakes in arrival order. `ConditionVariable` keeps a single head and
  wakes the most recent waiter first. Both classes are proved against an
  abstract wait queue (`WaitQueue`): the linked chain is acyclic and
  null-terminated, and the FIFO `last` is its tail. `Queue` is the chain
  as a sequence, and `resumed` records every frame the condition variable
  invokes and the error flag that frame sees.
- **Derived primitives.** Each is a condition variable plus a little state:
  - semaphore (`counter`);
  - repeatable and consumable events (`happened`);
  - barrier (`count`);
  - mutex with ownership hand-off (`owner`);
  - promise and single promise (`fulfilled`).

  Each primitive has a value-level state with step functions, lemmas over
  sequences of calls, and a class whose methods are proved equal to the
  steps.

The control protocol of the `primitives.hpp` macros is modelled as methods
on frames:
- saving the resume point and suspending (`CR_AWAIT`, `CR_CALL`);
- clearing the error flag before the handler runs;
- throwing to the parent (`CR_THROW`);
- completing and invoking the parent (`CR_RETURN`, `CR_IMPL_END`);
- the protothread protocol (`CR_PYIELD`, `CR_PRETURN`, `CR_PCALL`).

## How resumption is modelled

Invoking a frame, `(*c)()`, runs code this model cannot see. A condition
variable's `Invoke(c, rewait)` does two things:
- it records `Resumption(c, c.error)` in `resumed`;
- when `c` is in `rewait`, `c` waits on the same condition variable again.

This is enough to state the snapshot rule of `notify_all` and `fail_all`.
Frames that wait again while the drain runs stay queued and are not
resumed again. The queue left behind is `Drained(order, [], old(Queue),
rewait)`: the re-waiting frames in resumption order for FIFO, and reversed
for LIFO (`DrainedFifo`, `DrainedLifo`).

The derived primitives hold their condition variable as a sequence in wake
order. A frame they resume may re-enter the primitive before the
resumption returns:
- Event: a resumed frame in `rewait` clears the event, if it has still
  happened, and waits again. It stays queued, and the flag stays set only
  when no resumed frame did so.
- Consumable event: a woken frame in `rewait` consumes again. The flag is
  still clear, so it is queued again.
- Barrier: a released frame in `rewait` calls `set(rearm)` and waits
  again. It is queued when `rearm > 1`.
- Promise: a fulfilled promise never blocks, so a resumed frame that waits
  again proceeds. A drain resumes exactly the old queue and leaves it
  empty.

Where a header and its `.cpp` disagree, the model follows the `.cpp`:
- `Semaphore.hpp` declares `void notify()`, while `Semaphore.cpp` returns
  whether a waiter was resumed.
- `Event.hpp` declares `PODEventBase` with `bool wait(Coroutine*)`, while
  `Event.cpp` defines `PODEventPattern` and `PODConsumableEventPattern`
  with `WaitCall`/`ConsumeCall`.
- `Mutex.hpp` declares `bool lock(Coroutine*)`, while `Mutex.cpp` defines
  `LockCall::libcr_wait`.

`LIBCR_HELPER_SAVE` stores to `m_coroutine_ip`, while `Protothread`
declares `libcr_instruction_pointer`. Both are the single saved resume
point `Protothread.ip` here.

## Model

| member | source | states |
|---|---|---|
| Coroutines.Protothread.Prepare | src/Protothread.cpp:5-15 | the resume point is reset to the start of the body |
| Coroutines.Coroutine.PrepareRoot | src/Coroutine.cpp:5-16 | root frame: resume point reset, no parent, the given context and implementation, error clear, thread tag invalid (all 16 bits set), `next` untouched |
| Coroutines.Coroutine.PrepareChild | src/Coroutine.cpp:18-29 | child frame: parent is the given frame, context copied from it, implementation stored, error clear, thread tag invalid, `next` untouched; the parent's fields are unchanged |
| Coroutines.PrepareChain | src/Coroutine.cpp:18-29 | a root followed by any number of children, each prepared under the one before, forms a parent chain of that depth that shares the root's context, with no error set |
| WaitQueue.EnqueuedFifo | src/sync/ConditionVariable.cpp:21-39 | FIFO waiting appends: frames are woken in the order they waited, after the frames already waiting |
| WaitQueue.EnqueuedLifo | src/sync/ConditionVariable.cpp:167-176 | LIFO waiting prepends: frames are woken in the reverse of the order they waited, before the frames already waiting |
| WaitQueue.DrainedFifo | src/sync/ConditionVariable.cpp:98-116 | after a FIFO drain the queue is the old remainder followed by exactly the re-waiting frames, in resumption order |
| WaitQueue.DrainedLifo | src/sync/ConditionVariable.cpp:212-230 | after a LIFO drain the re-waiting frames sit, most recent first, in front of the old remainder |
| WaitQueue.DrainedWithin | src/sync/ConditionVariable.hpp:85-95 | every frame queued after a drain was queued before it, or was resumed by it and waited again |
| WaitQueue.DrainedEmpty | src/sync/ConditionVariable.cpp:156-160 | a drain leaves nothing queued if and only if no resumed frame waits again |
| FifoConditionVariables.FifoConditionVariable.constructor | src/sync/ConditionVariable.cpp:151-154 | a new FIFO condition variable is well formed and empty |
| FifoConditionVariables.FifoConditionVariable.Initialise | src/sync/ConditionVariable.cpp:15-19 | both ends null, queue empty, well formed |
| FifoConditionVariables.FifoConditionVariable.Empty | src/sync/ConditionVariable.hpp:37-38 | true exactly when no frame waits |
| FifoConditionVariables.FifoConditionVariable.Front | src/sync/ConditionVariable.hpp:64-65 | the first waiting frame, or null when none waits; reads without modifying |
| FifoConditionVariables.FifoConditionVariable.Wait | src/sync/ConditionVariable.cpp:21-39 | the frame's link is cleared and it is appended after the old last frame, or becomes first; it always becomes `last`; the chain stays acyclic and null-terminated; the call blocks |
| FifoConditionVariables.FifoConditionVariable.Invoke | src/sync/ConditionVariable.cpp:54 | the resumption is recorded with the error flag the frame sees; a frame in `rewait` waits again at the tail |
| FifoConditionVariables.FifoConditionVariable.FailInvoke | src/sync/ConditionVariable.cpp:73-74 | the error flag is set before the frame is invoked, so the frame sees it set |
| FifoConditionVariables.FifoConditionVariable.PopFront | src/sync/ConditionVariable.cpp:43-52 | removes exactly the head and advances `first`; `last` is reset when the head was the only frame; the shape invariant is kept |
| FifoConditionVariables.FifoConditionVariable.NotifyOne | src/sync/ConditionVariable.cpp:41-58 | returns whether a frame was waiting; resumes exactly the old head, with its error flag untouched, and leaves the rest queued |
| FifoConditionVariables.FifoConditionVariable.FailOne | src/sync/ConditionVariable.cpp:60-78 | as `NotifyOne`, but the resumed head sees its error flag set; no other frame's flag changes |
| FifoConditionVariables.FifoConditionVariable.RemoveOne | src/sync/ConditionVariable.cpp:80-96 | removes and returns the head (null on an empty queue) without resuming anyone |
| FifoConditionVariables.FifoConditionVariable.DrainStep | src/sync/ConditionVariable.cpp:128-135 | one pass of the drain loop (the same in `notify_all` and `fail_all`): the successor is read before the frame runs, so the frames not yet resumed stay chained; the frame's error flag is set first exactly in the fail variant; the queue and the trace grow by that one frame |
| FifoConditionVariables.FifoConditionVariable.NotifyAll | src/sync/ConditionVariable.cpp:98-116 | returns whether anything waited; resumes exactly the frames waiting at the call, in queue order, each seeing its own error flag; frames that wait again during the drain stay queued and are not resumed; no error flag changes |
| FifoConditionVariables.FifoConditionVariable.FailAll | src/sync/ConditionVariable.cpp:118-138 | as `NotifyAll`, but every resumed frame sees its error flag set, and only those frames' flags are set |
| FifoConditionVariables.FifoConditionVariable.RemoveAll | src/sync/ConditionVariable.cpp:140-149 | the queue becomes empty without resuming anyone; returns the old head, from which the removed frames are still chained |
| FifoConditionVariables.FifoConditionVariable.Destroy | src/sync/ConditionVariable.cpp:156-160 | fails every waiting frame in order; when none of them waits again, nothing is left queued, which the destructor's assertion demands |
| LifoConditionVariables.ConditionVariable.constructor | src/sync/ConditionVariable.cpp:262-265 | a new LIFO condition variable is well formed and empty |
| LifoConditionVariables.ConditionVariable.Initialise | src/sync/ConditionVariable.cpp:162-165 | head null, queue empty |
| LifoConditionVariables.ConditionVariable.Empty | src/sync/ConditionVariable.hpp:126-127 | true exactly when no frame waits |
| LifoConditionVariables.ConditionVariable.Front | src/sync/ConditionVariable.hpp:154-155 | the frame that would be woken next, or null; reads without modifying |
| LifoConditionVariables.ConditionVariable.Wait | src/sync/ConditionVariable.cpp:167-176 | the frame is linked in front of the current waiters and becomes the head; the chain stays acyclic and null-terminated; the call blocks |
| LifoConditionVariables.ConditionVariable.Invoke | src/sync/ConditionVariable.cpp:185 | the resumption is recorded; a frame in `rewait` waits again at the head |
| LifoConditionVariables.ConditionVariable.FailInvoke | src/sync/ConditionVariable.cpp:198-199 | the error flag is set before the frame is invoked |
| LifoConditionVariables.ConditionVariable.NotifyOne | src/sync/ConditionVariable.cpp:178-188 | returns false on an empty queue; otherwise pops and resumes the most recent waiter, error flags untouched |
| LifoConditionVariables.ConditionVariable.FailOne | src/sync/ConditionVariable.cpp:190-202 | as `NotifyOne`, with the popped frame's error flag set and no other flag changed |
| LifoConditionVariables.ConditionVariable.RemoveOne | src/sync/ConditionVariable.cpp:204-210 | pops and returns the most recent waiter, or null, without resuming it |
| LifoConditionVariables.ConditionVariable.DrainStep | src/sync/ConditionVariable.cpp:240-248 | one pass of the LIFO drain loop: the successor is read before the frame runs, the frames not yet resumed stay chained, the error flag is set first exactly in the fail variant, and the queue and trace grow by that one frame |
| LifoConditionVariables.ConditionVariable.NotifyAll | src/sync/ConditionVariable.cpp:212-230 | the head is cleared before the drain; resumes exactly the frames waiting at the call, most recent first; re-waiting frames stay queued and are not resumed again; returns false on an empty queue |
| LifoConditionVariables.ConditionVariable.FailAll | src/sync/ConditionVariable.cpp:232-251 | as `NotifyAll`, with every resumed frame seeing its error flag set and no other flag changed |
| LifoConditionVariables.ConditionVariable.RemoveAll | src/sync/ConditionVariable.cpp:253-260 | empties the queue without resuming anyone and returns the old head |
| LifoConditionVariables.ConditionVariable.Destroy | src/sync/ConditionVariable.cpp:267-271 | fails every waiting frame; when none waits again nothing is left queued |
| Semaphores.Initialised | src/sync/Semaphore.cpp:13-18 | the counter is the given value, nobody waits, and the balance (permits minus waiters) is the counter |
| Semaphores.WaitStep | src/sync/Semaphore.cpp:21-31 | proceeds exactly when the counter is positive, taking one permit and queueing nobody; otherwise the caller is queued in the semaphore's order with the counter at zero; the balance drops by one; "counter > 0 implies nobody waits" is kept |
| Semaphores.NotifyStep | src/sync/Semaphore.cpp:34-41 | returns whether a waiter existed; resumes exactly the first waiter, removing it from the queue and keeping the counter, or, with no waiter, adds one permit; the balance rises by one; the invariant is kept |
| Semaphores.BalanceDetermines | src/sync/Semaphore.cpp:21-41 | in a valid semaphore the balance alone fixes the counter and the number of waiters |
| Semaphores.WaitEach | src/sync/Semaphore.cpp:21-31 | successive waits only ever queue frames that called wait |
| Semaphores.WaitEachAdmits | src/sync/Semaphore.cpp:21-31 | of m fresh waiters on a counter k, the first k proceed and the rest queue after the old waiters in the semaphore's order; the counter ends at max(k - m, 0) |
| Semaphores.NotifyEachWakes | src/sync/Semaphore.cpp:34-41 | k notifications resume the first k waiters in queue order and bank one permit per notification left over |
| Semaphores.NotifyEachKeepsValid | src/sync/Semaphore.cpp:34-41 | any number of notifications keeps a valid semaphore valid: no frame queued twice, and a positive counter only with nobody waiting |
| Semaphores.WakesInQueueOrder | src/sync/Semaphore.cpp:21-41 | on a semaphore without permits, as many notifications as fresh waiters resume them in exactly the order the semaphore queued them |
| Semaphores.FifoWakesInWaitOrder | src/sync/Semaphore.cpp:21-41 | on a FIFO semaphore without permits, waiters are resumed in the order they waited |
| Semaphores.LifoWakesInReverseOrder | src/sync/Semaphore.cpp:21-41 | on a LIFO semaphore the same waiters are resumed most recent first |
| Semaphores.Semaphore.constructor | src/sync/Semaphore.cpp:44-48 | a semaphore initialised to the given counter |
| Semaphores.Semaphore.Initialise | src/sync/Semaphore.cpp:13-18 | the state becomes `Initialised(counter)` |
| Semaphores.Semaphore.Wait | src/sync/Semaphore.cpp:21-31 | state and result are those of `WaitStep` |
| Semaphores.Semaphore.Notify | src/sync/Semaphore.cpp:34-41 | state and result are those of `NotifyStep`; the resumed frame is recorded |
| Events.Initialised | src/sync/Event.cpp:15-19 | not happened, nobody waiting |
| Events.FireStep | src/sync/Event.cpp:22-46 | requires not happened; sets the flag and resumes every waiting frame in queue order; a resumed frame that clears the event and waits again stays queued; afterwards the flag is set if and only if no resumed frame waited again, and the queue is `Drained(order, [], queue, rewait)` |
| Events.ClearStep | src/sync/Event.cpp:30-34 | requires happened; resets only the flag |
| Events.WaitStep | src/sync/Event.cpp:37-46 | non-blocking exactly when the event has happened; otherwise the caller is queued; "happened implies nobody waits" is kept |
| Events.ConsumableFireStep | src/sync/Event.cpp:61-86 | requires not happened; resumes the first waiter and leaves the flag clear, or sets the flag exactly when nobody waits; a woken frame that consumes again finds the flag clear and is queued again; only frames that were waiting stay queued |
| Events.ConsumeStep | src/sync/Event.cpp:75-86 | a happened event is consumed without blocking and cleared; otherwise the consumer is queued |
| Events.WaitEach | src/sync/Event.cpp:37-46 | successive waits only ever queue frames that waited |
| Events.ConsumeEach | src/sync/Event.cpp:75-86 | successive consumes only ever queue frames that consumed |
| Events.HappenedNeverBlocks | src/sync/Event.cpp:22-46 | after the event happened every later waiter proceeds and nothing is queued |
| Events.WaitersBlockUntilFire | src/sync/Event.cpp:22-46 | before `fire` every waiter blocks and queues in the event's order; `fire` resumes exactly those waiters, and only those that wait again stay queued |
| Events.FireSatisfiesOne | src/sync/Event.cpp:61-86 | one consumable `fire` satisfies exactly one consumer, whether or not the woken frame consumes again: the first waiter, or else the first later consumer |
| Events.ConsumersBlock | src/sync/Event.cpp:75-86 | while the flag is clear every consumer blocks |
| Events.ConsumeFirstThenBlock | src/sync/Event.cpp:75-86 | with the flag set, the first consumer proceeds and every later one blocks |
| Events.Event.constructor | src/sync/Event.cpp:55-58 | an initialised event |
| Events.Event.Initialise | src/sync/Event.cpp:15-19 | the state becomes `Initialised()` |
| Events.Event.Fire | src/sync/Event.cpp:22-46 | sets the flag, then resumes the frames waiting at the start one at a time; the state follows `FireStep` and the resumed frames are recorded |
| Events.Event.Clear | src/sync/Event.cpp:30-34 | the state follows `ClearStep` |
| Events.Event.Wait | src/sync/Event.cpp:37-46 | state and result follow `WaitStep` |
| Events.Event.Happened | src/sync/Event.cpp:49-52 | the flag, read without change |
| Events.ConsumableEvent.constructor | src/sync/Event.cpp:69-72 | an initialised consumable event |
| Events.ConsumableEvent.Initialise | src/sync/Event.cpp:15-19 | the state becomes `Initialised()` |
| Events.ConsumableEvent.Fire | src/sync/Event.cpp:61-86 | the state follows `ConsumableFireStep`; the woken frame is recorded |
| Events.ConsumableEvent.Consume | src/sync/Event.cpp:75-86 | state and result follow `ConsumeStep` |
| Barriers.Unblocking | src/sync/Barrier.cpp:6-10 | count zero, nobody waiting |
| Barriers.Initialised | src/sync/Barrier.cpp:13-18 | count is the given value, nobody waiting |
| Barriers.SetStep | src/sync/Barrier.cpp:21-25 | only the count changes |
| Barriers.Released | src/sync/Barrier.cpp:21-43 | after a release, only resumed frames that re-arm the barrier and wait again are queued; the count is zero exactly when none did, or they re-armed it to zero, and is otherwise the re-armed count minus one |
| Barriers.WaitStep | src/sync/Barrier.cpp:28-43 | count zero: proceeds and nothing changes; otherwise the count drops by one, and the arrival that brings it to zero resumes every waiter, proceeds and leaves the barrier `Released` describes, while any other arrival is queued and blocks |
| Barriers.WaitEach | src/sync/Barrier.cpp:28-43 | successive arrivals give one proceed flag each and only ever queue arrivals |
| Barriers.ArrivalsBlock | src/sync/Barrier.cpp:37-40 | fewer than n arrivals at a barrier set to n all block and queue in the barrier's order |
| Barriers.ReleaseRearms | src/sync/Barrier.cpp:28-43 | from n > 0, n arrivals: the first n - 1 block, the n-th proceeds and resumes them in the barrier's order, leaving the barrier `Released` describes |
| WaitQueue.EnqueuedFrames | src/sync/ConditionVariable.cpp:21-39 | only frames that waited are ever queued |
| WaitQueue.DrainedDistinct | src/sync/ConditionVariable.cpp:98-116 | a drain from an empty queue over distinct frames queues no frame twice |
| Barriers.OpenArrivals | src/sync/Barrier.cpp:31-42 | arrivals at an open barrier all proceed and change nothing |
| Barriers.ReleasesOnNth | src/sync/Barrier.cpp:28-43 | from n > 0, when none of the first n - 1 arrivals waits again: they block, the n-th releases all of them in the barrier's order and proceeds, every later arrival proceeds, and the barrier ends open |
| Barriers.Barrier.Open | src/sync/Barrier.cpp:46-49 | an open barrier |
| Barriers.Barrier.constructor | src/sync/Barrier.cpp:52-56 | a barrier set to the given count |
| Barriers.Barrier.InitialiseOpen | src/sync/Barrier.cpp:6-10 | the state becomes `Unblocking()` |
| Barriers.Barrier.Initialise | src/sync/Barrier.cpp:13-18 | the state becomes `Initialised(count)` |
| Barriers.Barrier.Set | src/sync/Barrier.cpp:21-25 | the state follows `SetStep` |
| Barriers.Barrier.Wait | src/sync/Barrier.cpp:21-43 | a release resumes the frames waiting at the start one at a time, each re-arming and waiting again if it is in `rewait`; state and result follow `WaitStep`, and released frames are recorded |
| Mutexes.Initialised | src/sync/Mutex.cpp:14-18 | no owner, nobody waiting |
| Mutexes.LockStep | src/sync/Mutex.cpp:20-31 | an unowned mutex is taken without blocking; otherwise the caller waits at the head of the LIFO queue and the owner is kept; "no owner implies nobody waits" is kept |
| Mutexes.TryLockStep | src/sync/Mutex.cpp:33-44 | succeeds exactly on an unowned mutex; a failed attempt changes nothing |
| Mutexes.UnlockStep | src/sync/Mutex.cpp:46-52 | requires an owner; the front waiter becomes the owner before it is resumed, or the mutex becomes unowned when nobody waits |
| Mutexes.UnlockEach | src/sync/Mutex.cpp:46-52 | successive unlocks keep the mutex valid and owned while waiters remain |
| Mutexes.HandOff | src/sync/Mutex.cpp:46-52 | after k unlocks the k-th waiter owns the mutex and the earlier ones were resumed in queue order; one unlock more than there are waiters leaves it unowned |
| Mutexes.LockEach | src/sync/Mutex.cpp:20-31 | successive lock attempts only ever queue frames that tried to lock |
| Mutexes.LockersWaitInReverse | src/sync/Mutex.cpp:20-31 | frames locking an owned mutex all wait, the owner is kept, and the queue is their reverse order |
| Mutexes.UnlocksHandOffInReverse | src/sync/Mutex.cpp:20-52 | frames that queued for an owned mutex get it one unlock each, most recent first, and the next unlock leaves it unowned |
| Mutexes.Mutex.constructor | src/sync/Mutex.cpp:54-57 | an initialised mutex |
| Mutexes.Mutex.Initialise | src/sync/Mutex.cpp:14-18 | the state becomes `Initialised()` |
| Mutexes.Mutex.Lock | src/sync/Mutex.cpp:20-31 | state and result follow `LockStep` |
| Mutexes.Mutex.TryLock | src/sync/Mutex.cpp:33-44 | state and result follow `TryLockStep` |
| Mutexes.Mutex.Unlock | src/sync/Mutex.cpp:46-52 | the state follows `UnlockStep`; the new owner is recorded as resumed |
| Mutexes.Mutex.IsOwner | src/sync/Mutex.hpp:41-47 | whether the given frame owns the mutex |
| Promises.Initialised | src/sync/Promise.cpp:37-41 | unfulfilled, nobody waiting |
| Promises.WaitStep | src/sync/Promise.cpp:43-53 | returns true without queueing exactly when fulfilled; otherwise the caller waits (LIFO) and false is returned |
| Promises.FulfillStep | src/sync/Promise.cpp:55-61 | requires unfulfilled; sets the flag and resumes every waiter in queue order, leaving nobody queued |
| Promises.WaitEach | src/sync/Promise.cpp:43-53 | successive waits only ever queue frames that waited |
| Promises.FulfilledNeverQueues | src/sync/Promise.cpp:43-61 | after `fulfill` every later wait returns at once and nothing is queued again |
| Promises.FulfillResumesWaiters | src/sync/Promise.cpp:43-61 | frames waiting on an unfulfilled promise all block, and `fulfill` resumes them most recent first |
| Promises.Promise.constructor | src/sync/Promise.cpp:63-66 | an initialised promise |
| Promises.Promise.Initialise | src/sync/Promise.cpp:37-41 | the state becomes `Initialised()` |
| Promises.Promise.Wait | src/sync/Promise.cpp:43-53 | state and result follow `WaitStep` |
| Promises.Promise.Fulfill | src/sync/Promise.cpp:55-61 | the state follows `FulfillStep`; the resumed frames are recorded |
| Promises.SingleInitialised | src/sync/Promise.cpp:6-10 | unfulfilled, no waiter |
| Promises.SingleWaitStep | src/sync/Promise.cpp:12-22 | returns true without waiting exactly when fulfilled; otherwise the caller becomes the single waiter |
| Promises.SingleFulfillStep | src/sync/Promise.cpp:24-30 | requires unfulfilled; sets the flag and resumes the waiter, if any |
| Promises.SingleRefinesPromise | src/sync/Promise.cpp:12-53 | a single promise's wait behaves as the general promise's wait on a queue of at most one waiter |
| Promises.SinglePromise.constructor | src/sync/Promise.cpp:32-35 | an initialised single promise |
| Promises.SinglePromise.Initialise | src/sync/Promise.cpp:6-10 | the state becomes `SingleInitialised()` |
| Promises.SinglePromise.Wait | src/sync/Promise.cpp:12-22 | state and result follow `SingleWaitStep` |
| Promises.SinglePromise.Fulfill | src/sync/Promise.cpp:24-30 | the state follows `SingleFulfillStep`; the resumed waiter is recorded |
| Protocol.EntryOf | src/primitives.hpp:242-245 | an invocation starts the body when no resume point is saved, resumes at the saved label otherwise, and hits the "called after return" assertion at the end label |
| Protocol.Complete | src/primitives.hpp:192-213 | completion saves the end label, so a later invocation is the assertion; a child frame then invokes its parent, a root returns (corrected order, as in the protothread end at src/primitives.hpp:179-190) |
| Protocol.CompleteAsWritten | src/primitives.hpp:192-213 | debug `CR_IMPL_END` as written: the end label is saved only when the body falls off its end; after a jump to `cr_label_return` the old resume point stays |
| Protocol.Return | src/primitives.hpp:83-86 | `CR_RETURN` completes the frame and its parent, if any, is invoked; with the corrected completion (see ## Findings) it cannot be invoked again, while as written the old resume point stays |
| Protocol.Throw | src/primitives.hpp:74-79 | requires a parent; sets the parent's error flag, then completes and invokes the parent; the completion is the corrected one (see ## Findings) |
| Protocol.Resume | src/primitives.hpp:64-69 | requires the frame not to be queued; no error: execution proceeds; error: the flag is cleared before the handler, so it is seen once; the default handler rethrows to the parent, with the corrected completion (see ## Findings) |
| Protocol.Await | src/primitives.hpp:54-70 | saves the resume label, then returns exactly when the operation blocks; a non-blocking operation falls through to the label's error check; the default handler is `CR_THROW`, with the corrected completion (see ## Findings) |
| Protocol.Call | src/primitives.hpp:115-142 | saves the resume label, prepares the child as a child of this frame sharing its context, and suspends |
| Protocol.PropagateError | src/primitives.hpp:74-79 | an error thrown by a grandchild is rethrown by the child's default handler and handled by the root's own handler; all flags end clear, both callees are complete, with the corrected completion (see ## Findings) |
| Protocol.FailedAwait | src/primitives.hpp:58-70 | a frame awaiting a FIFO condition variable that fails it sees the error once and, with the default handler, hands it to its parent and invokes the parent, with the corrected completion (see ## Findings) |
| Protocol.EarlyReturnAsWritten | src/primitives.hpp:192-213 | with the completion as written, a `CR_RETURN` after an await leaves the frame resumable after the await |
| Protocol.EarlyReturn | src/primitives.hpp:83-86 | with the corrected completion, a `CR_RETURN` after an await makes any further invocation the assertion |
| Protocol.PYield | src/primitives.hpp:33-39 | saves the label and reports not done |
| Protocol.PReturn | src/primitives.hpp:90-94 | debug `CR_PRETURN`: the end label is saved and the protothread reports done |
| Protocol.PInvoke | src/primitives.hpp:179-190 | a protothread that has not returned runs to its next yield (not done) or return (done); invoking one that returned is excluded, as the debug assertion demands |
| Protocol.PCall | src/primitives.hpp:156-162 | prepares the child, saves a checkpoint and invokes the child; the caller proceeds exactly when the child is done and otherwise reports not done itself |
| Protocol.PCallResume | src/primitives.hpp:156-162 | re-entering at the `CR_PCALL` checkpoint invokes the child again without preparing it, with the same propagation |

## Left out

- Everything under `src/mt/`, the schedulers and the computed-`goto` mechanics: they are multi-threaded or compiler-specific. Resume points are the labels of `Ip`.
- The `.inl` bodies (`empty`, `front`, `wait()`, `Coroutine::operator()`, `Coroutine::waiting`, `start`, `start_prepared`, `is_owner`, `listeners`) are not part of this model. `Empty`, `Front` and `IsOwner` follow their doc comments. `Coroutine::waiting()` is the ghost set `queued` of `Protocol.Resume`.
- FifoConditionVariables.FifoConditionVariable.Invoke: what a resumed frame does beyond waiting again on the same condition variable is not modelled. The same holds for LifoConditionVariables.ConditionVariable.Invoke.
- The derived primitives hold their condition variable as a sequence in wake order rather than as the linked chain. The chain is proved separately in the two condition variable classes. A frame resumed by a semaphore notify or a mutex unlock may call into the same primitive again before the call returns; that nested continuation is not modelled.
- Events.FireStep, Events.ConsumableFireStep, Barriers.WaitStep: a resumed frame's nested calls are limited to waiting again (after `clear` for the event, after `set(rearm)` for the barrier). Other nested calls, such as a nested `fire`, are not modelled.
- Barriers.Released: `set(1)` followed by a wait inside a release would release the barrier again from within the release. That nested release is not modelled, so `rearm` is never 1 while any frame re-arms.
- Semaphores.NotifyStep: `std::size_t` wrap-around of the counter is not modelled (`nat`). The same applies to the barrier count.
- `cr_destroy` and object lifetime are not modelled. Completion only marks the frame as ended and names the parent to invoke.
- Release builds are left out. The model follows debug builds. There, as written, `CR_IMPL_END` saves the end label only when the body falls off its end; `CR_RETURN` and `CR_THROW` skip that save (see ## Findings). `CR_PRETURN` always saves it, and re-invoking a frame whose end label is saved is an assertion. In release builds `CR_PRETURN` just returns true and nothing guards against re-invocation.
- The debug magic number written by `Protothread::prepare` is not modelled.
- Protocol.Call: the child's first run inside `start` happens synchronously in the source. The model prepares the child and suspends the caller; the child's run is left to later steps (`Throw`, `Return`, `Resume`).
- Protocol.PCall: the child's body is opaque. What one invocation does (yield at a label, or return) is the parameter `run`.
- Protocol.Call requires the child to be a different frame, with a different protothread part, from the caller. In the source both are distinct member objects.
- `CR_CALL_PREPARED`, `CR_PCALL_NAKED`, `CR_YIELD` and `CR_CHECKPOINT` are not separate members. They are built from the same save/label/check steps.
- `PODSingleConditionVariable` is not part of this model. The single promise keeps its one waiter in a slot, per its doc comment "can only be waited on by a single coroutine" (src/sync/Promise.hpp:8).
- The consumable event inherits `clear`, `wait` and `happened` from the repeatable event. They behave as `Events.Event`'s members on the same state.

## Findings

| source | as written | input that shows it | evidently intended | confidence | as-written member | corrected member |
|---|---|---|---|---|---|---|
| src/primitives.hpp:192-213 | debug `CR_IMPL_END` saves the end label before `cr_label_return:`, so `CR_RETURN` and `CR_THROW`, which jump straight to `cr_label_return`, never save it | a coroutine that awaits at label n and then executes `CR_RETURN`: the resume point stays at label n, so invoking it again resumes after the await instead of hitting the "called after return" assertion | save the end label after `cr_label_return:`, as the protothread end does (src/primitives.hpp:184-185), so every completion makes re-invocation the assertion | medium, not executed | Protocol.EarlyReturnAsWritten | Protocol.EarlyReturn |
