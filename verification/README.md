# acRTOS kernel in Dafny

This project models the kernel of acRTOS, a preemptive real-time kernel for a single core:
its scheduler, its lists and clock, and its blocking primitives (semaphore, mutex with
priority inheritance, event group, queue). It proves what users of the kernel rely on, in
every reachable state and along every run.

The model has three layers.

- **The state machine** (`Model.dfy`). One state holds any number of tasks, semaphores,
  mutexes, queues and event groups. Each action is one critical section of the C++ source,
  taken atomically: the task calls, the non-blocking calls that interrupts may make at any
  time, the tick, and the context switch as an action of its own. A flag records that a
  yield is due. Ticks, interrupt calls and spurious switches may come between a task
  blocking and its being switched out. 32-bit counts, the tick counter and the signed
  difference in `delay_until` are written out with their width.
- **The kernel code** (`Kernel.dfy`, with `Fields.dfy`). A class with the fields of the
  scheduler and of the primitives, updated in place one statement after the other as the
  source does, loops included. Every entry point is proved to change the state exactly as
  the action of the state machine does and to return what the source returns. A call that
  parks returns no answer; `FinishCall` and `FinishWait` give it when the task runs again.
- **The linked structures** (`TaskLists.dfy`, `DelayLists.dfy`, `ReadyManagers.dfy`,
  `Bitmasks.dfy`, `SharedLists.dfy`, `HeldChains.dfy`, `Rings.dfy`). The intrusive doubly
  linked lists, the delta-encoded delay list, the ready lists with their bitmask, the chain
  of held mutexes and the ring buffer, on heap nodes, each proved against the sequence
  operation that the other layers use. `SharedLists.dfy` puts ready lists, wait lists and the
  delay list over the same control blocks and proves that every move between them (tick,
  handoff, parking, switch, suspend and delete, priority change, sleep, resume, creation) is
  the move of the state machine on all lists at once.

The invariant is in `Structure.dfy` and `Invariant.dfy`; that every action keeps it is proved
in `Preservation.dfy`, `EventScan.dfy`, `Mutexes.dfy` and `Scheduling.dfy` and collected in
`Runs.dfy`. `Evolution.dfy` says what one action may do to one task. The results are in
`Properties.dfy`, `Calls.dfy` and `Outcomes.dfy` (calls from their arguments to their answers),
`Ledger.dfy` with `Handoffs.dfy` and `Histories.dfy` (conservation over runs),
`Inheritance.dfy`, `Exactness.dfy`, `StaleBoost.dfy`, `Yields.dfy` (when a yield is requested),
`Timing.dfy`, `Fairness.dfy`, `EventFold.dfy` and `EventBits.dfy` (event conditions bit by bit).

Where code and documentation differ, the model follows the code. `include/acrtos/ipc.hpp`
(lines 81 to 86) says that a task owning mutexes runs at the highest of its base priority and
its waiters. The code does not recompute the owner when a waiter is suspended or deleted
(`src/scheduler.cpp`, lines 169 to 174 and 226 to 231), and boosts an owner without passing
the boost on when that owner waits itself, which the documentation does state.
`Exactness.ExactStep` gives the exact condition, `StaleBoost.OwnerStaysBoosted` and
`StaleBoost.OwnerStaysBelow` runs that break the rule in either way.

History fields (`cause` and `ticket` of a task; `gives`, `dropped` and `granted` of a semaphore;
`accepted` and `delivered` of a queue) record what happened and decide nothing; `call` of a
task says which blocking call it is inside of, so that it makes no other before it returns.
`Ledger.dfy` and `Outcomes.dfy` tie them to the actions of the run, so nothing has to be taken
from the way they are written.

`dafny verify dfyconfig.toml` checks the project.

## Model

| member | source | states |
|---|---|---|
| `Runs.ReachableInv` | src/scheduler.cpp:7-262 | The joint invariant of lists, waits, objects, ownership, clock and preemption holds in every state of every interleaving of task calls, interrupt calls, ticks and (also spurious) switches, including while the current task has blocked or become ready but is not yet switched out |
| `Runs.StepInv` | src/scheduler.cpp:7-262 | Every enabled critical section keeps that invariant |
| `Properties.TasksLocated` | include/acrtos/task.hpp:47-51 | In every reachable state each task is exactly where its state says: Ready once in the ready list of its current priority and nowhere else; Running is the current task and in no list; Blocked once in the wait list its control block names, or in none and then sleeping; Suspended and Deleted nowhere; only blocked tasks sleep |
| `Properties.WaitListsOrdered` | include/acrtos/ipc.hpp:13-17 | Every wait list is in non-increasing order of current priority in every reachable state, although inheritance changes priorities of parked tasks, so the head is a true maximum |
| `Properties.NoMissedPreemption` | src/scheduler.cpp:118-142 | After start, in every reachable state, either a yield is due or the current task is Running with at least the priority of every ready task (interrupt callers honouring the returned flag) |
| `Yields.YieldExactly` | src/scheduler.cpp:118-197 | Yields bounded from both sides: with none pending, any action but the switch requests one if and only if it starts the scheduler, or after start the current task no longer runs or a task that has become ready has strictly higher priority, or it is a tick and some ready task has at least the running priority, or it is an unlock() that changed its caller's own priority |
| `Properties.SwitchFindsTask` | src/scheduler.cpp:20-21 | In every reachable state after start a switch finds a ready task, the idle task if no other |
| `Properties.SwitchPicksHighest` | src/scheduler.cpp:20-27 | The task a switch picks has at least the priority of every task it leaves ready |
| `Outcomes.SwitchRunsOldest` | src/scheduler.cpp:7-29 | A switch runs the oldest task of the highest non-empty level, the outgoing task counting as the newest of its level if it has not stopped running; the other tasks, levels, waits and sleepers stay as they are and the yield is done |
| `Properties.CallAnswers` | include/acrtos/ipc.hpp:54-60 | A blocking call that resumes after parking answers true exactly when the recorded cause of its wait's end is a handoff; then lock() owns the mutex, and for queues and event groups the item and the bits in its control block are handed over ones (what they have to do with the arguments of the call is in the rows of Calls, what they are worth in those of Ledger) |
| `Calls.CallParks` | src/ipc.cpp:31-58 | From the call: a take, lock, send, receive or wait_bits that cannot be answered at once leaves its caller Blocked on the list it asked for, with its own item or condition stored and exactly its own timeout armed, or none when it waits for ever |
| `Calls.JoinsBehind` | src/task.cpp:41-67 | From the call: who parks stands behind all waiters of at least its priority, so among equals first come is first served, and before all others |
| `Calls.CallStands` | include/acrtos/ipc.hpp:54-60 | Along every run until it returns, a task stays inside its call and the call keeps its arguments: the condition, and the item of a sender |
| `Calls.SendArrives` | src/queue.cpp:93-105 | From the call: until a blocking send(x) returns the offered item is x, and if the flag then says true, x stands in the log of accepted items at the place of this call |
| `Calls.ReceiveArrives` | src/queue.cpp:107-119 | From the call: if the flag of a blocking receive says true, the item in its buffer stands in the log of delivered items at the place of this call |
| `Calls.WaitMeets` | src/ipc.cpp:224-271 | From the call: until wait_bits(mask, all, clear) returns the stored condition is the caller's; while it is parked that condition is not met by the bits of any reached state; unless it was cut short the bits it was given meet it. ALL means that every bit of the mask is set, ANY that some bit of it is |
| `Calls.AnswersAtOnce` | src/ipc.cpp:31-58 | The converse of CallParks: a call on an object that needs no waiting leaves its caller running and outside any call. So with a non-zero mask and timeout wait_bits parks if and only if the condition fails, bit by bit, on the current bits |
| `Outcomes.WaitEnds` | src/ipc.cpp:18-25 | A wait goes on until its one end, and the recorded cause tells which: handoff only by the action that hands over on that list, to its first member (or by setting bits), timeout only at the last tick, cancelled only by suspend or delete of the waiter; the last two always end it |
| `Properties.AnswerStands` | src/scheduler.cpp:169-176 | Once a wait has ended, its one cause, the flag, the item and the bits survive every further action until the call returns, being suspended and resumed in between included |
| `Outcomes.SuspendedStays` | src/scheduler.cpp:159-185 | A suspended task stays Suspended along every run that neither resumes nor deletes it: no give, timeout, release or switch makes it run |
| `Outcomes.SuspendHolds` | src/scheduler.cpp:159-185 | From the call: suspend() takes effect at once and lasts that long |
| `Outcomes.CreatedPriority` | src/scheduler.cpp:52-77 | The priority passed at creation is the base of the task for ever, a lower bound of its priority, and its priority whenever it holds no mutex |
| `Outcomes.CreateReadies` | src/scheduler.cpp:52-77 | create_task makes the task Ready at the back of the list of the priority it was given, holding nothing, and changes no other task or list; with a full table it changes nothing |
| `Outcomes.StartReadies` | src/scheduler.cpp:144-157 | start() does that for the idle task at priority 0 and requests the first switch |
| `Outcomes.ResumeReadies` | src/scheduler.cpp:199-212 | resume() puts a Suspended task at the back of its ready list and changes no other task or list; on any other task it changes nothing |
| `Outcomes.DeleteIsForGood` | src/scheduler.cpp:214-243 | From the call: whatever state the task is in, delete() makes it Deleted, and it is Deleted after every run from there, resume() of it included |
| `Properties.DeletedForGood` | src/scheduler.cpp:214-243 | A deleted task stays Deleted along every run |
| `Properties.HeldIffOwned` | src/ipc.cpp:111-121 | In every reachable state a task owns a mutex if and only if the mutex occurs in its held chain, and then exactly once, so chains are disjoint |
| `Properties.FreeUnwaited` | src/ipc.cpp:173-179 | In every reachable state a mutex with waiters has an owner |
| `Properties.NoSelfWait` | src/ipc.cpp:147-150 | In every reachable state nobody waits for a mutex it owns |
| `Properties.OwnerUntilUnlock` | src/ipc.cpp:164-194 | Nobody but the owner, by its own unlock(), ends an ownership |
| `Properties.UnlockPasses` | src/ipc.cpp:173-183 | unlock() by the owner makes the first waiter the owner, or frees the mutex if there is none |
| `Calls.OwnsUntilUnlock` | src/ipc.cpp:164-194 | Along every run without its own unlock() a task keeps its mutex, whatever is done to it |
| `Calls.MutualExclusion` | include/acrtos/ipc.hpp:81-86 | From a lock() answered true, at once or after parking, until the unlock() of the same task, that task is the owner and no lock() of the mutex by another task is answered true |
| `Properties.BoostNeverLeaks` | src/ipc.cpp:175-189 | In every reachable state, nesting, suspends and deletes allowed, no task is below its base priority and a task that holds no mutex is at exactly its base priority |
| `Properties.QueueFifo` | include/acrtos/queue.hpp:31-39 | In every reachable state the log of deliveries followed by the ring is the log of accepted items in order (that these logs are the calls answered true is Ledger.ItemsAccounted), receivers wait only while the ring is empty and senders only while it is full, so at most one wait queue is non-empty |
| `Properties.SemaphoreConserves` | src/ipc.cpp:31-109 | In every reachable state the count fits 32 bits and a positive count means that nobody waits; the history counters balance (what they count is Ledger.CountersTrue) |
| `Properties.EventNeverStrands` | src/ipc.cpp:196-222 | In every reachable state no parked waiter of an event group has its stored condition met, bit by bit, by the current bits (that this is the caller's condition is Calls.WaitMeets) |
| `Ledger.TokensAccounted` | src/ipc.cpp:31-109 | Conservation told by the calls of a run from the start: initial count plus gives is the takes that got a token (at once, or by returning true from their wait), plus the tasks that were handed one and have not returned yet, plus the count, plus the gives that found no waiter and the count saturated |
| `Ledger.CountersTrue` | src/ipc.cpp:31-109 | The history counters of a semaphore are those numbers: granted is takes answered true plus handoffs pending, dropped is the saturated gives |
| `Ledger.ItemsAccounted` | src/queue.cpp:39-131 | No loss and no duplicate along every run from the start, for the sends and for the receives of a queue: every call answered true has a place of its own in the log, with the item it passed or got; every entry is the place of such a call or of exactly one whose handover has happened and that has not returned; so there are as many entries as such calls, and a call refused, timed out or cancelled has left none |
| `Ledger.StepPends` | src/ipc.cpp:18-25 | Who has been handed something on a list and has not returned, after one action: the first waiter if the action hands over, and all who were before but for the one that returns now |
| `Histories.TokensConserved` | src/ipc.cpp:69-85 | Along every run from the start: initial count plus the number of give() calls in the run balances with the history counters and the count |
| `Histories.RunFifo` | src/queue.cpp:39-63 | Along every run the accepted and delivered logs of a queue only grow, deliveries plus ring are the accepted items in order, and the ring stays within capacity (entry by entry against the calls: Ledger.ItemsAccounted) |
| `Inheritance.NestedBounds` | src/ipc.cpp:123-130 | With nested locking, while no mutex waiter is suspended or deleted: base <= priority <= recompute_priority for every task in every reachable state |
| `Inheritance.FlatLowerBound` | src/ipc.cpp:152-157 | While no holder of a mutex blocks in lock(), suspends and deletes of waiters allowed, every task is at least at recompute_priority and at every waiter of every mutex it holds |
| `Inheritance.FlatExact` | include/acrtos/ipc.hpp:81-86 | With neither, every task runs at exactly the highest of its base priority and the waiters of all mutexes it holds |
| `Inheritance.NoInversion` | include/acrtos/ipc.hpp:81-86 | Without nested blocking: while H waits for a mutex whose owner is Ready or Running and no yield is due, the running task has at least the priority of H |
| `Inheritance.InheritCovers` | src/ipc.cpp:123-130 | recompute_priority covers the base and every waiter of every held mutex although it looks at heads only |
| `Inheritance.InheritAttained` | src/ipc.cpp:123-130 | What it computes is the base or the priority of an actual waiter, so it is the maximum |
| `Inheritance.BusyBelow` | include/acrtos/ipc.hpp:84-85 | A blocking lock() keeps owners at or above their waiters if and only if it does not lift an owner that itself waits over the owner it waits for |
| `Exactness.ExactStep` | include/acrtos/ipc.hpp:81-86 | From a state where every priority is what recompute_priority gives, an action keeps that true if and only if it is neither a suspend or delete of the one waiter to whom an owner owes its boost nor a lock() that lifts a waiting owner over the next owner (both conditions on the state before the call) |
| `Exactness.ExactRun` | include/acrtos/ipc.hpp:81-86 | A run contains no such action if and only if priorities are exact after every prefix of it |
| `Exactness.HaltAbove` | src/scheduler.cpp:169-174 | Taking a mutex waiter out leaves no owner boosted without cause if and only if nobody owed its boost to that waiter alone |
| `StaleBoost.OwnerStaysBoosted` | src/scheduler.cpp:169-174 | A concrete run from the start after which suspending a waiter leaves the mutex without waiters and its owner at priority 2 over a base of 1: the documented inheritance rule fails there |
| `StaleBoost.OwnerStaysBelow` | include/acrtos/ipc.hpp:84-85 | A concrete run from the start after which a lock() lifts a waiting owner to priority 3 and the owner it waits for stays at 2 |
| `Timing.DelayUntilPast` | src/scheduler.cpp:91-103 | delay_until(w), n being (w - now) modulo 2^32: if n is 0 or at least 2^31 the time has been reached and nothing changes |
| `Timing.DelayUntilSleeps` | src/scheduler.cpp:91-103 | delay_until(w) with 0 < n < 2^31: unless suspended or deleted the task is Blocked through every run with fewer than n ticks |
| `Timing.DelayUntilExact` | src/scheduler.cpp:91-103 | delay_until(w) with 0 < n < 2^31: unless suspended or deleted first, the n-th tick makes the task Ready and the 32-bit counter equal to w, across its wrap |
| `Timing.DelayMsSleeps` | src/scheduler.cpp:105-116 | From the call: after delay_ms(ms) the caller, unless suspended or deleted, is Blocked through every run with fewer than the ticks of ms, whatever else happens |
| `Timing.DelayMsExact` | src/scheduler.cpp:105-116 | From the call: and the last of these ticks makes it Ready |
| `Timing.MsRoundsUp` | include/acrtos/types.hpp:25-28 | The ticks of ms last at least ms milliseconds and less than one tick longer |
| `Timing.DelayNothing` | src/scheduler.cpp:105-116 | delay_ms(0) changes nothing |
| `Calls.TimeoutExact` | src/scheduler.cpp:130-142 | From the call: a take, send, receive or wait_bits that parks with a timeout still waits only while fewer than the ticks of its ms have passed, and a tick ends the wait if and only if it is the last of them, leaving it Ready, flagged, with cause Timeout |
| `Timing.SleepsThrough` | src/scheduler.cpp:105-116 | A task that stands in the delay list without waiting, and is not suspended or deleted, stays Blocked through every run with fewer ticks than its entry has left |
| `Timing.WakesOnTime` | src/scheduler.cpp:130-142 | With n ticks left in its entry it is Ready after the n-th tick of the run, whatever happens to the delay list in between |
| `Timing.OnTime` | src/task.cpp:109-180 | A task in the delay list, sleeping or waiting with a timeout, has left what its entry had minus the ticks of the run and waits for the same thing; the tick that takes it out is exactly the last of its entry and leaves it Ready and, if it was parked, flagged as timed out |
| `Timing.TickSleeper` | src/task.cpp:155-180 | A tick makes Ready exactly the sleepers with one tick left, with the expired flag if they were parked, and leaves one tick less to the others |
| `Timing.Counter` | src/scheduler.cpp:130-142 | The tick counter follows the ticks of a run modulo 2^32 |
| `Fairness.RoundRobin` | include/acrtos/scheduler.hpp:59-60 | With k tasks at the running priority and nothing but ticks for k ticks, k ticks with their switches run each of them exactly once in order and restore the original order, for every k |
| `Fairness.RoundRotates` | src/scheduler.cpp:118-142 | One quiet tick with its switch moves the running task behind its equals |
| `Delays.InsertDue` | src/task.cpp:109-132 | On the map from tasks to remaining ticks, insert adds one entry and leaves the others unchanged |
| `Delays.WithoutDue` | src/task.cpp:134-153 | Remove deletes only that entry, and nothing when the task is absent |
| `Delays.DownDue` | src/task.cpp:155-160 | A tick takes one from every entry |
| `Structure.PutLinked` | src/scheduler.cpp:245-262 | Moving a task between lists keeps every task linked exactly where its control block says, every list free of duplicates and every wait list in priority order |
| `EventScan.Monotone` | include/acrtos/ipc.hpp:146-152 | ANY and ALL are monotone: a condition met after clearing bits was met before |
| `EventScan.ScanInv` | src/ipc.cpp:196-222 | One front-to-back pass with bits shrinking on the way restores the invariant, so no second pass is needed |
| `EventFold.ScanFolds` | src/ipc.cpp:196-222 | The pass equals a fold over the conditions in list order: each satisfied waiter is made ready with the bits as they were before its own clear, the others are untouched, and the group keeps what the fold leaves |
| `EventFold.SetBitsFolds` | src/ipc.cpp:273-289 | set_bits() answers all waiters, highest priority first, by that fold started from the bits that were set or are in the mask |
| `EventFold.SetBitsAdds` | src/ipc.cpp:273-289 | When those bits meet nobody's condition, set_bits() leaves exactly them in the group and changes nothing else |
| `EventBits.MetBits` | include/acrtos/ipc.hpp:146-152 | The word tests for ALL and ANY hold if and only if every bit of the mask, or some bit of it, is set |
| `EventBits.PlusBits` | src/ipc.cpp:273-282 | A word is the old one with a mask set if and only if its bits are those of either |
| `EventBits.MinusBits` | src/ipc.cpp:303-307 | A word is the old one with a mask cleared if and only if its bits are those of the old one outside the mask |
| `EventBits.WaitAtOnce` | src/ipc.cpp:224-250 | wait_bits() answered at once takes the bits of its mask out of the group if its condition was met and it asked for that, and changes nothing else |
| `EventBits.ClearTakesOut` | src/ipc.cpp:303-307 | clear_bits() takes the bits of its mask out of the group and changes nothing else |
| `KernelCode.Kernel.constructor` | include/acrtos/scheduler.hpp:73-80 | A kernel with nothing created is in the initial state and satisfies the invariant |
| `KernelCode.Kernel.ScheduleNextTask` | src/scheduler.cpp:7-29 | Does exactly the Switch step: the outgoing task goes to the back of its list if still Running, the oldest task of the highest level runs; no missing task, invariant kept |
| `KernelCode.Kernel.VacateCurrent` | src/scheduler.cpp:15-18 | Only a task that is still Running is put back; one that blocked, was suspended or deleted is not |
| `KernelCode.Kernel.GetHighestPriorityTask` | src/scheduler.cpp:301-316 | Pops the oldest task of the level that the linear scan finds, or nothing if all lists are empty |
| `KernelCode.Kernel.CreateTask` | src/scheduler.cpp:52-77 | Does exactly the creation step; answers false and changes nothing when the level is out of range or the table is full; requests a yield only over a lower running task |
| `KernelCode.Kernel.Start` | src/scheduler.cpp:144-157 | Does exactly the start step: idle task at priority 0, started, first switch requested |
| `KernelCode.Kernel.TickHandler` | src/scheduler.cpp:130-142 | Does exactly the Tick step: counter plus one modulo 2^32, all due tasks released in order, a yield requested when an equal or higher task is ready |
| `KernelCode.Kernel.DelayListTick` | src/task.cpp:155-180 | The release loop does what the state machine does one by one: wait list, flag, ready list, for exactly the entries that reach zero |
| `KernelCode.Kernel.NeedsToPreempt` | src/scheduler.cpp:118-128 | Answers whether a ready task has at least the priority of the running one, or any if none runs |
| `KernelCode.Kernel.DelayFor` | src/scheduler.cpp:105-116 | Does exactly the delay_ms step; zero returns at once |
| `KernelCode.Kernel.DelayTill` | src/scheduler.cpp:91-103 | Does exactly the delay_until step: unless (wake - now) modulo 2^32 is 0 or at least 2^31, when nothing changes, the caller is Blocked with that many ticks to go |
| `KernelCode.Kernel.Suspend` | src/scheduler.cpp:159-185 | Does exactly the suspend step: leaves every list, ends a wait with the flag raised, yields if it is the caller; a Deleted task stays Deleted, any other is Suspended |
| `KernelCode.Kernel.Resume` | src/scheduler.cpp:199-212 | Does exactly the resume step: a Suspended task is Ready, any other keeps its state |
| `KernelCode.Kernel.Delete` | src/scheduler.cpp:214-243 | Does exactly the delete step; the task is Deleted whatever it was |
| `KernelCode.Kernel.MakeTaskReady` | src/scheduler.cpp:187-197 | Refuses a deleted task; otherwise readies it and answers true exactly when, after start, a task runs and has strictly lower priority |
| `KernelCode.Kernel.SetTaskPriority` | src/scheduler.cpp:245-262 | Does exactly the re-sort of the state machine for ready, waiting and other tasks |
| `KernelCode.Kernel.ListInsertByPriority` | src/task.cpp:41-67 | The walk stops at the first lower priority: the new member stands after all equals |
| `KernelCode.Kernel.BlockCurrent` | src/queue.cpp:65-82 | Parking, arming the timeout and yielding is exactly the Park step |
| `KernelCode.Kernel.WakeHighest` | src/ipc.cpp:18-25 | Unlinks the head of a wait list and cancels its timeout, nothing if the list is empty |
| `KernelCode.Kernel.Take` | src/ipc.cpp:31-58 | Does exactly the take step; answers at once when a token is there or the timeout is zero, otherwise parks |
| `KernelCode.Kernel.TryTake` | src/ipc.cpp:60-67 | Does exactly the try_take step and answers whether a token was there |
| `KernelCode.Kernel.Give` | src/ipc.cpp:69-85 | Does exactly the give step: token to the highest waiter, else count plus one, saturating; requests a yield exactly when the first waiter has strictly higher priority than the running task |
| `KernelCode.Kernel.GiveFromIsr` | src/ipc.cpp:93-109 | The same change without a yield; answers true exactly when the scheduler has started, a task runs, and the first waiter has strictly higher priority |
| `KernelCode.Kernel.RecomputePriority` | src/ipc.cpp:123-130 | The loop over held mutexes computes the priority of the state machine |
| `KernelCode.Kernel.LockMutex` | src/ipc.cpp:132-162 | Does exactly the lock step: takes a free mutex, fails on its own, else lends its priority to the owner and parks |
| `KernelCode.Kernel.UnlockMutex` | src/ipc.cpp:164-194 | Does exactly the unlock step: only for the owner; ownership to the highest waiter or free; own priority recomputed; one yield for both reasons |
| `KernelCode.Kernel.FinishCall` | src/queue.cpp:84-91 | The flag read after resuming says whether the wait ended by a handoff |
| `KernelCode.Kernel.SendFromIsr` | src/queue.cpp:39-51 | Handoff to the highest receiver, else ring, else refusal; with the flag it is the non-blocking send step, and the flag says that the first receiver outranks the running task; a waiting receiver implies an empty ring |
| `KernelCode.Kernel.Send` | src/queue.cpp:93-105 | Does exactly the send step for every timeout and answers at once unless it parks |
| `KernelCode.Kernel.ReceiveFromIsr` | src/queue.cpp:53-63 | Answers the oldest item and refills the slot from the highest sender; with the flag it is the non-blocking receive step, and the flag says that this sender outranks the running task |
| `KernelCode.Kernel.Receive` | src/queue.cpp:107-119 | Does exactly the receive step for every timeout and answers at once unless it parks |
| `KernelCode.Kernel.ScanAndWake` | src/ipc.cpp:196-222 | The walk by saved successor over a list whose members move away is the recursive scan of the state machine, yields accumulated: the flag is true exactly when a served waiter outranks the running task |
| `KernelCode.Kernel.SetEventBits` | src/ipc.cpp:273-289 | Does exactly the set_bits step; answers the bits the fold leaves from the old bits with those of the mask; requests a yield exactly when a served waiter has strictly higher priority than the running task |
| `KernelCode.Kernel.SetBitsFromIsr` | src/ipc.cpp:291-301 | The same without a yield; the flag is true exactly when a served waiter outranks the running task |
| `KernelCode.Kernel.ClearEventBits` | src/ipc.cpp:303-307 | Does exactly the clear step and answers the old bits without those of the mask; wakes nobody |
| `KernelCode.Kernel.WaitBits` | src/ipc.cpp:224-264 | Does exactly the wait_bits step; parks if and only if mask and timeout are not zero and the condition, bit by bit, fails on the bits, and otherwise answers the bits as they were |
| `KernelCode.Kernel.FinishWait` | src/ipc.cpp:266-271 | Answers the bits it was given, which meet the condition bit by bit, or the current bits after a timeout, suspend or delete |
| `TaskLists.TaskList.PushBack` | src/task.cpp:26-39 | On the linked nodes: the task becomes the last member, links in both directions right |
| `TaskLists.TaskList.InsertByPriority` | src/task.cpp:41-67 | On the linked nodes: the task is spliced in front of the first member of lower priority |
| `TaskLists.TaskList.PopFront` | src/task.cpp:69-86 | On the linked nodes: the first member leaves, or null for an empty list |
| `TaskLists.TaskList.Remove` | src/task.cpp:88-107 | On the linked nodes: exactly that member leaves, whether head, tail or inner |
| `TaskLists.InsertIds` | src/task.cpp:41-67 | Inserting the node is inserting the task in the list of the state machine |
| `TaskLists.WithoutIds` | src/task.cpp:88-107 | Removing the node is removing the task from the list of the state machine |
| `DelayLists.DelayList.Insert` | src/task.cpp:109-132 | The delta list refines the list of absolute remaining times: the entry goes behind all that are due no later, and no 32-bit subtraction wraps |
| `DelayLists.DelayList.Remove` | src/task.cpp:134-153 | Exactly that entry goes, every other remaining time stands, and the 32-bit addition does not wrap; a task not in the list is left alone |
| `DelayLists.DelayList.Decrement` | src/task.cpp:155-160 | Decrementing the head delta takes one tick off everybody |
| `DelayLists.DelayList.PopDue` | src/task.cpp:162-170 | An entry that has come due leaves the front and every other remaining time stands |
| `SharedLists.Heap.constructor` | include/acrtos/scheduler.hpp:73-80 | Ready lists, wait lists and the delay list, all empty over a table of blank control blocks, show the initial state |
| `SharedLists.Heap.Tick` | src/task.cpp:155-180 | One heap for all lists: the sleepers that come due leave the delay list, the wait list they point to, with the flag raised, and join the back of their ready list, earliest deadline first; on every list, remaining time and task this is the Tick of the state machine, and every other link stands |
| `SharedLists.Heap.WakeHighest` | src/ipc.cpp:18-25 | On the shared control blocks the first waiter leaves its wait list and the delay list, and stands in no list; null for an empty list |
| `SharedLists.Heap.HandOver` | src/ipc.cpp:69-85 | wake_highest() with make_task_ready() is the handoff of the state machine on every list, time and task |
| `SharedLists.Heap.Park` | src/ipc.cpp:11-16 | The running task joins the wait list behind its equals and, with a timeout, the delay list too: the Park step of the state machine on every list, time and task |
| `SharedLists.Heap.Switch` | src/scheduler.cpp:7-29 | The outgoing task goes to the back of its level if still Running, the oldest of the highest level runs: the Switch step; a task is always found |
| `SharedLists.Heap.Halt` | src/scheduler.cpp:159-185 | Suspending or deleting a task takes it out of its ready or wait list and the delay list wherever it stands: the move of the state machine |
| `SharedLists.Heap.SetPriority` | src/scheduler.cpp:245-262 | A ready task changes its level and a waiting one its place in the wait list it stays in: the move of the state machine |
| `SharedLists.Heap.Sleep` | src/scheduler.cpp:91-116 | The running task joins the delay list only |
| `SharedLists.Heap.Resume` | src/scheduler.cpp:199-212 | A suspended task joins the back of its ready list; any other is left alone |
| `SharedLists.Heap.Create` | src/scheduler.cpp:52-83 | A blank control block becomes a ready task at the back of its level |
| `ReadyManagers.ReadyManager.constructor` | include/acrtos/scheduler.hpp:27-35 | 32 empty lists and an empty mask agree |
| `ReadyManagers.ReadyManager.Add` | src/scheduler.cpp:274-285 | The task goes to the back of its level, no other level changes, bit p stays set exactly when list p is non-empty |
| `ReadyManagers.ReadyManager.Remove` | src/scheduler.cpp:287-299 | The task leaves its level, no other level changes, the bit is cleared exactly when the list became empty |
| `ReadyManagers.ReadyManager.GetHighestPriorityTask` | src/scheduler.cpp:301-316 | Null exactly when every level is empty; otherwise the oldest task of the highest non-empty level leaves its list |
| `ReadyManagers.ReadyManager.PeekHighestPriority` | src/scheduler.cpp:318-321 | 31 - clz of the mask is a non-empty level and every higher one is empty |
| `ReadyManagers.TopAgrees` | include/acrtos/scheduler.hpp:23-26 | The bitmask search finds the same level as a linear scan of the ready lists of the state machine |
| `Bitmasks.WithHas` | src/scheduler.cpp:283-284 | Setting a bit sets that bit and no other |
| `Bitmasks.WithoutHas` | src/scheduler.cpp:296-298 | Clearing a bit clears that bit and no other |
| `Bitmasks.ZeroIsEmpty` | src/scheduler.cpp:304-306 | The mask is zero exactly when no level bit is set |
| `Bitmasks.ClzIsHighest` | src/scheduler.cpp:308 | For a non-zero mask 31 - clz is a set bit and no higher bit is set |
| `HeldChains.Holder.AddHeld` | src/ipc.cpp:111-114 | The mutex becomes the head of the chain |
| `HeldChains.Holder.RemoveHeld` | src/ipc.cpp:116-121 | The walk along the links takes out exactly that mutex wherever it stands, and changes nothing else in the chain |
| `Rings.Ring.PushRaw` | src/queue.cpp:23-29 | The item becomes the newest of the queued items, across the end of the storage |
| `Rings.Ring.PopRaw` | src/queue.cpp:31-37 | The oldest queued item comes out, the others stay in order |

## Left out

- Critical sections are atomic, and the yield that ends a call is requested in the same action as its change: interrupt timing inside a critical section, or between its end and the request, is not modelled.
- The tests for `Deleted` in `suspend_task` and `delete_task` stand before the critical section in the source; the model takes them inside it, which is what makes Deleted terminal.
- Creation is one action; in the source the control block is allocated and made ready in two critical sections.
- Conditions asserted by the source (resuming a task that is in the delay list, blocking calls from interrupts or before start, starting twice or without a slot for the idle task) are preconditions; where the code goes on after a failed assertion and returns an error (locking one's own mutex, unlocking another's, a level out of range, a full task table) the error path is modelled.
- Blocking calls with a timeout before start or from an interrupt are modelled when they can be answered at once (a take before start with a token, a send with a receiver or a free slot, a receive with an item); otherwise the source would fail an assertion there. `wait_bits`, `lock`, `unlock` and the delays are modelled for tasks only.
- The idle task only runs and yields: no caller has a handle to suspend or delete it, and it makes no calls.
- Interrupt callers are taken to pass the returned flag on as a yield request; without that, no statement about preemption is made.
- KernelCode.Kernel: keeps lists as sequences and tables as maps, and the delay list as remaining times. That the moves between lists are the same on linked control blocks is proved in SharedLists.Heap, and the held chains and the ring class by class; the calls are not repeated on the heap.
- SharedLists.Heap: a handoff takes the first waiter; that an event scan unlinks waiters from the middle is proved on sequences (KernelCode.Kernel.ScanAndWake) and for one linked list (TaskLists.TaskList.Remove).
- Queue items are byte strings; their size, raw copies and the buffer address are not modelled, `xfer_ptr` is a slot of the task that holds the item or the bits.
- Transitive inheritance, deadlock, and waiters stuck behind a deleted owner: not promised by the repository.
- Stack memory, canaries, initial stack frames and the `create_task` template: address-level matters.
- `src/port_cm4.cpp`, `src/port_asm.s` and `include/acrtos/port.hpp`: present only as atomic sections, the yield flag and the switch action.
- The `Task` handle, `LockGuard` and the `Queue<T, N>` wrapper forward to the modelled functions.
- `src/assert.cpp`: a failed assertion stops the system; that is not modelled.
