# NomadTasks fiber scheduler: a verified model

The project models the fiber job system under `code/fiber` and proves what its protocols keep. Three
concurrent protocols rest on one another, and small clients rest on all three:

1. **The bounded queue** (`mpmc_queue`): producers and consumers claim tickets by compare-exchange, and a
   sequence number in each cell says whose turn the cell is.
2. **The wait slots of a counter** (`BaseCounter`): a waiter acquires a slot, arms it, looks at the counter
   again and may cancel; every increment and decrement scans the slots for waiters of the value it produced.
3. **The hand-off of fibers** between threads: fibers move between the idle pool, execution, transit, sleep
   and ready lists; a "stored" flag keeps a thread from resuming a fiber that another has not left yet.
4. **The clients**: `ScheduleJob` with `JobInfo::Execute`, `WaitForSingle`, `Queue` and `List`.

## How it is modelled

Each protocol is a step machine: every atomic load, store or compare-exchange is one step, any number of
threads or fibers take steps in any order, and `Run` executes an arbitrary schedule. An action that does not
fit where its thread stands changes nothing, so statements about all schedules are statements about all runs.
History components (tickets' values, armings and their outcomes, fibers' places) never influence a step.
`Registry` is the interface between the slots and the fibers: the slots are proved to refine it, the fibers use it.
`Composition` runs both together, the slots of one counter under the fibers that call it, and proves that the
fibers' part of each of its calm runs is a run of the fiber machine.

The code that changes things in place is also modelled as the object it is: `MpmcQueue`, `BaseCounter`, `TLS`,
`Fiber`, `Manager`, `Queue` and `List` are classes whose methods keep the source's loops and branches, each
proved to compute a function that the step machine is proved to reach, or that the lemmas are about. A switch
to another fiber ends a method; what the fiber does when it is switched back to is a method of its own.

| layer | files |
|---|---|
| arithmetic of masks and wrap-around | `Arith` |
| queue | `Mpmc` (machine), `MpmcInvariant`, `MpmcFifo`, `MpmcSolo`, `MpmcWrap`, `MpmcStall`, `MpmcQueue` (object) |
| wait slots | `WaitSlots` (machine), `SlotLifecycle`, `SlotTheorems`, `SlotWaiters`, `SlotThefts`, `SlotBarrier`, `SlotSolo`, `SlotHazards`, `BaseCounter` (object), `Registry` |
| fibers | `FiberMachine`, `FiberInvariant`, `FiberTheorems`, `FiberExact`, `FiberIo`, `FiberCallbacks`, `FiberHazards`, `ThreadLocals`, `Fibers` and `Manager` (objects) |
| slots under fibers | `Composition` |
| clients | `Jobs`, `ClientMachine`, `ClientInvariant`, `ClientTheorems`, `ClientBarrier`, `ClientWaits`, `ClientSolo`, `ClientExact`, `ClientPrograms`, `ClientLifetime`, `ClientHazards`, `Clients` (objects) |

## Hypotheses, and why they are needed

Where the code keeps a promise only under a condition, the condition is a named predicate on the step, it is
proved to suffice and to be exact, and a concrete run shows the failure.

- **Lag** (`MpmcWrap.LagOk`): with w-bit counters a thread's position is less than 2^(w-1) minus the capacity
  behind. `StepImageIff` is the exact condition for every step of a thread that lags less than a full wrap;
  `StalledThreadMisjudges` builds, for every word size and capacity, a run in which a stalled producer reports
  "full" on an empty queue.
- **Slot reuse** (`SlotWaiters.Calm`): no slot is acquired while an earlier user is between its arming and its
  compare-exchange. It always holds with one waiter, as inside `WaitForSingle`. `StolenIffLingering` is the
  exact condition for one arming, `ReuseStealsWakeup` a run where two waiters' answers are mixed up. In the fiber
  machine the same thing is the action `Steal`: a waiter is answered true by cancelling another's registration.
  `StepKeepsInvIff` names it, `FreedFlagInListIff` and `TheftFreesFlagIff` say exactly what it does to flags, and
  `TheftReadsFreedFlag` is a run in which a freed flag is read.
- **Stale scans** (`SlotBarrier.CleanArming`): when a slot is armed the counter has the target, or nobody with a
  stale value can still win the slot. `PassesEarlyIffUnclean` proves it exact for the barrier of a Queue or
  List: their client can get past its wait for 0 with a job not done if and only if the arming is not clean.
  `CleanArmingIsExact` proves it exact for the slots alone, with any number of waiters.
- **Cached thread record** (`FiberInvariant.RecordOk`): `GetNextJob` cleans up the record it captured before it
  was switched away from (code/fiber/ManagerJobs.cpp:73). `CleanupPreviousFiber` is four steps in the machine: it
  loads the destination, loads the fiber and the flag, stores, and resets the record. The captured record is right
  if it is the thread's own, or if neither of the two has anything to clean up. `StepKeepsInvIff` proves that a
  step keeps the invariant of the hand-off if and only if it does not begin to clean up a wrong record (and steals
  nothing). `LateCleanupIff` is the condition without the invariant, delays included: a clean-up that finds
  something to do can hand over a fiber that a thread executes if and only if the record is another thread's.
  `ForeignRecordRunsFiberTwice` cleans up before the owner has left its fiber; `LateCleanupSetsFreedFlag` cleans
  up after the owner has left, and its store comes when the flag has been freed.
- **Fewer than 2^32 jobs outstanding** on one counter at any time (`ClientBarrier.BoundedRun`), where its value is
  read as a number of jobs.

## Where the code and its documentation disagree

The model follows the code.

- A `Queue` is documented to execute its jobs consecutively (README.md:165 of the repository). It does so when
  armings are clean; `ClientHazards.QueueNotConsecutive` is a run of one worker in which the third job is counted
  while the second is still queued, because the first job's late scan woke the second wait.
- "IO only does IO jobs" (code/fiber/ManagerJobs.cpp:44) holds for an IO thread in a run if and only if it never
  goes on with a fiber that was pooled in the middle of `GetNextJob` (`FiberIo.IoThreadsRunOnlyIoJobsIff`);
  `FiberHazards.ForeignRecordTakesIoThreadBeyond` is a run in which it does, and `IoRunIsInstance` puts that run
  under the theorem.
- An IO thread never looks at its ready list, so a fiber woken by a job on it stays asleep for ever
  (`FiberIo.WokenOnIoThreadIsStranded`).
- `(intptr_t)seq - (intptr_t)pos` may overflow a signed type; the model takes the result of two's complement,
  as compilers produce it. The constructor's test of the capacity is an `assert`, absent from release builds;
  the model takes the capacity to be a power of two of at least 2.
- `ScheduleJob` ignores an unknown priority silently, and leaves the counter incremented when it throws.

## Model

| member | source | states |
|---|---|---|
| `Arith.PowerOfTwoTest` | code/fiber/include/fiber/detail/mpmc_queue.h:33 | the constructor's bit test accepts exactly the powers of two |
| `Arith.MaskIsMod` | code/fiber/include/fiber/detail/mpmc_queue.h:51 | masking with 2^k - 1 is the remainder by 2^k |
| `Arith.IndexInjective` | code/fiber/include/fiber/detail/mpmc_queue.h:51 | two positions less than a capacity apart have different cells |
| `Arith.IndexWraps` | code/fiber/include/fiber/detail/mpmc_queue.h:51 | wrapping a position to w bits does not change its cell |
| `Arith.SignKeptIffInRange` | code/fiber/include/fiber/detail/mpmc_queue.h:54-64 | a wrapped difference keeps its sign if and only if it fits the signed range |
| `MpmcInvariant.StepKeepsInv` | code/fiber/include/fiber/detail/mpmc_queue.h:45-96 | every step of any thread keeps the invariant tying each cell's sequence to one ticket, the two positions and every thread in flight |
| `MpmcInvariant.RunKeepsInv` | code/fiber/include/fiber/detail/mpmc_queue.h:29-96 | so does every run |
| `MpmcInvariant.InitInv` | code/fiber/include/fiber/detail/mpmc_queue.h:29-38 | the constructor establishes it |
| `MpmcInvariant.EnqueueCell` | code/fiber/include/fiber/detail/mpmc_queue.h:51-67 | what the cell of the next enqueue ticket can hold: it waits for that ticket, or for the writer a lap earlier that has not published, or holds the item a lap earlier |
| `MpmcInvariant.DequeueCell` | code/fiber/include/fiber/detail/mpmc_queue.h:77-94 | likewise for the next dequeue ticket |
| `MpmcInvariant.CellReadsOneWay` | code/fiber/include/fiber/detail/mpmc_queue.h:33-36 | every cell waits for one ticket's writer or holds one ticket's item, exactly one of these for exactly one ticket, and its sequence number alone tells which |
| `MpmcInvariant.OneOwnerPerCell` | code/fiber/include/fiber/detail/mpmc_queue.h:66-67 | between claim and publish or release no cell belongs to two threads, or to one under two tickets |
| `MpmcInvariant.AloneOnCell` | code/fiber/include/fiber/detail/mpmc_queue.h:92-94 | while a thread owns a cell no other thread touches its data |
| `MpmcFifo.TakenInPutOrder` | code/fiber/include/fiber/detail/mpmc_queue.h:45-96 | in every run: what is taken under dequeue ticket p is what was put under enqueue ticket p, and dequeue_pos <= enqueue_pos <= dequeue_pos + capacity |
| `MpmcFifo.ReturnedWasPut` | code/fiber/include/fiber/detail/mpmc_queue.h:83-95 | the value a dequeue returns is the one put under the ticket that the same call has claimed |
| `MpmcFifo.EnqueueAnswer` | code/fiber/include/fiber/detail/mpmc_queue.h:54-68 | an enqueue returns true if and only if its call has claimed a ticket, and the item of that ticket then lies published in its cell |
| `MpmcFifo.DequeueAnswer` | code/fiber/include/fiber/detail/mpmc_queue.h:80-95 | a dequeue returns an item if and only if its call has claimed a ticket |
| `MpmcFifo.SuccessesAreClaims` | code/fiber/include/fiber/detail/mpmc_queue.h:45-96 | in every run the tickets a thread has claimed are its calls that returned true and the one it still has in hand, for enqueue and for dequeue |
| `MpmcFifo.LoadsAnyEarlier` | code/fiber/include/fiber/detail/mpmc_queue.h:48-74 | the first, relaxed load of a call may see the position as it is or as it was at any earlier time, and nothing else |
| `MpmcFifo.SpuriousFailure` | code/fiber/include/fiber/detail/mpmc_queue.h:57-59 | a compare-exchange that fails for no reason claims nothing and sends the call round the loop |
| `MpmcFifo.StepExtendsHistory` | code/fiber/include/fiber/detail/mpmc_queue.h:45-96 | a ticket's value, taker and reading never change once fixed |
| `MpmcFifo.QuietConservation` | code/fiber/include/fiber/detail/mpmc_queue.h:45-96 | with nothing in flight, all that was put has been taken in order or is stored in order |
| `MpmcFifo.FullExactly` | code/fiber/include/fiber/detail/mpmc_queue.h:54-62 | a producer reads "behind" if and only if its position is current and the ticket one lap earlier is unreleased |
| `MpmcFifo.EmptyExactly` | code/fiber/include/fiber/detail/mpmc_queue.h:80-88 | a consumer reads "behind" if and only if its position is current and that ticket is unpublished |
| `MpmcFifo.QuietVerdicts` | code/fiber/include/fiber/detail/mpmc_queue.h:54-88 | with nothing in flight these are exactly "full" and "empty" |
| `MpmcFifo.FalseEnqueueWasFull` | code/fiber/include/fiber/detail/mpmc_queue.h:51-62 | an enqueue about to return false found, at the very load this verdict rests on, its position current and the ticket one lap earlier unreleased |
| `MpmcFifo.FalseDequeueWasEmpty` | code/fiber/include/fiber/detail/mpmc_queue.h:77-88 | a dequeue about to return false found, at the very load this verdict rests on, its position current and that ticket unpublished |
| `MpmcFifo.RetryAdvances` | code/fiber/include/fiber/detail/mpmc_queue.h:49-65 | without spurious failure, each further trip round the loop strictly increases the position |
| `MpmcFifo.RetriesBounded` | code/fiber/include/fiber/detail/mpmc_queue.h:75-91 | the retries of one call are bounded by the tickets claimed since it loaded its position |
| `MpmcFifo.SoloEnqueue` | code/fiber/include/fiber/detail/mpmc_queue.h:45-69 | a producer alone decides in one trip |
| `MpmcFifo.SoloDequeue` | code/fiber/include/fiber/detail/mpmc_queue.h:71-96 | a consumer alone decides in one trip |
| `MpmcSolo.SequentialEnqueue` | code/fiber/include/fiber/detail/mpmc_queue.h:45-69 | an uninterrupted enqueue on a quiet queue with room appends its item and returns true |
| `MpmcSolo.SequentialDequeue` | code/fiber/include/fiber/detail/mpmc_queue.h:71-96 | an uninterrupted dequeue on a quiet queue takes the oldest item and returns it |
| `MpmcSolo.SequentialEnqueueFull` | code/fiber/include/fiber/detail/mpmc_queue.h:61-62 | on a full queue it returns false and changes nothing |
| `MpmcSolo.SequentialDequeueEmpty` | code/fiber/include/fiber/detail/mpmc_queue.h:87-88 | on an empty queue it returns false and changes nothing |
| `MpmcWrap.StepImageIff` | code/fiber/include/fiber/detail/mpmc_queue.h:48-67 | with a lag of less than a wrap, a step of the w-bit queue is the image of the same step of the unbounded one if and only if the difference it branches on fits the signed range |
| `MpmcWrap.StepImage` | code/fiber/include/fiber/detail/mpmc_queue.h:48-67 | with bounded lag, a step of the w-bit queue is the image of the same step of the unbounded one |
| `MpmcWrap.RunImage` | code/fiber/include/fiber/detail/mpmc_queue.h:45-96 | so is every run, across any number of overflows |
| `MpmcWrap.WrappedTakenInPutOrder` | code/fiber/include/fiber/detail/mpmc_queue.h:45-96 | first in first out with w-bit counters |
| `MpmcWrap.BranchRightIffInRange` | code/fiber/include/fiber/detail/mpmc_queue.h:54-64 | the wrapped comparison takes the unbounded branch if and only if the difference fits the signed range |
| `MpmcStall.StalledThreadMisjudges` | code/fiber/include/fiber/detail/mpmc_queue.h:54-62 | for every word size and capacity, a run after which a stalled producer reports "full" on an empty queue |
| `MpmcObject.MpmcQueue.constructor` | code/fiber/include/fiber/detail/mpmc_queue.h:29-38 | an empty valid queue of capacity 2^k |
| `MpmcObject.MpmcQueue.Enqueue` | code/fiber/include/fiber/detail/mpmc_queue.h:45-69 | appends and returns true if and only if not full, however stale the first load and however many spurious failures |
| `MpmcObject.MpmcQueue.Dequeue` | code/fiber/include/fiber/detail/mpmc_queue.h:71-96 | yields and removes the oldest item if and only if there is one |
| `SlotLifecycle.StepKeepsInv` | code/fiber/Counter.cpp:45-129 | every step keeps the invariant on who owns each slot and what became of each arming |
| `SlotLifecycle.InitInv` | code/fiber/Counter.cpp:26-43 | InternalInit establishes it |
| `SlotTheorems.SlotLifeCycle` | code/fiber/Counter.cpp:70-128 | a slot goes free, acquired, armed, consumed, free, one notch a step; free slots have _inUse set, armed ones exactly not |
| `SlotTheorems.ArmingsConserved` | code/fiber/Counter.cpp:80-128 | armings made = armings consumed + slots armed now |
| `SlotTheorems.EntryIsOfItsArming` | code/fiber/Counter.cpp:126 | a ready entry carries the fiber and flag of the very arming that was consumed |
| `SlotTheorems.WokenOnce` | code/fiber/Counter.cpp:121-126 | no arming has two ready entries, with any reuse |
| `SlotTheorems.StepKeepsCovered` | code/fiber/Counter.cpp:45-129 | an armed slot whose target the counter has always has its waiter or a scanner with that value still to come |
| `SlotTheorems.NoLostWakeup` | code/fiber/Counter.cpp:45-129 | in every run with any reuse: with nothing in flight no armed slot waits for the counter's value |
| `SlotWaiters.ResolvedExactlyOnce` | code/fiber/Counter.cpp:66-129 | in calm runs: answered true means cancelled by its own maker and never woken; answered false means at most one ready entry and, once all is quiet, exactly one unless it still waits for another value |
| `SlotWaiters.SingleWaiterIsCalm` | code/fiber/ManagerJobs.cpp:149-156 | with one waiter every run is calm |
| `SlotWaiters.WakeJustifiedIffUnthreatened` | code/fiber/Counter.cpp:53-59 | an arming can be consumed without the counter having its target if and only if somebody is in a position to do so when it is made |
| `SlotWaiters.HitWasAMoment` | code/fiber/Counter.cpp:45-59 | the history set `hits` means a moment at which the arming existed and the counter had its target |
| `SlotWaiters.SlotsRefineRegistry` | code/fiber/Counter.cpp:66-129 | every step is one allowed event of the plain registry, or none; a cancellation is by the registration's maker, in calm runs always, or else by a waiter whose own registration was resolved before |
| `SlotThefts.StolenIffLingering` | code/fiber/Counter.cpp:82-98 | in every state, an armed registration can be cancelled by somebody else if and only if another waiter lingers on its slot that has read the target, or can still come to read it |
| `SlotHazards.ReuseStealsWakeup` | code/fiber/Counter.cpp:82-98 | a run of three fibers on the four slots of a Counter, with reuse, where one waiter is answered true and also woken, and another is neither woken nor armed although its target is reached |
| `SlotBarrier.StepKeepsSound` | code/fiber/Counter.cpp:66-129 | with clean armings every answer true and every wake-up is justified, whatever is reused |
| `SlotBarrier.ResolvedWasReached` | code/fiber/Counter.cpp:92-126 | then a consumed arming has had its target reached since it was made |
| `SlotBarrier.CleanArmingIsExact` | code/fiber/Counter.cpp:80-83 | a new arming can be consumed unjustifiedly if and only if it was not clean |
| `SlotSolo.ScanWakesExactly` | code/fiber/Counter.cpp:105-129 | a scan wakes exactly the registrations waiting for its value, each once |
| `SlotSolo.ScanAlone` | code/fiber/Counter.cpp:105-129 | the step machine, uninterrupted, computes the plain scan |
| `SlotSolo.RegisterAlone` | code/fiber/Counter.cpp:66-99 | uninterrupted, a registration answers whether the counter has the target and stays armed exactly if not |
| `SlotSolo.RegisterFull` | code/fiber/Counter.cpp:66-103 | with every slot taken it throws and leaves the slots as they are |
| `CounterObject.BaseCounter.constructor` | code/fiber/Counter.cpp:18-43 | value 0 and all slots free |
| `CounterObject.BaseCounter.Increment` | code/fiber/Counter.cpp:45-51 | returns the value before; the value after is the sum modulo 2^32, the sum itself below 2^32; its waiters are woken |
| `CounterObject.BaseCounter.Decrement` | code/fiber/Counter.cpp:53-59 | likewise for the difference, which is exact unless it goes below 0 |
| `CounterObject.BaseCounter.CheckWaitingFibers` | code/fiber/Counter.cpp:105-129 | the whole new state of slots, free flags and ready list after a scan |
| `CounterObject.BaseCounter.AddWaitingFiber` | code/fiber/Counter.cpp:66-103 | throws if no slot is free, else answers whether the target is reached and arms the first free slot if not |
| `FiberInvariant.StepKeepsInvIff` | code/fiber/ManagerJobs.cpp:54-76 | a step of the scheduler keeps the hand-off invariant if and only if it neither begins to clean up a wrong cached record (another thread's, when either record has something to clean up) nor is a waiter's true answer got by cancelling another's registration |
| `FiberInvariant.RunKeepsInv` | code/fiber/ManagerJobs.cpp:106-147 | so every run without such a step keeps it |
| `FiberInvariant.InitInv` | code/fiber/Manager.cpp:100-103 | the set-up establishes it |
| `FiberExact.NothingExecutedHandedOver` | code/fiber/Manager.cpp:195-207 | where the invariant holds, no step pools or stores a fiber that some thread executes |
| `FiberExact.LateCleanupIff` | code/fiber/ManagerJobs.cpp:72-73 | a clean-up after the switch that finds something to do can, however late its store, pool or store a fiber that some thread executes if and only if the cached record is another thread's |
| `FiberExact.NothingToCleanUp` | code/fiber/Manager.cpp:195-197 | if the cached record has nothing to clean up, whosever it is, the load of its destination is all that happens |
| `FiberExact.FreedFlagInListIff` | code/fiber/ManagerJobs.cpp:128-139 | a ready list comes to hold an entry whose flag has been freed if and only if a waiter already woken is answered true by cancelling another's registration |
| `FiberExact.TheftFreesFlagIff` | code/fiber/ManagerJobs.cpp:128-139 | in a reachable state that is so at every such cancellation, and at no other step |
| `FiberTheorems.FiberPartition` | code/fiber/ManagerJobs.cpp:54-147 | every fiber is in exactly one place: pool, acquired by one thread, executing on one, left by one, parked, gone |
| `FiberTheorems.CensusConserved` | code/fiber/Manager.cpp:168-213 | the class sizes add up to the number of fibers |
| `FiberTheorems.IdleFiberExists` | code/fiber/Manager.cpp:168-187 | if two per thread plus the parked and gone are fewer than all, some fiber is idle |
| `FiberTheorems.ReadyFlagMeansParked` | code/fiber/ManagerJobs.cpp:55-73 | a ready fiber's flag is live, and set if and only if the fiber is parked and no thread executes it or must clean up after it |
| `FiberTheorems.SwitchIsSafe` | code/fiber/ManagerJobs.cpp:67-73 | a fiber that a thread starts to execute was executed by nobody, left by all, not idle, and will return to this thread |
| `FiberTheorems.PoolEntryIsLeft` | code/fiber/Manager.cpp:195-202 | a fiber gets into the pool only when no thread executes it |
| `FiberTheorems.OneReadyEntry` | code/fiber/ManagerJobs.cpp:55-64 | a fiber has at most one ready entry in all lists |
| `FiberTheorems.OneOpenRegistration` | code/fiber/ManagerJobs.cpp:131-146 | and at most one open registration, and then no ready entry |
| `FiberTheorems.ReadyListsMove` | code/fiber/Counter.cpp:126 | a ready list changes only by a wake-up of its own thread, at its end, or by its thread going on with an entry whose flag is set, which it frees |
| `FiberTheorems.NoWokenFiberForgotten` | code/fiber/ManagerJobs.cpp:55-72 | from its wake-up until some thread goes on with it, a woken fiber has a ready entry |
| `FiberTheorems.FlagsNeverMisused` | code/fiber/ManagerJobs.cpp:58-64 | without a wrong record or a stolen registration, no stored flag is read, set or freed after it was freed |
| `FiberTheorems.FaultsExactly` | code/fiber/ManagerJobs.cpp:58-64 | what the machine records as misuse: exactly the steps that read, set or free a freed flag, or store to an index that is no fiber |
| `FiberTheorems.ResumedWasWoken` | code/fiber/ManagerJobs.cpp:142-146 | a fiber goes on after its wait only when its own registration has been woken |
| `FiberTheorems.OnlyFullLeaks` | code/fiber/ManagerJobs.cpp:128-139 | a step keeps every live flag tied to a wait in progress if and only if it is not the slots-full exception |
| `FiberTheorems.ReturnsHome` | code/fiber/Fiber.cpp:73-93 | a fiber executing on a thread returns to that thread, and a thread that has switched back is in its own base frame |
| `FiberCallbacks.OneMainFiber` | code/fiber/ManagerCallbacks.cpp:44-68 | in every run at most one fiber has the main callback, and it never gets into the worker loop |
| `FiberCallbacks.MainIsThreadZeros` | code/fiber/Manager.cpp:141-145 | it is the fiber that thread 0 first switches to, if that fiber has not been entered before |
| `FiberCallbacks.CallbackEnds` | code/fiber/ManagerCallbacks.cpp:62-89 | a thread gets back to its own frame by a step if and only if the main callback returns or the worker loop sees the shutdown; a worker goes on after a job |
| `FiberCallbacks.EndedForGood` | code/fiber/Fiber.cpp:85-93 | a fiber whose callback has ended is never executed or idle again, and a thread back in its own frame stays there |
| `FiberIo.BeyondIffResumes` | code/fiber/ManagerJobs.cpp:44-79 | an IO thread gets past its test by a step if and only if it goes on, in that step, with a fiber pooled in the middle of GetNextJob |
| `FiberIo.IoThreadsRunOnlyIoJobsIff` | code/fiber/ManagerJobs.cpp:44-79 | in a run whose last step may be any, an IO thread gets to the ready list or to the normal and low queues if and only if it goes on with such a fiber |
| `FiberIo.WokenOnIoThreadIsStranded` | code/fiber/ManagerJobs.cpp:44-56 | a fiber woken on an IO thread stays in the same wait in every continuation |
| `FiberHazards.ForeignRecordRunsFiberTwice` | code/fiber/ManagerJobs.cpp:72-73 | a reachable state from which the cached record leads to two threads executing one fiber |
| `FiberHazards.ForeignRecordTakesIoThreadBeyond` | code/fiber/ManagerJobs.cpp:72-79 | one where it leads an IO thread to the normal and low queues and loses the fiber it left |
| `FiberHazards.IoRunIsInstance` | code/fiber/ManagerJobs.cpp:72-79 | that run is one that `IoThreadsRunOnlyIoJobsIff` is about: the IO thread gets there by its last step, which is the wrong clean-up |
| `FiberHazards.LateCleanupSetsFreedFlag` | code/fiber/Manager.cpp:195-212 | a reachable state from which a thread loads the record of a thread that has already left its fiber, every other step keeps the invariant, and the late store sets a freed flag |
| `FiberHazards.TheftReadsFreedFlag` | code/fiber/ManagerJobs.cpp:131-133 | a reachable state from which slot reuse leads to a freed flag being read, and to a fiber that nothing will wake |
| `Composition.StepKeepsInv` | code/fiber/ManagerJobs.cpp:106-147 | every step of fibers and slots together that is calm and begins no wrong clean-up keeps both invariants and the link between a fiber's place and its call, and is on the fibers' side one allowed step or none |
| `Composition.CalmRunsAreReachable` | code/fiber/Counter.cpp:66-129 | the fibers' side of every calm run is reachable in the fiber machine without stolen registrations, so what is proved there holds of fibers and slots together |
| `ThreadLocals.TLS.constructor` | code/fiber/include/fiber/TLS.h:28-50 | a fresh thread record names no fiber, no destination and no ready fiber |
| `ThreadLocals.TLS.Cleanup` | code/fiber/include/fiber/TLS.h:52-56 | forgets the previous fiber, its destination and flag |
| `FiberObject.Fiber.SwitchTo` | code/fiber/Fiber.cpp:73-83 | throws if and only if the target is missing, else the target will return to this fiber |
| `ManagerObject.FirstStored` | code/fiber/ManagerJobs.cpp:55-60 | the first ready entry whose flag is set |
| `ManagerObject.MachineScans` | code/fiber/ManagerJobs.cpp:55-60 | in the step machine too, the scan of the ready list gets to that entry |
| `ManagerObject.MachineTakes` | code/fiber/ManagerJobs.cpp:62-72 | and takes it: the effect on pool, flags and record |
| `ManagerObject.MachineFindsNone` | code/fiber/ManagerJobs.cpp:55-79 | if no ready fiber is stored the machine gets to the normal and low queues with nothing else changed |
| `ManagerObject.MachineCleansUp` | code/fiber/Manager.cpp:189-213 | the machine's steps of a clean-up, uninterrupted, are `Cleanup`: the fiber named is pooled or its flag set, and the record forgotten |
| `ManagerObject.Manager.SetUp` | code/fiber/Manager.cpp:93-128 | InvalidNumFibers and nothing changed if there are none; else all fibers idle and the last thread, unless first, the IO thread |
| `ManagerObject.Manager.FindFreeFiber` | code/fiber/Manager.cpp:168-187 | after any number of passes: some idle fiber has been taken out of the pool and nothing else changed, or the search goes on; it ends, once passes outnumber spurious failures, if and only if a fiber is idle; without failures it takes the first |
| `ManagerObject.Manager.CleanupPreviousFiber` | code/fiber/Manager.cpp:189-213 | pools the previous fiber, or sets its flag, or does nothing, and forgets it; as the step machine does, without misuse of a flag |
| `ManagerObject.Manager.GetNextJob` | code/fiber/ManagerJobs.cpp:38-72 | an IO thread gets the oldest IO job; another the oldest high job, else goes on with the first stored ready fiber, else gets the oldest normal, else low job; no job means that every queue looked at is empty; all else unchanged; and the machine gets to the same place |
| `ManagerObject.Manager.ResumedGetNextJob` | code/fiber/ManagerJobs.cpp:73-79 | cleans up the captured record, then yields the oldest normal job, else the oldest low one |
| `ManagerObject.Manager.WaitForCounter` | code/fiber/ManagerJobs.cpp:106-143 | returns at once with nothing touched, throws, cancels, switches to an idle fiber or goes on searching for one; the whole new state in each case, and it is that of the machine |
| `ManagerObject.Manager.ScheduleJob` | code/fiber/ManagerJobs.cpp:82-96 | a High, Normal, Low or IO job goes to the end of its own queue if that has room, the counter having been incremented modulo 2^32 and its waiters woken; else it throws with the counter left incremented; an unknown priority does nothing |
| `Jobs.ServedByPriority` | code/fiber/ManagerJobs.cpp:44-79 | IO threads get exactly the IO jobs in the order scheduled; the others all high, then all normal, then all low jobs, each in the order scheduled |
| `Jobs.ScheduledIsServed` | code/fiber/ManagerJobs.cpp:18-94 | a newly scheduled job is served after all of its own priority and before all of a lower one |
| `Jobs.HighJobIsNext` | code/fiber/ManagerJobs.cpp:50-51 | a high job scheduled when none is waiting is the next one taken |
| `ClientInvariant.StepKeepsInv` | code/fiber/ManagerJobs.cpp:82-156 | every step keeps: counter = outstanding jobs modulo 2^32, each job and each waiter in one place |
| `ClientTheorems.CounterIsOutstanding` | code/fiber/ManagerJobs.cpp:89-95 | in every run the counter is the number of jobs between increment and decrement plus the failed enqueues, modulo 2^32 |
| `ClientTheorems.NoUnderflow` | code/fiber/Job.cpp:25-27 | a worker about to decrement finds the counter positive and makes it one less, with fewer than 2^32 jobs outstanding |
| `ClientTheorems.JobInOnePlace` | code/fiber/ManagerCallbacks.cpp:75-83 | a job in hand is in one worker's hand and neither queued nor finished |
| `ClientTheorems.JobOnlyAdvances` | code/fiber/Job.cpp:17-28 | a job passes its stations in order: counted, queued or lost, held, body running, body finished, counted down |
| `ClientTheorems.BodyRunsOnce` | code/fiber/Job.cpp:17-28 | in every run each body is begun at most once, and exactly once if the job is counted down |
| `ClientTheorems.LostIffThrew` | code/fiber/ManagerJobs.cpp:82-96 | in every run a job is lost if and only if the ScheduleJob that made it threw, and then its body is never begun; if it returned, the job is queued, in hand or done |
| `ClientSolo.ScheduleReturns` | code/fiber/ManagerJobs.cpp:82-96 | whatever the slots hold, a ScheduleJob whose queue has room returns by its own steps alone with its job queued |
| `ClientSolo.WorkerGetsDone` | code/fiber/Job.cpp:17-28 | a worker that has taken a job gets it run and counted down by its own steps alone and is free for the next |
| `ClientWaits.WaitEnds` | code/fiber/ManagerJobs.cpp:121-147 | a wait passes if told true, throws if no slot was free, and sleeps if told false of its own registration |
| `ClientWaits.AsleepWasDeclined` | code/fiber/ManagerJobs.cpp:131-146 | in every run a client asleep has been told false of a registration it made |
| `ClientWaits.SleeperGoesOnIffWoken` | code/fiber/ManagerJobs.cpp:142-146 | it goes on if and only if that registration has a ready entry |
| `ClientBarrier.StepKeepsGood` | code/fiber/ManagerJobs.cpp:106-147 | clean steps keep: whatever a client scheduled before a wait for 0 it has passed is done |
| `ClientBarrier.WaitForZeroIsABarrier` | code/fiber/ManagerJobs.cpp:106-147 | in every run with clean armings, for any scripts and number of clients: past a wait for 0, each job scheduled before it exists and is done |
| `ClientExact.PassesEarlyIffUnclean` | code/fiber/ManagerJobs.cpp:106-147 | the only client of a counter, about to arm its wait for 0, can get past it with a job of its own not done if and only if the arming is not clean |
| `ClientPrograms.QueueRunsConsecutively` | code/fiber/Queue.cpp:45-63 | with clean armings the queue's jobs are made in insertion order, and all earlier ones are done when one is counted |
| `ClientPrograms.QueueFinishesAll` | code/fiber/Queue.cpp:59-63 | when Execute has returned every job is done |
| `ClientPrograms.ListWaitIsABarrier` | code/fiber/List.cpp:25-41 | when Wait(0) has returned every added job is done |
| `ClientPrograms.SingleIsClean` | code/fiber/ManagerJobs.cpp:149-156 | on the counter of WaitForSingle every arming is clean, without hypothesis |
| `ClientPrograms.WaitForSingleIsABarrier` | code/fiber/ManagerJobs.cpp:149-156 | in every run and by every route, WaitForSingle returns only after its one job's body has run and been counted down |
| `ClientLifetime.CounterUsedAgainIff` | code/fiber/ManagerJobs.cpp:149-156 | after WaitForSingle has returned its counter is used again in some continuation if and only if the Decrement of its job has not finished its scan |
| `ClientLifetime.ReturnsBeforeScanEnds` | code/fiber/ManagerJobs.cpp:106-110 | a run in which it has not |
| `ClientHazards.QueueNotConsecutive` | code/fiber/Queue.cpp:45-63 | a run in which the third job is counted while the second is still queued |
| `Clients.Queue.Add` | code/fiber/Queue.cpp:25-29 | appends the job with the queue's counter set in it |
| `Clients.Queue.AddDefault` | code/fiber/Queue.cpp:31-43 | the operators +=: likewise, with the default priority |
| `Clients.Queue.Step` | code/fiber/Queue.cpp:45-57 | schedules the first job and waits for 0; the job leaves the queue unless either throws |
| `Clients.Queue.Execute` | code/fiber/Queue.cpp:59-63 | terminates; with an empty queue, having scheduled and waited for each job once in insertion order and called nothing else, or throws with the failing job first |
| `Clients.QueueCallsAreQueueScript` | code/fiber/Queue.cpp:45-63 | those calls are, on the queue's counter, the script that QueueRunsConsecutively is about, and nothing on any other counter |
| `Clients.WaitForSingle` | code/fiber/ManagerJobs.cpp:149-156 | schedules the job once on a new counter with one slot and waits for 0, or throws |
| `Clients.SingleCallsAreSingleScript` | code/fiber/ManagerJobs.cpp:149-156 | which is, on that counter, the script that WaitForSingleIsABarrier is about |
| `Clients.List.Add` | code/fiber/List.cpp:25-30 | schedules at once the job with the list's counter set in it, and throws if that throws |
| `Clients.ListCallsAreListScript` | code/fiber/List.cpp:25-41 | adding jobs and then waiting for 0 amounts, on the list's counter, to the script that ListWaitIsABarrier is about |
| `Clients.ExecuteJob` | code/fiber/Job.cpp:17-28 | the body runs while the counter still counts the job, then the counter goes down and its waiters wake |

## Left out

- Win32 threads, fibers, affinity, sleeping and joining: a switch is an atomic change of what a thread executes.
- The blocking branch of `WaitForCounter`, `SetupThread`, and `_shutdownAfterMain == false`.
- Weak memory: steps are sequentially consistent, except that the relaxed loads of the queue positions may be stale by any number of tickets.
- The three plain stores that fill a wait slot are one step; until the slot is armed only its target is read by others.
- Lifetime: a counter is taken to outlive every scan on it; `ClientLifetime` shows when the counter of `WaitForSingle` does not, and what a scan would then read is not part of this model.
- In the fiber machine registrations are abstract (`Registry`, which the slots refine): whether a theft can happen is up to the schedule there, and to the slots in `SlotThefts`. `Composition` has one counter, and calm runs. In the client machine a sleeping client resumes once its own registration is woken, as `FiberTheorems.ResumedWasWoken` proves of fibers; how it gets to a thread is the fiber machine's part.
- The stores that fill in a thread record before a switch are one step, and so are the three of `TLS::Cleanup` and the loads of fiber and flag after that of the destination: without a wrong record no other thread looks at more than the destination.
- Delegates, the `JobInfo` buffer and its copying: a job is an identity with an optional counter. Queues in `Manager` are kept by their contents, and `MpmcObject` proves the ring buffer to be one.
- The object forms have one caller at a time; interference is in the step machines.
- ClientExact.PassesEarlyIffUnclean: is about a counter with one client, as a Queue or List has; with several clients the condition stays sufficient (`ClientBarrier`).
- Jobs whose bodies themselves use the counter they are counted on are modelled only as further clients of that counter.
- Liveness among interfering threads: eventual resumption, fairness and the spinning of `FindFreeFiber`. That calls come to an end when they run alone is proved (`MpmcFifo`, `SlotSolo`, `ClientSolo`).
- `code/threadjob`, profiling, tests and build scripts.
