# A verified model of the kernel, its RTT channel and its formatter

The repository is a small preemptive kernel for ARM microcontrollers. This project models three parts
of it in Dafny and proves what they are for.

## What is modelled

**The kernel.** Tasks sit on one of two queues threaded through a single link, `nrp`: a runqueue in
priority order and a waitqueue in deadline order. Mutexes, bounded message queues and reader/writer
locks each keep a list of blocked tasks threaded through `nblocked`. A task that blocks has its flags
and one of three back pointers set, and a releaser hands it the object by writing the return value
into its stacked frame. The model has two layers.

* *The state machine* (`Types`, `Spec`, `Steps`). A `View` is a snapshot of everything the kernel
  keeps; one function per entry point says what it becomes; a `Step` is a timer tick, a service call or
  an interrupt, followed by the context switch if something was scheduled. `Invariants` says what holds
  between steps; `Scheduling`, `Frames`, `MutexSteps`, `QueueSteps`, `RwLockSteps`, `TaskSteps` and
  `Preservation` prove that every enabled step keeps it, and `Runs` lifts that to every run from boot.
  `Fairness`, `Delivery` and `Locks` prove what the scheduler, the message queue and the locks promise;
  `Waits` follows a blocked task from its call to the return of that call. `Laws` says of each call what it
  answers and what it changes, in terms of the state before it alone; `Ledgers` counts levels and holds over whole
  runs from the calls and the answers in the tasks' frames; `Timing` says until when a task sleeps that asked for
  so many milliseconds; `Switching` says who runs after a grant and what the control calls do. `Limits` shows, for each call
  that can break the invariant, exactly when it does, and `Reached` has runs from boot in which it happens.
* *The heap* (`Heap`, `Queues`, `BlockedLists`, `Os`, `Dispatch`, `Search`, `Scheduler`, `Service`,
  `Calls`, `MutexCalls`, `QueueCalls`, `RwLockCalls`, `Machine`, `Booting`). The functions of os.c,
  service.c, mutex.c, queue.c, rwlock.c and utilities.h as methods that walk and splice the same linked
  lists and update the same fields. `Rep(k, v)` says that the heap holds the view `v`: both queues and
  every blocked list are chained as the view says, no other task has a link set, and every field holds
  its record. Each method is proved to leave a heap that holds the view the state machine says; the
  source's assertions are asserted on the way. `Machine.Perform` and `Machine.RunAll` put them together:
  any run of the state machine is carried out by this code on the heap, without a null dereference, with
  every loop ending.

**The RTT channel.** `Rtt` has the ring as a value and an interleaving machine in which the target
writes byte by byte while the host moves the read offset; `RttRing` has the write and read functions in
place on an array; `RttOverwrite` has the overwriting write and exactly when it is right.

**The formatter.** `Printf` says what text a format and its arguments stand for; `PrintfCalls` has
printf.cpp in place, proved to put out that text truncated to the buffer; `PrintfFacts` proves that
numbers read back, and where the number printer does not print the number. `PrintfGrammar` has conversion
specifications as they are written and proves that they are read so; `PrintfLaws` and `PrintfHash` say what each
conversion prints, from the format and the arguments, by what digits stand for in a base.

History kept for the proofs only, and not by the code: which call a task is in (`call`), acquires minus
releases per task (`balance`), messages offered and delivered (`sent`, `got`), read holds (`holds`).

## What was found

Each of these is a lemma giving the exact condition under which the code does what it is for.

* A released lock adds its next reader to the runqueue even when a timeout has already put it there;
  everything behind the reader then drops off the queue (`Limits.UnlockExact`, `Limits.AddAgainExact`,
  `Reached.UnlockFails`).
* The guard against overflow in `osi_mutex_acquire` compares a 16-bit level with a 32-bit limit and
  never fires (`Limits.AcquireExact`, `Reached.AcquireFails`); the reader count wraps unguarded
  (`Limits.ReadExact`, `Reached.ReadFails`).
* Resuming or starting the task that is still on the processor leaves it IDLE while it runs, and the
  scheduler refuses to switch away from an IDLE task; a task started while it waits for an object stays
  on the object's list without a back pointer (`Limits.ResumeExact`, `Limits.StartExact`,
  `Reached.ResumeFails`, `Reached.StartFails`, `Reached.StartListedFails`).
* A delay of zero can find nobody to switch to, and then fails the assertion in `svc_delay`
  (`Limits.ZeroDelayExact`, `Reached.ZeroDelayFails`).
* The loop of `osi_rwlock_release` reads as if it served every waiting reader, but unlinking the first one
  clears the link the loop goes on by: no reader is left exactly when at most one waited
  (`Locks.ServesAllExact`, `Reached.OneReaderIsLeft`).
* The overwriting RTT write loses data once it wraps a second time (`RttOverwrite.OverwriteExact`).
* A signed number loses a digit when digits and zeros are as many as the width and none of them can be
  spared, and its sign when they fill the conversion buffer of 32 (`PrintfFacts.SignedExact`; "%1d" and
  "%-1d" of -5 in `PrintfFacts.DigitLost`, "%.32d" and "%033d" of -5 in `PrintfFacts.SignLost`, "%+3.3d" of 5
  in `PrintfFacts.ZeroLost`). The length wraps around for a signed zero of precision zero without a width
  (`PrintfFacts.UnderflowExact`).
* An octal or hexadecimal number with `#` loses digits to its prefix when they are as many as the width or the
  precision, or fill the conversion buffer (`PrintfHash.HashExact`; "%#4x" of 0x1234 prints "0x34",
  `PrintfHash.HashLost`). A binary number of more than 32 digits loses the first ones (`PrintfLaws.DigitsExact`, `PrintfLaws.IntegerPrints`).

## Model

| member | source | states |
|---|---|---|
| RunQueue.Length | src/os.c:928-936 | counts the tasks chained from the head |
| RunQueue.Add | src/os.c:938-974 | the pointer splice puts an absent task behind all of its priority or above; for a task already queued it drops everything behind it; the final assertion is never reached |
| RunQueue.Remove | src/os.c:975-990 | unlinks the task wherever it is, clears its link, and leaves the queue alone if it is absent |
| RunQueue.HasHigherPriority | src/os.c:992-1001 | true exactly when some queued runnable task has a higher priority |
| Cycles.HasCycles | src/os.c:1003-1030 | on any finite graph of links the tortoise and the hare meet or end; true exactly when the links from the head never reach null |
| Cycles.Meets | src/os.c:1003-1030 | if the links outlast the tasks, some positive number of turns not above the number of tasks is a meeting point |
| Cycles.NeverEnds | src/os.c:1023-1025 | once the two meet the links never reach null |
| WaitQueue.Add | src/os.c:1032-1061 | puts the task behind all deadlines not later than its own; the assertion that the queue has no cycle holds |
| BlockedList.Contains | src/utilities.h:21-29 | true exactly for members of the list |
| BlockedList.Append | src/utilities.h:31-45 | the list gets the task at its end; the assertions that it is not there already hold |
| BlockedList.Remove | src/utilities.h:47-64 | unlinks the task if present, keeps the order of the others, and says whether it was there |
| Os.TaskStatusSet | src/os.c:402-435 | the heap after a change of status holds the view StatusSet gives: status, both queues and no stray link |
| Dispatching.LeaveMutex | src/os.c:464-486 | a task leaves its mutex's list, at the head or further back, and forgets the mutex; all other lists are as before |
| Dispatching.LeaveQueue | src/os.c:487-501 | the same for a message queue |
| Dispatching.LeaveRwLock | src/os.c:512-524 | the same for a reader/writer lock, whose wanted mode is cleared |
| Dispatching.RetireRunning | src/os.c:526-553 | what a dispatch does to the task that gives up the processor |
| Dispatching.PromoteTask | src/os.c:555-588 | the task that gets the processor is ACTIVE with deadline and flags cleared, moves between the queues if it waited, and is the scheduled one; the idle task gets the processor only when alone |
| Dispatching.DispatchTask | src/os.c:451-598 | the heap after a dispatch holds the view Dispatch gives |
| Search.Room | src/os.c:628-650 | the walk of find_new_task always ends within the rest of one queue and two rounds of the runqueue |
| Search.EndsHigher | src/os.c:630-633 | the first higher task met is the head of the runqueue |
| Search.EndsLower | src/os.c:628-628 | a walk that comes back to the first lower task has passed the whole runqueue and holds the right task |
| Search.EndsRound | src/os.c:647-649 | and so does one that comes back to where it began |
| Scheduler.FindNewTask | src/os.c:615-666 | the walk ends and returns exactly the task Pick names, also when the running task's link leads through the waitqueue |
| Scheduling.PickIsHighest | src/os.c:615-666 | that task is runnable, no runnable task outranks it, and it is idle only if idle is alone |
| Scheduler.WakeOne | src/os.c:686-696 | the scan of the waitqueue makes exactly the first due task runnable |
| Scheduling.HeadIsDueFirst | src/os.c:688-696 | if any task is due the head is, so scanning and testing the head agree |
| Scheduler.ScheduleTask | src/os.c:668-713 | the heap after scheduling holds the view Schedule gives |
| Scheduling.ScheduleHanded | src/os.c:668-713 | the caller goes on or an ACTIVE task that nobody outranks is scheduled, and a caller that cannot run always yields to the head of the runqueue |
| Scheduler.DispatchOrQueueTask | src/os.c:437-449 | the heap after a grant holds the view DispatchOrQueue gives |
| Scheduling.DispatchOrQueueHanded | src/os.c:437-449 | a granted task is dispatched or queued so that no runnable task outranks the one scheduled |
| Service.SvcDelay | src/service.c:19-44 | the caller leaves the runqueue for the waitqueue with its deadline, and the assertions that another task is scheduled hold |
| Timing.SleepsFor | src/service.c:19-44 | a caller that sleeps or blocks is on the waitqueue after its step, with the time of the call plus the time asked for as its deadline, or UINT32_MAX if it asked for that |
| Timing.SleepsOn | src/os.c:686-696 | any step leaves a waiting task waiting with its deadline, unless the task is started again, is granted what it waits for, or the step is at or past a deadline that is not UINT32_MAX |
| Timing.SleepsUntil | src/service.c:19-44 | over any run, a task that slept or blocked for a time leaves the waitqueue only in a step at or past the end of that time, or when it is started again or granted what it waits for; with UINT32_MAX never by time |
| Service.SvcBlock | src/service.c:75-78 | the flags are raised and the caller delayed |
| Switching.GrantTakes | src/os.c:437-449 | a task told SUCCESS by another's call is runnable after the step; a reader waits for its turn, anyone else runs at once unless a queued task outranks it |
| Switching.SuspendsOnly | src/os.c:313-324 | a suspended task leaves the runqueue and nothing else changes |
| Switching.ResumesOnly | src/os.c:326-337 | a resumed task is IDLE and queued behind its equals, and nothing else changes |
| Switching.FinishesOnly | src/os.c:911-915 | a task that returns from its handler leaves the runqueue and nothing else changes |
| Switching.StartsOnly | src/os.c:273-311 | a started task is IDLE at its new priority with nothing pending, behind its equals and off the waitqueue, and nothing else changes |
| Switching.QuitsFor | src/service.c:46-73 | a task that aborts or panics is on neither queue, keeps the status it quit with and has lost the processor |
| Service.SvcQuit | src/service.c:46-73 | panic and abort take the caller off the runqueue and always leave another task scheduled |
| Service.ReturnFrom | src/arch/m4.s:120-162 | the result goes into the caller's frame and the scheduled task becomes the running one |
| MutexCalls.BlockedDeq | src/mutex.c:23-32 | the head leaves the list; its back pointer is this mutex |
| MutexCalls.Acquire | src/mutex.c:51-80 | the heap and the status after every branch: free, nested, refused, blocked |
| MutexCalls.Release | src/mutex.c:82-105 | the heap after a nested, a last and a handing release; the assertions on owner and level hold |
| QueueCalls.StoreMessage | src/queue.c:85-89 | the ring array gets the message at `first`, which moves on and wraps |
| QueueCalls.TakeMessage | src/queue.c:150-154 | the message at `last` is read and `last` moves on and wraps |
| QueueCalls.EnqueueFromIsr | src/queue.c:49-92 | the heap and the status after a hand-over, a refusal and a store |
| QueueCalls.EnqueueFromTask | src/queue.c:94-143 | the same from a task, which may block with its message in its own word |
| QueueCalls.DequeueFromTask | src/queue.c:145-187 | the heap, status and message after a dequeue, one that admits a blocked sender, a refusal and a block |
| RwLockCalls.AcquireForRead | src/rwlock.c:38-59 | the heap and the status of an acquire for reading |
| RwLockCalls.AcquireForWrite | src/rwlock.c:61-83 | the same for writing, and an acquire that succeeds at once leaves one writer and no reader |
| RwLockCalls.ServeReaders | src/rwlock.c:110-128 | the heap after the loop, in which the first waiting reader, wherever it was in the list, has gone from it and nobody else |
| RwLockCalls.Release | src/rwlock.c:85-133 | the heap after a release that serves nobody, the writer at the head, or a reader |
| Machine.StartTask | src/os.c:273-311 | a task started again is runnable at its new priority, with every field reset |
| Machine.ChangeStatus | src/os.c:313-337 | suspend, resume and the end of a handler change status and queues as the state machine says |
| Machine.Perform | src/os.c:402-713 | any step: the code on the heap does what the state machine does and keeps its invariant |
| Machine.RunAll | src/os.c:402-713 | any run, step by step on the heap |
| Machine.StepPopulation | src/os.c:402-713 | no step creates or destroys a task or an object |
| Booting.AddTask | src/os.c:189-246 | one initialisation sets every field and queues the task unless it starts suspended |
| Booting.BootKernel | src/os.c:364-400 | after initialisation and start the heap holds the initial view, which satisfies the invariant |
| Runs.BootState | src/os.c:189-246 | the kernel starts on the idle task, with exactly the tasks asked for, each as asked for, nothing pending and every object free and empty |
| Runs.BootInv | src/os.c:189-246 | the initial view satisfies the invariant, whatever tasks and objects there are |
| Preservation.StepInv | src/os.c:402-713 | every enabled step keeps both queues sorted, disjoint and complete, the blocked lists and back pointers in agreement, and every object consistent |
| Preservation.StepGood | src/os.c:437-524 | a step also disturbs no object but the one called and the one the resuming task waited at, overwrites only the frames of tasks it serves, and the task that resumes finds OSS_ERROR_TO exactly if it was still listed, at the called object after the call |
| Preservation.BlockingYields | src/service.c:37-41 | a call whose caller cannot go on ends with a different task running that no runnable task outranks |
| Runs.RunInv | src/os.c:402-713 | the invariant holds in every state of every run |
| Frames.ReturnInv | src/arch/m4.s:120-162 | the invariant holds again once the result is in the caller's frame and the switch is done |
| MutexSteps.AcquireInv | src/mutex.c:51-80 | an acquire keeps the invariant and touches no other object |
| MutexSteps.ReleaseInv | src/mutex.c:82-105 | a release keeps the invariant; the task it serves finds SUCCESS in its frame |
| QueueSteps.EnqueueNow | src/queue.c:49-92 | sending without waiting keeps the invariant, from a task and from an interrupt |
| QueueSteps.EnqueueInv | src/queue.c:94-143 | and so does sending that may block |
| QueueSteps.DequeueInv | src/queue.c:145-187 | and receiving |
| RwLockSteps.AcquireReadInv | src/rwlock.c:38-59 | acquiring for reading keeps the invariant below 65535 readers |
| RwLockSteps.AcquireWriteInv | src/rwlock.c:61-83 | acquiring for writing keeps it |
| RwLockSteps.UnlockInv | src/rwlock.c:85-133 | a release by a holder keeps it when the reader served is still waiting |
| TaskSteps.TickGood | src/os.c:765-774 | a tick keeps the invariant and leaves the highest runnable task running |
| TaskSteps.SleepGood | src/service.c:19-44 | a delay keeps the invariant and always yields |
| TaskSteps.QuitGood | src/service.c:46-73 | and so do abort and panic |
| TaskSteps.RestartGood | src/os.c:273-311 | starting a finished or suspended task keeps it |
| Fairness.RoundRobin | src/os.c:615-666 | in runs of ticks that wake nobody the tasks of the top priority take turns in runqueue order |
| Fairness.EveryoneRunsOnce | src/os.c:615-666 | in k ticks each of k tasks of the top priority runs exactly once, and then the first again |
| Fairness.TickWakes | src/os.c:686-696 | a tick wakes the head of the waitqueue if it is due, and nobody else |
| Fairness.NoEarlyWake | src/os.c:688-696 | no tick wakes a task before its deadline, nor ever from an endless wait |
| Fairness.TimedWakeup | src/os.c:688-696 | n ticks past the n earliest deadlines wake exactly those n sleepers in order, and all are then runnable |
| Fairness.SleeperBehindEquals | src/os.c:1040-1050 | a new sleeper is behind exactly those whose deadline is not later than its own |
| Delivery.Conservation | src/queue.c:49-187 | in every reachable state the messages offered and not timed out are those delivered, then the ring, then the blocked senders' in order |
| Delivery.WaitersAgree | src/queue.c:101-142 | in every reachable state waiters are all senders at a full queue or all receivers at an empty one |
| Delivery.SendHandsOver | src/queue.c:101-114 | a message sent while a receiver waits goes into the frame of the one that has waited longest |
| Delivery.SendAppends | src/queue.c:117-142 | otherwise it joins the end of what is owed, or is refused |
| Delivery.ReceiveTakesFirst | src/queue.c:149-175 | a receiver gets the oldest message owed, and the rest stays owed in order |
| Laws.QueueRefuses | src/queue.c:117-187 | receiving from an empty queue, or sending to a full one, by a caller that goes on answers OSS_ERROR_MEM and changes nothing |
| Delivery.InterruptSendsAlike | src/queue.c:49-92 | an interrupt sends exactly as a task that does not want to wait |
| Delivery.StepOwed | src/os.c:487-501 | a step changes what a queue owes only by the call on it and by the message of a sender that resumes from a timeout: the one at that sender's place behind the ring |
| Delivery.DeliveredInOrder | src/queue.c:49-187 | over any run deliveries are never taken back, and what is left of the offers is what is owed |
| Laws.AcquireAnswers | src/mutex.c:51-80 | an acquire whose caller goes on answers SUCCESS exactly if the caller then owns the mutex one level deeper, which is if it was free or its own; otherwise it answers OSS_ERROR_TO and nothing has changed |
| Laws.ReleaseUnwinds | src/mutex.c:82-105 | a nested release takes one level off and leaves the owner; the last one with nobody waiting leaves the mutex without owner; waiters, queues and other mutexes are as before |
| Ledgers.MutexLedger | src/mutex.c:51-105 | over any run, the level at which a task owns a mutex changes by its acquires answered SUCCESS, plus the grants to it, less its releases, counted from the calls and the frames |
| Locks.MutexAccounting | src/mutex.c:51-105 | in every reachable state a mutex has an owner exactly if its level is not 0, its history agrees with its level, and a free mutex has no waiters |
| Locks.GrantsInOrder | src/mutex.c:93-102 | the last release hands the mutex to the task that has waited longest and tells it so |
| Laws.ReadAnswers | src/rwlock.c:38-59 | a read acquire whose caller goes on answers SUCCESS exactly if no writer holds the lock, and then there is one more reader; otherwise it answers OSS_ERROR_TO and nothing has changed |
| Laws.WriteAnswers | src/rwlock.c:61-83 | a write acquire whose caller goes on answers SUCCESS exactly if nobody holds the lock, and then the caller is its one writer; otherwise it answers OSS_ERROR_TO and nothing has changed |
| Laws.UnlockPasses | src/rwlock.c:85-133 | a release gives up one hold of a reader, or the writer's lock; the writer at the head of the list gets a lock that is free then, else the first task waiting to read gets a hold, else nobody; its caller is answered SUCCESS |
| Ledgers.LockLedger | src/rwlock.c:38-133 | over any run, the holds a task has for reading, and for writing, change by its acquires answered SUCCESS, plus the grants to it, less its releases |
| Ledgers.LedgersFromBoot | src/mutex.c:51-105 | from boot on levels and holds are exactly those sums |
| Laws.ServedFrame | src/os.c:437-449 | a call on an object writes SUCCESS into the frames of exactly those waiters it takes off the list |
| Locks.ReadersOrWriter | src/rwlock.c:38-133 | in every reachable state there is at most one writer, who excludes readers; readers are as many as holds, which LockLedger counts; and a free lock has no waiters |
| RwLockSteps.LoopServesOne | src/rwlock.c:110-128 | the loop of a release takes the first waiting reader off the list and nobody else; the other readers stay in order |
| Locks.ServesAllExact | src/rwlock.c:110-128 | after that loop no reader waits exactly when at most one waited before |
| Locks.ReleaseServesAtMostOne | src/rwlock.c:85-133 | any release takes at most one waiter off the list; the only other task that may leave it in the same step is the one that resumes |
| Waits.WholeWait | src/os.c:437-524 | a task that blocks in a call and next runs at the end of a run has no back pointer, no flag and no place on a list; its call returns SUCCESS if and only if a call on the object took it off the list on the way; it then has what it asked for, and a receiver returns the message that call added to the deliveries |
| Waits.WaitEnds | src/os.c:464-524 | the same from any point of the wait |
| Waits.WaitBegins | src/service.c:75-78 | a call that blocks leaves its caller on the object's list, with the call it is in, and another task running |
| Waits.ServedMessage | src/queue.c:55-70 | the step that serves a waiting receiver is a send, by a task or an interrupt, and the receiver's frame holds its message |
| Locks.WriterResumesAlone | src/service.c:296-302 | a writer whose call returns SUCCESS finds one writer and no readers |
| Locks.WriterStaysAlone | src/service.c:296-302 | and it stays so over any step until it lets go |
| Invariants.SlotIsModulo | src/queue.c:85-89 | wrapping by comparison is reduction modulo the size |
| Limits.AddAgainExact | src/os.c:938-956 | adding again keeps the members of the runqueue exactly for an absent or a last task |
| Limits.UnlockExact | src/rwlock.c:112-127 | a release keeps the invariant exactly when the reader it serves still waits |
| Limits.AcquireExact | src/mutex.c:64-70 | an acquire keeps it exactly when the caller is not at nesting level 65535 |
| Limits.ReadExact | src/rwlock.c:45-48 | an acquire for reading keeps it exactly below 65535 readers |
| Limits.ResumeExact | src/os.c:326-337 | a resume keeps it exactly for a task that is not on the processor |
| Limits.StartExact | src/os.c:273-311 | a start keeps it exactly for a task that is neither on the processor nor on a blocked list |
| Limits.ZeroDelayExact | src/service.c:29-41 | a delay of zero schedules another task exactly when another is due or does not rank below the caller |
| Reached.UnlockFails | src/rwlock.c:112-127 | seven steps from boot a release breaks the invariant: its next reader's timeout has woken it |
| Reached.AcquireFails | src/mutex.c:64-70 | 65535 nested acquires are a legal run, and the next one breaks the invariant |
| Reached.ReadFails | src/rwlock.c:45-48 | so are 65535 acquires for reading |
| Reached.ResumeFails | src/os.c:326-337 | a task that suspends itself and is resumed before the switch |
| Reached.StartFails | src/os.c:273-311 | a task that returns from its handler and is started before the switch |
| Reached.StartListedFails | src/os.c:273-311 | a task that is started while it waits for a lock |
| Reached.ZeroDelayFails | src/service.c:29-41 | a delay of zero by the highest task right after boot schedules nobody |
| Reached.WaitHappens | src/rwlock.c:38-59 | a run from boot with a whole wait in it: a reader blocks, is served and returns SUCCESS with its hold |
| Reached.OneReaderIsLeft | src/rwlock.c:110-128 | six steps from boot two readers wait for the running writer, and its release leaves one of them on the list of a lock held by a reader |
| RttSpec.AccessSound | src/segger/SEGGER_RTT.c:334-378 | every single access by writer or host keeps the stream: what the host has and can still read is what was published |
| RttSpec.CopyKeepsUnread | src/segger/SEGGER_RTT.c:353-370 | copying a byte never touches an unread one |
| RttSpec.ChunkIs | src/segger/SEGGER_RTT.c:334-378 | skip mode takes all or nothing, trim mode what there is room for, and a round of a blocking write takes something whenever there is room |
| RttSpec.StreamFaithful | src/segger/SEGGER_RTT.c:334-378 | under every interleaving the host has a prefix of what was published, and the rest fits the buffer less one slot |
| RttSpec.BlockingLosesNothing | src/segger/SEGGER_RTT.c:334-378 | when every write blocks nothing offered is dropped, duplicated or reordered |
| RttRing.Ring.GetAvailWriteSpace | src/segger/SEGGER_RTT.c:484-500 | the free space is the size less one less the unread bytes |
| RttRing.Ring.WriteNoCheck | src/segger/SEGGER_RTT.c:398-447 | data that fits is appended to the unread bytes across the wrap |
| RttRing.Ring.WriteBlocking | src/segger/SEGGER_RTT.c:334-378 | for a host that goes on reading the loop ends, everything has been written, and what the host read and what is unread is the old contents and the data |
| RttRing.Ring.Write | src/segger/SEGGER_RTT.c:925-975 | skip, trim and block modes, by contents, write offset and status |
| RttRing.Ring.WriteSkip | src/segger/SEGGER_RTT.c:846-899 | the fast write accepts in the same states as skip mode and leaves the same contents and write offset |
| RttRing.Ring.PutCharSkip | src/segger/SEGGER_RTT.c:1063-1093 | and so does writing a single byte |
| RttRing.Ring.Read | src/segger/SEGGER_RTT.c:526-689 | reading returns the oldest bytes in order across the wrap and takes exactly those off |
| RttOverwrite.WriteWithOverwrite | src/segger/SEGGER_RTT.c:746-816 | the unread bytes afterwards are those Result gives |
| RttOverwrite.OverwriteExact | src/segger/SEGGER_RTT.c:746-816 | the newest bytes are left, for all data of a length, exactly when the write stays short of a full second round |
| PrintfCalls.Out | src/printf.cpp:87-91 | a character goes to its index or nowhere |
| PrintfCalls.ReadNumber | src/printf.cpp:125-131 | the loop reads the digits Atoi reads |
| PrintfCalls.PutNumber | src/printf.cpp:134-217 | digits, zeros, prefix, sign and padding come out as Number says |
| PrintfCalls.ReadSpec | src/printf.cpp:393-497 | flags, width, precision and length are read as Scan says |
| PrintfCalls.PutConversion | src/printf.cpp:500-638 | each conversion puts out the text Convert gives |
| PrintfCalls.Vsnprintf | src/printf.cpp:373-673 | the result is the length of the whole text; the buffer gets its first count - 1 characters and a NUL, and nothing past that |
| PrintfGrammar.ReadAsWritten | src/printf.cpp:393-497 | flags, width, precision, length and conversion are read as they are written, wherever they stand in a format, with stars taken from the arguments |
| PrintfLaws.LiteralPrints | src/printf.cpp:382-388 | characters outside conversions are copied |
| PrintfLaws.ConversionPrints | src/printf.cpp:381-638 | a specification prints what its conversion prints, and the format goes on behind it with the next argument |
| PrintfLaws.PlainPrints | src/printf.cpp:634-642 | a percent sign, and any character that is no conversion, prints itself |
| PrintfLaws.DigitsExact | src/printf.cpp:203-234 | in any base from 2 to 16 the digits, reversed, are how the number is written, exactly if it is below that power of the base for which the buffer has room |
| PrintfLaws.WritesOnce | src/printf.cpp:208-213 | a number is written in one way only |
| PrintfLaws.IntegerPrints | src/printf.cpp:495-562 | the digits of a %d, %i, %u, %x, %X, %o or %b are how its argument, cut to its length and signed or not, is written in base 10, 10, 10, 16, 16, 8 or 2, exactly if the buffer holds them all |
| PrintfLaws.IntegerInFormat | src/printf.cpp:373-673 | the same between two texts, with any flags but `#`, any width, precision and length |
| PrintfLaws.IntegerAlone | src/printf.cpp:495-562 | without flags, width and precision the format's own text is around the sign and the digits |
| PrintfLaws.UnsignedReadsBack | src/printf.cpp:125-131 | a number printed with %u or %lu reads back as itself and its text is consumed |
| PrintfLaws.BasesPrint | src/printf.cpp:500-515 | %x, %X, %o and %b print a 32-bit number as it is written in base 16, 16, 8 and 2 |
| PrintfLaws.StringInFormat | src/printf.cpp:590-614 | a string is cut at the precision and has spaces up to the width on the side the flag says |
| PrintfLaws.CharInFormat | src/printf.cpp:570-588 | a character has spaces up to the width on the side the flag says |
| PrintfLaws.PointerPrints | src/printf.cpp:616-632 | a pointer is printed in hexadecimal in a width of its own, with any flags but `#` and any precision |
| PrintfLaws.PointerAlone | src/printf.cpp:616-632 | without flags and precision all its digits are printed, leading zeros too |
| PrintfHash.HashShape | src/printf.cpp:134-217 | a number with its prefix in closed form: what is padded, which digits make way, how much of the prefix is put |
| PrintfHash.HashExact | src/printf.cpp:134-164 | an octal or hexadecimal number with `#` shows its prefix and all its digits exactly when no digit has to make way and the buffer has room for 0x |
| PrintfHash.HashInFormat | src/printf.cpp:373-673 | %#x, %#X and %#o between two texts, with any other flags, width, precision and length |
| PrintfHash.HashLost | src/printf.cpp:134-164 | "%#4x" of 0x1234 prints 0x34 |
| PrintfFacts.RoundTrip | src/printf.cpp:125-217 | reading back a printed 32-bit number gives it and consumes the text, which is as long as the digits or the width |
| PrintfFacts.DigitsAre | src/printf.cpp:208-213 | the digits printed stand for the number |
| PrintfFacts.UnderflowExact | src/printf.cpp:166-168 | the length wraps around exactly for a signed zero of precision zero with no width and no prefix |
| PrintfFacts.SignedExact | src/printf.cpp:134-217 | for all flags, precisions and widths, a decimal shows its sign, all its digits and at least as many digits as asked for exactly when the buffer has room for the sign and the digit or zero that makes way for it can be spared |
| PrintfFacts.DigitLost | src/printf.cpp:166-168 | -5 in a width of one prints as a minus sign, on either side |
| PrintfFacts.SignLost | src/printf.cpp:169-177 | -5 with zeros up to 32 characters prints without a sign |
| PrintfFacts.ZeroLost | src/printf.cpp:166-168 | 5 with a sign in a width and a precision of three prints two digits |

## Left out

- Semaphores: their flag also matches the tests for mutexes and queues in `osi_dispatch`, so the blocked path does not reach its own branch alone; the path that does not block would only add an easy member.
- Queues with the flag QUEUE_ONLY: with hand-over disabled senders and receivers can mix on one list. Queues of size 0.
- Machine.StartTask: a task on a blocked list is left out here, as in the steps; `Limits.StartExact` says what happens to it. Suspending a task that waits for an object: the code does not take it off the list.
- An interrupt inside a service call before its switch: steps are atomic.
- Clock wrap-around, and waits whose deadline would be the value that stands for "never": a caller waits either for ever or until before that value. The idle task does not make calls that may block; the source asserts that somebody else is scheduled.
- Service.SvcDelay: a delay of zero, whose outcome is in `Limits.ZeroDelayExact`; a deadline that wraps.
- Service.SvcBlock: a timeout of zero, with which no caller gets here; a deadline that wraps.
- MutexCalls.Acquire: blocking with a deadline that wraps, or as the idle task.
- QueueCalls.EnqueueFromTask: blocking with a deadline that wraps, or as the idle task.
- QueueCalls.DequeueFromTask: blocking with a deadline that wraps, or as the idle task.
- RwLockCalls.AcquireForRead: blocking with a deadline that wraps, or as the idle task.
- RwLockCalls.AcquireForWrite: blocking with a deadline that wraps, or as the idle task.
- Os.TaskStatusSet: setting IDLE a task that is queued, which leaves stale links behind; `RunQueue.Add` has the queue and `Limits.AddAgainExact` when it matters.
- RwLockCalls.Release: a release whose next reader has been woken by its timeout, which is that case.
- RwLockSteps.UnlockInv: the same; see `Limits.UnlockExact`.
- MutexSteps.AcquireInv: a level of 65535; see `Limits.AcquireExact`.
- RwLockSteps.AcquireReadInv: 65535 readers; see `Limits.ReadExact`.
- TaskSteps.RestartGood: the running task and tasks on a list; see `Limits.StartExact`.
- Tasks other than idle at the lowest priority: the walk of `find_new_task` rests on idle being strictly lowest.
- Run-time accounting, hooks, debug output, `osi_priority_check`, stack painting and checks, assembly and register set-up.
- osi_queue_create, osi_mutex_create, osi_rwlock_create: the constructors of the classes in `Types` give the same initial fields.
- Fairness.RoundRobin: about timer ticks; a service call that yields in between starts a new round.
- Heap layer: the interrupt mask and volatile accesses are not modelled; the clock is a parameter of each call.
- RttRing.Ring.WriteBlocking: a host that stops reading, or a buffer of one byte, for which the source's loop does not end. The host's reads within a round are in `RttSpec`.
- RttOverwrite.WriteWithOverwrite: buffers of one byte, for which the source's loop does not end.
- RTT channel configuration, terminals, key polling, locking, and the copies of the same functions with byte loops or in assembly.
- PrintfCalls.PutNumber: the signed zero of `PrintfFacts.UnderflowExact`, for which the source's length wraps around.
- PrintfCalls.PutConversion: floating point, and arguments that do not match.
- PrintfLaws.PointerPrints: pointers with `#`, of which `PrintfHash.HashShape` gives the text.
- PrintfCalls.ReadSpec: formats that end inside a specification.
- PrintfCalls.Vsnprintf: floating point; formats that end inside a specification or whose arguments do not match, for which the source reads past their ends; results beyond the range of `int`. A null buffer is a limit of 0, and unlimited output one with enough room.
- src/segger/tiny_printf.c, which is the same formatter.
