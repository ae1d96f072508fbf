# tinyos3: scheduler, monitors, processes, streams, rings

tinyos3 is a small multicore kernel. This project models its hard parts and proves what holds in every
reachable state, or of every run, for any number of cores, threads, condition variables, processes,
FCBs, fids and philosophers. `dafny verify dfyconfig.toml` checks it.

| file | models |
|---|---|
| `Scheduler.dfy` | `kernel_sched.c` as a state machine over its spinlocked sections and the parts of a context switch, with a program counter for each core |
| `SchedulerEffects.dfy` | what each step, and a yield with the gain that follows it, does to threads and lists in any run, and which steps are possible |
| `SchedulerKernel.dfy` | the functions of `kernel_sched.c` changing TCBs, SCHED, TIMEOUT_LIST and the core control blocks in place |
| `CondVars.dfy` | `cv_wait` and `cv_signal` of `kernel_cc.c`, in steps finer than the functions, with the owners of locks explicit |
| `CondVarEffects.dfy` | what a call of `cv_wait`, `Cond_Signal` or `Cond_Broadcast` has done when it returns, told from the call, and in how many steps |
| `KernelSem.dfy` | the kernel semaphore built on `CondVars` |
| `KernelEffects.dfy` | what a call of `kernel_lock`, `kernel_unlock`, `kernel_wait` or `kernel_sleep` leads to, told from the call |
| `CondVarRings.dfy` | the condition variable on the heap: the ring without a sentinel behind `cv->waitset`, and the loops of `cv_signal` and `Cond_Broadcast` |
| `CondVarKernel.dfy` | the end of `cv_wait`, the wakeup of a signaller and `kernel_sem` in place |
| `Processes.dfy` | the process table of `kernel_proc.c`, stretch by stretch between releases of the kernel lock |
| `ProcessEffects.dfy` | what `Exec`, `WaitChild` and `Exit` answer and change, over the fields of PT, and from a call to its answer |
| `ProcessesKernel.dfy` | the functions of `kernel_proc.c` in place, on arrays, with the free list threaded through `parent` |
| `Streams.dfy` | FCBs, reference counts and FIDTs of `kernel_streams.c` |
| `StreamEffects.dfy` | what calls on streams change, and what references held by calls in progress add up to |
| `StreamsKernel.dfy` | the functions of `kernel_streams.c` in place |
| `Rings.dfy` | the intrusive rings of `util.h`: the splice on links, what it does to rings and lists, and the pointer code |
| `Lists.dfy` | options, and lists without duplicates, used by the others |
| `Symposium.dfy` | the dining philosophers monitor, as steps and in place |
| `Exceptions.dfy` | exception frames, longjmp and unwinding of `util.c` and `util.h` |
| `ArgPack.dfy` | packed argument vectors of `util.h` and the buffer of `Execute` |

Each component has a specification on values, about which the lemmas speak, and methods that change
fields or arrays as the source does, each proved to do what a specification function says. A state
carries history beside what the source has (who has a thread in hand, how a waiter was woken, the
births and exits of processes, the streams ever opened); no step reads it except to record it.

The pieces stack. Above `Rings` lists are sequences. `KernelSem` runs the steps of `CondVars`.
`Processes` holds a `Streams.State`, relies on the kernel lock that `KernelSem` provides, and takes a
process's `child_exit` to be a condition variable on which only that process waits: its flag `signalled`
is clear as long as `CondVars.SleepsUnsignalled` holds of the process. `KernelSem.KernelWaitIsAtomic`
says that the process is on that ring before anybody else has the kernel. A step of `Symposium` is a
pass through the monitor, and sleeping is one step with giving the monitor up, which `CondVars` shows.

A pid, a TCB or an FCB is reused; threads and incarnations of processes are told apart by numbers that
are not, so that a claim about one run of a pid cannot be about another.

## Where code and documentation disagree

- `rlist_pop_back` (`util.h:449`) is documented to remove the tail. It empties any list, and removes
  just the tail only of a list of one node. `Rings.PopBackOfTwo` is the smallest input. The test at
  `test_util.c:127-131` cannot tell, because the list it pops from is empty after one round.
- `util.h:778-781` says that an exception is handled once a catcher has run. `captured` starts again
  at 0 with every longjmp, so an error goes on when the last catcher run has raised.
- `ParseProcInfo` (`tinyoslib.c:129`) is documented to fill in `*prog`. It copies over its own
  parameter, and the caller's variable keeps its value.
- `FCB_reserve` is documented to leave the state unchanged on failure. The order of the free list and
  the counts of the FCBs on it may change; which FCBs are free does not.
  `Streams.FailedReservationTurnsTheFreeList` is an input, and `Streams.ReserveFailureChangesNothingIff`
  says exactly when nothing changes.

## Model

| member | source | states |
|---|---|---|
| Scheduler.StepKeepsInv | kernel_sched.c:227-488 | every critical section and every part of a context switch, on any number of cores in any order, keeps the invariant that ties the two lists, thread states and phases, deadlines, saved contexts, what each core has in hand, and active_threads |
| Scheduler.InitialInv | kernel_sched.c:511-533 | the state in which the cores enter run_scheduler, with the boot thread spawned and queued, meets the invariant |
| Scheduler.RunKeepsInv | kernel_sched.c:227-505 | so does every state of every run |
| Scheduler.QueueInvariant | kernel_sched.c:266-309 | in every reachable state a normal READY thread with a clean context is in SCHED, unless it is in transit between yield and gain; a thread is in TIMEOUT_LIST iff it has a deadline, and is then STOPPED; nothing is in both lists or twice in one; idle threads are in none |
| Scheduler.TransitIffHeldClean | kernel_sched.c:410-423 | in transit means picked by a core and not yet through gain: such a thread is READY with a clean context |
| Scheduler.ContextSafety | kernel_sched.c:388-437 | in every reachable state no thread is current on two cores nor in the hands of two, and a context about to be loaded has been saved by the core that last ran the thread, also when it was woken or its timer fired after it marked itself STOPPED and before it switched away |
| Scheduler.AssertsHold | kernel_sched.c:266-479 | in every reachable state the asserts of sched_make_ready and the default branches of yield and gain are out of reach |
| Scheduler.GainOk | kernel_sched.c:452-479 | what gain finds: prev is READY, EXITED or STOPPED and in no queue, and only normal threads exit |
| Scheduler.MakeReadyKeeps | kernel_sched.c:266-284 | waking a stopped or new thread keeps the invariant whatever core still has it |
| Scheduler.SleepKeeps | kernel_sched.c:343-368 | marking a thread and registering its timeout keeps the invariant |
| Scheduler.InsertSorted | kernel_sched.c:236-241 | a registered timeout leaves TIMEOUT_LIST sorted by deadline, and stands behind exactly those with an equal or earlier one |
| Scheduler.ExpireMeaning | kernel_sched.c:296-303 | the timer loop as a whole: exactly the due prefix leaves the list and becomes READY, those with a clean context join SCHED in that order, and nothing else changes |
| Scheduler.DueExact | kernel_sched.c:299-301 | in a sorted list the due prefix is exactly the set of threads with a deadline that has come |
| Scheduler.TimersExact | kernel_sched.c:293-303 | in every run, after a selection at time t no listed thread has a deadline at or before t, and none was woken before its deadline |
| Scheduler.WokenJoinInOrder | kernel_sched.c:293-309 | in every run, a selection wakes the first threads of TIMEOUT_LIST, and those with a clean context join SCHED behind the others in the order of their deadlines and of the list |
| Scheduler.ListedBehindEarlier | kernel_sched.c:236-241 | in every run, a thread that goes to sleep is listed behind all with an equal or earlier deadline and before all others |
| Scheduler.FirstComeFirstListed | kernel_sched.c:227-309 | in every run, two listed threads keep their order for as long as both are listed; so equal deadlines are served first come, first served |
| Scheduler.QueueProgress | kernel_sched.c:251-309 | a thread in SCHED comes one place nearer with every selection, and with nothing else |
| Scheduler.YieldPops | kernel_sched.c:380-423 | a yield picks the head of SCHED and leaves the rest in front of whatever it wakes |
| Scheduler.BoundedWaiting | kernel_sched.c:251-309 | over any run: after j selections a thread at position k is at k - j |
| Scheduler.DispatchedByNextSelection | kernel_sched.c:293-309 | so exactly the (k+1)-th selection dispatches it |
| Scheduler.FreedOnlyWhenExited | kernel_sched.c:463-473 | in every run a TCB is released only by gain, when its thread has EXITED and is in no list and no other core's hands |
| Scheduler.ActiveCounts | kernel_sched.c:150-173 | in every reachable state active_threads is the number of normal TCBs, between the spinlocked updates |
| Scheduler.ShutdownIsClean | kernel_sched.c:491-505 | in every run, when an idle loop leaves at zero, both lists are empty and only idle threads are left |
| SchedulerKernel.Kernel.SchedRegisterTimeout | kernel_sched.c:227-243 | the insertion loop puts the thread at the place the specification names |
| SchedulerKernel.Kernel.SchedMakeReady | kernel_sched.c:266-284 | in place, the specified step |
| SchedulerKernel.Kernel.SchedQueueSelect | kernel_sched.c:293-309 | the loop expires what is due and picks the head of SCHED, or what yield falls back on |
| SchedulerKernel.Kernel.Wakeup | kernel_sched.c:315-337 | returns 1 iff the thread was STOPPED or INIT, which is then READY, without a deadline, and last in SCHED if its context is clean; otherwise changes nothing |
| SchedulerKernel.Kernel.SleepReleasing | kernel_sched.c:343-368 | in place, the specified section: the thread is in the state asked for, with its deadline iff it is STOPPED with a timeout, and no other thread is touched |
| SchedulerKernel.Kernel.Yield | kernel_sched.c:380-425 | in place, the specified section: a thread that ran is READY, a STOPPED one stays so unless its timer fires, an EXITED one stays so; the next thread is the head of SCHED with those just woken at its end, else the current one if it can go on, else the idle thread |
| SchedulerKernel.Kernel.SwitchContext | kernel_sched.c:427-431 | CURTHREAD = next and the two halves of the context swap; the context loaded is saved |
| SchedulerKernel.Kernel.Gain | kernel_sched.c:452-481 | in place, the specified section: the thread left is the last of SCHED if READY and normal, freed if EXITED, asleep if STOPPED; the default branch is proved dead |
| SchedulerKernel.Kernel.SpawnThread | kernel_sched.c:122-155 | a new INIT thread that was not in the table |
| SchedulerKernel.Kernel.CountThread | kernel_sched.c:150-173 | the two updates of active_threads |
| SchedulerKernel.Kernel.IdleLeaves | kernel_sched.c:497-505 | the loop ends only with both lists empty |
| SchedulerEffects.SleepDoes | kernel_sched.c:343-368 | in every run, a sleep leaves the thread STOPPED or EXITED as asked, in TIMEOUT_LIST with the deadline now + timeout iff it is STOPPED with a timeout, in no other list; SCHED and all other threads stay |
| SchedulerEffects.WakeupDoes | kernel_sched.c:315-337 | in every run, a wakeup makes a STOPPED or INIT thread READY, takes its deadline away and puts it last in SCHED if its context is clean; any other it leaves alone |
| SchedulerEffects.YieldDoes | kernel_sched.c:380-423 | in every run, a yield makes a thread that ran READY, leaves an EXITED one EXITED, and a STOPPED one STOPPED with its deadline unless its timer fires in that selection; the next thread is the head of SCHED with those just woken at its end, or the current thread if it can go on, or the idle thread; every other thread becomes READY iff its timer fires, and else keeps its state |
| SchedulerEffects.RunningThreadStaysReady | kernel_sched.c:394-399 | in every run, the thread that a yield, or the quantum timer, interrupts is RUNNING before and READY after it |
| SchedulerEffects.GainDoes | kernel_sched.c:452-479 | in every run, gain makes the thread switched to RUNNING; the one left is put last in SCHED if it is READY and normal, freed if EXITED, and otherwise keeps its state and deadline |
| SchedulerEffects.YieldThenGain | kernel_sched.c:380-479 | from a yield of a core to its next gain, whatever the other cores do: the chosen thread runs; the other one, if it ran, is READY and, if normal, the last of SCHED; if it had exited it is freed; if it was STOPPED it sleeps, in no queue, or has been woken and is the last of SCHED |
| SchedulerEffects.OthersLeave | kernel_sched.c:227-488 | a step of another core leaves a core and the threads it has in hand alone, but that it may wake one that is STOPPED |
| SchedulerEffects.SmallStepsDo | kernel_sched.c:122-173 | in every run, what spawning, counting, the parts of a context switch and leaving do to TCBs, CURTHREAD and active_threads |
| SchedulerEffects.NoCoreIsStuck | kernel_sched.c:380-505 | in every reachable state with sched_spinlock free every core that has not left can take its next step |
| SchedulerEffects.RunningThreadsMayDoAll | kernel_sched.c:122-368 | and a running normal thread can spawn, sleep, exit, and wake any thread already spawned |
| CondVars.StepKeepsInv | kernel_cc.c:119-200 | every step of cv_wait, cv_signal, broadcast, timeouts and foreign wakeups, by any number of threads on any condition variables, keeps the invariant on rings, waiter flags and locks |
| CondVars.RunKeepsInv | kernel_cc.c:119-200 | over every run |
| CondVars.NoLostWakeup | kernel_cc.c:125-136 | in every reachable state a signaller that has the waitset lock finds every thread that has given its mutex up in the ring with its thread STOPPED, or already woken |
| CondVars.SleepIsAtomicWithTheRing | kernel_cc.c:125-136 | from joining the ring to being STOPPED the waiter has the waitset lock, so no signaller is at work |
| CondVars.WaitsReturnRightly | kernel_cc.c:138-149 | in every run cv_wait returns holding the mutex, on no ring, with 1 iff a signal made the thread READY |
| CondVars.RingsHoldLiveWaiters | kernel_cc.c:119-150 | in no reachable state does a ring hold a waiter whose cv_wait has returned, nor any waiter twice |
| CondVars.SignallerWritesLiveWaiter | kernel_cc.c:163-168 | a signaller writes the flags only of waiters that are still inside cv_wait |
| CondVars.TidyAssertHolds | kernel_cc.c:140-145 | the assert in cv_wait holds, and a waiter not removed is on its ring |
| CondVars.SignalIsFifo | kernel_cc.c:159-192 | in every reachable state a Cond_Signal about to return has woken and signalled at most one waiter, the first that still slept: those in front of it were awake through something else, those behind it are the ring, unsignalled; if it woke none, the ring is empty and all who were on it are awake through something else |
| CondVars.BroadcastEmptiesTheRing | kernel_cc.c:195-200 | a signaller at work for Cond_Broadcast, about to give the lock up, has emptied the ring and finds everyone who was in it awake; `CondVarEffects.BroadcastDoes` says it from the call |
| KernelSem.KStepKeepsInv | kernel_cc.c:254-307 | every step of kernel_lock, kernel_unlock, kernel_wait and kernel_sleep, on top of the condition variable steps, keeps the invariant |
| KernelSem.KRunKeepsInv | kernel_cc.c:254-307 | over every run |
| KernelSem.OneHolder | kernel_cc.c:254-270 | kernel_sem plus the number of holders is 1, so the kernel has at most one holder |
| KernelSem.KernelHasOneHolder | kernel_cc.c:254-270 | in every reachable state at most one thread has the kernel, and then kernel_sem is 0 |
| KernelSem.NoStrandedWaiter | kernel_cc.c:254-289 | in every reachable state with kernel_mutex free and kernel_sem 1, if anybody waits in the ring then some thread taken off it is awake and on its way to look again, barging or not |
| KernelSem.KernelWaitIsAtomic | kernel_cc.c:272-289 | in every reachable state in which some thread has the kernel, whoever is in the Cond_Wait of kernel_wait is on its ring, or in the hands of a signaller about to wake it, or awake; `KernelEffects.KernelWaitDoes` says how it gets there |
| CondVars.AsleepUntilSignalled | kernel_cc.c:119-171 | a waiter asleep on a ring stays there until a signaller of that condition variable, or a wakeup from elsewhere, gets at it |
| CondVars.BroadcastReachesEveryone | kernel_cc.c:195-200 | and nobody who was on the ring when it got the lock still sleeps there |
| CondVarRings.CondVar.Push | kernel_cc.c:126-132 | on the heap, through cv->waitset and without a sentinel: w becomes the last of the ring, empty or not |
| CondVarRings.CondVar.RemoveFromRing | kernel_cc.c:81-89 | on the heap: w and no other leaves the ring, wherever it stands, and cv->waitset goes on pointing at the first one left, or is NULL |
| CondVarRings.CondVar.WaitBegin | kernel_cc.c:125-136 | from the lock to the sleep that releases it: the waiter is the last of the ring and STOPPED, so whoever gets the lock next finds it |
| CondVarRings.CondVar.WaitEnd | kernel_cc.c:139-149 | the waiter is on no ring afterwards; it returns 1 iff it was signalled; the assert holds |
| CondVarRings.CondVar.CvSignal | kernel_cc.c:159-171 | the loop: either it wakes exactly one waiter, which was STOPPED, signals it and no other, leaves those behind it on the ring, and those in front were awake; or the ring is empty, nobody was signalled, and all who were on it are awake |
| CondVarRings.CondVar.CvBroadcast | kernel_cc.c:195-200 | the loop around it: the ring is empty, all who were on it are awake, and only sleepers were signalled |
| CondVarKernel.Monitors.Tidy | kernel_cc.c:140-145 | the step after which the waiter is on no ring; the assert holds |
| CondVarKernel.Monitors.Return | kernel_cc.c:146-149 | returns with the mutex, and 1 iff signalled |
| CondVarKernel.Monitors.SignalWake | kernel_cc.c:166-168 | wakeup and the flag, on a waiter that is still inside cv_wait |
| CondVarKernel.Monitors.CheckKernelSem | kernel_cc.c:257-260 | acquires iff kernel_sem was 1, and is then the only holder |
| CondVarKernel.Monitors.RaiseKernelSem | kernel_cc.c:266-267 | after it nobody holds the kernel |
| CondVarEffects.BroadcastDoes | kernel_cc.c:195-200 | from a call of Cond_Broadcast to its return, in any run: the ring is empty, and everyone who was on it when the call got waitset_lock is awake and off it |
| CondVarEffects.SignalDoes | kernel_cc.c:187-192 | from a call of Cond_Signal to its return, in any run: at most one of those on the ring when it got the lock was signalled, the first that still slept; those in front of it are awake without a signal, those behind it are the ring, unsignalled; none was iff the ring is empty |
| CondVarEffects.WaitDoes | kernel_cc.c:119-150 | from a call of cv_wait to its return, in any run: the caller has the mutex just until it is on the ring; something made it READY while it was STOPPED, and the answer is 1 iff that was a signaller of this condition variable that had it in hand; it returns with the mutex and on no ring |
| CondVarEffects.WaitTakesEightSteps | kernel_cc.c:125-149 | it makes each of its eight steps exactly once |
| CondVarEffects.SignallersFinish | kernel_cc.c:159-200 | a signaller that has the lock makes at most three steps for each waiter on the ring, and two more, before it returns |
| CondVarEffects.RingStep | kernel_cc.c:127-144 | a ring changes only by its thread joining at the end, a waiter taking itself off, or a signaller taking the first |
| CondVarEffects.FirstComeFirstOnRing | kernel_cc.c:127-144 | in every run, two waiters keep their order on the ring for as long as both are on it |
| CondVarEffects.WaiterMoves | kernel_cc.c:119-150 | in every reachable state a thread in cv_wait can take its next step unless it is STOPPED or waits for one of the two locks |
| CondVarEffects.SignallerMoves | kernel_cc.c:159-200 | and one in Cond_Signal or Cond_Broadcast unless it waits for waitset_lock |
| CondVarEffects.LockHolderMoves | kernel_cc.c:119-200 | in every reachable state the thread that has a waitset_lock can take its next step |
| CondVarEffects.ClientsMove | kernel_cc.c:119-200 | in every reachable state a thread in no call may make any, lock a mutex iff it is free, and give up a mutex or wait iff it has it; a wakeup from elsewhere makes a STOPPED thread READY |
| CondVarEffects.MutexMoves | kernel_cc.c:119-150 | a mutex changes hands only by being locked when free, being unlocked by its holder, or in the cv_wait called with it |
| KernelEffects.LeaveDoes | kernel_cc.c:264-307 | in every run, after a call of kernel_unlock, kernel_wait or kernel_sleep the thread raises kernel_sem, then signals, and then is out of the kernel, in Cond_Wait on the condition variable it asked for, or has stopped for good |
| KernelEffects.KernelWaitDoes | kernel_cc.c:272-289 | in every run, a thread that has called kernel_wait is inside again only after it was woken from that condition variable, returned from it, and found kernel_sem free and became the holder; in between it is neither inside nor outside |
| KernelEffects.KernelLockDoes | kernel_cc.c:254-262 | in every run, a thread that has called kernel_lock is inside only after it found kernel_sem free, under kernel_mutex, became the holder, and let go of kernel_mutex |
| KernelEffects.CheckStep | kernel_cc.c:257-260 | with kernel_sem at 0 the loop test puts the thread in Cond_Wait on kernel_sem_cv; at 1 the thread takes the kernel |
| KernelEffects.ReleaseStep | kernel_cc.c:266-268 | the release takes kernel_sem from 0 to 1, leaves no holder, and calls Cond_Signal |
| KernelEffects.ThreadsMoveIn | kernel_cc.c:254-262 | in every reachable state a thread on its way into the kernel can take its next step, but where it needs a kernel_mutex that is taken |
| KernelEffects.ThreadsMoveOut | kernel_cc.c:264-307 | likewise one that leaves it |
| Processes.BootedInv | kernel_proc.c:52-73 | the table after initialize_processes and the boot task's Exec meets the invariant: pids 0 and 1 are taken in that order |
| Processes.StepKeepsInv | kernel_proc.c:131-339 | every stretch of sys_Exec, sys_WaitChild and sys_Exit between two releases of the kernel lock, and every stream call, keeps the invariant |
| Processes.RunKeepsInv | kernel_proc.c:52-339 | over every run from boot |
| Processes.ProcessesFormAForest | kernel_proc.c:131-339 | in every reachable state a process other than 0 and 1 has a living parent, stands once on its children list, once on its exited list iff it is a zombie, and on no other; zombies have no children |
| Processes.AncestryEndsAtInit | kernel_proc.c:146-152 | parent links are acyclic: they lead through ever older living processes to pid 1 |
| Processes.FreeListIsExact | kernel_proc.c:79-102 | following pcb_freelist through the parent fields visits exactly the FREE PCBs, each once; process_count is the number of the others |
| Processes.FreshPcbIsClean | kernel_proc.c:79-91 | a PCB that acquire_PCB can return has empty lists, is on no list, has no thread and an all-NULL FIDT, though nothing re-initialises it |
| Processes.ExecAttaches | kernel_proc.c:131-188 | the new process is the caller's youngest child with the caller's FIDT; no other process changes state, parent or files |
| Processes.ExitHandsOver | kernel_proc.c:292-338 | children of the exiting process become init's, in reverse in front of its own, and its zombies join the end of init's exited list; init and the parent are told; its files are closed; it is a zombie with the value passed |
| Processes.InitExits | kernel_proc.c:288-338 | init ends as a zombie without relatives or files, when all other pids but 0 are FREE |
| Processes.ReapedByItsParent | kernel_proc.c:204-281 | a step that returns an incarnation is a WaitChild (or the loop of Exit) of its parent at that moment, which gets the pid and the value passed to Exit, and frees the PCB |
| Processes.AnswersAreReapings | kernel_proc.c:270-281 | and a WaitChild that returns a child has just taken it from the table |
| Processes.ExitValueIsRecorded | kernel_proc.c:334-335 | the value recorded for an incarnation is the one its process passed to Exit |
| Processes.ReapedAtMostOnce | kernel_proc.c:204-281 | in no run from boot do two steps return the same incarnation |
| Processes.RunsReapRightly | kernel_proc.c:204-281 | in every run each reaping is done by the parent at that moment, with the value passed to Exit |
| Processes.ReusedOnlyAfterReaping | kernel_proc.c:209-212 | of two incarnations of a pid one has been reaped |
| Processes.LivesOnlyGrow | kernel_proc.c:131-339 | no step changes what an earlier one recorded about exits and reapings |
| Processes.NoParentSleepsPastAnExit | kernel_proc.c:233-258 | a process asleep on its child_exit and not signalled has nothing to return: the child it waits for lives, or all its children do; also when init adopts zombies |
| Processes.InitLeavesLast | kernel_proc.c:286-290 | once pid 1 has passed its loop in sys_Exit, or has no children, every pid from 2 on is FREE |
| Processes.AdoptKeeps | kernel_proc.c:310-322 | handing children and zombies to init keeps the invariant and leaves the lists empty |
| Processes.BuryKeeps | kernel_proc.c:324-335 | becoming a zombie keeps the invariant |
| Processes.ReapKeeps | kernel_proc.c:204-213 | cleanup_zombie keeps the invariant |
| ProcessesKernel.ProcessTable.InitializeProcesses | kernel_proc.c:52-66 | the loops give the initial table, its free list in order |
| ProcessesKernel.ProcessTable.Boot | kernel_proc.c:70-72 | the first two Execs get pids 0 and 1, and the invariant holds |
| ProcessesKernel.ProcessTable.AcquirePCB | kernel_proc.c:79-91 | takes the head of the free list, or returns NOPROC on none |
| ProcessesKernel.ProcessTable.ReleasePCB | kernel_proc.c:96-102 | puts the PCB at the head of the free list |
| ProcessesKernel.ProcessTable.SysExec | kernel_proc.c:131-188 | in place, the specified Exec, with the inheritance loop of the streams |
| ProcessesKernel.ProcessTable.CleanupZombie | kernel_proc.c:204-213 | in place, the specified reaping; returns the exit value |
| ProcessesKernel.ProcessTable.SysWaitChild | kernel_proc.c:216-281 | in place: NOPROC, and nothing changed, iff the pid is out of range, FREE or not a child of the caller, or it has no children; otherwise the zombie and its value, its PCB freed, or sleep |
| ProcessesKernel.ProcessTable.AfterKernelWait | kernel_proc.c:234-258 | in place, what happens when kernel_wait returns: the zombie and its value, or sleep again |
| ProcessesKernel.ProcessTable.Reparent | kernel_proc.c:310-315 | the loop empties the list, points every child at init and puts them in front of init's in reverse |
| ProcessesKernel.ProcessTable.AdoptAll | kernel_proc.c:310-322 | in place, the specified hand-over with its broadcast |
| ProcessesKernel.ProcessTable.BecomeZombie | kernel_proc.c:324-335 | in place, the specified end of Exit |
| ProcessesKernel.ProcessTable.SysExit | kernel_proc.c:284-338 | in place, the specified Exit |
| ProcessesKernel.ProcessTable.InitLeavesRound | kernel_proc.c:288-290 | one round of the loop of pid 1, or the rest of Exit |
| ProcessEffects.WaitChildEffect | kernel_proc.c:216-281 | over the fields of PT: WaitChild answers NOPROC iff the pid is out of range, FREE or not a child of the caller, or is NOPROC and the caller has no children, and then changes nothing; a zombie child is answered with its exit value and its PCB freed; for a living one the caller sleeps; for any child the first of exited_list is taken, and with only living ones the caller sleeps |
| ProcessEffects.WakeUpEffect | kernel_proc.c:233-263 | woken in kernel_wait, it answers in the same way, or sleeps again |
| ProcessEffects.InitLeavesEffect | kernel_proc.c:288-290 | so does each round of init's loop in sys_Exit while it has children |
| ProcessEffects.WaitChildReturns | kernel_proc.c:233-240 | in every run from boot, a WaitChild for a living child sleeps until it finds the child a zombie, and then answers its pid and value and frees its PCB |
| ProcessEffects.ExecOnFullTable | kernel_proc.c:136-187 | Exec answers NOPROC, changing nothing, iff no PCB is FREE |
| ProcessEffects.ExecFrame | kernel_proc.c:131-187 | the new PCB is ALIVE, without relatives of its own, with a main thread iff there is a call; the other PCBs, and who waits for what, stay |
| ProcessEffects.ExitFrame | kernel_proc.c:330-338 | Exit leaves the state, value and thread of every other process alone, and signals the parent, and init iff it inherits a zombie, and nobody else |
| ProcessEffects.InitExitsWithItsValue | kernel_proc.c:288-335 | in every run from boot, whenever init has become a zombie after Exit(val), it is with val |
| ProcessEffects.OthersWait | kernel_proc.c:131-339 | a step moves no process but its own, except that it may signal one that waits |
| ProcessEffects.FileEffect | kernel_streams.c:131-238 | a call on streams changes nothing but the tables of `Streams` |
| ProcessEffects.LivingProcessesMove | kernel_proc.c:131-339 | a process with a main thread is ALIVE and can take its next step |
| Streams.StepKeepsInv | kernel_streams.c:131-270 | every stream call, Read and Write split where the device may release the kernel lock, Exec's inheritance and Exit keep the invariant |
| Streams.RunKeepsInv | kernel_streams.c:15-270 | over every run |
| Streams.RefcountsAreConserved | kernel_streams.c:27-61 | an FCB off the free list has as many references as its count says, slots and calls in flight together, and one at least; a free one has none |
| Streams.NoSlotIsFree | kernel_streams.c:123-128 | no FIDT slot points at a free FCB |
| Streams.ClosedExactlyWhenUnreferenced | kernel_streams.c:50-61 | each opened stream has been closed once if nothing refers to it any more, and otherwise not at all |
| Streams.LastReferenceCloses | kernel_streams.c:50-61 | Close is called exactly when the reference given up is the last one |
| Streams.StreamsOnlyGrow | kernel_streams.c:50-61 | no step forgets a stream or takes back a Close |
| Streams.FreeFidsAreTheSmallest | kernel_streams.c:71-78 | an unused fid is passed over only when enough smaller ones were found |
| Streams.ReserveSucceedsIff | kernel_streams.c:65-97 | FCB_reserve succeeds iff there are num unused fids and num free FCBs |
| Streams.ReserveGives | kernel_streams.c:65-97 | on success: the num smallest unused fids in increasing order, bound to distinct FCBs from the free list with one reference each, all else unchanged |
| Streams.ReserveFailureKeeps | kernel_streams.c:78-90 | on failure: FIDTs, the set of free FCBs and the counts of the others are unchanged |
| Streams.ReserveFailureChangesNothingIff | kernel_streams.c:65-97 | a failure leaves everything as it was, as documented, iff the fids were too few, or no FCB was free, or just one whose count was 0 |
| Streams.FailedReservationTurnsTheFreeList | kernel_streams.c:84-88 | an input on which it does not: three FCBs asked for where two are free |
| Streams.UnreserveUndoes | kernel_streams.c:101-109 | FCB_unreserve undoes a success, leaving stale counts of 1 on the free list |
| Streams.ConsoleGetsFirstFids | console.c:54-60 | a process with fids 0 and 1 unused gets them from a reservation of two |
| Streams.Dup2Does | kernel_streams.c:218-238 | a legal Dup2 makes newfd name the stream of oldfd and changes no other slot; an illegal one changes nothing |
| Streams.Dup2InOrder | kernel_streams.c:230-235 | dropping newfd's old stream while the slot still names it comes to the same as clearing it first |
| Streams.InheritCopies | kernel_proc.c:154-159 | Exec gives the child its parent's FIDT |
| Streams.CloseUpToKeeps | kernel_proc.c:300-306 | Exit's loop empties the FIDT and keeps the invariant |
| StreamsKernel.Files.AcquireFCB | kernel_streams.c:27-36 | takes the head of the free list and clears its count, or returns NULL |
| StreamsKernel.Files.FCBDecref | kernel_streams.c:50-61 | in place, the specified step; returns what Close returns when the count drops to 0, and otherwise 0 |
| StreamsKernel.Files.FCBReserve | kernel_streams.c:65-97 | in place, the specified reservation, loops and roll-back included |
| StreamsKernel.Files.FindFids | kernel_streams.c:71-78 | the loops find the specified fids |
| StreamsKernel.Files.Rollback | kernel_streams.c:84-88 | FCBs are given back in reverse |
| StreamsKernel.Files.FCBUnreserve | kernel_streams.c:101-109 | in place, the specified undoing, after which the slots are NULL; the assert that each slot names the FCB given back holds |
| StreamsKernel.Files.CallBegin | kernel_streams.c:131-147 | on an open fid the count of its FCB and what is held of it go up by one and all else stays; on any other fid nothing changes |
| StreamsKernel.Files.SysClose | kernel_streams.c:196-208 | in place, the specified Close; -1 on an illegal fid, 0 on a closed one |
| StreamsKernel.Files.SysDup2 | kernel_streams.c:218-238 | in place, the specified Dup2 in the source's order; 0 iff it is legal |
| StreamsKernel.Files.OpenStream | kernel_streams.c:251-270 | in place: the smallest unused fid, for a free FCB with one reference and a new stream; or NOFILE with all FIDTs and streams as before |
| StreamsKernel.Files.Inherit | kernel_proc.c:154-159 | the loop of sys_Exec |
| StreamsKernel.Files.CloseAll | kernel_proc.c:300-306 | the loop of sys_Exit; every slot is NULL after it |
| StreamEffects.BeginEffect | kernel_streams.c:139-147 | Read or Write on an open fid: the count of its FCB goes up by one, exactly that reference is held, FIDTs, free list and streams stay; on any other fid nothing changes |
| StreamEffects.EndEffect | kernel_streams.c:50-61 | giving the reference back: with the last one anywhere the FCB is free and its stream closed once more, else only the count changes |
| StreamEffects.HeldCountsCalls | kernel_streams.c:131-193 | in every run, what is held of an FCB is the number of Reads and Writes begun on it so far minus the number ended |
| StreamEffects.CountsAreSlotsAndCalls | kernel_streams.c:44-61 | so the count of an FCB in use is the number of slots that name it plus the number of calls in progress on it |
| StreamEffects.CallsKeepTheirStream | kernel_streams.c:145-153 | from a Read or Write on and while not all such calls have ended, the FCB keeps the same stream, not closed |
| StreamEffects.StepRows | kernel_streams.c:196-238 | what Close, Dup2, Exec, Exit, Read and Write make of the FIDTs |
| StreamEffects.OpenEffect | kernel_streams.c:251-270 | open_stream returns the smallest unused fid, for a free FCB with one reference and a new stream, iff there is such a fid and FCB and the device accepts; otherwise NOFILE, with FIDTs, streams and FCBs in use as before |
| StreamEffects.CallsMayBeMade | kernel_streams.c:131-238 | a process may make any call at any time, and a Read or Write in progress can end |
| Rings.SpliceKeepsLinks | util.h:389-394 | a splice keeps prev and next mutually inverse on any heap of rings, for any two nodes |
| Rings.SpliceUndoesItself | util.h:160-161 | a splice is its own inverse |
| Rings.SpliceJoins | util.h:171-175 | [a,x..] [b,y..] becomes [a,y..,b,x..] |
| Rings.SpliceSplits | util.h:171-175 | [a,x..,b,y..] becomes [a,y..] [b,x..], adjacent nodes included |
| Rings.SpliceWithItself | util.h:389-394 | splicing a node with itself changes nothing |
| Rings.SpliceKeepsOtherRings | util.h:389-394 | rings without a and b are untouched |
| Rings.OtherRingsStay | util.h:389-394 | a ring none of whose pointers changes is still that ring |
| Rings.RingsSameOrDisjoint | util.h:140-153 | rings partition the nodes |
| Rings.PushFrontRefines | util.h:422-422 | push_front puts the ring of node in front, node behind the others of its ring |
| Rings.PushBackRefines | util.h:433-433 | push_back puts the ring of node at the back, node last |
| Rings.RemoveRefines | util.h:404-404 | remove takes a node out of its ring and leaves it a singleton |
| Rings.PopFrontRefines | util.h:441-441 | pop_front takes the head off, a singleton; on an empty list nothing changes |
| Rings.PopBackEmptiesTheList | util.h:443-449 | pop_back leaves the list empty: the node returned, the tail, heads a ring of all the others |
| Rings.PopBackPopsTheTailIff | util.h:443-449 | so it removes the tail, as documented, iff the list has exactly one node |
| Rings.PopBackOfTwo | util.h:443-449 | the smallest list on which it does not: of two nodes both are lost, and stay linked to each other |
| Rings.FlipReverses | util.h:523-531 | exchanging prev and next throughout reverses the list |
| Rings.RevIsPermutation | util.h:523-531 | and keeps its nodes |
| Rings.SelectConserves | util.h:561-572 | select and its rest are together the source's nodes |
| Rings.RlSplice | util.h:389-394 | the four pointer writes are the specified splice, aliasing included |
| Rings.RlistRemove | util.h:404-404 | in place |
| Rings.IsRlistEmpty | util.h:411-411 | true iff the list is the empty sequence |
| Rings.RlistPushFront | util.h:422-422 | in place |
| Rings.RlistPushBack | util.h:433-433 | in place |
| Rings.RlistPopFront | util.h:441-441 | in place; returns the head, or the sentinel of an empty list |
| Rings.RlistPopBack | util.h:449-449 | in place; returns the tail and leaves the list empty |
| Rings.RlistAppend | util.h:498-502 | the destination gets the source's nodes at its back, in order; the source is left empty; no pointer outside the two lists changes |
| Rings.RlistPrepend | util.h:512-516 | and likewise at its front |
| Rings.RlistReverse | util.h:523-531 | the walk through pointers just exchanged terminates and reverses the list |
| Rings.RlistSelect | util.h:561-572 | a stable partition: the matches go to the back of Ldest in order, the others stay in order, and no pointer outside the two lists changes |
| Symposium.LeftRightInverse | symposium.c:50-51 | LEFT and RIGHT undo each other, and are the identity iff N is 1 |
| Symposium.StepKeepsInv | symposium.c:76-130 | every pass through the monitor, and every wakeup, keeps the invariant |
| Symposium.StopEatingServes | symposium.c:118-123 | who stops eating lets the left neighbour eat if it is hungry and its other neighbour does not eat, and then the right one likewise; nobody else changes |
| Symposium.OwnStepDoes | symposium.c:98-129 | who gets hungry eats at once unless a neighbour eats, and sleeps otherwise; who is woken eats if its state says so and sleeps again if not; nobody else changes |
| Symposium.OnlySleepersStand | symposium.c:98-129 | a philosopher can take a step iff it has not left and does not sleep |
| Symposium.RunKeepsInv | symposium.c:76-144 | over every run |
| Symposium.TableIsSafe | symposium.c:76-130 | in every reachable state distinct neighbours do not eat together, every hungry philosopher has an eating neighbour, no unsignalled sleeper is eating, and whoever left the loop is |
| Symposium.StepUsesRank | symposium.c:103-124 | every step but a spurious wakeup uses up rank, and a spurious wakeup gives back one unit |
| Symposium.RunsAreBounded | symposium.c:89-130 | no run has more than N(4 bites + 2) steps plus two for every spurious wakeup |
| Symposium.NoDeadlock | symposium.c:109-112 | while a philosopher has not left, some philosopher can move without a spurious wakeup |
| Symposium.MaximalRunsFeedEveryone | symposium.c:89-130 | a run that cannot go on has fed each philosopher exactly bites times, and all have left |
| SymposiumInPlace.SymposiumTable.Init | symposium.c:134-144 | the loop gives the initial table |
| SymposiumInPlace.SymposiumTable.TryToEat | symposium.c:76-86 | in place, the specified step with its signal |
| SymposiumInPlace.SymposiumTable.GetHungry | symposium.c:106-112 | in place, from locking mx to the first loop test |
| SymposiumInPlace.SymposiumTable.LookAgain | symposium.c:109-113 | in place; leaving the loop means EATING, as the source asserts |
| SymposiumInPlace.SymposiumTable.StopEating | symposium.c:118-123 | in place, both neighbours tried |
| SymposiumInPlace.SymposiumTable.Arrive | symposium.c:98-101 | in place |
| SymposiumInPlace.SymposiumTable.Leave | symposium.c:126-129 | in place |
| Exceptions.UnwindOnError | util.c:13-44 | on an error each catcher and then each finalizer of the frame runs exactly once, last registered first, across all longjmp re-entries; the error goes on iff some finalizer raised, or there was no catcher, or the last catcher run raised |
| Exceptions.UnwindOnExit | util.h:912-917 | at the end of a TRY block catchers are dropped, each finalizer runs once, and an error goes on iff one of them raised |
| Exceptions.FinalizersToldOfErrors | util.c:31-36 | after an error every finalizer is called with 1 |
| Exceptions.FinalizersToldOfExit | util.c:31-36 | at the end of a TRY block with 0, until one has raised |
| Exceptions.CatcherThatRaisesCapturesNothing | util.h:778-781 | an error that meets a catcher can go on: that catcher raises |
| Exceptions.RaiseStopsAtTheFirstCapture | util.c:4-10 | a raise unwinds exactly the frames up to the first that captures it; an empty stack swallows it |
| Exceptions.HandlersRunLastInFirstOut | util.h:935-952 | handlers run in the reverse of the order in which ON_ERROR and FINALLY registered them |
| Exceptions.Context.ExceptionUnwind | util.c:13-44 | one activation: the loops, the handler that jumps out, or the popped frame and the last jump |
| Exceptions.Context.RaiseException | util.c:4-10 | with all jumps that follow: terminates, and leaves the specified stack and calls |
| Exceptions.Context.LeaveTry | util.h:912-917 | the end of a TRY block, with all that follows |
| Exceptions.Context.RegisterHandler | util.h:935-952 | puts the handler in front of its list |
| Exceptions.Context.EnterTry | util.h:895-900 | pushes a frame without handlers |
| ArgPack.UnpackAfterPack | util.h:614-667 | unpacking what was packed gives the strings back, for any NUL-free strings |
| ArgPack.PackAfterUnpack | util.h:614-667 | packing what was unpacked gives the buffer back up to its last 0, hence the buffer iff it is NUL-terminated |
| ArgPack.UnpackedCount | util.h:626-643 | a buffer holds as many strings as zero bytes |
| ArgPack.Argvlen | util.h:592-599 | returns the length of the packed buffer |
| ArgPack.Argvpack | util.h:614-624 | writes exactly the packed strings, nothing else, and returns their length |
| ArgPack.Argscount | util.h:635-643 | returns the number of zero bytes |
| ArgPack.Argvunpack | util.h:659-667 | for any buffer and any argc up to argscount: the pointers name the strings, the result is where they end, and nothing past the buffer is read |
| ArgPack.Execute | tinyoslib.c:147-167 | the buffer is the program pointer and the packed strings |
| ArgPack.ExecWrapper | tinyoslib.c:94-112 | recovers the pointer and all strings of any such buffer |
| ArgPack.ExecBufferRoundTrip | tinyoslib.c:94-167 | program and strings are found again in the buffer |
| ArgPack.ExecuteThenWrapper | tinyoslib.c:94-167 | exec_wrapper calls exactly the program and arguments given to Execute |
| ArgPack.ParseProcInfo | tinyoslib.c:115-143 | returns -1 iff the process was not run by Execute or its arguments do not fit, and then writes nothing; else their number, and in argv pointers to all of them if argc is negative or larger, to the first argc otherwise; the caller's program variable is not written |
| ArgPack.ParseKeepsItsPromiseIff | tinyoslib.c:128-129 | it does what its documentation says iff no program is asked for, or the caller's variable holds it already |
| ArgPack.ParseDoesNotSetProg | tinyoslib.c:128-129 | an input on which it does not |
| ArgPack.ParseRecoversArguments | tinyoslib.c:131-142 | the number of arguments given to Execute, and the arguments, are recovered if they fit in a procinfo: all of them if argc is negative or larger, else the first argc |

## Left out

- Scheduler.SleepKeeps: clock plus timeout is assumed to stay below NO_TIMEOUT; wrap-around of wakeup_time and of `timeout*1000` in Cond_TimedWait is not modelled.
- SchedulerKernel.Kernel.SpawnThread: between the new TCB and the increment of active_threads the core does not yield, although spawn_thread runs with preemption on.
- CondVarKernel.Monitors.CheckKernelSem: one test of the loop in kernel_lock; the loop is a sequence of steps of `KernelSem`, and need not end when others barge in.
- CondVarRings.CondVar.CvSignal: other threads may wake waiters during the loop, but cannot touch the ring, whose lock it has.
- Rings.RlistSelect: the predicate sees a node's key, not its pointers.
- Streams.RefcountsAreConserved: counts are unbounded integers, so wrap-around of the 32-bit refcount is not modelled.
- Symposium.RunsAreBounded: a spurious wakeup is one that finds nothing changed; how many there are is not bounded.
- ArgPack.Argvpack: lengths are unbounded, so the int that counts bytes does not overflow.
- Signals, signalfd, pthreads, ucontext and FIFOs of `bios.c`: they appear as a clock that is read, a context saved and loaded in one step each, and a yield that may come at any time.
- Prompt wake-up of halted cores: cpu_core_restart_one only bounds a delay, and nothing is claimed about time.
- Deadlock freedom and fairness of spinlocks and of Mutex_Lock's spinning: a lock is taken in one step when it is free.
- Memory orderings: steps are sequentially consistent.
- Preemption on and off: a core may yield at any point outside a critical section and outside spawn_thread, which covers both.
- `kernel_pipe.c`, `kernel_socket.c`, `kernel_threads.c` and sys_OpenInfo: stubs that return errors. A process has one thread because sys_CreateThread fails.
- `kernel_dev.c`, `console.c`, `terminal.c`, stdio: a device is an answer to device_open, a return value of Close, and a Read or Write during which the kernel lock may be free.
- The stack, arguments and main function of a process, malloc failure, Valgrind hooks.
- `Rings`: rlist_len, rlist_equal and rlist_find, plain walks that change nothing, and rlist_select and the like on lists that share a ring, which the source forbids.
- `SchedulerKernel`, `CondVarKernel`, `ProcessesKernel`, `StreamsKernel`: their lists are sequences, for which `Rings` and, for waiters, `CondVarRings` prove the pointer operations; the links inside TCBs, PCBs and FCBs do not appear there.
- A process's `child_exit` ring and the steps inside kernel_wait: in `Processes` a sleeping process is a flag, and it may look again at any time; `CondVars.AsleepUntilSignalled` and `CondVars.BroadcastReachesEveryone` say what the flag stands for.
- What happens inside a handler, nested TRY blocks included, beyond whether it raises; the values of local variables after a longjmp.
- The shell, the examples, mtask, fibo, adjust_symposium, print_state, and the test programs.
