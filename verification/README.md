# Verified models of the kernel and its file system utility

This project models six stateful cores of a small x86-64 kernel and its companion programs, and proves what
their runs keep. `dafny verify dfyconfig.toml` checks the whole project.

- **Scheduler, semaphores, sleep and pipes.** `KernelState` gives every kernel operation as a function on one
  state: process table, ready queues, terminated queue, semaphores with their waiter rings, sleep table and
  ticks. `KernelRuns` makes whole kernel entries into atomic steps. Every gate is an interrupt gate, so the
  kernel is switched out only where it asks for it; inside `sem_wait` that is its one yield, and a process
  switched out there resumes there (`Cont`). `SchedulerProofs`, `WorkConserving`, `SemaphoreRings` to
  `SemaphoreLedger`, `AccountingProofs`, `SleepProofs`, `SleepPunctuality`, `Pipes` and `PipeRuns` prove the invariants
  over all runs. `KernelCalls` says what single calls promise; `PipeTurns` ties the blocking pipe calls to the steps of
  `PipeRuns`; `Households` says who leaves kinship alone, `Foreground` that one live process has the foreground, and
  `JoinState`, `JoinRuns` and `ExitStatus` that whoever waits for a process is woken by its end and gets its exit status.
  `KernelStart`, `KernelWitnesses`, `ForegroundWitnesses` and `FamilyWitnesses` give concrete runs from the first state of
  the kernel that break the invariants where an assumption fails. `Loops` is the induction over the turns of a loop that
  several of them use.
  `PcbQueue`, `KernelMachine` and `PipeManager` are the same operations as they are written, over arrays and rings
  updated in place, each method proved to do what its function says.
- **Buddy allocator.** `BuddyTiling` is the geometry of blocks and buddies, `BuddyHeap` the allocator on
  lists, `BuddyProofs`, `BuddyTheorems`, `BuddyAccounting` and `BuddyExample` its properties, and `BuddyManager` the
  allocator over linked headers in memory.
- **Dining philosophers** on a ring that grows and shrinks: `Philosophers`, `PhilosopherProofs`, `PhilosopherExamples`,
  `PhilosopherTable`.
- **Mutual exclusion client of the semaphores**: `TestSync` over a counter, `TestSyncRuns` over the kernel.
- **First-fit allocator**: `FirstFit`. **Random numbers**, 64-bit configuration: `MersenneTwister`, and
  `MersenneVector` against the published generator.
- **BMFS**, the disk utility: `Bmfs`, `BmfsProofs`, `BmfsExample`, `BmfsUtility`.

Where the code departs from its apparent intent the model follows the code. A lemma gives the exact condition under
which the intended property holds (the names end in `ExactlyWhen`), and mostly another gives a concrete run from the
start that breaks it (named last):

- Removing a block that is not the head of its free list marks its predecessor instead
  (`FreeKeepsMarksExactlyWhen`, `CoalescedExactlyWhen`; `FreedButNotCoalesced`).
- The size of a process queue has eight bits (`PcbQueue.Queue.Enqueue`). The methods of `KernelMachine` and
  `PipeManager` promise the new state as long as no queue has wrapped around; the ghost flag `lost` says so.
- A creation that fails after claiming its slot loses a ready process (`CreateLosesExactlyWhen`,
  `CreateBalancesExactlyWhen`; `CreationLosesAProcess`).
- Killing a dead process unbalances the count (`KillBalancesExactlyWhen`); twice is enough to stop the system with the
  shell alive (`KillingTwiceStopsTheSystem`).
- A killed waiter swallows a wake-up (`PostWakesExactlyWhen`; `KilledWaiterSwallowsWakeUp`).
- Idle can be put on a ready queue and is then preferred to ready processes (`WorkConservingExactlyWhen`,
  `CallQueuesIdleExactlyWhen`; `IdleOvertakesTheReady`).
- A sleeper that is blocked and unblocked early forgets that it came from ready and sleeps on
  (`WakePunctualExactlyWhen`, `PostPunctualExactlyWhen`, `ClosePunctualExactlyWhen`, `TickReadiesExactlyWhen`;
  `UnblockedEarlyOversleeps`).
- The foreground can end up with nobody or with two: it goes to a father who is dead, is handed on by a process that was
  killed and goes on, or is taken by the cleanup of a slot that was claimed again
  (`KillKeepsForegroundExactlyWhen`, `CreateKeepsForegroundExactlyWhen`; `DeadFatherGetsForeground`,
  `DeadCreatorHandsOver`, `CleanupTakesForeground`).
- Whoever comes back from `wait_process` closes the semaphore that is then recorded in the slot, which is not its own when
  the slot was claimed again meanwhile (`ReturnFreesExactlyWhen`; `EarlyClaimLeaksSemaphore`).
- Adding or removing a philosopher can leave a neighbour hungry next to nobody who eats
  (`AddingKeepsHungryBlockedExactlyWhen`, `RemovingKeepsHungryBlockedExactlyWhen`; `AddedPlaceStarves`,
  `RemovedEaterStarves`).
- A semaphore identifier passed as a string is read into eight bits (`GuardedExactlyWhen`; `UnguardedLosesAnUpdate`).
- Only the start of a first-fit block is checked against the end of memory (`LastBlockOverrunsExactlyWhen`).
- BMFS trusts the ends of deleted records, takes a disk of fewer than two blocks for a huge one, and forgets all files
  when its directory has no end mark (`CreateKeepsFilesExactlyWhen`, `CreateRefusesExactlyWhen`, `TinyDiskOverruns`,
  `FullDirectoryForgetsFiles`; `StaleEndOverwrites`).

`KernelRuns.Possible` is what the machine allows. What a theorem over runs assumes besides is a predicate that a caller
could check before each step:

- `SchedulerProofs.Careful`: fewer than 65535 creations, none that fails after its claim of a slot without a stale entry.
- `AccountingProofs.Balances`: besides, no creation that fails after its claim or claims a slot still awaiting cleanup,
  and no kill of what is dead.
- `SemaphoreRuns.Respects`: nobody inside `sem_wait` is killed, blocked or unblocked from outside, no process gets pid
  1025, and one that was killed does not wait any more.
- `SleepPunctuality.NotEarly`: no call, post, close or kill unblocks a process that was blocked in its sleep before its
  tick.
- `not WorkConserving.QueuesIdle`: no call puts idle on a queue.
- `Foreground.Minds`: no kill whose foreground cannot go back to a live father, no creation by a process that was killed
  and still has the foreground to hand on, and none that claims a slot still awaiting cleanup.
- `JoinRuns.Discreet`: nobody else uses a semaphore on which somebody waits for a process, and nobody claims the slot of
  a process before whoever waited for it has come back, or while it awaits cleanup.
- `PipeRuns.Allowed` and `TestSyncRuns.Allowed`: the pipe, or the semaphore, stays open and is used only through it.
- `PhilosopherProofs.Spares`, `FirstFit.Legal`, `BmfsProofs.Safe`.

## Model

| member | source | states |
|---|---|---|
| PcbQueue.Queue.Enqueue | Kernel/scheduler/pcb-queueADT.c:28-37 | An entry is appended, and the call always reports success: the queue keeps its contents exactly when it held fewer than 255 entries, since the size is kept in eight bits; with 255 it then looks empty and is out of step for good |
| PcbQueue.Queue.Dequeue | Kernel/scheduler/pcb-queueADT.c:39-48 | The oldest entry is taken off, or nothing is reported for an empty queue |
| KernelMachine.Machine.constructor | Kernel/scheduler/processes.c:101-143 | The state at start: idle alone, empty queues, every semaphore free |
| KernelMachine.Machine.SetNextProcess | Kernel/scheduler/processes.c:145-169 | A running process becomes ready and joins the queue of its priority, idle does not queue, and the first switch changes nothing; the new state is that of KernelState.SetNext |
| KernelMachine.Machine.GetNextProcess | Kernel/scheduler/processes.c:200-239 | Stale entries are dropped from up to three queues in turn until a runnable one is found, else idle runs; the new state is that of KernelState.GetNext |
| KernelMachine.Machine.CreateProcess | Kernel/scheduler/processes.c:241-310 | Hands the foreground over if asked to and in the foreground, claims the first terminated slot, makes the new process a child of the current one and queues it, with each way of failing before and after the claim, as KernelState.Create |
| KernelMachine.Machine.FreeTerminatedProcesses | Kernel/scheduler/processes.c:312-327 | Drains the terminated processes, freeing a stack and lowering the count for each, as KernelState.FreeTerminated |
| KernelMachine.Machine.KillProcess | Kernel/scheduler/processes.c:329-371 | Terminates the process, gives the foreground to its father and its children to idle as far as they fit, wakes whoever waits for it and queues it for cleanup, as KernelState.Kill |
| KernelMachine.Machine.WaitBegin | Kernel/scheduler/processes.c:396-425 | wait_process up to its sem_wait, with each early return and the exit status it has stored by then, as KernelState.JoinBegin and StatusAtCall |
| KernelMachine.Machine.WaitEnd | Kernel/scheduler/processes.c:425-434 | wait_process after its sem_wait, which destroys the semaphore then in the slot and stores the exit status, as KernelState.JoinEnd |
| KernelMachine.Machine.SetExitStatus | Kernel/scheduler/processes.c:491-499 | Only the exit status of the current process changes, and not that of idle, as KernelState.SetExit |
| KernelMachine.Machine.ChangePriority | Kernel/scheduler/processes.c:461-489 | A ready process whose priority changes gets an entry in its new queue and keeps the stale one, as KernelState.ChangePriority |
| KernelMachine.Machine.BlockProcess | Kernel/scheduler/processes.c:501-519 | A process that is neither terminated nor blocked is blocked and remembers its state, running counting as ready |
| KernelMachine.Machine.WakeUpProcess | Kernel/scheduler/processes.c:521-557 | Only a blocked process is woken: to ready with a new entry, or back to sleep when it was blocked asleep and its tick has not come, as KernelState.Wake |
| KernelMachine.Machine.ToggleBlockProcess | Kernel/scheduler/processes.c:559-578 | Wakes a blocked process and blocks any other that is not terminated |
| KernelMachine.Machine.UnsleepProcess | Kernel/scheduler/processes.c:611-633 | A sleeping process goes back to the state it remembers, with a new entry if that is ready |
| KernelMachine.Machine.Sleep | Kernel/scheduler/sleep-manager.c:13-53 | Records the tick to wake at in 64 bits in the first free entry, and puts the current process to sleep, as KernelState.Sleep |
| KernelMachine.Machine.IsSleepingTimeExpired | Kernel/scheduler/sleep-manager.c:72-90 | Clears a due entry; a process without an entry counts as due |
| KernelMachine.Machine.WakeUpSleepingProcesses | Kernel/scheduler/sleep-manager.c:55-70 | Every due entry of a sleeping process is cleared and its process unslept, entry by entry |
| KernelMachine.Machine.TimerHandler | Kernel/interrupts/time.c:27-31 | One tick and the sleepers it wakes, as KernelState.TimerTick |
| KernelMachine.Machine.Scheduler | Kernel/scheduler/scheduler.c:6-28 | Drains, stops the system when nothing is left to run, else demotes and selects, as KernelState.Scheduler |
| KernelMachine.Machine.CreateSem | Kernel/semaphores/semaphores.c:74-86 | The first free semaphore is taken with its initial value, or -1 for none |
| KernelMachine.Machine.SemWait | Kernel/semaphores/semaphores.c:88-123 | One stretch of sem_wait: takes a unit, returns on a semaphore that is gone, or queues the process and blocks it, as KernelState.SemWait |
| KernelMachine.Machine.SemPost | Kernel/semaphores/semaphores.c:125-143 | Adds a unit and wakes the head of the ring, if any, as KernelState.SemPost |
| KernelMachine.Machine.DestroySem | Kernel/semaphores/semaphores.c:145-173 | Wakes everyone on the ring and frees the semaphore, as KernelState.DestroySem |
| KernelMachine.Machine.GetSemValue | Kernel/semaphores/semaphores.c:175-184 | The value of a semaphore in use, 0 otherwise |
| SchedulerProofs.StepKeeps | Kernel/scheduler/processes.c:145-239 | Every kernel entry keeps: each ready process but idle has an entry in the queue of its present priority, at most one process is running and it is the current one, pids stay distinct |
| SchedulerProofs.RunKeeps | Kernel/scheduler/processes.c:145-239 | The same in every state of every run with fewer than 65535 creations and none that loses its slot |
| SchedulerProofs.PickFinds | Kernel/scheduler/processes.c:200-233 | get_next_process finds a ready process whenever one other than idle exists, despite stale and duplicate entries, and drops no entry that a ready process needs |
| SchedulerProofs.CreateLosesExactlyWhen | Kernel/scheduler/processes.c:286-305 | A creation loses a ready process exactly when it gets as far as claiming a slot, then lacks memory for the stack or room for another child, and the first queue has no stale entry of that slot |
| WorkConserving.WorkConservingExactlyWhen | Kernel/scheduler/scheduler.c:18-27 | A switch gives the processor to idle exactly when nobody else is ready once the queues are as it finds them, or when their first runnable entry, in the order in which they are tried, is one of idle |
| WorkConserving.CallQueuesIdleExactlyWhen | Kernel/scheduler/processes.c:479-482 | A change of priority, an unblocking or a toggle puts idle on a queue exactly when it gives a ready idle a new priority or unblocks a blocked one that came from ready or whose sleep is over |
| WorkConserving.StepLeavesIdleOff | Kernel/scheduler/processes.c:145-169 | Every other kernel entry leaves idle without an entry, off every ring and out of sem_wait |
| WorkConserving.KernelConservesWork | Kernel/scheduler/scheduler.c:6-28 | In every run of the kernel from its start in which no call puts idle on a queue, idle gets the processor, and keeps it at a tick, only while nobody else is ready |
| WorkConserving.KernelTicksOn | Kernel/scheduler/scheduler.c:18-27 | If the run balances too, a tick neither stops the system while any process lives nor idles while one is ready |
| KernelWitnesses.IdleOvertakesTheReady | Kernel/syscalls/syscalls.c:179-182 | A run from the start in which a change of the priority of idle makes the next switch prefer it to three ready processes |
| KernelWitnesses.CreationLosesAProcess | Kernel/scheduler/processes.c:286-300 | A run from the start after which a creation without memory leaves a process ready that no queue knows of |
| SchedulerProofs.CreateIs | Kernel/scheduler/processes.c:252-309 | A creation takes the first terminated slot and the next pid, in sixteen bits, for a ready process of the first priority at the end of the first queue; when it fails after its claim it returns -1 and queues nobody; it changes nobody else but for kinship |
| KernelCalls.PriorityIsAsAsked | Kernel/scheduler/processes.c:461-489 | The priority of a known process becomes the one asked for, and a ready one whose priority changes joins the end of that queue and is no longer picked from another; an unknown pid or priority gives -1; nothing else changes |
| KernelCalls.BlockStops | Kernel/scheduler/processes.c:501-519 | Blocking stops exactly the live processes that are not blocked yet, so that no queue entry runs them, and remembers whether they slept; nobody else changes |
| KernelCalls.UnblockResumes | Kernel/scheduler/processes.c:521-557 | Unblocking a blocked process puts it at the end of its queue, or lets it sleep on when it was blocked in its sleep and its tick is still to come; others are refused; nobody else changes |
| KernelCalls.ToggleTogglesExactlyWhen | Kernel/scheduler/processes.c:559-578 | Toggling succeeds exactly for live processes, blocks those that are not blocked and unblocks those that are |
| KernelCalls.ToggledTwice | Kernel/scheduler/processes.c:559-578 | Toggling twice gives a ready process back its state with one more entry in its queue, makes a running one ready and lets a sleeper sleep on |
| KernelCalls.SleepRecords | Kernel/scheduler/sleep-manager.c:13-53 | A sleep call is refused exactly for no seconds, for idle and when every entry is taken; otherwise the caller sleeps, with one new entry for the tick so many seconds of eighteen ticks from now, and nobody else changes |
| KernelCalls.SwitchedOutIsLast | Kernel/scheduler/processes.c:145-169 | A process that is switched out while it runs waits at the end of the queue of its priority |
| KernelCalls.SwitchServesFirst | Kernel/scheduler/processes.c:200-239 | A switch gives the processor to the process of the first runnable entry, in the order in which the queues are tried, and to idle when there is none |
| Foreground.KillGivesBack | Kernel/scheduler/processes.c:340-358 | The end of a process that had the foreground gives it to its father; its children, as far as idle has room for them, become idle's with idle for their father; nobody else's kin changes |
| Foreground.CreateHandsOver | Kernel/scheduler/processes.c:273-303 | The foreground passes to the new process exactly when that was asked for and the creator had it; the new process has the creator for its father and no children; nobody else's kin changes |
| Foreground.KillKeepsForegroundExactlyWhen | Kernel/scheduler/processes.c:342-346 | With one live process in the foreground, a kill leaves one exactly when its victim did not have it, or the father of a live victim is another live process, or the father of a dead victim has it |
| Foreground.CreateKeepsForegroundExactlyWhen | Kernel/scheduler/processes.c:273-284 | A creation does exactly when the foreground is not handed on by a process that was killed and goes on |
| Foreground.StepKeepsForeground | Kernel/scheduler/processes.c:273-346 | Every kernel entry, other than such a kill or creation or the claim of a slot that still awaits cleanup, keeps one live process marked as in the foreground, with its pid as that of the foreground |
| Foreground.KernelHasForeground | Kernel/scheduler/processes.c:101-346 | So in every state of every such run of the kernel from its start |
| ForegroundWitnesses.DeadFatherGetsForeground | Kernel/scheduler/processes.c:342-346 | A run from the start after which a dead process has the foreground while the shell runs: a creation without memory leaves a process in the foreground that is not on the list of its father, who then exits |
| ForegroundWitnesses.DeadCreatorHandsOver | Kernel/scheduler/processes.c:273-284 | A run from the start after which a process that the keyboard has killed hands on the foreground that the shell already has back |
| ForegroundWitnesses.CleanupTakesForeground | Kernel/scheduler/processes.c:312-327 | A run from the start in which a new process in the foreground gets a slot that still awaits cleanup, and the next switch ends it with the foreground in its hands |
| SemaphoreRings.PostTakesHead | Kernel/semaphores/semaphores.c:134-141 | The ring of a semaphore is a queue: a post removes its head, and finds the current cell empty exactly when nobody waits |
| SemaphoreRings.WaitAppends | Kernel/semaphores/semaphores.c:104-107 | A process that has to wait joins the end of that queue |
| SemaphoreProofs.RingHasRoom | Kernel/semaphores/semaphores.c:104-107 | The ring of 1024 cells never fills up |
| SemaphoreProofs.SemPostKeepsSems | Kernel/semaphores/semaphores.c:125-143 | A post keeps the value of a semaphore with a queue within the number of processes already woken for it |
| SemaphoreProofs.SemWaitFromKeepsSems | Kernel/semaphores/semaphores.c:88-123 | So does every stretch of sem_wait, whether the process takes a unit, retries in vain or finds the semaphore gone, and however newcomers barge in |
| SemaphoreProofs.DestroySemKeepsSems | Kernel/semaphores/semaphores.c:145-173 | So does destroying a semaphore, with waiters that still have to notice |
| SemaphoreProgress.WakeAllReadies | Kernel/semaphores/semaphores.c:156-165 | Destroying a semaphore makes every process on its ring ready |
| SemaphoreRuns.StepKeepsWaits | Kernel/semaphores/semaphores.c:88-173 | Every kernel entry keeps the invariant of the semaphores: rings hold exactly the processes blocked in sem_wait on them, without repetition, and the value bound |
| SemaphoreRuns.NoLostWakeUp | Kernel/semaphores/semaphores.c:88-143 | In every state of a run: while anyone is queued on a semaphore its value is at most the number of processes woken and not yet back, and each of these is running or in a ready queue |
| SemaphoreRuns.BootKeepsWaits | Kernel/semaphores/semaphores.c:58-72 | The state at start meets the invariant of scheduler and semaphores |
| SemaphoreRuns.KernelLosesNoWakeUp | Kernel/semaphores/semaphores.c:58-143 | So no wake-up is lost in any such run of the kernel from its start |
| SemaphoreLedger.RunConserves | Kernel/semaphores/semaphores.c:88-143 | Along a run that keeps a semaphore open its value is the initial value plus posts minus completed waits, and processes are woken in the order in which they queued |
| SemaphoreLedger.PostWakesExactlyWhen | Kernel/semaphores/semaphores.c:134-141 | A post leaves the head of the ring ready exactly when it was ready or blocked with nothing else to wait for; for a waiter killed meanwhile the wake-up is lost |
| JoinRuns.StepKeepsTies | Kernel/scheduler/processes.c:360-434 | Every kernel entry keeps the tie between whoever is inside wait_process and the process waited for: the semaphore is recorded in that slot, its only waiter is queued without a unit exactly while the other lives, and afterwards there is a unit |
| JoinRuns.KernelWaitsForTheLiving | Kernel/scheduler/processes.c:396-434 | In every state of every such run of the kernel from its start, whoever waits for a process is blocked and alone on the recorded semaphore while the other lives, and is running or in a ready queue once it has ended |
| JoinRuns.EndWakesWaiter | Kernel/scheduler/processes.c:360-363 | The end of a process leaves whoever waits for it running, or ready with an entry in its queue |
| JoinRuns.WaitReturns | Kernel/scheduler/processes.c:425-434 | wait_process returns only after the end of the other; the semaphore is then free again, the slot records none and the exit status is as the other left it |
| JoinRuns.ReturnFreesExactlyWhen | Kernel/scheduler/processes.c:426-427 | Coming back from wait_process frees the semaphore waited on exactly when that is still the one recorded in the slot |
| ExitStatus.ExitStatusStays | Kernel/syscalls/syscalls.c:140-146 | What a process passes to exit is its exit status in every later state until its slot is claimed again, and wait_process called then gives it at once |
| ExitStatus.WaiterGetsStatus | Kernel/scheduler/processes.c:396-434 | Whoever already waits gets it too: whatever happens between that exit and its return, it is on its way, and it reads the status that the other passed to exit |
| FamilyWitnesses.EarlyClaimLeaksSemaphore | Kernel/scheduler/processes.c:425-427 | A run from the start in which the slot of a process is claimed again before whoever waited for it has come back, and its semaphore stays in use for good |
| KernelWitnesses.KilledWaiterSwallowsWakeUp | Kernel/semaphores/semaphores.c:134-141 | A run from the start in which two processes wait, the first is killed, and a post raises the value while the second stays blocked and nobody is on the way |
| AccountingProofs.RunBalances | Kernel/scheduler/processes.c:241-371 | In every state of a run the process count is idle, the live processes and those awaiting cleanup, the latter distinct, and exactly these own a stack |
| AccountingProofs.KernelBalances | Kernel/scheduler/processes.c:101-143 | So in every state of every such run of the kernel from its start |
| AccountingProofs.DrainBalances | Kernel/scheduler/processes.c:316-326 | Each turn of the cleanup frees a stack that is still there, so each stack is freed once |
| AccountingProofs.SchedulerBalances | Kernel/scheduler/scheduler.c:18-27 | A switch leaves stacks to live processes only, and stops the system exactly when only idle is left |
| AccountingProofs.CreateBalancesExactlyWhen | Kernel/scheduler/processes.c:257-309 | A creation keeps the balance exactly when it claims no slot, or does not fail after its claim and the slot did not still await cleanup, each checked before the call |
| AccountingProofs.KillBalancesExactlyWhen | Kernel/scheduler/processes.c:336-368 | A kill keeps the balance exactly when its victim was alive |
| KernelWitnesses.KillingTwiceStopsTheSystem | Kernel/scheduler/processes.c:336-368 | A run from the start that kills one process twice and so stops the system while the shell is running |
| SleepProofs.NeverWokenEarly | Kernel/scheduler/sleep-manager.c:13-90 | From a sleep call on, in every state of every run before the recorded tick, the process is asleep or dead, even if blocked and unblocked meanwhile |
| SleepProofs.StepRests | Kernel/scheduler/sleep-manager.c:55-90 | Every kernel entry keeps one sleep entry per process, removes it only when due, and leaves its process asleep or dead until then |
| SleepProofs.KernelRests | Kernel/scheduler/sleep-manager.c:13-90 | So in every state of every careful run of the kernel from its start, and whoever has the processor has no sleep entry |
| SleepPunctuality.NobodyOversleeps | Kernel/scheduler/sleep-manager.c:55-70 | Right after each tick of a run that unblocks nobody early every process that sleeps has an entry whose tick is still to come, and came from ready, so that the timer will make it ready |
| SleepPunctuality.KernelIsPunctual | Kernel/scheduler/sleep-manager.c:55-70 | So in every such run of the kernel from its start |
| KernelWitnesses.UnblockedEarlyOversleeps | Kernel/scheduler/processes.c:532-543 | A run from the start in which a process sleeps for a second and is blocked and unblocked meanwhile: after any number of ticks it is still asleep, from its deadline on without an entry |
| SleepPunctuality.WakePunctualExactlyWhen | Kernel/scheduler/processes.c:532-543 | Unblocking keeps the timer able to wake every sleeper exactly when it does not unblock a process that was blocked in its sleep before its tick |
| SleepPunctuality.PostPunctualExactlyWhen | Kernel/semaphores/semaphores.c:134-141 | The same for the process that a post unblocks |
| SleepPunctuality.ClosePunctualExactlyWhen | Kernel/semaphores/semaphores.c:156-165 | The same for all processes that closing a semaphore unblocks |
| SleepPunctuality.TickReadiesExactlyWhen | Kernel/scheduler/processes.c:611-629 | A due sleeper is made ready exactly when it remembers having come from ready; otherwise it sleeps on without an entry |
| Pipes.PushAppendsExactlyWhen | Kernel/pipes/pipes.c:192-193 | A byte written is appended and overwrites nothing unread exactly when the ring holds fewer than 511 bytes |
| Pipes.PopTakesHead | Kernel/pipes/pipes.c:163-164 | A byte read is the oldest, and the rest stay in order |
| PipeRuns.StepKeepsPipe | Kernel/pipes/pipes.c:159-167 | Every step of any reader, writer, keyboard interrupt or other kernel entry keeps a pipe in order, in a kernel whose semaphores are |
| PipeRuns.BoundedFifo | Kernel/pipes/pipes.c:143-265 | In every state of every interleaving the bytes written are the bytes read followed by the ring, the read semaphore is the length of the ring and the write semaphore 511 less that |
| PipeRuns.UnitNow | Kernel/pipes/pipes.c:220-224 | The non-blocking forms take their unit at once and never reach the branch that blocks |
| PipeRuns.ReadersAreComing | Kernel/pipes/pipes.c:160-167 | While readers are queued there are at least as many woken readers on their way as bytes in the ring, each running or in a ready queue |
| PipeRuns.WritersAreComing | Kernel/pipes/pipes.c:189-196 | The same for queued writers and free cells: as many woken writers, each running or in a ready queue |
| PipeTurns.WriteIsStep | Kernel/pipes/pipes.c:191-195 | A turn of write_pipe, called or gone on with, is the step Write of the running pipe, up to the switch when the caller has to wait |
| PipeTurns.ReadIsStep | Kernel/pipes/pipes.c:162-166 | A turn of read_pipe is the step Read likewise |
| PipeTurns.WritesOn | Kernel/pipes/pipes.c:191-195 | A turn of write_pipe stores its byte behind the others exactly when the pipe holds fewer than 511; otherwise the bytes stay and the caller is blocked, last in the ring of the write semaphore |
| PipeTurns.ReadsOn | Kernel/pipes/pipes.c:162-166 | A turn of read_pipe takes the oldest byte exactly when there is one; otherwise the caller is blocked, last in the ring of the read semaphore |
| PipeTurns.BlockingWritesInOrder | Kernel/pipes/pipes.c:188-198 | write_pipe appends its bytes in order: all of them if they fit in 511, otherwise as many as fit, and then its caller waits; a caller that goes on does the same with the rest |
| PipeTurns.BlockingReadsOldest | Kernel/pipes/pipes.c:159-169 | read_pipe takes the oldest bytes in order: as many as asked for if they are there, otherwise all there are, and then its caller waits |
| PipeManager.ReadsOldest | Kernel/pipes/pipes.c:217-231 | read_pipe_nonblocking returns the oldest bytes, as many as asked for or as there are |
| PipeManager.WritesInOrder | Kernel/pipes/pipes.c:250-264 | write_pipe_nonblocking appends its bytes in order, as many as fit in 511 |
| PipeManager.WriteThenRead | Kernel/pipes/pipes.c:201-265 | What is written to an empty pipe with room is what is read back |
| PipeManager.CreatedIsInOrder | Kernel/pipes/pipes.c:100-106 | A pipe just created is empty and in order |
| PipeManager.Manager.constructor | Kernel/pipes/pipes.c:43-63 | Only the pipe of STDIN is open, with semaphores 0 and 511 |
| PipeManager.Manager.CreatePipe | Kernel/pipes/pipes.c:85-119 | Opens the first free pipe past the standard ones; gives both semaphores back when either is missing |
| PipeManager.Manager.ClosePipe | Kernel/pipes/pipes.c:121-141 | Frees the pipe, forgets its bytes and wakes whoever waits on it; refuses STDIN and pipes not open |
| PipeManager.Manager.ReadPipe | Kernel/pipes/pipes.c:143-170 | Refuses STDOUT, STDERR, pipes not open, a missing buffer and empty requests; else does what the loop of turns does, up to its end or, when blocking, its next yield; the non-blocking form likewise |
| PipeManager.Manager.WritePipe | Kernel/pipes/pipes.c:172-199 | The same for writing |
| BuddyTiling.BuddyIsXor | Kernel/memory-manager/buddymm.c:157-158 | The buddy of a block is its offset with the bit of its size flipped |
| BuddyTiling.SplitKeepsTiling | Kernel/memory-manager/buddymm.c:64-72 | Splitting a block keeps the region tiled by aligned blocks |
| BuddyTiling.MergeKeepsTiling | Kernel/memory-manager/buddymm.c:74-84 | So does merging two equal buddies |
| BuddyTiling.BuddyIsLive | Kernel/memory-manager/buddymm.c:158-162 | In a tiling the address where memory_free looks for a buddy always holds a live header, of at most the same order |
| BuddyProofs.AllocCorrect | Kernel/memory-manager/buddymm.c:106-144 | An allocation keeps the heap in order, returns an unallocated block of the least order from 5 on that holds size and header, and fails exactly for a size out of range or when no list from that order on has a block |
| BuddyProofs.FreeCorrect | Kernel/memory-manager/buddymm.c:146-178 | Freeing an allocated block keeps the heap in order and takes exactly that block out of the allocated ones |
| BuddyProofs.RunKeepsInvariant | Kernel/memory-manager/buddymm.c:25-178 | After any run of requests and frees of held blocks, listed and held blocks tile the region, lists are acyclic with matching orders, every FREE header is listed, and no two equal buddies are both FREE |
| BuddyProofs.HeldBlocksDisjoint | Kernel/memory-manager/buddymm.c:106-178 | Two live allocations never overlap, and each lies at a multiple of its size |
| BuddyTheorems.FreeUndoesAlloc | Kernel/memory-manager/buddymm.c:106-178 | Freeing what was just allocated restores every free list as a sequence exactly when the block carved from had no FREE buddy, and the whole state when it was marked FREE |
| BuddyTheorems.AllFreeIsWhole | Kernel/memory-manager/buddymm.c:162-175 | When every block is marked FREE the heap is one block of the maximum order |
| BuddyTheorems.CoalescedExactlyWhen | Kernel/memory-manager/buddymm.c:146-178 | After any run that has given everything back the heap is one maximal block exactly when every listed block is marked FREE |
| BuddyTheorems.AllocKeepsMarks | Kernel/memory-manager/buddymm.c:139-141 | Allocation never loses the FREE mark of a listed block |
| BuddyTheorems.FreeKeepsMarksExactlyWhen | Kernel/memory-manager/buddymm.c:50-59 | Freeing keeps every listed block marked FREE exactly when each buddy it merges is the head of its list, since otherwise the predecessor is marked instead |
| BuddyExample.FreedButNotCoalesced | Kernel/memory-manager/buddymm.c:50-59 | A run that gives everything back and leaves the heap in pieces, because of a lost mark |
| BuddyAccounting.ReportedFree | Kernel/memory-manager/buddymm.c:180-193 | The reported free memory is the total less the allocated blocks, except 0 when the heap is one free maximal block |
| BuddyManager.PayloadUnconstrained | Kernel/memory-manager/buddymm.c:143 | Clients may write anything over an allocated block past its header without touching what the headers represent |
| BuddyManager.Manager.constructor | Kernel/memory-manager/buddymm.c:86-104 | The heap starts as one FREE block of order 21 |
| BuddyManager.Manager.CreateBlock | Kernel/memory-manager/buddymm.c:25-32 | The linked headers get a FREE block at the front of its list |
| BuddyManager.Manager.RemoveBlock | Kernel/memory-manager/buddymm.c:34-62 | The linked list loses the block; its head is marked OCCUPIED, but for another block its predecessor is |
| BuddyManager.Manager.SplitBlock | Kernel/memory-manager/buddymm.c:64-72 | The head of a list is replaced by its two halves on the list below |
| BuddyManager.Manager.MemoryAlloc | Kernel/memory-manager/buddymm.c:106-144 | The linked headers represent the heap that BuddyHeap.Alloc gives, and the pointer follows the header of its block |
| BuddyManager.Manager.MemoryFree | Kernel/memory-manager/buddymm.c:146-178 | They represent the heap that BuddyHeap.Free gives; NULL and a block marked FREE are refused |
| BuddyManager.Manager.MemoryStateGet | Kernel/memory-manager/buddymm.c:180-193 | The loop over the lists adds up the blocks of all lists but the last |
| PhilosopherProofs.StepKeeps | Userland/UserCodeModule/programs/phylo.c:56-171 | Every step of every philosopher and of the process that adds and removes them keeps the invariant |
| PhilosopherProofs.EnabledIsPossible | Userland/UserCodeModule/programs/phylo.c:56-171 | Nobody ever looks for neighbours from outside the ring, so every step that is enabled can be carried out |
| PhilosopherProofs.NeighboursNeverEatTogether | Userland/UserCodeModule/programs/phylo.c:56-171 | In every reachable state no two distinct neighbours modulo the present count eat, and whoever is between pick_up_forks and put_down_forks eats |
| PhilosopherProofs.ShrinkingIsSafeExactlyWhen | Userland/UserCodeModule/programs/phylo.c:152-168 | Taking the last place away keeps neighbours apart exactly when its two neighbours are not both eating, which is what the loop waits for |
| PhilosopherProofs.OneTokenPerGrant | Userland/UserCodeModule/programs/phylo.c:63-74 | A philosopher starts to eat exactly when its semaphore gets one token, and had none before |
| PhilosopherProofs.HungryMeansBlocked | Userland/UserCodeModule/programs/phylo.c:56-91 | From the empty table on, while philosophers come and go and each change of the table spares those it concerns, whenever the global semaphore is free everyone hungry is next to an eater |
| PhilosopherProofs.AddingKeepsHungryBlockedExactlyWhen | Userland/UserCodeModule/programs/phylo.c:127-132 | On a table of any size, adding a place leaves somebody hungry for no reason exactly when it comes between somebody hungry and the only neighbour who ate |
| PhilosopherProofs.RemovingKeepsHungryBlockedExactlyWhen | Userland/UserCodeModule/programs/phylo.c:160-168 | On a table of any size, removing the last place does so exactly when one of the two who become neighbours is hungry and next to nobody else who eats, or one left alone is hungry |
| PhilosopherExamples.AddedPlaceStarves | Userland/UserCodeModule/programs/phylo.c:127-132 | A run from the empty table after which an added place has left somebody waiting hungry with no neighbour who eats |
| PhilosopherExamples.RemovedEaterStarves | Userland/UserCodeModule/programs/phylo.c:160-168 | A run from the empty table after which the removal of an eater has done so |
| PhilosopherTable.Shared.PutDownForks | Userland/UserCodeModule/programs/phylo.c:56-76 | The critical section takes the steps of putting down in order and keeps the invariant |
| PhilosopherTable.Shared.PickUpForks | Userland/UserCodeModule/programs/phylo.c:78-91 | The same for picking up, to the wait for the token |
| PhilosopherTable.Shared.CreatePhilosopher | Userland/UserCodeModule/programs/phylo.c:109-145 | A place is added at the end, or nothing changes when the semaphore or the process is missing |
| PhilosopherTable.Shared.RemovePhilosopher | Userland/UserCodeModule/programs/phylo.c:147-171 | The last place is cleared, unless both its neighbours eat, when the global semaphore is given back to wait |
| TestSync.FinalValue | Userland/UserCodeModule/tests/test_sync.c:12-43 | For any workers, rounds, increments and schedule, workers guarded by a counter with value 1 end with the sum of all increments, in 64 bits |
| TestSync.BalancedEndsWithZero | Userland/UserCodeModule/tests/test_sync.c:71-98 | So the balanced pairs end with 0 |
| TestSync.SomeoneCanGo | Userland/UserCodeModule/tests/test_sync.c:35-41 | The guarded workers never all get stuck |
| TestSync.StepExcludes | Userland/UserCodeModule/tests/test_sync.c:35-41 | At most one worker is between wait and post |
| TestSync.UnguardedLosesAnUpdate | Userland/UserCodeModule/tests/test_sync.c:12-17 | Without the semaphore a schedule loses an update |
| TestSync.GuardedExactlyWhen | Userland/UserCodeModule/tests/test_sync.c:22-39 | Whatever the workers are to do, every schedule that lets them finish ends with the sum of all increments exactly when the identifier of their semaphore is from 1 to 127: others read as negative, as none, or as another semaphore |
| TestSyncRuns.StepRefines | Userland/UserCodeModule/tests/test_sync.c:12-41 | With the workers as processes of the kernel and one of its semaphores between them, each step is a step of the workers over a counter, or one they do not see |
| TestSyncRuns.OpensWithOne | Userland/UserCodeModule/tests/test_sync.c:56-62 | Opening a semaphore with value 1 gives one that the workers can start with |
| TestSyncRuns.KernelFinalValue | Userland/UserCodeModule/tests/test_sync.c:12-43 | So over the semaphores of the kernel too, in every run, the workers end with the sum of all increments |
| TestSync.Memory.Step | Userland/UserCodeModule/tests/test_sync.c:35-41 | One stretch of a worker over the shared memory, as TestSync.Next |
| FirstFit.AllocIsFirstFit | Kernel/memory-manager/memory-manager.c:45-105 | An allocation takes the lowest unused fragment that fits or adds one when none does, moves or resizes none, and fails exactly for size 0 or when none fits and the table has reached the end of memory |
| FirstFit.RunKeeps | Kernel/memory-manager/memory-manager.c:45-124 | Over any run fragments stay contiguous, aligned and where they are, and used_memory is the sum of the used sizes |
| FirstFit.LiveBlocksDisjoint | Kernel/memory-manager/memory-manager.c:45-105 | Live blocks never overlap |
| FirstFit.GrowKeepsContiguousExactlyWhen | Kernel/memory-manager/memory-manager.c:74-93 | The table stays contiguous exactly when the new end does not wrap around 64 bits, and realignment never moves anything |
| FirstFit.FreeReleases | Kernel/memory-manager/memory-manager.c:107-124 | Releasing a block in use gives back exactly that fragment |
| FirstFit.FreeCountsExactlyWhen | Kernel/memory-manager/memory-manager.c:114-121 | A release keeps used_memory right exactly when its fragment was in use or unknown |
| FirstFit.EqualSizesNeverFragment | Kernel/memory-manager/memory-manager.c:45-124 | With requests of one size the table is exactly as long as the most blocks that were live at once |
| FirstFit.LastBlockOverrunsExactlyWhen | Kernel/memory-manager/memory-manager.c:66-82 | A new block reaches past the end of memory exactly when it is larger than what is left, since only its start is checked |
| FirstFit.Manager.MemoryAlloc | Kernel/memory-manager/memory-manager.c:45-105 | The search and the update of the table, as FirstFit.Alloc |
| FirstFit.Manager.MemoryFree | Kernel/memory-manager/memory-manager.c:107-124 | The loop for the fragment that starts at the pointer, as FirstFit.Free |
| FirstFit.Manager.MemoryStateGet | Kernel/memory-manager/memory-manager.c:126-141 | Free memory is the total less used_memory |
| BmfsProofs.ScanTakesLowest | Bootloader/BMFS/bmfs.c:661-683 | The loop over the gaps finds the least block at which the request could start, if there is one; otherwise it takes the end of a deleted record that seems to leave room, if there is one |
| BmfsProofs.CreateTakesLowestGap | Bootloader/BMFS/bmfs.c:608-717 | If some gap between live files holds the request, create takes the lowest, keeps all files in bounds, disjoint and differently named, and changes no other file |
| BmfsProofs.CreateRefusesExactlyWhen | Bootloader/BMFS/bmfs.c:685-689 | create refuses for want of room exactly when the disk has two blocks or more, no gap holds the request and no deleted record seems to leave room |
| BmfsProofs.TinyDiskOverruns | Bootloader/BMFS/bmfs.c:671-680 | On a disk of fewer than two blocks, where the number of the last block wraps around, create puts the file at block 1, which no gap holds |
| BmfsProofs.CreateKeepsFilesExactlyWhen | Bootloader/BMFS/bmfs.c:681-695 | A file that was created keeps the files in order exactly when some gap held it |
| BmfsProofs.AddKeepsExactlyWhen | Bootloader/BMFS/bmfs.c:691-704 | A new record keeps the files in order exactly when its place was free |
| BmfsProofs.FullDirectoryForgetsFiles | Bootloader/BMFS/bmfs.c:621-655 | In a directory without an end mark create looks only at the size of the disk, starts the file in the first block, and may cut the directory short after its first record |
| BmfsExample.StaleEndOverwrites | Bootloader/BMFS/bmfs.c:681-682 | Commands on a formatted disk of ten blocks after which a new file lies over another, from the old end of a deleted one |
| BmfsProofs.FindFinds | Bootloader/BMFS/bmfs.c:203-229 | findfile finds the live file of a name |
| BmfsProofs.RefusedExactlyWhenMissing | Bootloader/BMFS/bmfs.c:608-819 | read, write and delete refuse a name exactly when no live file has it, and read then gives nothing; create refuses it as taken exactly when some live file has it |
| BmfsProofs.WriteThenRead | Bootloader/BMFS/bmfs.c:720-797 | write then read gives back exactly the bytes written; write is refused exactly when they do not fit the reserved blocks |
| BmfsProofs.WriteKeepsOthers | Bootloader/BMFS/bmfs.c:752-797 | Writing a file leaves the bytes of every other file alone |
| BmfsProofs.DeleteKeepsOthers | Bootloader/BMFS/bmfs.c:800-819 | So does deleting one |
| BmfsProofs.DeletedIsGone | Bootloader/BMFS/bmfs.c:812-814 | A deleted file is gone, and no other |
| BmfsProofs.CreateKeepsOthers | Bootloader/BMFS/bmfs.c:608-717 | Creating a file in a gap leaves every other file alone |
| BmfsProofs.FilesSurvive | Bootloader/BMFS/bmfs.c:720-819 | Over any run of creations in real gaps, and of writes and deletions under other names, a file keeps its bytes |
| BmfsProofs.FormattedIsOk | Bootloader/BMFS/bmfs.c:258-268 | A formatted disk is in order |
| BmfsUtility.Utility.FindFile | Bootloader/BMFS/bmfs.c:203-229 | The loop over the records, as Bmfs.Find |
| BmfsUtility.Utility.SortRecords | Bootloader/BMFS/bmfs.c:595-606 | The records by starting block, deleted ones last |
| BmfsUtility.Utility.Create | Bootloader/BMFS/bmfs.c:608-717 | Counts, sorts, scans and updates the directory, as Bmfs.Create |
| BmfsUtility.Utility.Read | Bootloader/BMFS/bmfs.c:720-749 | Byte by byte, as Bmfs.Read |
| BmfsUtility.Utility.Write | Bootloader/BMFS/bmfs.c:752-797 | Byte by byte, as Bmfs.Write, past the end of the disk too, where its file grows |
| BmfsUtility.Utility.Delete | Bootloader/BMFS/bmfs.c:800-819 | Only the first byte of the name changes, as Bmfs.Delete |
| MersenneTwister.RegenerateInPlace | Kernel/kernel-libs/random.c:52-61 | Twisting a block of 312 terms of the recurrence in place gives the next 312 |
| MersenneTwister.FollowingIsUnique | Kernel/kernel-libs/random.c:42-61 | Seeding and recurrence determine every term |
| MersenneTwister.TemperBijective | Kernel/kernel-libs/random.c:79-83 | Tempering is a bijection on 64-bit words, so no two states of a word give the same output |
| MersenneTwister.FillFromSeed | Kernel/kernel-libs/random.c:42-50 | Seeding fills the state with the first 312 terms |
| MersenneTwister.Engine.NextWord | Kernel/kernel-libs/random.c:63-87 | Across any number of calls the i-th output is the tempering of term 312 + i |
| MersenneTwister.Generator.OutputIsTemperedTerm | Kernel/kernel-libs/random.c:79-86 | That output is the tempering of x(312+i) of mt19937_64, sections 26.5.3.2 and 26.5.5 of ISO/IEC 14882:2011 |
| MersenneVector.FirstOutputsArePublished | Kernel/kernel-libs/random.c:42-87 | For the default seed 5489 the first three outputs are 14514284786278117030, 4620546740167642908 and 13109570281517897720, as those of mt19937_64 |
| MersenneVector.TwistedDependsOn | Kernel/kernel-libs/random.c:56-57 | A term depends on the term 312 before it only through its high 33 bits and on the next only through its low 31 |
| MersenneVector.TwistedTellsApart | Kernel/kernel-libs/random.c:56-57 | And on every one of these: different choices of them give different terms |
| MersenneVector.SeedAfterNoon | Kernel/kernel-libs/random.c:70-73 | At 12:34:56 the generator is seeded with 32537 |
| MersenneTwister.Generator.Random | Kernel/kernel-libs/random.c:63-87 | The generator seeds itself from the clock on first use and then draws one output a call |
| MersenneTwister.Generator.RandInt | Kernel/kernel-libs/random.c:89-99 | The next output modulo the number of values between the bounds, counted from the lower one, whichever way round they are given |

## Left out

- KernelState: names, file descriptors and stack contents are not part of the state; exit statuses are kept as passed.
- KernelState: ticks and semaphore values are unbounded numbers; the sleep deadline is computed in 64 bits, but a
  semaphore is not posted four thousand million times.
- KernelRuns: system calls reach the kernel as in Kernel/syscalls, where wait, block, unblock and toggle ignore pids from
  1024 on and the caller itself, except that a creation in the foreground waits for its child whatever its pid.
- KernelRuns: the keyboard may kill any process with a pid above 1, though it picks the one in the foreground.
- KernelRuns: the priority that a switch starts its search with is any of the three; its probability is not modelled.
- KernelMachine.Machine.GetNextProcess: the note of priorities already tried is not kept, because the priorities
  follow each other round the three and none comes up twice.
- KernelMachine.Machine.SemWait: one stretch up to the yield; the loop around it is the step Resume of KernelRuns.
- PcbQueue.Queue.Enqueue: the contents after a wrap-around are stated only as empty, because what is dequeued later
  is whatever lies in the ring.
- SemaphoreRuns.NoLostWakeUp: states nothing about runs in which a process inside sem_wait is killed, blocked or
  unblocked from outside; PostWakesExactlyWhen says what a post does then.
- SemaphoreLedger.RunConserves: speaks of runs that keep the semaphore open, because closing it forgets value and queue.
- PipeManager.Manager.WritePipe: descriptors are not negative, as the system call passes them.
- PipeRuns: a pipe whose ends are closed while others use it; its readers and writers then go on without semaphores.
- BuddyManager: addresses are offsets into the region, and clients keep off the headers.
- BuddyManager.Manager.MemoryFree: pointers that were never handed out, and a second free of a block whose header lost
  its FREE mark.
- MersenneTwister.Generator.RandInt: bounds so far apart that their distance overflows an int.
- Philosophers: starvation, the printing of states, and the removal of all philosophers while one has not yet sat
  down, which skips it and no longer removes the last place.
- PhilosopherTable.Shared.RemovePhilosopher: the wait for the token and for the global semaphore between two turns of
  its loop are the steps StealToken and RemoveRelock of Philosophers.
- TestSync: the arguments are already numbers, and a semaphore that an identifier leads to by mistake is used by nobody
  else.
- TestSyncRuns.KernelFinalValue: that the workers do finish; SomeoneCanGo shows that they are never all stuck.
- FirstFit: the table of fragments is unbounded; where it is kept in memory is not modelled.
- BmfsUtility.Utility.SortRecords: insertion stands for qsort; the theorems hold for every order that sorts files by
  start and puts deleted records last, so they do not depend on how qsort leaves deleted ones.
- BmfsUtility.Utility.Create: names fit their 32 bytes, and block numbers compare without the truncation to int.
- BmfsUtility.Utility.Read: local files, the missing file on the host, and progress messages; sizes fit an int.
- Bmfs: list, initialize and the writing of boot files; the directory buffer stands for its copy on disk.
- MersenneTwister: the 32-bit configuration; reading the clock is a parameter.
- Assembly, interrupt setup, drivers, shell, system call dispatch, copies of the allocators under memTest, string
  helpers and the module loader have no invariants of this kind.
