# The Pandos nucleus, verified

This project models the nucleus of a small teaching operating system, the process and semaphore
structures of its first phase and the exception handlers of its second, and proves what the
nucleus is for: that its queues, trees and counters stay consistent over every sequence of
exceptions, that no wake-up is lost, that processes are served in turn and resume as they were
left, that terminating a process removes exactly its subtree, and that the scheduler's verdicts
are sound.

## How it is built

Three layers, each proved against the one below it in this list, and a statement of their effects beside them.

* **Pointer structures** (`Types`, `ProcQueue`, `PcbPool`, `ChildList`, `ProcessTree`, `Asl`).
  Process control blocks and semaphore descriptors are classes with the fields of the source,
  relinked in place. Circular tail-pointed queues, the free lists, child lists and the sorted
  semaphore list are shown to stand for sequences, for a forest, and for a map from semaphore
  address to first-in first-out queue.
* **Handlers** (`Kernel`, `Scheduler`, `SystemCalls`, `LeafRemoval`, `TerminateProcess`, `Exceptions`,
  `FamilyLinks`, `Interrupts`, `Initial`, `Machine`, `System`). The class `Kernel` holds the global variables of the nucleus. Each
  handler is a method that changes them as the source does. `Rep()` says that the variables and
  pointers stand for an abstract state `st`, and every handler promises to keep `Rep()` and to end
  exactly as the abstract step does, state and outcome. The primitives that never return (LDST,
  LDCXT, HALT, PANIC, WAIT) are outcomes; a handler returns as soon as it has one, so nothing after
  it is carried out.
* **Abstract steps and runs** (`State`, `Invariants`, `Runs` and the modules named after a property).
  A state is made of sequences, sets and maps; an exception is one step; a run is any sequence of
  exceptions that may happen. The main theorems are about all runs. `ExceptionHandler` is proved
  equal to `Step`, and `Machine.Run`, the processor's loop around it, leaves the pointer structures
  standing for the state that the run of the abstract steps reaches, so the theorems hold of them;
  `WholeSystem.PowerOn` states the laws of the variables and queues after power-on and any exceptions.
* **Effects** (`Views`, `Services`, `InterruptEffects`). A `View` is what the variables and the fields of
  the processes hold. These modules say what every SYSCALL, interrupt and fault makes of one view, in terms
  of register places, bit numbers and masks written out, and not in terms of the functions by which the
  handlers and the abstract steps decode them (but for `SemIndex`, which numbers the sub-devices and which
  the effect of SYS5 writes out). It is proved of the abstract steps, and the handlers promise it of the
  variables and blocks themselves.

`MAXPROC` is a parameter, and the descriptor table has `MAXPROC + 2` entries. The address of
`semaphoreDevices[0]` is a parameter above `MAXINT`. The words that user programs use as semaphores
are a finite map from addresses to integers. A step takes the readings of the clock as inputs.

Invariants kept by every step (`Inv`): each process of the table is free, running, ready, or in the
queue of the one semaphore it is recorded to wait for, and in one of these places only; queues have
no repetitions and no semaphore has an empty queue; parents are live and older than their children,
and child lists and parent links agree; `processCount` is the number of live processes. `Boot`
establishes them, so the theorems about runs from a state with `Inv` apply to the state after the
first dispatch. `FirstDispatch` proves there whatever else a law asks of its first state, and states
the laws for the runs from there without further hypotheses.

## Where the code differs from what is said about it

The code is what is modelled. In these places its comments, or the obvious claim, are not what holds.

* The second dummy of the semaphore list has key `MAXINT`, which is below every real semaphore
  address, so it is not the tail; the search may run off the end of the list. The list is proved
  ascending from key 0, with both dummies kept.
* `insertBlocked` may report a full table and its callers ignore that. The report never comes: a
  process that is about to block leaves a descriptor over (`Asl.NeverFull`, used by `AslJoin`).
* `removeChild` does not clear the left-sibling link of the new first child: it goes on naming the
  block removed (`RemoveChild`). So it is not true that no survivor points at a block that is free.
  All other links of a live process lead to live processes, and so does the left link of every child
  but the first (`FamilyLinks.TreeLinks`). When a process ends, the left link of a later child comes to
  name a free block if and only if the process was a first child with a right sibling; it is the link
  of that sibling (`EndCurrent`), and `FirstChildEnds` is the case at its smallest.
* SYS5 is said always to block. It does not when its semaphore is positive, and then the count of
  soft-blocked processes is too high for good. `SoftCountOverRuns` says by how much, `PanicExactly`
  says exactly when a deadlock is then recognised, and `UndetectedDeadlockFromBoot` gives three
  exceptions after which the scheduler waits though its only process is blocked. A deadlock is never
  left again, recognised or not (`DeadlockPersists`).
* The comment of `terminateProcess` exchanges the two cases of a blocked process. The code gives a
  unit back to a user semaphore and lowers the count for a device semaphore.
* SYS6 charges its first interval twice, and a pass-up does not restart the interval. `TimeOverRuns`
  keeps account of what is counted again, `OverchargedExactly` says when a step charges too much, and
  `GetTimeOvercharges` and `PassUpOvercharges` are cases that happen right after the first dispatch.
* The value of a user semaphore counts its waiters from the start only if it does not start below zero
  with nobody waiting. A semaphore that does is short by the difference until as many V operations have found
  nobody; `ShortfallOverRuns` and `CountsExactly` give the law for every first value.

## Model

| member | source | states |
|---|---|---|
| ProcQueue.MkEmptyProcQ | phase1/pcb.c:147-149 | the empty queue is a null tail |
| ProcQueue.EmptyProcQ | phase1/pcb.c:161-163 | true if and only if the queue is the empty sequence |
| ProcQueue.HeadProcQ | phase1/pcb.c:292-297 | the first element, or null for the empty queue |
| ProcQueue.InsertProcQ | phase1/pcb.c:172-196 | appends the block; touches no block outside the queue |
| ProcQueue.RemoveProcQ | phase1/pcb.c:208-231 | takes the front off and clears its links; null for the empty queue |
| ProcQueue.OutProcQ | phase1/pcb.c:245-280 | the search ends; deletes the block wherever it is, order kept, tail corrected; null and nothing changed if it is absent |
| Collections.MinusAt | phase1/pcb.c:258-272 | unlinking the k-th block is deleting that block from the sequence |
| PcbPool.FreePcbs.constructor | phase1/pcb.c:44-54 | the free list holds maxProc cleared blocks |
| PcbPool.FreePcbs.AllocPcb | phase1/pcb.c:65-99 | takes the head of the free list and clears all of its fields except the control words of its processor state; null if the list is empty |
| PcbPool.FreePcbs.ClearRegisters | phase1/pcb.c:84-88 | the loop clears every register and nothing else |
| PcbPool.FreePcbs.FreePcb | phase1/pcb.c:111-132 | puts the block in front of the free list; null is ignored |
| ChildList.EmptyChild | phase1/pcb.c:314-319 | true if and only if the child list is empty |
| ChildList.InsertChild | phase1/pcb.c:331-351 | the block becomes the first child, sibling links both ways, its own left link null |
| ChildList.RemoveChild | phase1/pcb.c:363-379 | the first child leaves, its own links cleared; the next child goes on naming it as its left sibling |
| ChildList.OutChild | phase1/pcb.c:392-426 | the search ends; deletes the block from the list of its parent, and says of every sibling what its left link is then; null and nothing changed if it has no parent or is not on the list |
| ProcessTree.ListsApart | phase1/pcb.c:331-426 | no block is on two child lists |
| ProcessTree.Adopt | phase1/pcb.c:331-351 | after insertion every child list and parent link of the forest is in place |
| ProcessTree.TakeFirst | phase1/pcb.c:363-379 | after removal of the first child every other child list and parent link is as before |
| ProcessTree.Orphan | phase1/pcb.c:392-426 | after deletion from the parent's list every other child list and parent link is as before |
| ActiveSemaphores.Asl.constructor | phase1/asl.c:111-136 | maxSemds descriptors, the two dummies in place, an empty map of queues |
| ActiveSemaphores.Asl.FreeSemd | phase1/asl.c:54-70 | puts the descriptor in front of the free list |
| ActiveSemaphores.Asl.AllocSemd | phase1/asl.c:83-97 | takes the first free descriptor, or null |
| ActiveSemaphores.Asl.GetSemd | phase1/asl.c:156-171 | the search ends between the smaller keys and the rest, also past the end of the list |
| ActiveSemaphores.Asl.SearchResult | phase1/asl.c:198-206 | a descriptor with the key is found if and only if the map has a queue for it |
| ActiveSemaphores.Asl.InsertBlocked | phase1/asl.c:198-231 | full if and only if the semaphore has no queue and no descriptor is free; otherwise the block is appended to the queue of its semaphore and no other key changes |
| ActiveSemaphores.Asl.RemoveBlocked | phase1/asl.c:247-273 | takes the front off the queue of the semaphore and clears its semaphore address; the key goes when the queue falls empty; null if there is no queue |
| ActiveSemaphores.Asl.OutBlocked | phase1/asl.c:284-309 | deletes the block from the queue it names, keeps its semaphore address, drops an empty descriptor; null and nothing changed if it is not there, whatever address it names |
| ActiveSemaphores.Asl.HeadBlocked | phase1/asl.c:320-330 | the first waiter, or null |
| ActiveSemaphores.Asl.DropDescriptor | phase1/asl.c:263-270 | an emptied descriptor leaves the sorted list for the free list |
| ActiveSemaphores.KeysCovered | phase1/asl.c:111-136 | the keys of the list are the two dummies and the keys with a queue |
| ActiveSemaphores.Asl.DescriptorsConserved | phase1/asl.c:54-136 | free descriptors, queues and the two dummies always add up to the table |
| ActiveSemaphores.QueuesAreFew | phase1/asl.c:28-32 | there are at most as many queues as waiting blocks |
| ActiveSemaphores.Asl.NeverFull | phase1/asl.c:205-211 | while fewer blocks wait than there are blocks, a descriptor is free |
| NucleusKernel.Kernel.constructor | phase2/initial.c:261-273 | variables and tables stand for the state without processes |
| NucleusKernel.Kernel.LinksApart | phase1/pcb.c:111-231 | free list, ready queue and semaphore queues have no block in common |
| NucleusKernel.Kernel.AslJoin | phase2/exceptions.c:187 | the result of insertBlocked may be ignored: it is never full for a block that does not wait yet |
| NucleusKernel.Kernel.InsertBlocked | phase2/exceptions.c:187 | only the queue of the semaphore and what the process waits for change |
| NucleusKernel.Kernel.RemoveBlocked | phase2/exceptions.c:478 | the first waiter leaves its queue and waits for nothing |
| NucleusKernel.Kernel.HeadBlocked | phase2/interrupts.c:389 | the first waiter of the semaphore, or null |
| NucleusKernel.Kernel.OutBlocked | phase2/exceptions.c:384 | the process leaves its queue; what it is recorded to wait for stays |
| NucleusKernel.Kernel.ReadyInsert | phase2/exceptions.c:308 | the process joins the ready queue at the end; every other queue and the free list are unchanged |
| NucleusKernel.Kernel.ReadyRemove | phase2/scheduler.c:128 | the head of the ready queue leaves it |
| NucleusKernel.Kernel.ReadyOut | phase2/exceptions.c:401 | the process leaves the ready queue, order kept |
| NucleusKernel.Kernel.AllocPcb | phase2/exceptions.c:288 | a block that was not live becomes a process without parent, children, time and support structure; null if all are live |
| NucleusKernel.Kernel.FreePcb | phase2/exceptions.c:405 | the block is free again and nothing else is known about it |
| NucleusKernel.Kernel.MoveState | phase2/scheduler.c:185-198 | the copy loop transfers the whole processor state and touches no other block |
| NucleusKernel.Kernel.UpdateProcessTime | phase2/initial.c:169-171 | the process is charged the difference of the readings |
| NucleusScheduler.SwitchContext | phase2/scheduler.c:79-88 | the process becomes current, its time starts now, its saved state is loaded |
| NucleusScheduler.Scheduler | phase2/scheduler.c:122-158 | dispatches the head of the ready queue, or halts, waits or panics as the abstract scheduler does |
| SystemCalls.BlockCurrentProcess | phase2/exceptions.c:180-191 | the current process is charged, joins the queue of the semaphore, and is current no longer |
| SystemCalls.CreateProcess | phase2/exceptions.c:285-327 | the head of the free list, if there is one, becomes a child of the caller with the state and support structure given and no time, last in the ready queue; equals the abstract step with or without a free block |
| SystemCalls.BornInSteps | phase2/exceptions.c:288-314 | the assignments one after the other make a first child of the caller at the end of the ready queue |
| SystemCalls.Passeren | phase2/exceptions.c:429-448 | equals the abstract P operation |
| SystemCalls.Verhogen | phase2/exceptions.c:468-490 | equals the abstract V operation |
| SystemCalls.WaitForIO | phase2/exceptions.c:528-555 | equals the abstract step on the semaphore of the sub-device |
| SystemCalls.GetCpuTime | phase2/exceptions.c:596-609 | equals the abstract step, with both charges |
| SystemCalls.WaitForClock | phase2/exceptions.c:635-652 | equals the abstract step on the clock semaphore |
| SystemCalls.GetSupportData | phase2/exceptions.c:668-678 | equals the abstract step: v0 gets the support pointer |
| LeafRemoval.RemovedIsKill | phase2/exceptions.c:373-407 | taking a process without children out of the place where it is, with the right counter, is killing just that process |
| LeafRemoval.WaitedWord | phase2/exceptions.c:387-397 | the range test tells user semaphores from device semaphores for every blocked process |
| ProcessTermination.Round | phase2/exceptions.c:368-370 | each round of the loop may make its recursive call, on a younger process, and kills one more branch |
| ProcessTermination.TakeOut | phase2/exceptions.c:373-402 | the three cases for current, blocked and ready processes |
| ProcessTermination.TerminateProcess | phase2/exceptions.c:365-408 | ends, and kills exactly the process and all its descendants; of the left links of others only that of the right sibling of a running process that is not a first child changes |
| ExceptionHandlers.TerminateCurrent | phase2/exceptions.c:735-740 | equals the abstract termination followed by the scheduler |
| ExceptionHandlers.PassUpOrDie | phase2/exceptions.c:718-742 | handed to the support level and charged if there is a support structure; otherwise the process ends, and with it exactly those whose parent ends, and queues, values and counters follow |
| ExceptionHandlers.SystemTrapHandler | phase2/exceptions.c:868-928 | which number in a0 does what, with the words of a1 to a3, to the variables, the queues and every process; user mode and other numbers are faults; equals the abstract step |
| ExceptionHandlers.RequestServed | phase2/exceptions.c:868-928 | the abstract step of a SYSCALL has, for each number, the effect that the words of the registers ask for |
| ServiceEffects.CreateView | phase2/exceptions.c:285-327 | SYS1: the new block starts in the state pointed to, as a child of the caller; without a block v0 is -1 and nothing else changes |
| ServiceEffects.TerminateView | phase2/exceptions.c:365-408 | SYS2: the caller ends and exactly those whose parent ends; queues keep their order without them; user semaphores get a unit for each that waited, the soft count loses those that waited for a device |
| ServiceEffects.PasserenView | phase2/exceptions.c:429-448 | SYS3: one less; the caller joins the queue exactly if the value is negative then |
| ServiceEffects.VerhogenView | phase2/exceptions.c:468-490 | SYS4: one more; if it is not positive then, the first waiter moves to the end of the ready queue; the caller goes on |
| ServiceEffects.WaitIOView | phase2/exceptions.c:528-555 | SYS5: the index of the semaphore from line, device and read flag; one more is counted soft-blocked whether or not the caller blocks |
| ServiceEffects.GetTimeView | phase2/exceptions.c:596-609 | SYS6: v0 is the time up to the second reading, and both intervals are charged |
| ServiceEffects.WaitClockView | phase2/exceptions.c:635-652 | SYS7: the last device semaphore goes down, and the count goes up only if the caller blocks |
| ServiceEffects.GetSupportView | phase2/exceptions.c:668-678 | SYS8: v0 is the support pointer, -1 without one; nothing else changes |
| ServiceEffects.FaultView | phase2/exceptions.c:718-742 | a fault goes to the support level with a charge and no other change, or ends the process as SYS2 |
| KernelViews.SeenIs | phase2/initial.c:55-77 | the variables of the kernel and the fields of the blocks are what the abstract state says |
| InterruptHandlers.PltInterruptHandler | phase2/interrupts.c:158-184 | the process is saved, charged and put at the end of the ready queue, and the next one runs; panic if nobody runs |
| InterruptHandlers.WakeWaiters | phase2/interrupts.c:389-393 | the loop ends and moves all waiters to the ready queue in order, lowering the count by their number |
| InterruptHandlers.IntervalTimerInterruptHandler | phase2/interrupts.c:382-408 | all clock waiters become ready in order, their number leaves the count, the semaphore is zero, and the interrupted process goes on |
| InterruptHandlers.PendingDevice | phase2/interrupts.c:238-256 | line and device are the first that are pending, and its registers exist |
| InterruptHandlers.DeliverStatus | phase2/interrupts.c:290-332 | V operation on the device semaphore; its first waiter gets the status in v0, becomes ready and is charged |
| InterruptHandlers.NonTimerInterruptHandler | phase2/interrupts.c:201-355 | the first pending device: the semaphore on which SYS5 waits for its sub-device goes up, and the first waiter gets that sub-device's status word in v0, becomes ready and is charged |
| InterruptHandlers.InterruptTrapHandler | phase2/interrupts.c:452-482 | bit 9 of Cause is the end of the time slice, otherwise bit 10 the pseudo-clock, otherwise a device, each with its effect on the variables |
| InterruptHandlers.ExceptionHandler | phase2/exceptions.c:222-248 | bits 2 to 6 of Cause decide: 0 is an interrupt, 8 the SYSCALL, 1 to 7 and 9 to 12 faults, each with its effect on the variables, and larger codes change nothing; the invariant is kept |
| InterruptHandlers.ExceptionServed | phase2/exceptions.c:222-248 | the abstract step of every exception has the effect that the bits of Cause, the registers and the device registers ask for |
| InterruptHandlers.ExcCodeIsBits | phase2/exceptions.c:222-248 | the code on which the handler decides is the number in bits 2 to 6 of Cause |
| InterruptHandlers.SignalMeans | phase2/interrupts.c:298-315 | for the first pending line and device, the status delivered is that of the sub-device whose semaphore is signalled |
| InterruptEffects.SliceView | phase2/interrupts.c:158-184 | the abstract end of a time slice: only the running process changes, and it goes to the end of the ready queue |
| InterruptEffects.TickView | phase2/interrupts.c:382-408 | the abstract clock tick: waiters ready in order, semaphore zero, the interrupted process charged up to the interrupt |
| InterruptEffects.DeviceView | phase2/interrupts.c:298-352 | the abstract device interrupt: value, queue, ready queue, count, v0 and charge of the waiter, and the interrupted process |
| Machine.Run | phase2/exceptions.c:222-248 | after any sequence of exceptions, with any registers unless it is a SYSCALL, the variables and pointers stand for the state that the abstract run reaches; the run is one event for each exception that can occur until the nucleus stops |
| WholeSystem.PowerOn | phase2/initial.c:259-306 | from main through any sequence of exceptions, each of which is handled in its turn, the device bound, the soft-block count, the law of every user semaphore and the process count hold of the variables and queues themselves |
| NucleusInitial.InitDeviceSemaphores | phase2/initial.c:191-198 | every device semaphore is zero |
| NucleusInitial.Boot | phase2/initial.c:259-306 | the first process runs with pc and t9 at the program, sp at the top of memory, interrupts and timer on and all else clear, nobody waits, and the invariant holds; panic if there is no block |
| ConcretePlaces.ExactlyOnePlace | phase2/exceptions.c:373-402 | every block is free, running, ready or in one semaphore queue, never in two of these; a live block names a semaphore exactly when it is in its queue |
| ConcretePlaces.FreeCount | phase2/exceptions.c:406 | processCount is the size of the table less the length of the free list |
| FamilyLinks.TreeLinks | phase1/pcb.c:331-426 | parent, child and right-sibling links of a live process lead to live processes, and so does the left-sibling link of a child that is not the first |
| FamilyLinks.Neighbours | phase1/pcb.c:345-350 | the left link of a later child names a live sibling whose right link names the child |
| FamilyLinks.RightNeighbour | phase1/pcb.c:345-350 | a right sibling is a later child whose left link names the process it is right of |
| FamilyLinks.EndCurrent | phase2/exceptions.c:376-405 | after the current process has ended with its descendants, the left link of a surviving later child names no live process if and only if the process was a first child and this was its right sibling; then it names the freed block |
| FamilyLinks.FirstChildEnds | phase1/pcb.c:401-404 | of two children the first ends: the other names its free block |
| ConcretePlaces.NoCycle | phase1/pcb.c:331-426 | nobody is its own ancestor, and every line of ancestors ends |
| NucleusInvariants.StepInv | phase2/exceptions.c:222-248 | every exception that may happen keeps the invariant |
| NucleusInvariants.KillInv | phase2/exceptions.c:365-408 | killing a set of processes closed under descent keeps all of the invariant that does not speak of the current process |
| NucleusInvariants.WakeAllQueued | phase2/interrupts.c:389-393 | waking all waiters keeps queues free of repetition |
| NucleusRuns.Exec | phase2/exceptions.c:222-248 | the invariant holds in every state that any run reaches |
| NucleusRuns.SomebodyWaits | phase1/asl.c:247-273 | a semaphore has a queue if and only if somebody waits for it, and the queue holds exactly those |
| UserSemaphores.StepEffect | phase2/exceptions.c:386-491 | how each exception moves the value of a user semaphore and the number of its waiters |
| UserSemaphores.CountsOverRuns | phase2/exceptions.c:429-490 | in every reachable state the number of processes blocked on a user semaphore is the larger of 0 and its negative value |
| UserSemaphores.WakesIffNegative | phase2/exceptions.c:470-482 | a V operation wakes a process if and only if the value was negative: no wake-up is lost |
| UserSemaphores.ShortfallOverRuns | phase2/exceptions.c:386-482 | what the value claims beyond the waiters it has is, in every reachable state, the first shortfall less the V operations that found nobody |
| UserSemaphores.CountsExactly | phase2/exceptions.c:429-482 | for every first value, the value counts the waiters after a run if and only if as many V operations as it was below zero have found nobody |
| UserSemaphores.OperationsConserved | phase2/exceptions.c:386-482 | for every semaphore and run: the value is the first value less P plus V operations plus blocked P operations ended with their process; every P has passed, waits, or ended |
| UserSemaphores.CountingLaw | phase2/exceptions.c:386-482 | passed P operations are the first value plus V operations less what is left; every P has passed, waits, or ended with its process |
| UserSemaphores.AdmitsAtMost | phase2/exceptions.c:431-482 | a semaphore that starts at n admits at most n more P operations than V operations |
| UserSemaphores.WordsOverRuns | phase2/exceptions.c:386-482 | no run makes a word a semaphore that was none, or the other way round |
| DeviceSemaphores.StepDevEffect | phase2/exceptions.c:386-397 | how each exception moves a device semaphore, the number of its waiters and the excess of the soft-block count |
| DeviceSemaphores.BoundedOverRuns | phase2/exceptions.c:528-547 | in every reachable state a device semaphore has at most as many waiters as its negative value says, and the clock semaphore is not positive |
| DeviceSemaphores.WaitClockAlwaysBlocks | phase2/exceptions.c:635-644 | in every reachable state SYS7 blocks its caller |
| DeviceSemaphores.SoftCountOverRuns | phase2/exceptions.c:538-547 | softBlockedCount exceeds the number of processes blocked on devices by exactly the number of SYS5 calls that did not block |
| SchedulerVerdicts.InitialInv | phase2/initial.c:259-306 | the state that main sets up satisfies all invariants |
| SchedulerVerdicts.OutcomeMeaning | phase2/scheduler.c:122-158 | what each ending says about the state it leaves |
| SchedulerVerdicts.HaltMeansAllFree | phase2/scheduler.c:141-143 | HALT only when every block is free |
| SchedulerVerdicts.PanicExactly | phase2/scheduler.c:141-156 | with nobody ready: PANIC if and only if every process is blocked on a user semaphore and every SYS5 has blocked, WAIT in the other cases with processes |
| SchedulerVerdicts.PanicMeansDeadlock | phase2/scheduler.c:153-155 | PANIC in the scheduler only when every live process is blocked on a user semaphore |
| SchedulerVerdicts.DeadlockPersists | phase2/scheduler.c:146-156 | once nobody is ready and every process waits for a user semaphore, no run ever moves a process or changes a user semaphore |
| SchedulerVerdicts.UndetectedDeadlock | phase2/scheduler.c:146-150 | an interrupt of an idle device, a SYS5 on it and a P leave a deadlock in which the scheduler waits, and from which no run leads away |
| SchedulerVerdicts.UndetectedDeadlockFromBoot | phase2/scheduler.c:146-150 | that happens three exceptions after the first dispatch |
| BoundedWaiting.ReadyStep | phase2/scheduler.c:126-137 | every exception removes at most the head, or the terminated, from the ready queue, and adds only at the end |
| BoundedWaiting.Approaches | phase2/scheduler.c:126-137 | each dispatch brings a waiting process one place nearer, and nothing sets it back |
| BoundedWaiting.ServedWithin | phase2/scheduler.c:126-137 | a process at index k is not passed over by more than k dispatches |
| BoundedWaiting.LeavesReadyOnlyToRun | phase2/exceptions.c:401 | a process leaves the ready queue only to run or because it is terminated |
| BoundedWaiting.DispatchedOrTerminated | phase2/scheduler.c:126-137 | in every run with more than k dispatches, a process that starts at index k is dispatched or terminated |
| WaitingInOrder.QueueStep | phase1/asl.c:198-309 | what one exception can do to a semaphore queue: lose its head, its terminated processes or all of it, or gain the caller at the end |
| WaitingInOrder.SignalShifts | phase2/exceptions.c:470-482 | a V operation on a semaphore with waiters takes the first of them |
| WaitingInOrder.QueueApproaches | phase1/asl.c:247-273 | each V operation brings a waiting process one place nearer to the head of its queue |
| WaitingInOrder.WokenOrTerminated | phase2/interrupts.c:290-332 | in every run with more than k V operations on a user or device semaphore, the process at index k of its queue is woken or terminated |
| ResumeFidelity.StopSaves | phase2/interrupts.c:168 | a process that stops running has exactly the exception state saved |
| ResumeFidelity.ParkedStep | phase2/interrupts.c:325-326 | no exception writes the state of a process that is not running, but for the status in v0 |
| ResumeFidelity.InterruptResumes | phase2/interrupts.c:346-352 | an interrupted process resumes with the state it was interrupted in |
| ResumeFidelity.ServiceResumes | phase2/exceptions.c:873-926 | a caller goes on running, with the state it called with and the answer of the service in register 1, if and only if its P operation does not find the semaphore below one and it does not end itself |
| ResumeFidelity.ResumesAsSaved | phase2/scheduler.c:79-88 | over any run, the state loaded at the next dispatch, be it at once, is the one saved, and only register 1 may differ: it then holds the status of the interrupt that woke the process |
| ResumeFidelity.DeliveredOnce | phase2/interrupts.c:325-328 | a process gets at most one status before it runs again |
| ProcessCreation.CreationExact | phase2/exceptions.c:288-314 | a new process has the state and support structure given, no time, no children and the caller as parent, is its first child and last in the ready queue |
| ProcessCreation.StartsAsCreated | phase2/exceptions.c:294 | over any run, the state loaded at the first dispatch of a process is the one its creator pointed to |
| CpuAccounting.TimeOverRuns | phase2/initial.c:169-171 | time held by live and ended processes is what was charged, and no more is charged than has passed but for the intervals counted again |
| CpuAccounting.NoMoreThanElapsed | phase2/exceptions.c:183-184 | without such intervals all processes together never hold more time than has passed |
| CpuAccounting.OverchargedExactly | phase2/exceptions.c:599-605 | which exceptions charge more than has passed |
| FirstDispatch.GetTimeOvercharges | phase2/exceptions.c:599-605 | ten units after the first dispatch, SYS6 charges twenty |
| FirstDispatch.PassUpOvercharges | phase2/exceptions.c:725-726 | a process dispatched ten units ago traps and is charged ten units, all of which are still to be charged |
| FirstDispatch.SemaphoresFromBoot | phase2/initial.c:259-306 | the semaphore laws for every run from the first dispatch |
| FirstDispatch.DevicesFromBoot | phase2/initial.c:259-306 | the device bound and the soft-block count for every run from the first dispatch |
| FirstDispatch.ClockFromBoot | phase2/exceptions.c:635-644 | in every run from the first dispatch SYS7 blocks its caller |
| FirstDispatch.VerdictFromBoot | phase2/scheduler.c:139-156 | in every run from the first dispatch PANIC is given exactly for a deadlock in which every SYS5 has blocked |
| FirstDispatch.TimeFromBoot | phase2/initial.c:169-171 | in every run from the first dispatch all processes together hold no more time than has passed and has been counted again |
| SubtreeTermination.SubtreeIsReachable | phase2/exceptions.c:368-370 | the set that is killed is what the child lists lead to from the process |
| SubtreeTermination.KillTwice | phase2/exceptions.c:368-370 | killing one set after another is killing both at once, with queues, tree, values and counters |
| SubtreeTermination.NextBranch | phase2/exceptions.c:368-370 | the branch below the first child left is disjoint from what is dead and lies within the subtree |
| SubtreeTermination.AllBranches | phase2/exceptions.c:368-370 | when no child is left, all of the subtree but its root is dead |
| SubtreeTermination.TerminationExact | phase2/exceptions.c:365-408 | what termination does to live processes, counters, values and queues, for the subtree as a whole |
| SubtreeTermination.SurvivorsKeepFamily | phase2/exceptions.c:376-379 | survivors keep their parents, none of which is gone, and their surviving children in order |
| SubtreeTermination.SurvivorsKeepOrder | phase2/exceptions.c:384 | survivors in one queue keep their order |
| PseudoClock.TickExact | phase2/interrupts.c:382-408 | all clock waiters become ready in blocking order, the count drops by their number, the semaphore is zero, no other queue changes |
| DeviceRouting.LeastDevice | phase2/interrupts.c:101-134 | the first pending device of the line, if one is pending |
| DeviceRouting.LeastLine | phase2/interrupts.c:230-240 | the lowest pending line, if one is pending |
| DeviceRouting.SemIndexInjective | phase2/exceptions.c:530-536 | distinct sub-devices have distinct semaphores, none of them the clock's |
| DeviceRouting.SemIndexOnto | phase2/exceptions.c:530-536 | every other device semaphore belongs to a sub-device |
| DeviceRouting.InterruptMeetsWait | phase2/interrupts.c:290-308 | an interrupt signals the semaphore on which SYS5 waits for the same sub-device; of a terminal the receiver's exactly if the low byte of the transmitter status is 1 |
| Endings.FinishKeeps | phase2/scheduler.c:79-158 | an ending touches only the place of the process dispatched, the start of its time and the clock |

## Left out

- The 32-bit width of counters, semaphore values, times and registers: all are unbounded integers. Words that are examined bit by bit are 32-bit vectors.
- NucleusKernel.Kernel.MoveState: the register file of a block is a value of 31 registers inside a field, so aliasing between the source and the destination of the copy is not modelled.
- ActiveSemaphores.Asl.InsertBlocked: keys other than 0 and MAXINT only, because a process in the queue of a dummy would break the list; the kernel never passes the dummies, since user semaphores are assumed not to be there.
- ActiveSemaphores.Asl.RemoveBlocked: keys other than 0 and MAXINT only, because the source would then unlink a dummy.
- NucleusKernel.Kernel.InsertBlocked: keys other than 0 and MAXINT only, as for the list.
- NucleusKernel.Kernel.RemoveBlocked: keys other than 0 and MAXINT only, as for the list.
- SystemCalls.Passeren: addresses of user semaphores only; a P on a device semaphore or on a word that is no semaphore is outside the model.
- SystemCalls.Verhogen: addresses of user semaphores only, likewise.
- ExceptionHandlers.PassUpOrDie: the exception state is not copied into the support structure, and its contents are not modelled, only whether there is one; the user-mode change of the Cause register goes with it.
- SystemCalls.WaitForIO: line and device arguments outside the five lines of eight devices are outside the model; the source indexes its array with them unchecked.
- ExceptionHandlers.SystemTrapHandler: requests with such addresses or devices are outside the model.
- InterruptHandlers.ExceptionHandler: requests with such addresses or devices are outside the model; exceptions other than interrupts are assumed to happen only while a process is running.
- NucleusInitial.Boot: the pass-up vector and the loading of the interval timer; the address of the first program and the top of memory are parameters.
- InterruptHandlers.NonTimerInterruptHandler: acknowledgement of devices; the pending bits and status words are inputs.
- Timer loading, interrupt masking and the remaining time of a slice have no effect on the modelled state.
- Words used as user semaphores are assumed to be changed only by SYS3, SYS4 and SYS2, and to be neither device semaphores nor at address 0 or MAXINT.
- The support level of phase 3, the test programs, and the debugging hook of the handlers.
