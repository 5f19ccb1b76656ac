# Xinu kernel: model and proofs

This project models the hard core of a Xinu kernel in Dafny and proves what every run of it keeps. It covers the scheduling
kernel (Chapters 4 to 8 and 13), ports (Chapter 11), the block layer of the local file system (Chapter 19), the heap
allocator (Chapter 9) and the IP header checksum (Chapter 17).

Each component has the same three layers:

- a specification: the state as a value, and for each call a function from state to state;
- theorems about that specification over every step and every run: invariants, conservation, order, exact timing;
- a class with the source's own fields, arrays, links and loops, each of whose methods is proved to change the state exactly as
  its specification function says.

| files | what they hold |
|---|---|
| `Types`, `Lists` | constants, basic types, sequences without duplicates |
| `Queue`, `QueueTable` | many doubly linked lists in one array; the operations on it |
| `Delta` | the sleep queue as deltas, and as absolute deadlines |
| `KernelState`, `KernelInv`, `KernelRuns`, `Kernel` | the kernel state and its steps; the global invariant; its preservation; the class |
| `Safety`, `Wakeups`, `Mailboxes`, `Semaphores`, `RoundRobin`, `TimeSlices` | theorems over runs of the kernel |
| `ReadyOrder`, `StepLaws`, `StepParts`, `Transitions` | order on the ready list; the law of one step, stated without the step functions; its proof; what follows over runs |
| `PortState`, `Ports`, `PortRuns`, `PortLaws`, `PortSemaphores`, `PortNodes`, `PortTable` | ports: steps, invariant, runs, the law of one step and of a whole clear, their semaphores, their nodes, the class |
| `FsDisk`, `FsState`, `FsRep`, `FsOps`, `FsTrunc` | index blocks in sectors; chains and free lists; how the disk represents them |
| `FsContents`, `FsFiles`, `FileSys` | sectors and buffers; the files that they hold, against plain files; the class |
| `FreeList`, `HeapRuns`, `Heap` | the free list; runs of the heap; the list threaded through memory |
| `Checksum` | the one-fold checksum and the checksum of RFC 1071 |

Interrupts are off inside the kernel, so a system call up to its context switch is one atomic step. The code behind the context
switch of a blocked caller is a step of its own, taken when that process runs again: `conts` (kernel) and `pcs` (ports) record
which code each process still has to run. `ctxsw` is the change of `currpid`. Table sizes are parameters; the queue array is
assumed to have room for two sentinels per semaphore, for the ready list and for the sleep queue.

A process blocks only outside deferral, and the null process never blocks. A caller that panics ends the run.

## Where the code differs from its documentation

- `semdelete` (Chapter7/semdelete.c:21) increments once more after the last waiter and never marks the entry free.
- A blocking recvtime(0) puts a zero delta on the sleep queue; a tick that comes while its caller is still queued makes it
  negative and every other sleeper is late by one tick (`ZeroWaitDelays`, for a tick directly after the call). A message to the
  caller, or a kill of it, before that tick undoes it (`ZeroWaitUndone`). `TicksExactIff` is the exact condition on the state.
- A `sleepms` delay above 2^31 - 1 becomes a negative deadline (`DelayFitsIff`).
- `ptcreate` stores its count in 16 bits but creates the semaphore with the full count (`CreateLawIff`).
- `roundmb` wraps to zero above 2^64 - 8 (`RoundMbIff`); `getmem` then succeeds on any block and takes no byte off the heap
  (`GetMemHandsIff`; `LargestRequest` is the input 2^64 - 1).
- `freemem` joins a block to its lower neighbour only, so `getmem` and `freemem` restore the bytes but seldom the node list
  (`GetMemListIff`).
- `lfflush` leaves lfdbdirty set (Chapter19/lfflush.c:15-18); a later flush writes the data block again, and asks for a write of
  block -1 when there is no current data block.
- `lfsetup` does not mark a data block that it has just taken (Chapter19/lfsetup.c:89-94): unless the mark was set already, its
  zeros are lost when another block is set up or the file is closed, and the link of the free list comes back in their place
  (`SetupSyncedIff`, `BareBlockLost`; `ZerosLost` is the input). `lflputc` marks the block before that can happen.
- `lflputc` refuses a position at the end of the file (Chapter19/lflputc.c:19), so its own lines 30-33 never run.
- `ipcksum` folds its carries once and turns 65535 into 0 (`MatchesRfcIff`, `AcceptsIff`, `SealedForRfcIff`).

## Model
| member | source | states |
|---|---|---|
| Queue.TableLinkIn | Chapter4/insert.c:14-19 | Splicing a process between any two adjacent cells of one queue keeps every queue of the shared array well formed in both directions, adds the process at exactly that place and changes no other queue and no other key |
| Queue.TableLinkOut | Chapter4/getitem.c:29-32 | Unsplicing any entry keeps the whole array well formed and removes exactly that entry |
| Queue.TableNewQueue | Chapter4/newqueue.c:14-19 | Two fresh sentinel cells make a new empty queue beside the others |
| KernelInv.PrioIndexSplits | Chapter4/insert.c:10-12 | The place found by the priority search: every entry before it has at least the key, every entry from it on has less |
| Delta.DeltaIndexSplits | Chapter13/insertd.c:11-17 | The place found by the delta search: every entry before it is due no later than the new one, the entry at it is due later |
| QueueTable.QueueTab.NewQueue | Chapter4/newqueue.c:3-21 | Returns a queue that was not allocated before, empty, all others unchanged |
| QueueTable.QueueTab.Enqueue | Chapter4/queue.c:5-20 | Appends the process to the queue, or refuses a bad queue or process and changes nothing |
| QueueTable.QueueTab.Dequeue | Chapter4/queue.c:22-36 | Removes and returns the first process, EMPTY on an empty queue |
| QueueTable.QueueTab.Insert | Chapter4/insert.c:3-21 | Inserts behind every entry of the same or a higher key, stops at the tail sentinel, and records the key |
| QueueTable.QueueTab.GetItem | Chapter4/getitem.c:25-34 | Removes exactly the given process from the queue that holds it |
| QueueTable.QueueTab.GetFirst | Chapter4/getitem.c:3-12 | Removes and returns the first entry, or reports an empty queue |
| QueueTable.QueueTab.GetLast | Chapter4/getitem.c:14-23 | Removes and returns the last entry, or reports an empty queue |
| QueueTable.QueueTab.InsertD | Chapter13/insertd.c:3-29 | The array after the delta search and the splice holds the list and the keys of the specification; no int32 overflow on the way |
| Delta.InsertRefines | Chapter13/insertd.c:11-26 | On absolute deadlines, delta insertion is sorted insertion of exactly the requested delay, behind all equal deadlines; no other deadline changes |
| Delta.UnsleepRefines | Chapter13/unsleep.c:21-25 | On absolute deadlines, delta removal cancels one deadline and leaves every other one |
| Delta.ShiftHead | Chapter13/clkhandler.c:12-13 | Changing the head delta by d moves every deadline by d; one tick is d = -1 |
| Delta.ExpiredAreDue | Chapter13/wakeup.c:6-7 | The entries that the drain loop takes are exactly those whose deadline has come, and they leave without moving any other deadline |
| Delta.InsertTame | Chapter13/insertd.c:13-26 | Insertion of a delay in range keeps all deltas non-negative and all deadlines within int32 |
| Delta.UnsleepTame | Chapter13/unsleep.c:21-25 | Removal keeps all deltas non-negative and all deadlines within int32 |
| Delta.GiveBackBound | Chapter13/unsleep.c:23 | The sum stored in the successor does not overflow |
| Delta.DelayFitsIff | Chapter13/sleep.c:25 | A uint32 delay becomes the int32 deadline asked for if and only if it does not exceed 2^31 - 1 |
| KernelRuns.ReleaseEffect | Chapter7/semreset.c:19-21 | Under deferral, releasing n waiters makes exactly the first n processes of the queue ready and touches nobody else |
| KernelRuns.DeferStopInv | Chapter5/resched.c:39-46 | Leaving a deferral restores the full invariant, the highest priority running included, and is the only place of choice |
| KernelInv.ReschedInv | Chapter5/resched.c:3-29 | Rescheduling from any state between kernel primitives restores the invariant: afterwards nobody ready has a higher priority than the current process |
| KernelRuns.ApplyInv | Chapter5/resched.c:8-27 | Every system call, tick, deferral and continuation keeps the global scheduler invariant |
| KernelRuns.MayBlockCan | Chapter7/wait.c:21-26 | A caller other than the null process that blocks outside deferral finds a process on the ready list |
| KernelRuns.WaitInv | Chapter7/wait.c:21-26 | `wait` keeps the invariant, the count and queue law included |
| KernelRuns.SemUpInv | Chapter7/signal.c:20-22 | An increment keeps the invariant; a negative count means that somebody is there to be released |
| KernelRuns.SemResetInv | Chapter7/semreset.c:19-23 | `semreset` keeps the invariant |
| KernelRuns.SemDeleteInv | Chapter7/semdelete.c:20-24 | `semdelete` keeps the invariant, although it leaves the count one too high |
| KernelRuns.SemCreateInv | Chapter7/semcreate.c:16 | `semcreate` on a free entry keeps the invariant, the count and queue law included |
| KernelRuns.TickPlan | Chapter13/clkhandler.c:12-14 | The branches of a clock interrupt: which state each of its parts finds and leaves |
| KernelRuns.KillInv | Chapter6/kill.c:24-40 | `kill` of any process, in whatever state and on whatever queue, keeps the invariant, the count of the semaphore included |
| KernelRuns.SuspendInv | Chapter6/suspend.c:21-27 | `suspend` of a ready or of the current process keeps the invariant |
| KernelRuns.RecvTimeInv | Chapter13/recvtime.c:9-22 | `recvtime` keeps the invariant up to its context switch |
| KernelRuns.SendInv | Chapter8/send.c:15-28 | `send` keeps the invariant, in each of its three branches |
| KernelRuns.Step | Chapter5/resched.c:3-51 | One step of the system leads from good states to good states and allocates no queue |
| Kernel.Xinu.Sysinit | Chapter22/initialize.c:92-117 | The tables as initialised: only the null process is in use, it runs with a full slice, every queue is empty; they satisfy the global invariant |
| Kernel.Xinu.Resched | Chapter5/resched.c:3-29 | The tables after the call are exactly the specified successor state, whether deferred, not switching or switching; what that state is, is said by `ChoiceLaw`, `LineLaw` and `FreshSlice` |
| Kernel.Xinu.ReschedCntl | Chapter5/resched.c:31-51 | Start, stop and any other argument: exact successor state and status; a stop outside deferral is refused |
| Kernel.Xinu.Ready | Chapter5/ready.c:5-18 | Exact successor state; a bad process is refused without effect |
| Kernel.Xinu.Wait | Chapter7/wait.c:3-31 | Exact successor state and status; a caller that blocks never finds the ready list empty |
| Kernel.Xinu.Signal | Chapter7/signal.c:3-26 | Exact successor state and status; with a negative count the queue is never empty |
| Kernel.Xinu.SemUp | Chapter7/signaln.c:15-17 | One round of the loop: exact successor state |
| Kernel.Xinu.SemReset | Chapter7/semreset.c:3-26 | The loop that empties the queue under deferral reaches exactly the specified state; errors change nothing |
| Kernel.Xinu.SemDelete | Chapter7/semdelete.c:3-28 | The loop that releases waiters by count reaches exactly the state of emptying the queue and leaving the count one above zero or above its old value |
| Kernel.Xinu.Wakeup | Chapter13/wakeup.c:3-11 | The drain loop reaches exactly the specified state |
| Kernel.Xinu.ClkHandler | Chapter13/clkhandler.c:12-14 | Exact successor state of a tick up to the context switch it may cause |
| Kernel.Xinu.ClkHandlerTail | Chapter13/clkhandler.c:16-19 | Exact successor state of the time-slice part, in the process that was interrupted |
| Kernel.Xinu.SleepMs | Chapter13/sleep.c:14-34 | Exact successor state, the zero delay included |
| Kernel.Xinu.Unsleep | Chapter13/unsleep.c:21-25 | Exact successor state; the successor's key does not overflow |
| Kernel.Xinu.Send | Chapter8/send.c:3-32 | Exact successor state and status; a full mailbox or a bad process changes nothing; that the receiver wakes is `SendWakes` |
| Kernel.Xinu.Receive | Chapter8/receive.c:9-14 | Exact successor state up to the context switch; a waiting message is returned at once |
| Kernel.Xinu.ReceiveTail | Chapter8/receive.c:16-19 | A process that resumes in `receive` always has a message, and that is what it returns |
| Kernel.Xinu.RecvClr | Chapter8/recvclr.c:3-20 | Returns and clears a pending message, otherwise changes nothing |
| Kernel.Xinu.RecvTime | Chapter13/recvtime.c:3-22 | Exact successor state up to the context switch; a negative time is refused |
| Kernel.Xinu.RecvTimeTail | Chapter13/recvtime.c:24-32 | On resumption: the message if there is one, otherwise TIMEOUT |
| Kernel.Xinu.Suspend | Chapter6/suspend.c:3-32 | Exact successor state; succeeds exactly for a ready or current process other than the null process and returns its priority |
| Kernel.Xinu.Resume | Chapter6/resume.c:3-25 | Exact successor state; succeeds exactly for a suspended process and returns its priority |
| Kernel.Xinu.Kill | Chapter6/kill.c:24-42 | Exact successor state for every process state; the null process and bad processes are refused |
| Kernel.Xinu.Create | Chapter6/create.c:20-38 | Refused exactly for a priority below one, a full process table or a failed `getstk`; otherwise the entry found becomes a suspended process with an empty mailbox, and no other entry changes |
| Kernel.Xinu.FindPid | Chapter6/create.c:84-98 | The search around the process table fails exactly when no entry is free |
| Kernel.Xinu.SemCreate | Chapter7/semcreate.c:5-19 | Refused exactly for a negative count or a full semaphore table; otherwise a free entry gets the count, with nobody waiting |
| Kernel.Xinu.FindSem | Chapter7/semcreate.c:21-37 | The search around the semaphore table fails exactly when no entry is free |
| Safety.RunSafety | Chapter5/resched.c:13-27 | In every state reachable from a good one: exactly one current process; ready, waiting and sleeping processes are on exactly the queue of their state; a negative count is the number of waiters; the null process is current or ready; a process blocked for a message has none; outside deferral nobody ready has a higher priority than the current process |
| Safety.DeferralHolds | Chapter5/resched.c:8-11 | Under any nesting of deferral no step, clock interrupts included, changes the current process; an attempt is noted if and only if the step calls for a choice (a process becomes ready, the current one gives up the processor, or its slice ends); only the outermost stop chooses, only if attempted, and then the highest priority runs |
| Safety.DeferredRun | Chapter5/resched.c:33-46 | Over every run without an outermost stop the current process stays current, and an attempt is on record if and only if one was before or some step of the run made one |
| Safety.DeferralSection | Chapter5/resched.c:31-46 | From the start of a deferral to its outermost stop nobody else runs; the stop reschedules if and only if some step in between called for a choice, and leaves the highest priority running either way |
| Wakeups.ExactWakeup | Chapter13/clkhandler.c:12-14 | A sleeper with deadline d is still asleep after any run with fewer than d ticks, and tick d makes it ready, whatever else happens and however other sleepers come and go |
| Wakeups.SleepsExactly | Chapter13/insertd.c:11-26 | A process that blocks in `sleepms` or `recvtime` with delay k of at least one wakes on exactly the k-th following tick |
| Wakeups.TickStep | Chapter13/wakeup.c:6-7 | With nobody overdue, one tick wakes whoever is due and brings everyone else exactly one tick closer |
| Wakeups.SleeperStep | Chapter13/unsleep.c:21-25 | No step but a tick moves the deadline of a sleeper that the step does not itself take off the queue |
| Wakeups.TicksExactIff | Chapter13/clkhandler.c:12-14 | A tick is exact for the processes still to be due if and only if the first sleeper is not already due |
| Wakeups.ZeroWaitDelays | Chapter13/recvtime.c:9-21 | If the tick comes while the caller of a blocking recvtime(0) is still queued, here as the very next step, every other sleeper waits one tick longer than it asked for |
| Wakeups.ZeroWaitUndone | Chapter13/unsleep.c:21-25 | If that caller is sent a message or killed before the tick, nobody is overdue any more |
| Wakeups.LostTick | Chapter13/clkhandler.c:13 | A head that is overdue absorbs a whole tick |
| Mailboxes.MailLaw | Chapter8/send.c:15-28 | For each step and process: what was pending and what is sent is what is taken and what stays pending |
| Mailboxes.MessagesConserved | Chapter8/receive.c:11-17 | Over every run the messages sent to a process are, in order and unchanged, those it has received and the one in its mailbox |
| Mailboxes.TimeoutIff | Chapter13/recvtime.c:15-29 | A `recvtime` with a time of at least one that blocked reports a timeout if and only if nothing was sent to it before it ran again, and then its time has passed; otherwise it returns the one message sent |
| Semaphores.SemStep | Chapter7/wait.c:21-27 | The effect of every step on the count and on the queue of a semaphore that it does not reset or delete |
| Semaphores.RunBalance | Chapter7/signal.c:20-22 | Over every run: the count moves by increments plus withdrawals minus waits, the queue by waits minus withdrawals minus completions |
| Semaphores.CompletedWaits | Chapter7/wait.c:21-27 | The waits completed are the smaller of the waits not withdrawn and the initial count plus the increments |
| Semaphores.CompletedSinceCreation | Chapter7/semcreate.c:5-19 | From the creation of a semaphore on, the waits completed are the smaller of the waits not withdrawn and the count it was created with plus the increments |
| Semaphores.FirstComeFirstServed | Chapter7/signal.c:20-22 | A waiter moves up one place exactly for each release or withdrawal ahead of it, and later arrivals never pass it |
| Semaphores.NextInLine | Chapter7/signaln.c:15-17 | The first waiter is the one that the next increment makes ready |
| Semaphores.EmptiedHere | Chapter7/semreset.c:19-23 | Emptying leaves exactly the count asked for and nobody waiting |
| Semaphores.EmptiedSem | Chapter7/semdelete.c:20-24 | Emptying one semaphore leaves every other one alone |
| RoundRobin.RingExists | Chapter5/resched.c:15-25 | Every state outside deferral has a ring: the current process and the ready processes of its priority, in turn order |
| RoundRobin.RotateOnce | Chapter4/insert.c:10-19 | One rescheduling step rotates the ring by one |
| RoundRobin.RoundRobinOrder | Chapter5/resched.c:15-25 | The i-th of n consecutive rescheduling steps runs the i-th of the n tied processes, and after n steps the ring is back where it was |
| RoundRobin.RingDistinct | Chapter5/resched.c:15-25 | The processes of the ring are distinct |
| TimeSlices.SliceLasts | Chapter13/clkhandler.c:16 | Before its slice is over, ticks with nobody asleep do nothing to a running process but shorten the slice |
| TimeSlices.SliceEnds | Chapter13/clkhandler.c:16-19 | The last tick of a slice makes the dispatcher choose anew, with a full slice for the winner |
| TimeSlices.TurnsOfOneQuantum | Chapter5/resched.c:23-26 | With n processes tied at the top and only the clock running, the i-th turn belongs to the i-th process of the ring, lasts exactly QUANTUM ticks and is followed by the next turn |
| Transitions.StepLaw | Chapter5/resched.c:8-27 | For every step, process and semaphore, in terms of the old state alone: the state the process is left in, its priority, the semaphore it waits on and the code it has still to run; the count and state of the semaphore; the deferral depth; the time slice. `Law` names no step function |
| Transitions.ChoiceLaw | Chapter5/resched.c:8-25 | Who runs after any step: nobody else under deferral or without a call of `resched`; with one, a process of the highest priority, the current one only if nobody ready has that priority or more, and the first in line otherwise |
| Transitions.LineLaw | Chapter4/insert.c:10-19 | No step lets a process overtake another of its priority on the ready list; whoever becomes ready goes behind its equals |
| Transitions.SendWakes | Chapter8/send.c:21-28 | A process blocked in `receive` or `recvtime` is ready or running after the first message sent to it |
| Transitions.KillFrees | Chapter6/kill.c:24-40 | A killed process is PR_FREE and on no queue, whatever its state was |
| Transitions.FreshSlice | Chapter5/resched.c:23-26 | A step that switches to another process leaves a full time slice |
| Transitions.SliceOverRun | Chapter13/clkhandler.c:16-19 | Over every run in which the current process stays current only the ends of clock interrupts shorten its slice, one tick each, and at zero it is full again |
| Transitions.TurnSlice | Chapter13/clkhandler.c:16-19 | From the step that switches a process in, its slice is QUANTUM less the ticks that have ended since |
| Transitions.StaysPut | Chapter8/receive.c:11-14 | Over every run: a process leaves PR_RECV only by a message sent to it or by its kill, PR_SUSP only by a resume or its kill, PR_FREE only by its creation |
| Transitions.InTurn | Chapter5/resched.c:20-23 | Over every run in which p stays ready, nobody of its priority that is behind it, or not yet on the ready list, runs |
| PortRuns.FirstFree | Chapter11/ptcreate.c:16-22 | The port found is the first free one around the table from ptnextid on; none is found only if there is none |
| PortRuns.NoPortIff | Chapter11/ptcreate.c:16-35 | The search around the table fails if and only if no port is free |
| PortRuns.CreateLawIff | Chapter11/ptcreate.c:24-28 | A created port satisfies the sender law if and only if the count fits the 16-bit bound; it always satisfies the receiver law |
| PortRuns.BoundExceeded | Chapter11/ptcreate.c:28 | With a count of 65536 the stored bound is 0 and the first message exceeds it |
| Ports.LawBounds | Chapter11/ptsend.c:17-39 | From the laws: the buffer with the senders in flight stays within the bound, and holds a message for every receiver in flight and for a positive receiver count |
| Ports.HeadFound | Chapter11/ptrecv.c:23-24 | A receiver that has passed its test, at once or after blocking, finds a message at the head |
| Ports.AppendOk | Chapter11/ptsend.c:26-39 | The end of `ptsend` gives back to the sender law the token taken by `wait` and keeps the receiver law |
| Ports.HeadOk | Chapter11/ptrecv.c:23-32 | The end of `ptrecv` gives back to the receiver law the token taken by `wait` and keeps the sender law |
| Ports.RevalidatesIff | Chapter11/ptsend.c:18 | With fewer than 2^32 clears meanwhile, the test behind `wait` passes exactly for calls begun since the last clear |
| Ports.ClearingKeeps | Chapter11/ptclear.c:20-29 | Each part of a clear keeps the invariant, whatever runs between the parts; the port that comes back into use satisfies the laws again |
| Ports.StepKeeps | Chapter11/ptsend.c:17-39 | Every step of every process, in any interleaving, keeps both laws of every port and follows no NULL head |
| PortRuns.RunSafe | Chapter11/ptclear.c:7-29 | Over every run both laws hold up to the tokens of processes killed in flight, exactly when there are none; no buffer exceeds its bound; no receiver follows a NULL head |
| PortRuns.StartInv | Chapter11/ptinit.c:16-20 | The state after initialisation satisfies the invariant |
| PortRuns.NodesConserved | Chapter11/ptclear.c:16-17 | Over every run the free and queued nodes are together exactly the nodes of the start |
| PortRuns.EnoughNodes | Chapter11/ptsend.c:23-24 | No panic for want of a node while the bounds of the ports in use do not exceed the number of nodes |
| PortRuns.FirstInFirstOut | Chapter11/ptrecv.c:23-31 | Over every run without a clear of the port: what receivers got, then what is in the buffer, is what was in the buffer, then what senders put in |
| PortRuns.InterruptedCallFails | Chapter11/ptclear.c:9 | A call that was inside a port when a clear of it began changes no port and no node afterwards |
| PortRuns.LimboAlone | Chapter11/ptclear.c:7-17 | While a port is in limbo only the clear itself changes its buffer, state and sequence number |
| PortRuns.WrapIff | Chapter11/ptsend.c:17-18 | With the sequence number wrapping, the test passes if and only if the clears and creations since are a multiple of 2^32 |
| PortLaws.StepLaw | Chapter11/ptsend.c:11-40 | For every step, port and process, in terms of the old state: state, sequence number and bound of the port, who waits on its two semaphores and in which order, and with which message and sequence number a process is inside a call |
| PortLaws.ResetComesBack | Chapter11/ptreset.c:14 | From a reset of a usable port, over every run up to the step that ends the clear: the port is allocated, its sequence number is one higher, its buffer is empty, its sender semaphore has its bound and its receiver semaphore zero, and nobody waits on either |
| PortLaws.DeleteFrees | Chapter11/ptdelete.c:14-15 | From a deletion, over every run up to the step that ends the clear: the port is free under the next sequence number, empty and with nobody waiting, and the next search begins at it |
| PortLaws.ClearEnds | Chapter11/ptclear.c:10-29 | From every state in which a port is in limbo the remaining parts of the clear can run to its end |
| PortSemaphores.KernelSemaphore | Chapter7/wait.c:21-26 | Every kernel step does to a semaphore exactly what the port model assumes of `wait`, `signal`, `semreset`, `semdelete` and `kill` |
| PortNodes.AppendTable | Chapter11/ptsend.c:26-37 | The pointer writes of the append leave all chains and queues disjoint and well formed and add the message at the tail |
| PortNodes.HeadTable | Chapter11/ptrecv.c:23-31 | The pointer writes of the removal return the head node to the free list, the last node's case included |
| PortNodes.SpliceTable | Chapter11/ptclear.c:16-21 | Splicing a whole queue in front of the free list keeps all chains well formed |
| PortTable.PortSystem.PtInit | Chapter11/ptinit.c:16-25 | The loops chain every node once into the free list |
| PortTable.PortSystem.PtSend | Chapter11/ptsend.c:11-40 | Exact successor state up to the context switch; which callers are refused, block or panic |
| PortTable.PortSystem.PtSendTail | Chapter11/ptsend.c:18-40 | Exact successor state after the release; refused exactly when the test fails |
| PortTable.PortSystem.PtRecv | Chapter11/ptrecv.c:11-34 | Exact successor state up to the context switch; the message returned is the head of the buffer |
| PortTable.PortSystem.PtRecvTail | Chapter11/ptrecv.c:18-34 | Exact successor state after the release; the message returned is the head of the buffer |
| PortTable.PortSystem.PtCreate | Chapter11/ptcreate.c:10-35 | Exact successor state for every count, and the invariant for every count below 65536 (see `CreateLawIff`); fails exactly for a negative count or when no port is free |
| PortTable.PortSystem.ClearBegin | Chapter11/ptclear.c:7-9 | Exact successor state; refused exactly for a port that is not allocated; what becomes of the port is said by `ResetComesBack` and `DeleteFrees` |
| PortTable.PortSystem.ClearQueue | Chapter11/ptclear.c:10-21 | The messages are disposed of in buffer order, each once, and all nodes become free |
| PortTable.PortSystem.ClearSenders | Chapter11/ptclear.c:22-25 | Exact successor state of the first reset or deletion |
| PortTable.PortSystem.ClearReceivers | Chapter11/ptclear.c:23-26 | Exact successor state of the second reset or deletion |
| PortTable.PortSystem.ClearEnd | Chapter11/ptdelete.c:14-15 | Exact successor state at the end of a reset or of a deletion |
| PortTable.PortSystem.PtReset | Chapter11/ptreset.c:9-16 | A reset during which no other process runs: the port is allocated, empty and with the semaphores of a new port of its bound, its nodes are free, its messages were disposed of in order, and nothing else changed |
| PortTable.PortSystem.PtDelete | Chapter11/ptdelete.c:9-17 | A deletion during which no other process runs: the port is free, its nodes are free, its messages were disposed of in order, the next search begins at it, and nothing else changed |
| FsDisk.DistinctPlaces | Chapter19/lfilesys.h:84-87 | Two different index blocks share no word of the disk |
| FsDisk.PutGet | Chapter19/lfibput.c:11-22 | An index block put is read back, and every other index block, in the same sector or not, is unchanged |
| FsState.RunPartition | Chapter19/lfsetup.c:59-94 | Over every run of setups, truncations and new files each index block is free or on exactly one chain, each data block is free or referenced exactly once, and none is lost |
| FsState.SetupCovers | Chapter19/lfsetup.c:59-100 | After a setup the chain covers the position and its entry is not null; earlier blocks and entries and other files are the same; a second setup changes nothing |
| FsState.PanicsIff | Chapter19/lfiballoc.c:8-10 | A setup fails if and only if the free index blocks do not reach the position, or the entry is missing or null and no data block is free |
| FsState.GrownIs | Chapter19/lfsetup.c:62-72 | Extension appends the first free index blocks, in order, as many as are needed, and touches nothing else |
| FsState.TruncatedKeeps | Chapter19/lftruncate.c:38-64 | Truncation conserves every block |
| FsState.TruncateThenSetup | Chapter19/lftruncate.c:60-64 | After a truncation the next setup reuses the first index block and the last data block of the file |
| FsOps.FlushOk | Chapter19/lfflush.c:15-24 | A flush keeps the represented files and writes at most the file's own index block and data block |
| FsOps.NewBlockOk | Chapter19/lfsetup.c:64-71 | A new index block, linked behind the last one on disk and so far only in memory, represents the chain extended by the first free block |
| FsOps.LoadOk | Chapter19/lfsetup.c:75-76 | Loading any block of the chain keeps the represented files |
| FsOps.NewDataOk | Chapter19/lfdballoc.c:8-18 | A data block allocated for a null entry represents that entry filled from the free list |
| FsTrunc.WalkStep | Chapter19/lftruncate.c:41-57 | One round of the walk frees the data blocks of one index block, clears it and links it, and disturbs no other block |
| FsTrunc.WalkEnd | Chapter19/lftruncate.c:60-64 | At the end of the walk the free lists and all other files are well formed |
| FileSys.LocalFs.LfIbGet | Chapter19/lfibget.c:3-17 | The copy loop extracts exactly the index block |
| FileSys.LocalFs.LfIbPut | Chapter19/lfibput.c:3-24 | The copy loop replaces exactly the index block in its sector |
| FileSys.LocalFs.LfIbClear | Chapter19/lfibclear.c:3-13 | The loop clears every entry |
| FileSys.LocalFs.LfIbAlloc | Chapter19/lfiballoc.c:8-21 | Pops the list of free index blocks |
| FileSys.LocalFs.LfDbAlloc | Chapter19/lfdballoc.c:8-23 | Pops the list of free data blocks and clears the buffer |
| FileSys.LocalFs.LfDbFree | Chapter19/lfdbfree.c:8-14 | Pushes a data block on the free list on disk |
| FileSys.LocalFs.LfFlush | Chapter19/lfflush.c:3-27 | Exact successor state, the mark that stays set included; the current data sector holds the buffer if it was marked, and no other data sector is written, given a disk that ignores a write to block -1 |
| FileSys.LocalFs.LfSetup | Chapter19/lfsetup.c:12-106 | Fails only for want of a block; otherwise the index block in memory is number position / 8192 of the chain and the data block is entry (position mod 8192) / 512 of it, chain and entry extended from the free lists where missing; a marked buffer has been written to its sector and no other data sector is written; the buffer holds zeros if the entry was null, is left alone if the block was there, and is read from the disk otherwise |
| FileSys.LocalFs.Walk | Chapter19/lfsetup.c:59-79 | The walk terminates at the index block that covers the position, extending the chain where it ends |
| FileSys.LocalFs.SelectData | Chapter19/lfsetup.c:84-100 | The data block is the entry of the position, allocated if it was null; the buffer holds zeros for a new block, is left alone if the block was there, and is read from the disk otherwise |
| FileSys.LocalFs.LfTruncate | Chapter19/lftruncate.c:13-67 | The walk terminates, with an empty free list too; the list of free index blocks becomes the chain then the old list, that of data blocks the file's data blocks in reverse then the old list; no data sector of another file is written; a file of size 0 is left alone |
| FileSys.LocalFs.LfsCreate | Chapter19/lfscreate.c:16-57 | Fails exactly when the index blocks take more than half the disk; otherwise both free lists hold all blocks in order |
| FileSys.LocalFs.LfNewFile | Chapter19/lfsopen.c:101-112 | Adds an empty file unless the directory is full |
| FileSys.LocalFs.LflSeek | Chapter19/lflseek.c:15-24 | The position moves, and an offset beyond the size is refused |
| FileSys.LocalFs.StoreBuffer | Chapter19/lflputc.c:36-38 | A change of the buffer marks it, and changes nothing else |
| FileSys.LocalFs.Reopen | Chapter19/lflclose.c:17-19 | Closing writes both blocks back; opening forgets them and starts at position 0 |
| FsContents.FlushedSectors | Chapter19/lfflush.c:15-18 | After a flush each data sector holds what it held, but the current one holds the buffer if that was marked |
| FsContents.SetupEntries | Chapter19/lfsetup.c:84-94 | A setup gives the missing entry for the position the first free data block, and changes no other entry of any file |
| FsContents.EntryApart | Chapter19/lfdballoc.c:8-18 | No two block numbers of one file or of two files share a data block |
| FsFiles.StepRefines | Chapter19/lfsetup.c:12-106 | Setup, store, seek, flush, truncation, close and open, and creation do to the files that the disk, the directory and the buffers represent what they do to plain files, each a map from block numbers to sectors |
| FsFiles.RunRefines | Chapter19/lfsetup.c:12-106 | Over every run in which each block newly taken under a clear mark is stored into at once, the represented files are at the end what plain files are after the same operations |
| FsFiles.StoredComesBack | Chapter19/lfsetup.c:86-100 | What is stored into a block is back in the buffer after every such run that ends with a setup of the same block, whatever other blocks and files were set up, stored into, flushed, closed or truncated |
| FsFiles.EveryStoreShows | Chapter19/lfilesys.h:122-138 | Every well-formed store represents some plain files |
| FsFiles.SetupSyncedIff | Chapter19/lfsetup.c:89-94 | The buffer after a setup is marked or equal to its sector if and only if the setup did not take a new block under a clear mark |
| FsFiles.SetupKeepsIff | Chapter19/lfsetup.c:95-100 | A setup keeps what every data block of the file holds if and only if the buffer was marked or equal to its sector, or stays where it is |
| FsFiles.BareBlockLost | Chapter19/lfsetup.c:89-94 | A block taken under a clear mark has lost its zeros after a setup of another block |
| FsFiles.BareBlockReopened | Chapter19/lfsetup.c:89-98 | A block taken under a clear mark holds the link of the free list after the file was closed, opened and set up again |
| FileSys.ZerosLost | Chapter19/lfsetup.c:89-98 | The input: a new disk of four sectors with one file; the first setup gives zeros, and after closing and opening the second finds 3, the number of the next free block |
| FreeList.RoundMbIff | Chapter9/memory.h:8 | The macro yields the least multiple of eight not below x if and only if x does not exceed 2^64 - 8 |
| FreeList.ClashesIffOverlaps | Chapter9/freemem.c:18-33 | The test against two neighbours holds if and only if the block overlaps some free block anywhere |
| FreeList.GiveBackOrdered | Chapter9/freemem.c:35-44 | A block that passes the test goes back without breaking order or disjointness |
| FreeList.GiveBackBytes | Chapter9/freemem.c:35-44 | Freeing adds exactly the bytes of the block to the free bytes |
| FreeList.CutFrontBytes | Chapter9/getmem.c:20-33 | First fit takes exactly the lowest bytes of the block found out of the free bytes |
| FreeList.CutBackBytes | Chapter9/getstk.c:36-41 | Last fit takes exactly the highest bytes of the block found out of the free bytes |
| HeapRuns.StepKeeps | Chapter9/getstk.c:15-45 | Every call keeps the partition of the heap into free and allocated blocks, alignment included |
| HeapRuns.HeapPartitioned | Chapter9/getmem.c:14-42 | After any sequence of allocations of any size and of frees of allocated blocks, free and allocated blocks partition the heap; the free list is ordered, disjoint and aligned |
| HeapRuns.BytesConserved | Chapter9/freemem.c:35-44 | After any sequence of allocations of any size and of frees of allocated blocks, the bytes on the free list and the bytes handed out are together as many as before |
| HeapRuns.StartPartition | Chapter9/memory.h:21-23 | A heap that is one aligned free block, with nothing handed out, satisfies the partition and accounts for all its bytes |
| HeapRuns.ReturnKeeps | Chapter9/freemem.c:30-33 | A block handed out is never rejected |
| HeapRuns.GetMemHandsIff | Chapter9/getmem.c:14 | A successful `getmem` takes all the bytes asked for off the free bytes if and only if the size does not exceed 2^64 - 8 |
| HeapRuns.LargestRequest | Chapter9/getmem.c:14 | A request for 2^64 - 1 bytes succeeds on a heap of eight bytes and takes nothing |
| HeapRuns.DoubleFreeRejected | Chapter9/freemem.c:30-33 | A block freed once is rejected by a second free |
| HeapRuns.GetMemRoundTrip | Chapter9/getmem.c:20-33 | Allocation then freeing is accepted and restores the free bytes |
| HeapRuns.GetStkRoundTrip | Chapter9/memory.h:11-14 | Stack allocation then freeing, with the address the macro computes, is accepted and restores the free bytes |
| HeapRuns.GetStkListIff | Chapter9/getstk.c:36-45 | The node list itself is restored if and only if a node was split, or a whole node was taken that did not touch its predecessor |
| HeapRuns.GetMemListIff | Chapter9/getmem.c:20-33 | The node list itself is restored if and only if a whole node was taken that did not touch its predecessor |
| Heap.FreeMemory.GetMem | Chapter9/getmem.c:3-42 | On the linked list: fails exactly when no single free block is large enough, otherwise takes the lowest bytes of the first that fits; hands out all the bytes asked for if and only if the size does not exceed 2^64 - 8; the list head keeps the number of free bytes |
| Heap.FreeMemory.GetStk | Chapter9/getstk.c:3-46 | On the linked list: fails exactly when no single free block is large enough, otherwise takes the highest bytes of the last that fits; the pointer leads back to the block |
| Heap.FreeMemory.FreeMem | Chapter9/freemem.c:3-47 | On the linked list: rejects exactly the blocks that overlap a free block or lie outside, otherwise returns the block, joined downwards |
| Heap.FreeMemory.FreeStk | Chapter9/memory.h:11-14 | Frees exactly the block below the pointer, or refuses it when it is empty, outside the heap or overlaps a free block |
| Heap.UnlinkOk | Chapter9/getmem.c:21-22 | Unlinking a node keeps the list, its order and the byte count of the head |
| Heap.ReplaceOk | Chapter9/getmem.c:27-31 | Replacing a node by a part of it keeps the list, its order and the byte count of the head |
| Heap.PutBackOk | Chapter9/freemem.c:35-44 | Extending a node or linking a new one keeps the list, its order and the byte count of the head |
| Checksum.SealedSum | Chapter17/ip.c:235-250 | Adding the checksum of a sum to the sum gives checksum zero, although carries are folded once |
| Checksum.SealAccepted | Chapter17/ip.c:206-208 | Every header sealed on output is accepted on input, and only the checksum field differs |
| Checksum.AcceptsIff | Chapter17/ip.c:14 | A header is accepted if and only if its sum is divisible by 65535, as in section 1 of RFC 1071, or would leave one more carry equal to the modulus |
| Checksum.MatchesRfcIff | Chapter17/ip.c:242-247 | The value is that of section 1 of RFC 1071 if and only if the sum is not zero and one fold leaves no carry |
| Checksum.SealedForRfcIff | Chapter17/ip.c:206-208 | A receiver that follows RFC 1071 accepts a header sealed here if and only if the same condition holds |
| Checksum.FoldAllIs | Chapter17/ip.c:242-243 | Folding all carries, as RFC 1071 does, is the residue modulo 65535 |
| Checksum.IpCksum | Chapter17/ip.c:227-250 | The loop computes the one-fold checksum of the ten words |
| Checksum.Seal | Chapter17/ip.c:206-208 | The field is zeroed, computed and stored; the result is accepted |
| Checksum.Verify | Chapter17/ip.c:14 | Returns whether the header is accepted, by the exact condition |

## Left out
Kernel:

- Assembly, stack layout, interrupt vectors, device drivers and console: hardware.
- `chprio`: it does not reposition a ready process, so the ready list would no longer be sorted.
- In runs, `create` and `semcreate` name the free entry that they take; the searches of `newpid` and `newsem` are in the class.
- A semaphore is never free again once it has been created, because `semdelete` does not mark it free.
- `signaln`: each round of its loop is a separate step, because it does not defer and may be switched out between rounds.
- `kill`: its message to the parent, closing of descriptors, release of the stack and shutdown with the last process.
- `clktime` and the count of ticks per second: they influence nothing that is modelled.
- `yield` is not part of the repository; it is modelled as a call of `resched`.
- Semaphore counts are unbounded: the int32 counter of a semaphore would need 2^31 increments or decrements to wrap.
- Queue numbers and process numbers are unbounded, where the source uses 16-bit integers.
- QueueTable.QueueTab.InsertD: takes a delay and deltas that are not negative, as every caller but a `sleepms` of more than 2^31 - 1 ticks passes them.
- Kernel.Xinu.SleepMs: takes an int32 delay; what happens to larger delays is stated by `DelayFitsIff`.
- QueueTable.QueueTab.NewQueue: requires room for two cells, because the guard at Chapter4/newqueue.c:9 admits a queue beyond the end.
- Buffer pools, threads, name mapping, terminal driver, remote disk and file clients, DHCP, UDP and ARP: separate components.

Ports:

- Failure of `semcreate` inside `ptcreate`: the semaphore table is assumed not to be full.
- Fewer than 2^32 clears and creations of a port happen while one process is inside a call on it; `WrapIff` says exactly what more would do.
- `dispose` is not modelled beyond the messages it is given; other processes may run before and after the loop that calls it.
- The link of `kill` to the semaphores of a port is in the step functions and in `KernelSemaphore`, not in the port class.

File system:

- Byte positions within a data block, and reading and writing of bytes: the byte mask at Chapter19/lfilesys.h:67 and the test at Chapter19/lflputc.c:19 make them fail as written. A store is any change of the buffer.
- FileSys.LocalFs.LfFlush: assumes of the disk that a write to block -1, which Chapter19/lfflush.c:15-16 can ask for, changes nothing.
- FsFiles.RunRefines: takes runs in which a block newly taken under a clear mark is stored into at once; `SetupKeepsIff` and `SetupSyncedIff` say exactly what happens otherwise.
- The copy of the directory in sector 0, crashes and failing disk operations.
- Names, modes and the search for an open file: each file has one control block of its own, so it has at most one opener.
- The mutual exclusion around `lfsetup`: each call is one step.
- FileSys.LocalFs.LfsCreate: requires at least one index block and one data block; with none the loops of the source run past their ends.
- FileSys.LocalFs.LfTruncate: requires that a file with a size has an index block; the source would otherwise follow a null block number.

Heap:

- The size of a header: headers are kept by address, so the header of a block smaller than itself overlaps nothing here.
- The 32-bit width of `mlength`, against 64-bit sizes: lengths are unbounded, which is the same for a heap below 2^32 bytes.
- The code that sets up the first free block is not part of this model; `StartPartition` says what it must leave.
- Heap.FreeMemory.FreeMem: requires that the block ends within the heap, which the source does not test; sizes that wrap are excluded.
- Full coalescing: it does not hold of the code.

Checksum:

- The conversion of other header fields, and the checksums of UDP and ICMP.
- Checksum.Htons: exchanges bytes, as on a little-endian machine; `htons` itself is not part of this model.
