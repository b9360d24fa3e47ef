# Muffin OS, verified in Dafny

A model of the parts of the Muffin OS kernel that are hard to get right, and proofs of what its
comments, documentation and tests promise about them. `dafny verify dfyconfig.toml` checks all of it.

- **Blocking and scheduling.** `ParkingLot`, `Scheduler`, `ProcessWaits` and `Cleanup` are step
  machines at the granularity of one atomic operation or one lock-protected section, sequentially
  consistent, with any number of CPUs, tasks, wakers and slots. A run is any interleaving from boot.
  The last three take a whole park or unpark as one step on a slot (`ParkSlot`), and
  `ParkingLotStages` proves that every run of the lot is one of such steps for each reservation.
  The `...Proof` modules prove what holds in every state of every run. The `...Calls` modules write
  the calls themselves as code over the shared state, with arbitrary steps of all other parties
  between any two of their own, and prove what each call returns and leaves behind.
- **Signals.** `Signals` is the per-process signal state of section 2.4.1 (Signal Generation and
  Delivery) of POSIX.1-2024 XSH as a class, proved against functions on its value; `SignalRuns` puts
  the lock, the stop tickets and the timer tick around it and proves safety over every run. `SigFrame`
  is the frame on the user stack, its encoding, and the pairing of handler entries and returns.
- **ext2.** `Ext2Tree` is the uncached walk of the block pointer tree, `Ext2Scan` which blocks a
  scan fetches through the move-to-front cache, `Ext2Read` the cached code, `Ext2File` the
  run-coalescing file read, `Ext2Wrap` what it does from 4 GiB on, `Ext2Dir` directory blocks.
  `BlockDevice` is the byte layer over sectors underneath, and the virtio driver's chunked read.
- **Allocators.** `PhysicalMemory` and `VirtualMemory`: first-fit with shortcuts, against exhaustive
  search.
- **Process entry.** `ExecStack` is the entry stack of section 3.4.1 (Initial Stack and Register
  State) of the System V AMD64 psABI, written by the kernel and read back by the start code;
  `ExecArgs` is the argument budget.

Rust arithmetic that overflows panics in a build with overflow checks and wraps in the optimised
one. The repository sets neither, covers both in its workflow (`.github/workflows/build.yml:42`) and
builds its images optimised (`.github/workflows/build.yml:129`). The Overflow results and clauses of
the model describe the checked build; for the offset of a block or a run of blocks, where the
optimised build goes on elsewhere on the disk, `Ext2Read.WrapExact` says exactly when the two agree.

Five promises turn out not to hold everywhere, and each has a failing run or input and a contract that
says exactly when it does hold: a stack pointer past the user half survives handler entry but not the
return (`SigFrame.NonCanonicalStackPointer`, `SigFrame.MatchingReturn`), reads at 4 GiB and beyond
deliver earlier bytes (`Ext2Wrap.ReadWrongByte`, `Ext2File.ReadFromFile`), a block write that reaches
into a readable next block leaves the cache stale (`Ext2Read.WriteUnderCache`, `Ext2Read.WriteExact`;
every present caller writes at most one block: kernel/ext2/src/write.rs:67, kernel/ext2/src/dir.rs:145,
kernel/ext2/src/lib.rs:249), with types on disk a name of more than 255 bytes is cut and can be listed
twice (`Ext2Dir.LongNamesCollide`, `Ext2Dir.Directory.AddEntry`, `Ext2Dir.RoundTripExact`), and a
parked task is woken for a signal that is generated but not for one that a sibling's change of the
process-wide mask or of an action uncovers (`SignalRuns.UnblockingInterrupts`, `SignalRuns.StepStarts`).

## Model

| member | source | states |
|---|---|---|
| `ParkingLotProof.RunSafe` | kernel/park/src/lib.rs:136-524 | In every state of every interleaving of reservers, parkers, unparkers, waker clones and ticket cells: no slot has two park or two unpark rights, nobody can act on a slot for a reservation that no longer holds it, each value given to `park` is handed back at most once and is otherwise in exactly one of an occupied slot and an unfinished `park`, and a claimed slot keeps the rights that can finish it unless they were dropped |
| `ParkingLotProof.RunInv` | kernel/park/src/lib.rs:75-524 | Every step of every party keeps the lot's invariant, from the empty lot on, across segment growth and slot reuse |
| `ParkingLotProof.InvOnce` | kernel/park/src/lib.rs:260-335 | A given value is returned, resting or carried, and never two of these |
| `ParkingLotProof.RunChain` | kernel/park/src/lib.rs:75-99 | Every slot of every published segment is reached by following `next` from the head, whoever won the appending exchanges |
| `ParkingLotStages.RunStages` | kernel/park/src/lib.rs:136-336 | Seen from one reservation, every step of every run is a whole park, a whole unpark or a release of its slot, or nothing; a value goes in with the park and comes out of the lot with the operation that frees the slot, to the unparker if it had been parked and to the parker if it bounced |
| `ParkingLotStages.RunStarts` | kernel/park/src/lib.rs:136-182 | A new reservation starts out reserved in exactly one slot, and had none before |
| `ParkingLotCalls.Shared.Park` | kernel/park/src/lib.rs:265-291 | `park` with any other parties at work between its operations: it leaves exactly the caller's value in the slot of the caller's reservation, or gives exactly that value back |
| `ParkingLotCalls.Shared.Unpark` | kernel/park/src/lib.rs:315-336 | `unpark` likewise: it returns the value given to its own reservation, or leaves the slot so that the coming park bounces |
| `ParkingLotCalls.Shared.Wake` | kernel/park/src/lib.rs:373-386 | The first clone unparks; a clone of a fired waker changes nothing at all and returns nothing |
| `ParkingLotCalls.Shared.Reserve` | kernel/park/src/lib.rs:136-166 | `reserve` and `try_reserve` end under any finite interference; `reserve` always claims a slot; undisturbed, a segment is appended, or the try fails, exactly when no slot of the lot is free |
| `ParkingLotCalls.Shared.Claim` | kernel/park/src/lib.rs:168-182 | One segment in order: undisturbed it claims a slot exactly when the segment has a free one |
| `ParkingLotCalls.Shared.NextSegment` | kernel/park/src/lib.rs:75-99 | Moves to the successor or appends one; the loser of the exchange follows the winner |
| `ParkingLotCalls.NoneBetween` | kernel/park/src/lib.rs:75-99 | No published segment lies between a segment and its successor, so the scan misses none |
| `SchedulerProof.RunSafe` | kernel/boot/src/mcore/mtask/scheduler/mod.rs:62-184 | In every state of every multi-CPU run: each live task is found in exactly one place, whatever may be resumed has its stack pointer stored while a task routed to cleanup has not, each CPU's idle task is on that CPU and is a target whenever the current task must leave, and every park ticket is either in the cell of a running task or carried to its park, with its wake right in existence exactly while it is needed |
| `SchedulerProof.RunInv` | kernel/boot/src/mcore/mtask/scheduler/mod.rs:62-184 | Every step of every CPU, waker, creator and of the cleanup task keeps the scheduler's invariant, whatever happens to the termination flag in between |
| `SchedulerProof.InvOnePlace` | kernel/boot/src/mcore/mtask/scheduler/mod.rs:62-151 | No live task is lost or doubled between the CPUs, the queues, the lot and the hands of wakers |
| `SchedulerProof.InvSaved` | kernel/boot/src/mcore/mtask/scheduler/mod.rs:83-127 | Run queue, lot, idle slots and picked tasks hold only tasks whose stack pointer was saved; a zombie was saved exactly if its disposal is not Terminate |
| `SchedulerProof.InvIdle` | kernel/boot/src/mcore/mtask/scheduler/mod.rs:34-38 | The idle task never leaves its CPU, and a task that must leave always finds a target |
| `SchedulerProof.EarlyReturn` | kernel/boot/src/mcore/mtask/scheduler/mod.rs:70-80 | A `reschedule` that returns at once on a CPU with an idle task leaves no ticket in the cell |
| `SchedulerProof.Resumption` | kernel/boot/src/mcore/mtask/wait.rs:50-62 | A task that is switched in resumes from a stored stack pointer with an empty ticket cell |
| `SchedulerProof.RunSlots` | kernel/boot/src/mcore/mtask/scheduler/mod.rs:136-151 | In every run the scheduler takes each slot through parks and unparks only, as the lot does |
| `SchedulerCalls.Kernel.Reschedule` | kernel/boot/src/mcore/mtask/scheduler/mod.rs:62-134 | The call on one CPU with all others at work between its steps: if it switches, the old task becomes the zombie with exactly the park it had a ticket for, the ticket is out of the cell and another task runs; if it does not, the current task need not leave; with an idle task installed a task with a ticket always leaves |
| `SchedulerCalls.Kernel.BlockCurrent` | kernel/boot/src/mcore/mtask/wait.rs:50-62 | With an idle task installed the blocking task is off the CPU and its next routing parks it in the slot it reserved |
| `SchedulerCalls.Kernel.FindTarget` | kernel/boot/src/mcore/mtask/scheduler/mod.rs:65-80 | Routing and `next_task`: the current task, its ticket and the CPU's idle task are as they were, and nothing is found only if the task can stay or there is no idle task |
| `SchedulerCalls.Kernel.NextTask` | kernel/boot/src/mcore/mtask/scheduler/mod.rs:176-184 | Fails only if the current task can stay or the CPU has no idle task |
| `SchedulerCalls.Kernel.SwitchTo` | kernel/boot/src/mcore/mtask/scheduler/mod.rs:82-134 | The disposal put in the zombie slot matches the ticket the task had before the call |
| `SchedulerCalls.TicketStays` | kernel/boot/src/mcore/mtask/task/mod.rs:280-293 | No step of another CPU changes the ticket cell of a task that is in `reschedule` |
| `ProcessWaitsProof.RunSafe` | kernel/boot/src/mcore/mtask/process/mod.rs:357-480 | In every state of every run: a parked task is listed or its waker is on its way; it is not left parked on an event, an exec reap or a deadline without somebody still to take the list, fire it or sweep it; the live count is the number of tasks; at most one task is a reaper; a reaper parked as the last task has its waker on its way; and both sides of every park exchange find a slot state they expect |
| `ProcessWaitsProof.RunInv` | kernel/boot/src/mcore/mtask/process/mod.rs:357-480 | Every one of the 33 kinds of step keeps the invariant of waits, wakers and accounting |
| `ProcessWaitsProof.RunQuiescent` | kernel/boot/src/mcore/mtask/process/mod.rs:365-409 | With every generator, sweep and reaper at rest, a task still parked has no event and no reap to wake for, is listed for the next generator, and its deadline is armed |
| `ProcessWaitsProof.RunSole` | kernel/boot/src/mcore/mtask/process/mod.rs:442-480 | The token of a finished reap is issued only to the one task that is left, while its reap is active |
| `ProcessWaitsProof.HandIsOnItsWay` | kernel/boot/src/mcore/mtask/process/mod.rs:365-370 | A waker taken from the list is in some thread's batch or about to exchange its slot for as long as its task is parked |
| `ProcessWaitsProof.AccountRetire` | kernel/boot/src/mcore/mtask/process/mod.rs:415-424 | The sibling whose retirement leaves one task takes the reaper's waker, so no reaper is stranded |
| `ProcessWaitsProof.AccountClaim` | kernel/boot/src/mcore/mtask/process/mod.rs:442-458 | The first claim makes the caller the only keeper |
| `ProcessWaitsProof.RunSlots` | kernel/boot/src/mcore/mtask/process/mod.rs:390-408 | In every run the waits take each slot through parks and unparks only, as the lot does |
| `ProcessWaitsCalls.Kernel.WakeInterruptible` | kernel/boot/src/mcore/mtask/process/mod.rs:365-370 | With everybody else at work in between: when it is done every waker that was listed has been fired, and no task listed then is still parked unless another thread is about to exchange its slot |
| `ProcessWaitsCalls.Kernel.RetireTask` | kernel/boot/src/mcore/mtask/process/mod.rs:415-424 | When the last sibling is retired the reaper's waker has been fired; any other retirement only counts down |
| `ProcessWaitsCalls.Kernel.WaitRound` | kernel/boot/src/mcore/mtask/process/mod.rs:390-408 | One round of `park_current_task` under any interference: it returns Interrupted only for a reap that targets the task, Ready only if the condition holds, and goes to sleep only with its waker listed or on its way |
| `ProcessWaitsCalls.Kernel.WakeOne` | kernel/boot/src/mcore/mtask/wait.rs:32-36 | Firing a waker marks it fired for good and exchanges its slot at most once |
| `Cleanup.RunNoStrandedCorpse` | kernel/boot/src/mcore/mtask/scheduler/cleanup.rs:40-74 | Whenever the cleanup task is parked somebody holds its ticket, or it is in the cell and the queue is empty or an enqueuer is between its push and its take |
| `Cleanup.RunAllDropped` | kernel/boot/src/mcore/mtask/scheduler/cleanup.rs:40-74 | With no enqueuer under way a parked cleanup task has dropped every corpse ever enqueued, once and in order |
| `Cleanup.RunFifo` | kernel/boot/src/mcore/mtask/scheduler/cleanup.rs:40-57 | At all times the corpses dropped and those queued are the ones enqueued, in order |
| `Cleanup.RunOffersAccepted` | kernel/boot/src/mcore/mtask/scheduler/cleanup.rs:58-72 | The cell never rejects the cleanup task's offer, and every exchange finds a slot state it expects |
| `Cleanup.RunSlots` | kernel/boot/src/mcore/mtask/scheduler/cleanup.rs:40-74 | In every run the cleanup takes each slot through parks, unparks and releases only, as the lot does |
| `Cleanup.RunInv` | kernel/boot/src/mcore/mtask/scheduler/cleanup.rs:40-74 | Every step keeps the cleanup protocol's invariant |
| `Sleepers.SleepList.WakeExpired` | kernel/boot/src/mcore/mtask/wait.rs:77-94 | The swap-remove sweep wakes exactly the expired sleepers, each as often as it was armed, and touches nothing without the lock or the clock |
| `Sleepers.SweepExact` | kernel/boot/src/mcore/mtask/wait.rs:77-94 | What a sweep promises fixes the count of every sleeper woken and kept |
| `SignalRuns.RunSafe` | kernel/syscall/src/signal.rs:143-303 | After any mix of generation, ticks, sigaction, sigprocmask, sigreturn and exec: Kill and Stop are never blocked nor non-default, Continue and a stop signal are never pending together, a stopped process has neither Kill nor Continue pending, a running one holds no stop ticket, and every stop ticket ever stored has been fired or is still stored, in order |
| `SignalRuns.RunInv` | kernel/syscall/src/signal.rs:143-303 | Every step of a run keeps the signal invariant |
| `SignalRuns.RunKillActs` | kernel/boot/src/arch/signal.rs:161-208 | Once Kill is pending no tick stops the process: each terminates it or acts on a lower signal and leaves Kill pending |
| `SignalRuns.KillBeatsStop` | kernel/boot/src/arch/signal.rs:167-189 | A pending Kill is effective and below every stop signal, so no tick stops over it |
| `SignalRuns.TickInv` | kernel/boot/src/arch/signal.rs:161-208 | A tick keeps the action and pending invariants and stops the process exactly when its outcome is the stop |
| `SignalRuns.InterruptMeansAction` | kernel/syscall/src/signal.rs:188-203 | A wait is interrupted exactly when the next tick enters a handler or terminates, unless a stop signal comes first |
| `SignalRuns.StepStarts` | kernel/syscall/src/signal.rs:188-203 | Waits come to be interrupted exactly by generating an unblocked signal that interrupts, by a fault that kills, and by a change of the mask or of an action that uncovers a pending one; never by a tick, an exec or a reap |
| `SignalRuns.RunStarts` | kernel/syscall/src/signal.rs:143-303 | In every run, where interruption begins one of these steps was taken |
| `SignalRuns.UnblockingInterrupts` | kernel/syscall/src/signal.rs:259-270 | Every blockable signal that terminates by default, blocked, generated and unblocked, interrupts only from the unblocking on |
| `SignalRuns.LockedSignals.Deliver` | kernel/boot/src/syscall/access/signal.rs:57-89 | Generation under the lock: pending bits, the stopped flag and the drained stop tickets together are the generation step of the runs |
| `SignalRuns.LockedSignals.TickDelivery` | kernel/boot/src/arch/signal.rs:144-208 | A tick with or without the lock, a reservation and a free ticket cell is the tick step of the runs |
| `SignalRuns.LockedSignals.ResumeStoppedTasks` | kernel/boot/src/mcore/mtask/process/mod.rs:81-85 | Fires every stored stop ticket once, in order |
| `Signals.SignalState.DeliverPending` | kernel/boot/src/arch/signal.rs:167-207 | The loop drops every ignored deliverable signal below the one it acts on and acts on the lowest signal that is not ignored, or on none if there is none |
| `Signals.LowestEffective` | kernel/boot/src/arch/signal.rs:172-176 | The first signal the loop does not ignore is the lowest effective one of the state it began with |
| `Signals.SignalState.TakeNextDeliverable` | kernel/syscall/src/signal.rs:170-178 | Takes the lowest pending signal that is not blocked, or nothing exactly when there is none |
| `Signals.SignalState.SetPending` | kernel/syscall/src/signal.rs:158-165 | Continue discards the stop signals and a stop signal discards Continue |
| `Signals.SignalState.Deliver` | kernel/syscall/src/signal.rs:143-153 | Raises the signal and resumes a stopped process exactly for Continue and Kill |
| `Signals.SignalState.Sigaction` | kernel/syscall/src/signal.rs:229-245 | Refused actions change nothing; otherwise the old action is returned and replaced |
| `Signals.SignalState.Sigprocmask` | kernel/syscall/src/signal.rs:259-270 | The mask is changed as asked, never blocks Kill or Stop, and the previous one is returned |
| `Signals.SignalState.ApplyHandlerEntry` | kernel/syscall/src/signal.rs:292-303 | The action's mask and, unless NODEFER, the signal are added; RESETHAND resets the action; the old mask is returned |
| `Signals.SignalState.ExecReset` | kernel/syscall/src/signal.rs:249-255 | Handlers go back to the default, ignored signals stay ignored, and nothing else changes |
| `SigFrame.MatchingReturn` | kernel/boot/src/arch/signal.rs:190-284 | However deep handlers nest, the return that leaves the handler entered at step i restores rip, the saved registers, the blocked mask and the flags up to the fixed mask, and the stack pointer exactly when it was a user address |
| `SigFrame.NonCanonicalStackPointer` | kernel/boot/src/arch/signal.rs:105-116 | Whatever stack pointer past the user half is accepted for a frame, there is a run of entry, handler and return after which it is not restored |
| `SigFrame.EntryShape` | kernel/boot/src/arch/signal.rs:98-140 | Handler entry has rsp = 8 mod 16 with the restorer as return address, the frame lies below the interrupted red zone, and nothing from there up is written |
| `SigFrame.PlaceExact` | kernel/boot/src/arch/signal.rs:105-116 | When a frame is placed, where, and when the stack pointer is refused |
| `SigFrame.DecodeEncode` | kernel/boot/src/arch/signal.rs:30-42 | Reading back a frame image gives the saved context, mask and magic |
| `SigFrame.UnmaskWord` | kernel/boot/src/arch/signal.rs:270-272 | The mask word in the frame decodes to the mask that was saved |
| `SigFrame.RunInv` | kernel/boot/src/arch/signal.rs:98-284 | While handlers stay below their entry stack pointer every pending frame keeps its image and the frames stay apart |
| `SigFrame.LevelStays` | kernel/boot/src/arch/signal.rs:98-284 | A level's record does not change while the thread stays inside its handler |
| `SigFrame.FlagsStable` | kernel/boot/src/arch/signal.rs:254-256 | The fixed flags mask is idempotent |
| `SigFrame.UserThread.EnterHandler` | kernel/boot/src/arch/signal.rs:190-205 | The frame, return address, registers and mask after entry are the entry step of the runs; on a bad stack pointer only the mask has changed |
| `SigFrame.UserThread.Sigreturn` | kernel/boot/src/arch/signal.rs:223-284 | Restores what the frame decodes to, or changes nothing when the frame cannot be read or lacks the magic |
| `Ext2Scan.ScanReadsOnce` | kernel/ext2/src/read.rs:11-39 | From any cache, resolving strictly increasing block indexes of a file with distinct indirect blocks fetches each of them at most once, across all ranges and holes |
| `Ext2Tree.SpotsDistinct` | kernel/ext2/src/read.rs:130-171 | Every block index has a pointer position of its own in the tree |
| `Ext2Tree.ResolveIsSpot` | kernel/ext2/src/read.rs:143-240 | The walk delivers what the index's position holds |
| `Ext2Tree.ResolveLimit` | kernel/ext2/src/read.rs:130-171 | An index is refused exactly when it is at least 12 + p + p*p + p*p*p |
| `Ext2Read.Ext2Fs.ResolveBlockIndex` | kernel/ext2/src/read.rs:143-171 | Cached resolution equals the uncached walk on the current disk and fetches exactly the path blocks the cache does not hold |
| `Ext2Read.Ext2Fs.ResolveIndirectPtr` | kernel/ext2/src/read.rs:173-203 | One level through the cache equals one level of the walk |
| `Ext2Read.Ext2Fs.ResolveDoubleIndirectPtr` | kernel/ext2/src/read.rs:205-222 | Two levels likewise |
| `Ext2Read.Ext2Fs.ResolveTripleIndirectPtr` | kernel/ext2/src/read.rs:224-240 | Three levels likewise |
| `Ext2Read.IndirectCache.Lookup` | kernel/ext2/src/read.rs:23-27 | A hit moves the entry to the front and keeps the others in order; a miss changes nothing |
| `Ext2Read.IndirectCache.Insert` | kernel/ext2/src/read.rs:29-34 | The new entry goes to the front and only the last of a full cache is evicted |
| `Ext2Read.IndirectCache.Invalidate` | kernel/ext2/src/read.rs:36-39 | Removes exactly the entries of one block and keeps the others in order |
| `Ext2Read.Ext2Fs.WriteBlock` | kernel/ext2/src/lib.rs:145-151 | The device holds the written bytes, the result says whether all of them fitted, the cache loses exactly the entries of the written block, and every entry it keeps equals its decoded disk block if the write is harmless: at most one block, or a next block that is not wholly on the device or starts at 4 GiB or later |
| `Ext2Read.OtherBlock` | kernel/ext2/src/lib.rs:145-155 | Writing at most one block leaves every other block as it was |
| `Ext2Read.LongWriteGoesStale` | kernel/ext2/src/lib.rs:145-151 | Any other write, also one cut off at the end of the device, changes the first pointer of the next table on some disk of that size |
| `Ext2Read.WriteExact` | kernel/ext2/src/lib.rs:145-151 | A block write keeps every other readable table on every disk of that size exactly if it is harmless |
| `Ext2Read.WriteUnderCache` | kernel/ext2/src/lib.rs:145-151 | Performs a write that is not harmless with the next table cached: the cache then answers with a pointer the disk does not hold |
| `Ext2Read.Ext2Fs.ReadBlock` | kernel/ext2/src/lib.rs:138-143 | Reads the block of the disk image, or reports overflow or the device error (build with overflow checks) |
| `Ext2Read.WrapExact` | kernel/ext2/src/lib.rs:138-155 | Without overflow checks the wrapped offset reads the right bytes of every disk, a block or a run of blocks, exactly if they start below 4 GiB, and a block is then what the checked build reads |
| `Ext2File.ReadFromFile` | kernel/ext2/src/read.rs:45-73 | Delivers bytes of the file from the offset cut to 32 bits on, holes as zeros: exactly min(len, size - offset) of them for buffers below 4 GiB, and for longer ones what the length cut to 32 bits lets through; succeeds exactly if every block it needs resolves and can be read; panics exactly when the 32-bit arithmetic overflows (build with overflow checks) |
| `Ext2Wrap.OffsetWraps` | kernel/ext2/src/read.rs:52-60 | For every offset from 4 GiB on, except those on which the read panics, there is a volume and a file on which a read there gets its blocks and the byte it delivers is not the one the file has there |
| `Ext2Wrap.ReadWrongByte` | kernel/ext2/src/read.rs:45-73 | Performs that read: it succeeds with a byte the file does not have there, so in the checked build the offsets at which reads are right on all volumes are exactly those below 4 GiB |
| `Ext2File.ReadBlocks` | kernel/ext2/src/read.rs:75-128 | The run-coalescing read equals one read per block, and fetches no indirect block twice on a file whose indirect blocks are distinct |
| `Ext2File.ReadRuns` | kernel/ext2/src/read.rs:94-127 | One device read per run of consecutive addresses delivers the blocks one by one, and fails exactly if a block is off the device or a run starts past 32 bits |
| `Ext2File.ResolveRange` | kernel/ext2/src/read.rs:89-92 | Resolves the blocks in order up to the first failure, fetching what the scan of that range fetches |
| `Ext2File.BlocksAreFile` | kernel/ext2/src/read.rs:75-128 | Blocks from block s on are the bytes of the file from byte s times the block size on |
| `Ext2Dir.Directory.AddEntry` | kernel/ext2/src/dir.rs:75-152 | Refuses a listed name and an oversized one; otherwise the first seen entry with room in the whole directory is split and every block still tiles; the directory then lists what it did with the new entry directly after the split one; listed names are pairwise distinct afterwards exactly if they were and what is stored of the name was not listed; a full directory changes nothing |
| `Ext2Dir.AddKeepsTiling` | kernel/ext2/src/dir.rs:110-145 | Splitting an entry in place keeps the entries tiling the block, with all others parsing unchanged |
| `Ext2Dir.AddToBlock` | kernel/ext2/src/dir.rs:106-151 | The in-place edit of a block takes the first entry with room and leaves a block that parses as the old entries with the split |
| `Ext2Dir.ListedSplit` | kernel/ext2/src/dir.rs:37-43 | The new entry is listed directly after the split one, unless it is an empty name in the last 8 bytes |
| `Ext2Dir.ListedAfter` | kernel/ext2/src/dir.rs:20-49 | The listing of all blocks after an addition to one of them is the old one with the new entry directly after the one that made room |
| `Ext2Dir.AddDistinct` | kernel/ext2/src/dir.rs:83-148 | Listed names stay pairwise distinct exactly if the new one was not among them |
| `Ext2Dir.Directory.ListDir` | kernel/ext2/src/dir.rs:20-49 | Lists the entries of all blocks in order |
| `Ext2Dir.ListBlock` | kernel/ext2/src/dir.rs:37-43 | The walk over one block delivers the entries that tile it |
| `Ext2Dir.Directory.HasName` | kernel/ext2/src/dir.rs:82-85 | Finds a name exactly if it is listed |
| `Ext2Dir.ParseSerialize` | kernel/ext2/src/dir.rs:176-232 | Parsing a serialized entry gives it back with the name as stored |
| `Ext2Dir.RoundTripExact` | kernel/ext2/src/dir.rs:176-232 | An entry survives serializing exactly if its name length fits the field it is written to |
| `Ext2Dir.LongNamesCollide` | kernel/ext2/src/dir.rs:75-152 | With types on disk any two names of more than 255 bytes that are stored alike are both added where there is room for them, and the directory then lists a name twice |
| `Ext2Dir.LongNotListed` | kernel/ext2/src/dir.rs:82-85 | With types on disk no name of more than 255 bytes is ever listed, so it always passes the duplicate test |
| `BlockDevice.Device.WriteAt` | kernel/device/src/block/mod.rs:69-120 | A write splices the buffer into the flat byte array for every sector size, offset and length; past the end of the device it is cut off there and fails |
| `BlockDevice.Device.ReadAt` | kernel/device/src/block/mod.rs:41-67 | A read is the slice of the flat array, or fails exactly when it would leave the device |
| `BlockDevice.Device.WriteSpanning` | kernel/device/src/block/mod.rs:92-119 | Head, whole sectors and tail together are one splice, also where the device ends inside them |
| `BlockDevice.WrittenNext` | kernel/device/src/block/mod.rs:92-119 | Two adjacent writes are one, also where the device ends inside either |
| `BlockDevice.SpliceReads` | kernel/device/src/block/mod.rs:69-120 | What was written reads back and every other byte is as before |
| `BlockDevice.VirtioDevice.ReadAt` | kernel/boot/src/driver/virtio/block.rs:138-170 | The bounce-buffer loop ends and meets the contract of the generic read |
| `BlockDevice.VirtioDevice.BounceRound` | kernel/boot/src/driver/virtio/block.rs:145-167 | Each round makes progress, stays inside what was staged, and is refused only if the whole read leaves the device |
| `PhysicalMemory.PhysicalMemoryManager.AllocateFrames` | kernel/physical_memory/src/lib.rs:121-212 | At any page size: the first aligned run of free frames inside one region, marked allocated with nothing else changed, or nothing exactly if there is no such run; the cached first free frame stays exact |
| `PhysicalMemory.PhysicalMemoryManager.FindRun` | kernel/physical_memory/src/lib.rs:128-172 | Starting at the cached first free frame misses no run |
| `PhysicalMemory.SearchRegion` | kernel/physical_memory/src/lib.rs:144-208 | The first aligned free run of a region at or after an index |
| `PhysicalMemory.PhysicalMemoryManager.UpdateFirstFree` | kernel/physical_memory/src/lib.rs:91-119 | Restores the lowest free frame after a change at or after a position with none before it |
| `PhysicalMemory.PhysicalMemoryManager.DeallocateFrame` | kernel/physical_memory/src/lib.rs:243-269 | Frees exactly one allocated frame, refuses any other, and keeps the first free frame exact |
| `PhysicalMemory.PhysicalMemoryManager.DeallocatePage` | kernel/physical_memory/src/lib.rs:277-303 | Frees the frames of a larger page in turn, up to the first that is refused |
| `PhysicalMemory.PhysicalMemoryManager.DeallocateFrames` | kernel/physical_memory/src/lib.rs:224-235 | Frees the frames of a range of pages in turn, up to the first that is refused |
| `PhysicalMemory.ReleaseStops` | kernel/physical_memory/src/lib.rs:224-303 | What such a call frees is the longest run that can be freed: all of it when it succeeds, else everything before a frame that is refused |
| `PhysicalMemory.FreeUndoesAllocation` | kernel/physical_memory/src/lib.rs:121-303 | Deallocating what an allocation returned restores every frame state and the first free frame |
| `PhysicalMemory.ReleaseRestores` | kernel/physical_memory/src/lib.rs:224-303 | Freeing an allocated run succeeds and gives back the states from before |
| `PhysicalMemory.FirstFreeUnique` | kernel/physical_memory/src/lib.rs:73-88 | There is only one first free frame |
| `VirtualMemory.VirtualMemoryManager.Reserve` | kernel/virtual_memory/src/lib.rs:35-54 | The bump loop ends and returns the lowest address in range at which n bytes overlap nothing, fails exactly if there is none, and keeps the segments disjoint |
| `VirtualMemory.VirtualMemoryManager.FindFit` | kernel/virtual_memory/src/lib.rs:40-43 | Bumping past overlaps reaches the lowest fit |
| `VirtualMemory.BumpSkipsNothing` | kernel/virtual_memory/src/lib.rs:40-43 | No address passed over by a bump would have fitted |
| `VirtualMemory.VirtualMemoryManager.FindOverlapping` | kernel/virtual_memory/src/lib.rs:79-84 | Finds an overlapping segment exactly if there is one |
| `VirtualMemory.VirtualMemoryManager.MarkAsReserved` | kernel/virtual_memory/src/lib.rs:65-73 | Adds a segment exactly if it overlaps nothing |
| `VirtualMemory.VirtualMemoryManager.Release` | kernel/virtual_memory/src/lib.rs:56-58 | Removes exactly the given segment, if it is there |
| `VirtualMemory.RemoveUndoesInsert` | kernel/virtual_memory/src/lib.rs:56-73 | Releasing what was inserted gives back the segments from before |
| `VirtualMemory.InsertedApart` | kernel/virtual_memory/src/lib.rs:45-73 | Inserting a segment that fits keeps the segments ordered and disjoint |
| `VirtualMemory.ReserveWholePages` | kernel/boot/src/mem/virt.rs:207-225 | With page multiples everywhere a reservation is page-aligned, and they stay page multiples |
| `VirtualMemory.RunWholePages` | kernel/virtual_memory/src/lib.rs:35-73 | Over every run of reservations, markings and releases in whole pages the reserved segments are disjoint and whole pages |
| `ExecStack.Start` | userspace/minilib/src/start.rs:56-98 | The start code reads exactly argv and envp back from any complete entry stack of NUL-free strings |
| `ExecStack.BuildInitialStack` | kernel/syscall/src/exec.rs:11-60 | Writes a complete, 16-byte aligned entry stack, or leaves the buffer alone exactly when the aligned layout does not fit |
| `ExecStack.WriteStack` | kernel/syscall/src/exec.rs:34-59 | Words and strings are where the layout says, pointers to their strings, nulls after each group |
| `ExecStack.Strings` | userspace/minilib/src/start.rs:84-98 | Reading through the pointers delivers the strings in order |
| `ExecStack.CountWords` | userspace/minilib/src/start.rs:61-64 | Counts the words before the terminating null |
| `ExecArgs.CopyIn` | kernel/boot/src/syscall/exec.rs:129-168 | Accepts exactly the arguments that can be read, hold no NUL and stay within the budget, and packs them |
| `ExecArgs.ArgvEnvp` | kernel/boot/src/syscall/exec.rs:170-187 | The packed arguments come out as they went in |
| `ExecArgs.BudgetFits` | kernel/boot/src/mcore/mtask/process/mod.rs:641-663 | Every argument set within the budget fits the 256-page user stack |

## Left out

- Memory orderings, the assembly context switch, FPU contents, page tables and the interrupt
  hardware: steps are sequentially consistent and time is a number that only grows.
- Fairness: nothing says that a step is ever taken. What is proved is that no state is stuck without
  somebody able to take the step that is missing.
- The scheduler, the waits and the cleanup are not run over the lot's own steps: they share its slots
  as `ParkSlot` describes them, and the two sides meet in `ParkingLotStages.RunStages`.
- The endless loops of `park_current_task`, `reap_sibling_tasks` and the cleanup task are steps of
  their machines; as code only one round of the wait is written out.
- ParkingLotCalls.Shared.Reserve: claims are exact only while nobody interferes, because under
  interference the source promises no more than a claimed slot.
- SchedulerCalls.Kernel.BlockCurrent: the timer does not fire between leaving the ticket in the cell
  and disabling interrupts; runs in which it does are covered by SchedulerProof.EarlyReturn.
- ProcessWaitsProof.RunSafe: an event is what a generator publishes before it takes the list. A
  sibling's `sigaction`, `sigprocmask` or `sigreturn` can make a pending signal interrupting without
  waking anybody (kernel/boot/src/syscall/mod.rs:166-200, kernel/boot/src/arch/signal.rs:270-272); a
  task parked then is not claimed to be woken. SignalRuns.StepStarts says exactly when that happens.
  Nor is a sibling that stop-parks while a reap starts claimed to be released; draining the stop
  tickets is a step that changes nothing in this machine.
- ProcessWaitsProof.RunQuiescent: events likewise are those that were published.
- Cleanup.RunAllDropped: says nothing about when the cleanup task runs.
- SigFrame.MatchingReturn: assumes, as the source does, that handlers do not write at or above their
  entry stack pointer; the FPU image is carried but not interpreted.
- Signals.SignalState.Sigaction: the kinds of signals and actions are those of the ABI, with the
  restorer and flag checks; copying the structures from user memory is not part of this model.
- Ext2File.ReadFromFile: describes the build with overflow checks; sums that wrap in the optimised
  build, where an offset and a length together pass 4 GiB, are not modelled.
- Ext2Read.Ext2Fs.ReadBlock: describes the build with overflow checks; Ext2Read.WrapExact is about the
  other one.
- Ext2Tree.ResolveLimit: the limits are exact numbers; block sizes of 256 KiB and more, where the
  source's 32-bit limits overflow, behave differently.
- Ext2Dir.Directory.AddEntry: blocks are given as contents; device errors, indirect directory blocks
  (not implemented in the source) and names so long that the sizes of two entries add up to 64 KiB,
  on which the 16-bit sum overflows, are not part of it. Names are bytes, not UTF-8 strings.
- BlockDevice.VirtioDevice.ReadAt: says nothing about the buffer after an error, which the source
  leaves partly filled.
- BlockDevice.Device.WriteAt: offsets plus lengths beyond the machine word are not modelled.
- PhysicalMemory.PhysicalMemoryManager.DeallocatePage: addresses are counted in 4 KiB frames.
- VirtualMemory.VirtualMemoryManager.Reserve: address overflow and an empty managed range, on which
  the source panics, are not modelled; nor is marking a segment of length zero.
- ExecArgs.CopyIn: which of several errors is reported is stated only as far as the budget and the
  NULs decide it; making user pages resident is a flag of each string.
- ext2 allocation and file creation, the VFS, path lookup, devices other than block, ELF loading,
  demand paging, the heap and boot memory, system call plumbing and userspace I/O: unfinished in the
  source or only easy members.
