# DugOS verification

A Dafny model of the two systems in the DugOS repository, with proofs about whole runs of them.

**The MINIX kernel and drivers (`reference/minix`).** Message passing between processes (`kernel/proc.c`),
signals and exit (`kernel/system.c`, `kernel/system/`), the terminal driver's input queue (`drivers/tty/tty.c`)
and the log device's ring (`drivers/log/log.c`).

**The DugOS kernel's own services (`src`).** The FAT file system (`fs.c`), the directory table (`dir.c`), the
shell that drives both (`shell.c`) and the interrupt-driven keyboard (`keyboard.c`).

## How it is built

Each component has a model on values, where the properties are stated and proved over all runs, and a class with
the source's own arrays, links and counters, whose methods are proved to compute the model's steps.

- Kernel: `Lists`, `Scheduling`, `Ipc` (the steps), `WaitGraph` (Deadlock.dfy), `NoticeSearch` (Notices.dfy),
  `Invariants`, `Accounts`, `KernelRuns`, `KernelTheorems`, `KernelOutcomes`, `KernelQueues`, `KernelPolicy`;
  classes `ReadyQueues.Scheduler` and `KernelObject.Kernel`.
- File system: `Fat`, `Volumes`, `VolumeSteps`; classes `BlockStores.BlockStore`, `FileSystems.FileSystem`.
- Directories and shell: `Paths`, `Shells`; classes `Directories.Directory`, `Shells.Shell`.
- Terminal: `Rings`, `LineDiscipline`, `LineRuns`, `LineEditing`; class `Ttys.Tty`.
- Keyboard and log: `Keyboard` with class `KeyboardDriver`, `LogRing` with class `LogDevices.LogDevice`.

The main results:

- From boot on, whatever processes, interrupts and signals do: a process is SENDING exactly when it stands once in
  the caller queue of its destination; no sender waits for a process that waits for it; nobody waits on a cycle;
  the ready queues hold exactly the runnable processes and the cached choice is right (`ReachableInv`).
- Every message that was accepted is copied once, in order, to its destination only; every kernel signal is
  reported once; every SYSTEM notification carries exactly the signals sent since the last one, and every HARDWARE
  notification the interrupts (`Balanced`).
- Each kernel operation does what its description in terms of flags, queues and pending sets says, on every outcome:
  when a send is handed over, blocks or gives up, what a receive takes first, which check refuses a trap
  (`SendMeans`, `ReceiveMeans`, `NotifyMeans`, `CallMeans`, `CauseSigMeans`, `GetKsigMeans`, `EndKsigMeans`).
- Nothing a process does ever reaches one that it may not send to (`OutOfReachForever`); a process that keeps using
  up its time sinks queue by queue to the last one before IDLE's (`LoopingSinks`).
- The first thing a process gets after SENDREC to `d` is a genuine message from `d` (`SendRecAtomic`).
- ELOCKED is returned exactly when blocking would close a cycle (`LockedIffCycle`).
- File operations are updates of a map from (name, directory) to bytes, with the exact condition of every error and
  the exact number of free blocks afterwards; after any shell session every file lies in an existing directory.
- The bytes readers of a terminal got, followed by the completed lines still queued, only ever grow at the end, in
  every run in which no interrupt character that flushes is actually typed, the line is not hung up and its input is
  not flushed (`ReadyOnlyGrows`).
- Whatever is typed, erased, killed and quoted before a line break, a reader that waits gets exactly the text that is
  left, with the line break behind it (`LineIsDelivered`).
- However interrupts fall, the shell gets the keystrokes in order, each translated under the modifiers of its moment
  (`RunDelivers`, `TypedIsAccepted`); readers of the log miss nothing unless it overflows (`NothingLost`).

Properties one would expect and that the code does not have are stated with the exact condition under which it does:

- A blocking send to oneself is not caught by the deadlock check (`SendAcyclic`).
- `receive(x)` overlooks a pending notification from `x` when a lower bit of the same sixteen is set
  (`ReceiveFromSource`, `HiddenNotice`).
- Freeing a file that starts at block 0 frees nothing, since 0 is also FAT_FREE (`LostIff`, `BlockZeroLost`).
- `cd` into a new subdirectory and `cd ..` return to the start only for names without a slash, and not when the
  separator did not fit (`ParentOfBuilt`).
- Shift does not change the case of letters; Caps Lock alone does (`LetterCase`). The comment at
  `src/keyboard.c:171-173` says otherwise.
- LNEXT set to `_POSIX_VDISABLE` can still be typed exactly when IEXTEN is on and ISTRIP is off
  (`LnextDisabledIff`); so can REPRINT, unless LNEXT has the same value and takes the byte (`ReprintDisabledIff`).
- A path that was built names the same directory everywhere, except when a slash is left at its end
  (`BuiltAnywhere`).
- Callers of a process that exits are not woken: they stay SENDING for as long as they live (`ExitStrands`).
- do_clocktick() keeps the ready queues right exactly for a process that is still runnable (`RequeuedQueued`).

Modelling decisions: a process is named by its slot, the process number plus NR_TASKS; each process has its own
privilege structure, with the slot as its id; whether a message buffer lies in the caller's memory is a flag of the
trap; histories of messages and signals are auxiliary state. Sizes (blocks, block size, slots, buffers) are
parameters. Text typed at a prompt, device interrupts and scan codes are parameters.

## Model

| member | source | states |
|---|---|---|
| `KernelRuns.ReachableInv` | reference/minix/kernel/proc.c:81-354 | any number of steps after boot, the queue, rendezvous, scheduling and acyclicity invariants hold and all accounts balance |
| `KernelRuns.StepInv` | reference/minix/kernel/proc.c:81-187 | each system call, notification, interrupt, signal, exit, clock tick, requeueing or context switch keeps the invariants |
| `KernelRuns.StepBalanced` | reference/minix/kernel/proc.c:192-315 | each step keeps messages, signals, interrupts and kernel signals accounted for |
| `KernelRuns.MiniSendInv` | reference/minix/kernel/proc.c:192-238 | mini_send keeps the invariants on all three of its outcomes |
| `KernelRuns.MiniReceiveInv` | reference/minix/kernel/proc.c:243-315 | mini_receive keeps the invariants, also in the second half of SENDREC |
| `KernelRuns.SendRecInv` | reference/minix/kernel/proc.c:160-173 | SENDREC as a whole keeps the invariants |
| `KernelRuns.NotifyInv` | reference/minix/kernel/proc.c:320-354 | mini_notify keeps the invariants |
| `KernelRuns.CauseSigInv` | reference/minix/kernel/system.c:250-279 | cause_sig keeps the invariants |
| `KernelRuns.GetKsigInv` | reference/minix/kernel/system/do_getksig.c:18-43 | fetching a signal for PM keeps the invariants |
| `KernelRuns.EndKsigInv` | reference/minix/kernel/system/do_endksig.c:17-37 | ending a signal keeps the invariants |
| `KernelRuns.ClearProcInv` | reference/minix/kernel/system/do_exit.c:46-94 | exit keeps the invariants |
| `KernelRuns.BootInv` | reference/minix/kernel/main.c:51-143 | after the boot image is loaded the invariants hold |
| `KernelRuns.AfterInv` | reference/minix/kernel/proc.c:81-354 | the invariants and the accounts hold after any run from a state where they hold |
| `WaitGraph.OneMoreEdgeAcyclic` | reference/minix/kernel/proc.c:206-211 | adding an edge from a process that does not send keeps the wait-for graph acyclic iff the deadlock walk does not meet the caller |
| `WaitGraph.WalkEnds` | reference/minix/kernel/proc.c:206-211 | in an acyclic wait-for graph the deadlock walk ends within as many hops as there are processes |
| `KernelTheorems.LockedIffCycle` | reference/minix/kernel/proc.c:206-211 | ELOCKED is returned iff blocking the caller would close a cycle, self-sends apart |
| `KernelTheorems.SendAcyclic` | reference/minix/kernel/proc.c:206-236 | SEND leaves the graph acyclic iff it is not a blocking send to oneself |
| `KernelTheorems.StepOther` | reference/minix/kernel/proc.c:192-354 | a process that does not run is left alone, served with mail that fits, or released with its message copied; nothing else |
| `KernelTheorems.SendRecAwaits` | reference/minix/kernel/proc.c:160-173 | a SENDREC whose send succeeded finds nothing to receive and blocks |
| `KernelTheorems.SendRecSelf` | reference/minix/kernel/proc.c:160-173 | a SENDREC that returns OK has posted its message and waits for the answer |
| `KernelTheorems.SendRecAtomic` | reference/minix/kernel/proc.c:160-173 | over any run, the next mail after SENDREC to `d` is a genuine message from `d` |
| `KernelTheorems.SenderWaits` | reference/minix/kernel/proc.c:219-232 | over any run, a blocked sender stays blocked with the same message until that message was copied |
| `KernelTheorems.HeldBack` | reference/minix/kernel/system.c:250-279 | over any run, a signalled process stays SIG_PENDING until PM releases it |
| `KernelTheorems.HeldOffQueues` | reference/minix/kernel/system/do_endksig.c:17-37 | from cause_sig until PM is done a process is on no ready queue |
| `KernelOutcomes.SendMeans` | reference/minix/kernel/proc.c:192-238 | a send that is not locked is handed over iff the destination waits for it; else the caller ends up SENDING, off its ready queue and last in the caller queue, or, if it may not block, gets ENOTREADY and nothing changes |
| `KernelOutcomes.NotifyMeans` | reference/minix/kernel/proc.c:320-354 | a notification is delivered at once, with what is pending for it, iff its destination is blocked in a receive that wants it, outside SENDREC; else nothing but its pending bit changes |
| `KernelOutcomes.ReceiveMeans` | reference/minix/kernel/proc.c:243-315 | a pending notification that fits goes before any queued caller, a queued caller before waiting; with neither the process waits, or gets ENOTREADY and nothing changes |
| `KernelOutcomes.CheckBits` | reference/minix/kernel/ipc.h:18-27 | which system calls have a message buffer to check and which name a destination |
| `KernelOutcomes.DecodeMeans` | reference/minix/kernel/proc.c:81-157 | a trap is refused exactly for the first check it fails; one that passes asks for what its function number and operand say |
| `KernelOutcomes.ErrorsMean` | reference/minix/kernel/proc.c:81-157 | a system call returns one of the five errors of the checks iff one of them fails |
| `KernelOutcomes.CallMeans` | reference/minix/kernel/proc.c:81-187 | a refused system call returns the error of its first failing check and changes nothing; any other has the outcome of the operation it names |
| `KernelOutcomes.SendRecMeans` | reference/minix/kernel/proc.c:160-173 | SENDREC sends, and then waits for the same process; a failing send ends it, and so does not being allowed to block |
| `KernelOutcomes.InterruptMeans` | reference/minix/kernel/system/do_irqctl.c:104-124 | an interrupt is told of, with all earlier ones, in a HARDWARE notification, at once or pending |
| `KernelOutcomes.SendSigMeans` | reference/minix/kernel/system.c:232-245 | a signal is told of, with all earlier ones, in a SYSTEM notification, at once or pending |
| `KernelOutcomes.CauseSigMeans` | reference/minix/kernel/system.c:250-279 | a repeated signal is dropped; the first one holds the process back and tells PM SIGKSIG; further ones are added |
| `KernelOutcomes.GetKsigMeans` | reference/minix/kernel/system/do_getksig.c:18-43 | PM gets the first signalled user process and exactly the signals pending for it, which are booked as reported; none iff there is none |
| `KernelOutcomes.EndKsigMeans` | reference/minix/kernel/system/do_endksig.c:17-37 | without newer signals the process is released, onto its ready queue if no other flag is left; EINVAL iff it was not held |
| `KernelOutcomes.ExitMeans` | reference/minix/kernel/system/do_exit.c:46-94 | exit frees the slot, takes the process off its ready queue and changes no mail of anybody |
| `KernelPolicy.OutOfReachForever` | reference/minix/kernel/proc.c:111-147 | over any run, no message is accepted and no notification pending or delivered from a process to one that it may not send to |
| `KernelPolicy.LoopingSinks` | reference/minix/kernel/proc.c:463-506 | over a run of `k` used-up quanta in a row a process sinks by `k` queues, at most to the last before that of IDLE |
| `KernelPolicy.HardwareNeverReady` | reference/minix/kernel/main.c:133-139 | from boot on, whatever happens, HARDWARE is on no ready queue and never the next to run |
| `KernelQueues.CallersKeepOrder` | reference/minix/kernel/proc.c:219-232 | callers that keep waiting keep their order, whatever the step |
| `KernelQueues.ReceiveServes` | reference/minix/kernel/proc.c:289-301 | receive(ANY) serves the longest waiter, receive(x) serves x and leaves the rest in order |
| `KernelQueues.NoticesKept` | reference/minix/kernel/proc.c:268-287 | no step loses a pending notification: it stays or is delivered |
| `KernelQueues.ReceiveFromSource` | reference/minix/kernel/proc.c:268-287 | receive(x) delivers x's pending notification iff no lower bit of its chunk is pending |
| `KernelQueues.ReadyQueues` | reference/minix/kernel/proc.c:388-532 | a process is on a ready queue iff runnable, once, on its priority's; next_ptr heads the first nonempty queue |
| `KernelQueues.ExitCleans` | reference/minix/kernel/system/do_exit.c:46-94 | after exit the process is on no queue and every queue is what it was without it |
| `KernelQueues.ExitStrands` | reference/minix/kernel/system/do_exit.c:46-94 | a process SENDING to one that exits stays SENDING to it in every later run without its own exit |
| `NoticeSearch.ScanAny` | reference/minix/kernel/proc.c:268-287 | receive(ANY) finds the lowest pending id and misses none |
| `NoticeSearch.ScanOnly` | reference/minix/kernel/proc.c:268-287 | the search for one source succeeds exactly when its bit is the lowest of its chunk |
| `NoticeSearch.HiddenNotice` | reference/minix/kernel/proc.c:268-287 | with ids 5 and 6 pending the search for 6 finds nothing |
| `Scheduling.EnqueueMeans` | reference/minix/kernel/proc.c:388-506 | a process with time left heads its queue unchanged; one without gets a new quantum and ends its queue, one lower if it was also the last to run out, else one higher, within its limits |
| `Scheduling.SinksIff` | reference/minix/kernel/proc.c:463-506 | a process sinks iff it runs out of time twice in a row and is not in the last queue before that of IDLE |
| `Scheduling.DequeueMeans` | reference/minix/kernel/proc.c:424-458 | a process leaves its queue, the others keep their order, and a new choice is made iff it was running or next |
| `Scheduling.EnqueueQueued` | reference/minix/kernel/proc.c:388-419 | enqueue adds the process to the set of queued ones and keeps the cached choice right |
| `Scheduling.DequeueQueued` | reference/minix/kernel/proc.c:424-458 | dequeue takes it out and keeps the cached choice right |
| `Scheduling.TickedQueued` | reference/minix/kernel/clock.c:199-206 | charging a process for clock ticks keeps the queues and the choice right |
| `Scheduling.RequeuedQueued` | reference/minix/kernel/clock.c:111-114 | requeueing a process out of time keeps them right iff it is runnable |
| `Scheduling.ChoiceStable` | reference/minix/kernel/proc.c:440-447 | taking out a process that is not the choice does not change the choice |
| `Accounts.HandOverBalanced` | reference/minix/kernel/proc.c:213-218 | direct delivery books the message once at both ends |
| `Accounts.TakeMessageBalanced` | reference/minix/kernel/proc.c:289-301 | delivery from the caller queue books the message once at both ends |
| `Accounts.NotifyBalanced` | reference/minix/kernel/proc.c:59-72 | a SYSTEM notification carries exactly the signals sent since the last one, a HARDWARE notification the interrupts |
| `Accounts.GetKsigBalanced` | reference/minix/kernel/system/do_getksig.c:18-43 | every kernel signal raised is reported once or still pending |
| `ReadyQueues.Scheduler.constructor` | reference/minix/kernel/main.c:51-62 | all ready queues start empty |
| `ReadyQueues.Scheduler.PickProc` | reference/minix/kernel/proc.c:511-532 | picks the head of the first nonempty queue |
| `ReadyQueues.Scheduler.Policy` | reference/minix/kernel/proc.c:463-506 | with time left nothing changes; else a new quantum, and one queue down for the last process that ran out, one up for any other, within its limits; kernel tasks keep theirs |
| `ReadyQueues.Scheduler.Charge` | reference/minix/kernel/clock.c:199-206 | lowers the ticks left of one process and nothing else |
| `ReadyQueues.Scheduler.Enqueue` | reference/minix/kernel/proc.c:388-419 | the linked queues with tails hold the process first if it had time left, last if not, at the priority the policy gave it |
| `ReadyQueues.Scheduler.Dequeue` | reference/minix/kernel/proc.c:424-458 | the linked queue is what it was without the process, and the choice is made anew iff it was running or next |
| `KernelObject.Kernel.constructor` | reference/minix/kernel/main.c:51-62 | the cleared tables stand for a machine with every slot free |
| `KernelObject.Kernel.Boot` | reference/minix/kernel/main.c:75-143 | loading the boot image computes the model's boot and establishes the invariants |
| `KernelObject.Kernel.Deadlocks` | reference/minix/kernel/proc.c:206-211 | the pointer walk terminates and decides whether the caller is on the destination's path |
| `KernelObject.Kernel.AppendCaller` | reference/minix/kernel/proc.c:226-231 | the walk through p_q_link appends the caller to the queue it stands for |
| `KernelObject.Kernel.MiniSend` | reference/minix/kernel/proc.c:192-238 | computes the model's send, and hence: handed over iff wanted, else blocked at the end of the queue, or ENOTREADY and nothing changed |
| `KernelObject.Kernel.FindNotice` | reference/minix/kernel/proc.c:268-287 | the chunk and bit loops compute the model's search |
| `KernelObject.Kernel.MiniReceive` | reference/minix/kernel/proc.c:243-315 | computes the model's receive, and hence: a notification before a caller, a caller before waiting, ENOTREADY and nothing changed if it may not wait |
| `KernelObject.Kernel.MiniNotify` | reference/minix/kernel/proc.c:320-354 | computes the model's notify, and hence: delivered at once iff wanted outside SENDREC, else the pending bit only |
| `KernelObject.Kernel.SysCall` | reference/minix/kernel/proc.c:81-187 | the checks in order and the dispatch compute the model's system call: the first failing check's error with nothing changed, else the outcome of the operation; the invariants hold after it |
| `KernelObject.Kernel.LockSend` | reference/minix/kernel/proc.c:537-547 | a task's reply never blocks it: OK iff the destination waits for it, and then it is handed over; else an error and nothing changed |
| `KernelObject.Kernel.Interrupt` | reference/minix/kernel/system/do_irqctl.c:104-124 | books the interrupt and tells the driver of all pending ones, at once or later |
| `KernelObject.Kernel.SendSig` | reference/minix/kernel/system.c:232-245 | books the signal and tells the process of all pending ones, at once or later |
| `KernelObject.Kernel.CauseSig` | reference/minix/kernel/system.c:250-279 | raises a kernel signal once, holds the process, and tells PM SIGKSIG on the first one |
| `KernelObject.Kernel.GetKsig` | reference/minix/kernel/system/do_getksig.c:18-43 | reports the first signalled process with exactly its pending signals and clears them |
| `KernelObject.Kernel.EndKsig` | reference/minix/kernel/system/do_endksig.c:17-37 | releases the process, onto its ready queue if no flag is left, unless new signals arrived |
| `KernelObject.Kernel.ClearProc` | reference/minix/kernel/system/do_exit.c:46-94 | unlinks the process from every queue and frees its slot |
| `KernelObject.Kernel.Tick` | reference/minix/kernel/clock.c:199-206 | computes the model's tick |
| `KernelObject.Kernel.Requeue` | reference/minix/kernel/clock.c:111-114 | takes a runnable process off its queue and puts it back as the policy says |
| `Fat.NeedIsCeiling` | src/fs.c:147-171 | the number of blocks for a length is the least that holds it |
| `Fat.ClearedIs` | src/fs.c:72-79 | clearing a chain frees exactly its blocks and counts them |
| `BlockStores.BlockStore.AllocBlock` | src/fs.c:62-68 | the lowest free block, and none iff none is free |
| `BlockStores.BlockStore.FreeChain` | src/fs.c:72-79 | frees exactly the blocks of the chain, or none when it starts at block 0 |
| `BlockStores.BlockStore.WriteToBlocks` | src/fs.c:147-171 | succeeds iff enough blocks are free; then an ascending chain of formerly free blocks holds the data; else every free block is used up |
| `BlockStores.BlockStore.ReadChain` | src/fs.c:303-312 | the chain walk returns the first bytes of the chain's blocks |
| `FileSystems.Trim` | src/fs.c:135-142 | the longest prefix without a trailing blank |
| `FileSystems.TrimLine` | src/fs.c:135-142 | the loop computes it |
| `FileSystems.Collect` | src/fs.c:231-246 | typed lines are appended up to ".", whole lines that do not fit are dropped |
| `FileSystems.TypedOne` | src/fs.c:231-246 | one line is stored with its line feed iff it fits, else dropped whole; "." adds nothing |
| `FileSystems.TypedTwice` | src/fs.c:231-246 | typing in two sittings, fwrite and then fedit, is the same as typing at once |
| `FileSystems.TypedToDot` | src/fs.c:231-246 | what is typed behind "." is not part of the file |
| `FileSystems.TypedAll` | src/fs.c:231-246 | lines that fit are stored one behind the other, without their trailing blanks |
| `FileSystems.LostIff` | src/fs.c:72-79 | giving a file back loses blocks exactly when it starts at block 0 |
| `FileSystems.BlockZeroLost` | src/fs.c:72-79 | on an empty disk of one block a file is written and deleted, and the block is not free |
| `FileSystems.FileSystem.constructor` | src/fs.c:177-188 | the empty volume, every block free |
| `FileSystems.FileSystem.FindFile` | src/fs.c:83-94 | the first slot in use with that name and directory |
| `FileSystems.FileSystem.FindFreeSlot` | src/fs.c:98-104 | the first free slot, and none iff all are used |
| `FileSystems.FileSystem.Write` | src/fs.c:194-266 | the file becomes what was typed; exact conditions of each error; on disk full the file and all free blocks are gone |
| `FileSystems.FileSystem.Read` | src/fs.c:272-319 | shows exactly the file's bytes |
| `FileSystems.FileSystem.Edit` | src/fs.c:325-400 | the file becomes its bytes followed by what was typed; empty on disk full |
| `FileSystems.FileSystem.Delete` | src/fs.c:406-444 | after a yes the file is gone, its blocks free unless it started at block 0 |
| `FileSystems.FileSystem.Rename` | src/fs.c:450-485 | the bytes move to the new key, no block is touched |
| `FileSystems.FileSystem.Copy` | src/fs.c:491-558 | a second file with the same bytes in its own blocks |
| `FileSystems.FileSystem.DirEmpty` | src/fs.c:587-593 | no file lies in the directory |
| `VolumeSteps.FreedOk` | src/fs.c:72-79 | freeing a slot keeps the volume well formed, with exact block counts |
| `VolumeSteps.StoredContents` | src/fs.c:147-171 | a finished write changes the map in one key only |
| `VolumeSteps.Unfinished` | src/fs.c:156-157 | a write that ran out of blocks changes no file |
| `Paths.ParentPath` | src/dir.c:86-98 | the loop computes the part before the last slash, or the root |
| `Paths.IsImmediateChild` | src/dir.c:102-120 | one more component behind the parent, both directions |
| `Paths.SlashOptional` | src/dir.c:63-82 | an absolute path is taken as it is, with or without a slash behind it |
| `Paths.BuiltAnywhere` | src/dir.c:63-82 | a path that was built names the same directory from anywhere iff no slash is left at its end |
| `Paths.ParentOfBuilt` | src/dir.c:63-98 | going down and up returns exactly for slash-free names whose separator fitted |
| `Paths.BuiltIsChild` | src/dir.c:63-120 | ls lists what mkdir made under the same condition |
| `Paths.ChildIffParent` | src/dir.c:86-120 | is_immediate_child agrees with parent_path except for the root, trailing slashes and "//x" |
| `Directories.Directory.constructor` | src/dir.c:142-147 | the table holds the root, and the user is in it |
| `Directories.Directory.FindDir` | src/dir.c:52-58 | the index of a path, DIR_MAX iff it is not there |
| `Directories.Directory.Mkdir` | src/dir.c:162-197 | appends the path; exact conditions of each error |
| `Directories.Directory.Cd` | src/dir.c:203-235 | moves to the destination iff it is in the table |
| `Directories.Directory.Rmdir` | src/dir.c:241-308 | removes the path, keeps the order of the rest and the working directory; exact conditions of each error |
| `Directories.Directory.Shift` | src/dir.c:296-298 | the compaction loop closes the gap |
| `Shells.StepOk` | src/shell.c:231-295 | a command keeps: root first, no path twice, the user and every file in an existing directory |
| `Shells.StepElsewhere` | src/shell.c:231-295 | a command leaves files outside the working directory alone |
| `Shells.TraceOk` | src/shell.c:306-338 | these hold after any number of commands |
| `Shells.TraceElsewhere` | src/shell.c:306-338 | over any session the files of a directory that is not entered stay what they are |
| `Shells.TraceKeeps` | src/dir.c:241-308 | over any session a directory with a file in it, or the user, is not removed |
| `Shells.Shell.Dispatch` | src/shell.c:231-295 | each command does to files, table and working directory what its step says |
| `Shells.Shell.Run` | src/shell.c:306-338 | a script is a trace of such steps |
| `LineDiscipline.DecideMeans` | reference/minix/drivers/tty/tty.c:900-1008 | a byte is REPRINT, ERASE, KILL, a signal character or ignored iff the settings say so; otherwise it is stored, with CR and LF mapped, as a line break iff it is an unquoted LF, EOL or EOF of canonical mode |
| `LineDiscipline.EscapedIsStored` | reference/minix/drivers/tty/tty.c:908-915 | the byte after LNEXT is stored whatever it is, in canonical mode never as a line break; only a full queue turns it away |
| `LineDiscipline.DisabledNeverActs` | reference/minix/drivers/tty/tty.c:931-932 | erase and kill set to _POSIX_VDISABLE cannot be typed; of INTR and QUIT only one that is not disabled signals |
| `LineDiscipline.DisabledNeverBreaks` | reference/minix/drivers/tty/tty.c:967-974 | disabled EOF and EOL make no line breaks |
| `LineDiscipline.DisabledFlow` | reference/minix/drivers/tty/tty.c:977-997 | with STOP disabled output is not stopped, with START disabled only IXANY resumes it |
| `LineDiscipline.LnextDisabledIff` | reference/minix/drivers/tty/tty.c:908-922 | LNEXT set to _POSIX_VDISABLE can still be typed iff IEXTEN is on and ISTRIP off |
| `LineDiscipline.ReprintDisabledIff` | reference/minix/drivers/tty/tty.c:908-929 | so can REPRINT, iff moreover LNEXT has another value |
| `LineDiscipline.CanonicalRead` | reference/minix/drivers/tty/tty.c:833-860 | a canonical read takes the first line, or as much as was asked for, and never more |
| `LineDiscipline.RawRead` | reference/minix/drivers/tty/tty.c:833-860 | a raw read delivers what there is, up to what was asked for, and passes over end-of-file marks left from canonical mode |
| `LineDiscipline.ReadStops` | reference/minix/drivers/tty/tty.c:833-860 | a read never takes part of an unfinished line |
| `LineDiscipline.ReadBounds` | reference/minix/drivers/tty/tty.c:833-860 | a read delivers no more than was asked for |
| `LineRuns.EditKeepsLines` | reference/minix/drivers/tty/tty.c:944-965 | erase and kill leave completed lines alone |
| `LineRuns.TransferReady` | reference/minix/drivers/tty/tty.c:817-882 | a read moves bytes from the queue to the reader, nothing else |
| `LineRuns.FeedReady` | reference/minix/drivers/tty/tty.c:887-1043 | a typed byte keeps what is delivered or complete, unless it flushes |
| `LineRuns.FeedAllReady` | reference/minix/drivers/tty/tty.c:887-1043 | any input keeps what is delivered or complete, unless a byte that is come to flushes |
| `LineRuns.NoFlushing` | reference/minix/drivers/tty/tty.c:1000-1008 | without ISIG or with NOFLSH no input flushes |
| `LineRuns.WaiterIsServed` | reference/minix/drivers/tty/tty.c:817-882 | a reader that waits on a canonical line gets the line that completes, or as much as it asked for |
| `LineRuns.ConfiguredReady` | reference/minix/drivers/tty/tty.c:1300-1348 | new attributes keep what is delivered or complete, unless the line hangs up |
| `LineRuns.ReadyOnlyGrows` | reference/minix/drivers/tty/tty.c:817-1043 | over any run of input, reads, transfers to waiting readers, ends of reads and new attributes that flushes nothing, delivered bytes and completed lines only grow at the end |
| `LineEditing.FeedMeans` | reference/minix/drivers/tty/tty.c:900-1043 | what each kind of byte does to the queue: erase, kill, flush, store; a full queue drops it in canonical mode and leaves it with the device in raw mode |
| `LineEditing.TypingEdits` | reference/minix/drivers/tty/tty.c:900-1043 | whatever is typed without a line break, the unfinished line holds what typing, erasing, killing and quoting leave, and the lines before it are as they were |
| `LineEditing.BreakEndsLine` | reference/minix/drivers/tty/tty.c:967-974 | a line break adds one to the complete lines and leaves nothing unfinished |
| `LineEditing.EnterIsBreak` | reference/minix/drivers/tty/tty.c:934-974 | an unquoted CR under ICRNL, or LF without INLCR, that is no other control character ends a line, as LF |
| `LineEditing.LineIsDelivered` | reference/minix/drivers/tty/tty.c:817-1043 | a waiting reader gets exactly the text that is left when the line break is typed, and the line break, as far as it asked for them |
| `LineEditing.ServedIff` | reference/minix/drivers/tty/tty.c:817-882 | in_transfer() gives a reader something iff one waits, something is complete, and it is MIN line breaks or the line is hung up |
| `LineEditing.RawMinimum` | reference/minix/drivers/tty/tty.c:1300-1348 | after raw mode is set a read is answered at once iff MIN bytes are there (one, for a timed read without MIN), with all there is up to what was asked for |
| `LineEditing.TimedRead` | reference/minix/drivers/tty/tty.c:365-402 | a timed raw read that finds nothing waits for MIN bytes, or one, whatever an earlier read left behind |
| `LineEditing.HangUp` | reference/minix/drivers/tty/tty.c:1300-1348 | a hang-up discards what is queued unless NOFLSH, and no reader is kept waiting for more |
| `LineEditing.RunSettings` | reference/minix/drivers/tty/tty.c:1300-1348 | over any run output is held up only while IXON is set, and a canonical read waits for no more than one line |
| `Ttys.Tty.constructor` | reference/minix/drivers/tty/tty.c:1414-1430 | an empty queue |
| `Ttys.Tty.Echo` | reference/minix/drivers/tty/tty.c:1048-1104 | changes the length field only; line breaks and EOF get length 0 |
| `Ttys.Tty.Reprint` | reference/minix/drivers/tty/tty.c:1151-1185 | changes lengths only, and only behind the last line break |
| `Ttys.Tty.FindBreak` | reference/minix/drivers/tty/tty.c:1162-1170 | the backward walk finds the last line break |
| `Ttys.Tty.BackOver` | reference/minix/drivers/tty/tty.c:1122-1146 | takes off the last entry unless it is a line break |
| `Ttys.Tty.KillLine` | reference/minix/drivers/tty/tty.c:955-957 | takes off everything behind the last line break |
| `Ttys.Tty.DoTransfer` | reference/minix/drivers/tty/tty.c:817-882 | computes the transfer, bounce buffer included |
| `Ttys.Tty.Interpret` | reference/minix/drivers/tty/tty.c:900-1008 | whether the byte is an LNEXT, REPRINT, ERASE, KILL, flow-control, signal or line-break character, and the entry stored for it, as the settings have it |
| `Ttys.Tty.InProcess` | reference/minix/drivers/tty/tty.c:887-1043 | the queue, the counters and the number of bytes taken after any input, byte by byte as `FeedMeans` has it |
| `Ttys.Tty.Read` | reference/minix/drivers/tty/tty.c:365-402 | a second reader is refused; else the request is set up and served from the queue |
| `Ttys.Tty.HandleEvents` | reference/minix/drivers/tty/tty.c:780-793 | device input is processed, then the reader that waits is served |
| `Ttys.Tty.EndRead` | reference/minix/drivers/tty/tty.c:412-417 | a pending read ends and nothing else changes |
| `Ttys.Tty.SetAttr` | reference/minix/drivers/tty/tty.c:1300-1348 | raw mode marks every entry; MIN, flow control and hang-up |
| `Ttys.Tty.SigChar` | reference/minix/drivers/tty/tty.c:1374-1396 | flushes the queue unless NOFLSH |
| `Ttys.Tty.Cancel` | reference/minix/drivers/tty/tty.c:1401-1409 | empties the queue |
| `Keyboard.LetterCase` | src/keyboard.c:161-186 | Caps Lock alone decides the case of letters; the customary rule holds iff Shift is up |
| `Keyboard.CapsOnlyLetters` | src/keyboard.c:161-186 | Caps Lock makes a difference exactly for the letters |
| `Keyboard.PutAccepts` | src/keyboard.c:121-128 | a character is dropped iff all places but one are in use |
| `Keyboard.StepInv` | src/keyboard.c:208-234 | each statement of reader and interrupt handler keeps: accepted equals taken followed by buffered |
| `Keyboard.RunDelivers` | src/keyboard.c:121-234 | under any interleaving the reader gets the accepted characters once, in order |
| `Keyboard.StepMeans` | src/keyboard.c:138-186 | what a scan code does to Shift and Caps Lock, and that it types its character exactly when there is room |
| `Keyboard.ShiftIsHeld` | src/keyboard.c:138-159 | over any run Shift counts as held exactly while a Shift key went down and none has come up since |
| `Keyboard.CapsIsParity` | src/keyboard.c:154-159 | Caps Lock is on exactly after an odd number of presses |
| `Keyboard.TypedIsAccepted` | src/keyboard.c:121-186 | while there is room the accepted characters are exactly the keystrokes, each translated under the modifiers of its moment |
| `Keyboard.KeyboardDriver.PutChar` | src/keyboard.c:121-128 | the buffer after it, and exactly when it stores |
| `Keyboard.KeyboardDriver.Interrupted` | src/keyboard.c:138-186 | computes the model's interrupt step |
| `Keyboard.KeyboardDriver.Statement` | src/keyboard.c:223-234 | computes the model's reader step |
| `LogRing.AppendHolds` | reference/minix/drivers/log/log.c:168-182 | with nobody waiting the log holds the newest unread bytes |
| `LogRing.AppendServes` | reference/minix/drivers/log/log.c:133-141 | a suspended reader gets the front of what arrives and the log keeps the rest |
| `LogRing.RunInOrder` | reference/minix/drivers/log/log.c:106-287 | over any run readers get disjoint stretches of the stream in order |
| `LogRing.AskedMeans` | reference/minix/drivers/log/log.c:240-273 | a read request is refused while somebody waits, suspended iff nothing is unread, and else given the oldest unread bytes up to its size |
| `LogRing.WaiterGets` | reference/minix/drivers/log/log.c:106-182 | a reader that found the log empty gets the front of what is written next |
| `LogRing.NothingLost` | reference/minix/drivers/log/log.c:106-287 | over any run whose writes fit, the stretches that readers got cover the stream without a gap |
| `LogDevices.SplicedRing` | reference/minix/drivers/log/log.c:111-131 | copying at the write mark and moving the read mark keeps the newest bytes |
| `LogDevices.LogDevice.SubRead` | reference/minix/drivers/log/log.c:187-205 | the front of the unread bytes, up to the end of the buffer |
| `LogDevices.LogDevice.SubWrite` | reference/minix/drivers/log/log.c:106-163 | computes the model's write and hands the suspended reader the front of the data |
| `LogDevices.LogDevice.Append` | reference/minix/drivers/log/log.c:168-182 | computes the model's append |
| `LogDevices.LogDevice.Ask` | reference/minix/drivers/log/log.c:240-273 | a read gets all there is up to its size, in one stretch or in two round the end of the buffer, or waits |

## Left out

- Destination ANY in a send or notify: the kernel would index the process table with it.
- Blocking sends to oneself in the kernel run theorems: `SendAcyclic` shows that exactly these break the invariant.
- Traps by IDLE, and signals to or exit of kernel tasks: the kernel never performs them.
- The stack and message-buffer address arithmetic of sys_call, alarms, IRQ hook management, fork, exec, trace, nice and memory maps.
- Privilege structures shared by several processes.
- KernelObject.Kernel.constructor: a privilege structure belongs to its slot from the start, because the search for a free one is not modelled.
- Requeueing by the clock task of a process that has blocked meanwhile: `RequeuedQueued` shows that exactly this would break the queues.
- The argument of a notification that comes neither from HARDWARE nor from SYSTEM; the kernel leaves it undefined.
- File and directory names that fill their 64-byte buffers; the source leaves such strings unterminated.
- fs_list(), dir_ls() and help output, colours and all other screen output.
- The line editor readline() and the tokenizer parse_cmd() of the shell; a command arrives as a list of words.
- Terminal output, timers and select(); the reply to a reader is left out, what it was given is modelled.
- Ttys.Tty.Read: stops after its first in_transfer(), because what follows are steps of their own, HandleEvents and EndRead.
- Shells.Shell.Dispatch: leaves open when fwrite, fedit and copy run out of room, because the session has no blocks; the methods of FileSystems.FileSystem state it exactly.
- Ttys.Tty.Echo: does not fix the length of a tab, because it depends on the cursor position, which the device keeps.
- Log writes by user processes and read requests with several vectors; select() on the log.
- The hosted program dug_os.c, which runs on the file system of its host, and the boot, descriptor-table, interrupt-controller and screen code of `src`.
