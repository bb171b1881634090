# A verified model of codezero

codezero is an L4 microkernel with a POSIX pager, mm0, on top. This project models the parts
of both whose promises hold over whole runs, and proves them in Dafny 4.11:

1. **Copy-on-write shadow chains** (`Shadow*.dfy`). A private mapping is a chain of objects:
   shadows in front, a file or devzero at the back. Faults, fork and exit rewrite the chains and
   keep two reference counts per object.
2. **Waiting and scheduling** (`Wait*.dfy`, `SchedulerShare.dfy`): waitqueues, runqueues,
   `WAIT_EVENT`, time slices.
3. **IPC rendezvous** (`Ipc*.dfy`) and **mutexes** (`KernelMutex.dfy`, `UserMutex.dfy`).
4. **Address spaces** (`PageTables.dfy`, `VmAreas.dfy`): two-level tables against a flat map,
   mmap and munmap against a flat map.
5. **File calls and allocators** (`FileCopy.dfy`, `FilePages.dfy`, `FileCalls.dfy`,
   `ListInsert.dfy`, `Bitmaps.dfy`, `AddressPools.dfy`, `MemCaches.dfy`, `CacheCalls.dfy`).

Each part has value-level functions that say what one operation does, lemmas about them, and a
class whose methods follow the C code, loops and in-place updates included, and are proved to
have exactly the effect of those functions. `BUG_ON` checks of the code are assertions in the
methods or, for the concurrent parts, a predicate proved of every reachable state. Concurrency is
a state machine: one step is one section under a spinlock or one unlocked write, and steps of all
tasks, wakers and cpus interleave freely. `Basics.dfy` holds what several parts share.

## What the code does not promise

These properties, which one would expect, are false of the code. Each has its exact condition
here and a concrete case in which it fails.

- The drop test after a copy on write compares page counts, not pages
  (`conts/posix/mm0/mm/fault.c:118-126`). A child that writes one page after a fork can lose
  another. `ShadowLoss.FaultMovesPages` says when, in terms of the state before the fault;
  `ShadowLossRun.CountTestLosesPage` is a run in which it happens.
- munmap in the middle of a vma (`conts/posix/mm0/mm/munmap.c:15-53`) links a writable front to both
  halves. A split keeps the invariant of the chains exactly if the front is not writable
  (`ShadowSplit.SplitInvIff`). Otherwise one half can tear the front from the object behind it in
  the other, and a `BUG_ON` fires when that one is unmapped (`ShadowSplit.SplitWriteExitFails` for
  every such world, `ShadowSplitRun.SplitHitsBug` for a run that gets there).
- A resume writes the task's state without a lock and puts the task on a runqueue afterwards
  (`src/generic/scheduler.c:201-223`). If the task is still current on another cpu, that cpu can
  find it runnable and on no runqueue, and `BUG_ON` in `sched_rq_remove_task` fires.
  `WaitingCpus.RunChecks` says exactly when a check fails, `WaitingCpus.ResumeGapHitsBug` is a run
  on two cpus that ends there, and `WaitingCpus.OneCpuChecks` shows that it takes two.
- `mutex_control_unlock` with a count of 0 while the two sides of an address are even puts its
  caller to sleep with nobody to wait for (`UserMutex.UnlockConservesIff`,
  `UserMutex.RunConservesUntil`, `UserMutex.MutexControl.Unlock`; `UserMutex.ZeroUnlockStrands`).
- The two sides of a rendezvous need not return the same outcome. `sys_ipc` stores the flag word of
  the caller unmasked, error bits included. Every outcome reaches a sleeper exactly if its call
  passed neither error bit (`IpcRuns.ReadBackIff`, `IpcRuns.SameOutcome`);
  `IpcRuns.BitsHideOutcome` is a run in which the taker succeeds and the sleeper fails.
- An `mmap` that fails for lack of memory may have unmapped what was in its way
  (`conts/posix/mm0/mm/mmap.c:317-330`). `VmAreas.FailedMmapIff` says when a failed call changes no
  page; `VmAreas.FailedMmapLosesPages` is a call that does.
- The ordered lists of mm0 misplace an entry below the head of a list of two or more
  (`ListInsert.InsertKeepsOrder`, `VmAreas.InsertedInOrder`, `FileCopy.InsertPageOrder`,
  `FilePages.PagedInOrderIff`; `ListInsert.MisplacesBelowHead`). The copy of sys_read and sys_write
  walks such a list: it stops at a `BUG_ON` exactly if it visits too few pages
  (`FileCopy.FileIo.CopyCachePages`), and is right exactly if it visits the pages of the range in
  order (`FilePages.ReadsRightIff`). `FilePages.BelowTheHead` is a cache with both failures.
- `mem_cache_bufsize` can announce too little, with and without alignment
  (`MemCaches.BufSizeSuffices`, `MemCaches.AlignedBufSizeSuffices`, `MemCaches.PowerOfTwoBufSize`;
  `MemCaches.BufSizeFallsShort`, `MemCaches.AlignedBufSizeFallsShort`). `align_up` aligns for powers
  of two only (`MemCaches.MissesOtherSizes`).
- `mem_cache_alloc` looks at the free count before it takes the mutex (`src/lib/memcache.c:27-28`).
  Its anomaly check fails exactly if a caller past that test enters with nothing free
  (`CacheCalls.RunChecks`), which callers can do among themselves exactly if there are more of them
  and of elements in use than elements (`CacheCalls.OverclaimedIff`); `CacheCalls.TwoCallersHitBug` is
  a run. Capabilities reserve an element per caller as long as no unit is returned before its element
  (`CacheCalls.QuotaNeverFails`). The code returns the unit first (`src/generic/resource.c:89-98`), and
  `CacheCalls.RefundFirstHitsBug` is a run in which that is not enough.
- `mem_cache_free` of the address one past the last element can clear a bit of somebody else's
  memory and spoil the count of free elements (`MemCaches.MemCache.Free` says exactly when,
  `MemCaches.OnePastIsFreed` is such a call).
- A search for a run of 0 bits leaves the bitmap unless a bit behind the limit is set
  (`Bitmaps.EmptySearchIff`); for an address pool it always does
  (`AddressPools.AddressPool.NoPagesLeavesBitmap`). `address_del` of a range that was not handed out
  and lies in the bitmap leaves the pool sound exactly if the first page of the range is free
  (`AddressPools.AddressPool.Del`; `AddressPools.HalfReturned`).
- A write behind the end of a file makes bytes before the cursor part of the file that show what a
  frame held before, exactly if it starts inside a page behind the last one of the file
  (`FileCalls.ExposedIff`; `FileCalls.HoleShowsFrame`).

## Assumptions

- A fault, a fork step and an exit of one vma are atomic in the pager. Allocations inside them
  succeed; the code treats their failure as a bug. Names of new objects, frames and vmas are
  parameters. Files are not written by others while they are mapped privately, and reading a page
  of a mapped file in succeeds.
- A waitqueue entry is identified by its task. `thread_start` is applied to inactive tasks. A task
  that an interrupt returns to although it is not runnable goes to `schedule()` before anything else.
- A resume reads the queue pointer before it takes the lock, so a resumed task may go to either
  runqueue. The model lets it do so at any time, whether or not the queues were swapped in between.
- `WaitingCpus` takes from the code around the wake-ups that interrupt handlers do not nest and wake
  asynchronously, that a task does not wake the queue it is on, and that preemption is off where a
  task that gave up its runqueue still wakes others.
- IPC copies fail with -EFAULT or -ENOIPC only, as `ipc_signal_error` asserts; whether a utcb
  access faults is a parameter. A wake-up by signal is one step in the IPC model.
- A task does not lock a kernel mutex that it owns (`KernelMutex.MutexObject.LockRound` says what
  happens if it does).
- User mutex calls are not interrupted.
- The set of runnable tasks, their priorities and prio_total stay the same in `SchedulerShare`.
- Calls on one address space do not overlap: `add_mapping_space` looks for a table, may sleep to get
  one and then attaches it over whatever was attached meanwhile. Second-level tables are refused only
  for lack of MAPPOOL units. `arch_*` helpers write one entry.
- `capability_consume` and `capability_free` are atomic. Calls of mem_cache_free that overlap with
  others name no address past the last element.
- Flushing a vma's pages in `do_munmap` succeeds. The user buffer of a file copy is one flat range.
- Addresses and sizes of a memory cache stay below the word size, so that no sum wraps around.

## Model

| member | source | states |
|---|---|---|
| ShadowWorld.InitInv | conts/posix/mm0/mm/vm_object.c:114-164 | a system without mappings satisfies the structure, ownership and page table invariants that every run keeps |
| ShadowWorld.ResolveSound | conts/posix/mm0/mm/fault.c:642-673 | a chain lookup only ends in an allocated frame of an object of the chain at that offset, or in a file of the chain |
| ShadowWorld.ResolveFinds | conts/posix/mm0/mm/fault.c:655-670 | a lookup in a live vma never falls off the end of its chain, so the "could not find the faulty page" bug is unreachable |
| ShadowWorld.ShadowInFront | conts/posix/mm0/mm/fault.c:260-283 | in every chain a shadow is directly followed by its orig_obj |
| ShadowInvariant.WritableIsExclusive | conts/posix/mm0/mm/fault.c:561-583 | a writable object is the front of exactly one vma and in no other chain |
| ShadowInvariant.MergeFacts | conts/posix/mm0/mm/fault.c:152-166 | an object with one link and one shadow has its front shadow, itself and its original next to each other in the one vma that links it |
| ShadowInvariant.UnhookInv | conts/posix/mm0/mm/fault.c:361-402 | dropping a link behind the front keeps all lists, counts and orig_obj relations when the object has other links |
| ShadowInvariant.UnhookDeleteInv | conts/posix/mm0/mm/fault.c:361-421 | so does dropping the last link together with the deletion |
| ShadowInvariant.MergeInv | conts/posix/mm0/mm/fault.c:152-209 | a merge keeps the whole invariant: counts, chains, page ownership, no leaked frame |
| ShadowForkExit.ExitInv | conts/posix/mm0/mm/fault.c:458-470 | dropping all links of a vma one by one, with deletions and merges on the way, keeps the invariant and removes just that vma |
| ShadowForkExit.FreezeInv | conts/posix/mm0/mm/fault.c:785-837 | freezing keeps the invariant and leaves no writable object in the chain |
| ShadowForkExit.CopyLinksInv | conts/posix/mm0/mm/fault.c:260-283 | copying the links of a frozen vma keeps the invariant |
| ShadowViews.MergeSources | conts/posix/mm0/mm/fault.c:167-206 | a merge changes for no vma and no page where the page is found |
| ShadowViews.DropSecondSource | conts/posix/mm0/mm/fault.c:345-431 | a drop changes nothing for other vmas and in its own vma sends exactly the pages the front lacks to the objects behind |
| ShadowFaults.ExitViews | conts/posix/mm0/mm/fault.c:458-470 | exit changes nothing that any other vma sees, nor its entries |
| ShadowFaults.CopyLinksViews | conts/posix/mm0/mm/fault.c:260-283 | the child vma shows what the parent shows; nobody else notices |
| ShadowFaults.WritableFrameIsPrivate | conts/posix/mm0/mm/fault.c:485-620 | the frame of a writable entry is found by its own vma at its own offset and nowhere else |
| ShadowFaults.StoreViews | conts/posix/mm0/mm/fault.c:729-778 | a store through a writable entry changes one byte of one page of one vma |
| ShadowCopy.CopySound | conts/posix/mm0/mm/fault.c:485-620 | copy on write always leaves a sound world in which the vma owns the page in its writable front |
| ShadowCopy.FaultSound | conts/posix/mm0/mm/fault.c:729-778 | every fault keeps the invariant, leaves files as they were, and grants write access only to private front pages |
| ShadowCopy.FaultViews | conts/posix/mm0/mm/fault.c:729-778 | a fault whose drop is covered is invisible and leaves every entry naming the page the lookup finds |
| ShadowLoss.DropLosesExactly | conts/posix/mm0/mm/fault.c:118-126 | the condition read off the state before the fault holds exactly if a drop fires that the front does not cover |
| ShadowLoss.CopyMovesPages | conts/posix/mm0/mm/fault.c:598-617 | copy on write changes where the vma finds some other page exactly under that condition |
| ShadowLoss.FaultMovesPages | conts/posix/mm0/mm/fault.c:729-778 | the same for whole faults: only a write fault under that condition moves another page |
| ShadowLoss.FaultKeepsOthers | conts/posix/mm0/mm/fault.c:729-778 | a fault, lossy or not, changes nothing that another vma sees |
| ShadowLossRun.CountTestLosesPage | conts/posix/mm0/mm/fault.c:118-126 | a run of six steps after which the child sees zeroes where it saw the parent's byte |
| ShadowSplit.SplitInvIff | conts/posix/mm0/mm/munmap.c:15-53 | a split keeps counts, chains and orig_obj relations exactly if the front of the chain is not writable |
| ShadowSplit.SplitViews | conts/posix/mm0/mm/munmap.c:15-53 | both halves show what the vma showed, and nobody else notices |
| ShadowSplit.FaultTears | conts/posix/mm0/mm/fault.c:361-402 | in halves that share a writable front, a write fault that fires the count test leaves the other half with an object behind the front that the front no longer shadows |
| ShadowSplit.SplitWriteExitFails | conts/posix/mm0/mm/fault.c:405-412 | from every sound world with such a front: split, write, unmap of one half, and the orig_obj check at the unmap of the other fails |
| ShadowSplit.SoundExits | conts/posix/mm0/mm/fault.c:405-412 | in a sound world that check never fails |
| ShadowSplitRun.SplitHitsBug | conts/posix/mm0/mm/munmap.c:15-53 | a run of six steps to such a world |
| ShadowRuns.RunSound | conts/posix/mm0/mm/fault.c:345-837 | in every reachable world counts equal list lengths, chains are well formed, no frame leaks, writable entries are private and files show what they held at the start |
| ShadowRuns.RunIsolated | conts/posix/mm0/mm/fault.c:345-837 | in every run a vma shows the same pages between two steps of its own |
| ShadowRuns.RunRefines | conts/posix/mm0/mm/fault.c:345-837 | every run without a lossy drop shows flat memories copied at fork, and every present entry names the page the lookup returns |
| ShadowRuns.LoadsAreFlat | conts/posix/mm0/mm/fault.c:345-837 | in such runs a load through a present entry returns the flat memory's bytes |
| ShadowPager.Pager.PageInFrom | conts/posix/mm0/mm/pagers.c:104-188 | page_in of shadow, file and devzero objects |
| ShadowPager.Pager.Search | conts/posix/mm0/mm/fault.c:655-670 | the chain walk finds the page that the lookup defines and reads at most that page in |
| ShadowPager.Pager.ReadFault | conts/posix/mm0/mm/fault.c:642-673 | page_read_fault is that walk from the first link |
| ShadowPager.Pager.ReleasePages | conts/posix/mm0/mm/pagers.c:45-63 | frees exactly the object's frames; its page count never goes negative |
| ShadowPager.Pager.DeleteObject | conts/posix/mm0/mm/vm_object.c:167-207 | removes the object and its frames and nothing else; its reference checks hold |
| ShadowPager.Pager.MovePages | conts/posix/mm0/mm/fault.c:167-178 | moves exactly the pages the front lacks, with owner and count |
| ShadowPager.Pager.MergeObject | conts/posix/mm0/mm/fault.c:152-209 | has the effect of the merge function; its checks hold |
| ShadowPager.Pager.DropMergeDelete | conts/posix/mm0/mm/fault.c:345-431 | has the effect of the drop function for a link behind the front |
| ShadowPager.Pager.DropMergeDeleteFirst | conts/posix/mm0/mm/fault.c:345-431 | has the effect of the drop function for the first link |
| ShadowPager.Pager.DropMergeDeleteAll | conts/posix/mm0/mm/fault.c:458-470 | the loop drops every link, front to back |
| ShadowPager.Pager.DestroyVma | conts/posix/mm0/mm/munmap.c:89-110 | takes the vma with all its links away |
| ShadowPager.Pager.CopyOnWrite | conts/posix/mm0/mm/fault.c:485-620 | has the effect of the copy function and returns the page the lookup now finds |
| ShadowPager.Pager.Fault | conts/posix/mm0/mm/fault.c:729-778 | has the effect of the fault function; the entry names the returned page |
| ShadowPager.Pager.FreezeShadow | conts/posix/mm0/mm/fault.c:785-837 | front shadow and all its entries become read-only |
| ShadowPager.Pager.CopyLinks | conts/posix/mm0/mm/fault.c:260-283 | every object of the chain gets one link to the new vma, in chain order |
| ShadowPager.Pager.Fork | conts/posix/mm0/mm/task.c:240-258 | freezing all vmas and copying all links gives each child vma its parent's view, changes no view, and leaves both frozen |
| WaitingRuns.StepInv | src/lib/wait.c:74-249 | every step of every interleaving whose checks pass keeps the placement invariant, the two writes of a resume taken apart |
| WaitingRuns.RunInv | src/generic/scheduler.c:146-496 | so it holds in every reachable state, up to the first failing check |
| WaitingRuns.Placement | src/lib/wait.c:186-249 | a runnable task is on one runqueue of its own cpu exactly if neither schedule() nor a waker has it in hand; a sleeping one is on exactly the queue it waits on or held by one waker; an inactive one is nowhere |
| WaitingRuns.ChecksPassIff | src/generic/scheduler.c:146-223 | a BUG check of either file fails in exactly two kinds of step: a cpu takes a current task off its runqueue that a waker is half way through resuming, or a waker resumes synchronously the task that runs on its own cpu |
| WaitingCpus.RunContexts | src/lib/wait.c:119-249 | in every run of cpus that execute one thing at a time, a task that wakes another never has it current on its own cpu |
| WaitingCpus.RunChecks | src/generic/scheduler.c:146-223 | in every such run a check fails exactly if a cpu takes its current task off a runqueue while another cpu is between the two writes of resuming it |
| WaitingCpus.OneCpuChecks | src/generic/scheduler.c:146-223 | on one cpu no check ever fails |
| WaitingCpus.ResumeGapHitsBug | src/generic/scheduler.c:217-223 | a run on two cpus after which BUG_ON in sched_rq_remove_task fires |
| WaitingRuns.RunBalance | src/lib/wait.c:119-249 | over every run, per task: sleeps = takes + still queued, takes = first writes + held, first writes + starts = second writes + half resumed; no sleep is ended twice |
| WaitqueueOps.WakeManyFacts | src/lib/wait.c:119-147 | waking n times takes the first n sleepers, makes them runnable and touches no other task |
| WaitqueueOps.WokenFacts | src/lib/wait.c:186-249 | waking one task takes it off its waitqueue, puts it first on its runqueue and touches no other task |
| WaitqueueOps.AttendedFacts | src/generic/scheduler.c:457-484 | pending events inside schedule(): a task about to sleep is woken, one to be suspended in user mode ends inactive, and the invariant holds |
| WaitqueueOps.ScheduledInv | src/generic/scheduler.c:422-496 | one schedule() from outside keeps the invariant |
| WaitqueueOps.Core.Wait | src/lib/wait.c:94-116 | wait_on queues the caller at the tail and takes it off its runqueue |
| WaitqueueOps.Core.WakeUp | src/lib/wait.c:150-179 | wake_up takes the head and resumes it |
| WaitqueueOps.Core.WakeUpAll | src/lib/wait.c:119-147 | the loop leaves the queue empty and every former sleeper runnable |
| WaitqueueOps.Core.WakeUpTask | src/lib/wait.c:186-249 | -1 exactly for a task that waits nowhere; otherwise the effect of the wake-up function |
| WaitqueueOps.Core.Schedule | src/generic/scheduler.c:422-496 | requeues the current task, attends to pending signals, suspension and the exit hint, selects the next task, and keeps the invariant |
| WaitqueueOps.Core.SuspendAsync | src/generic/scheduler.c:258-270 | the current task leaves its runqueue and its pager is woken |
| WaitqueueOps.Core.SwitchNext | src/generic/scheduler.c:327-391 | selection order: idle on request, runnable head, swapped expired head, idle, current |
| SchedulerShare.RecalcBound | src/generic/scheduler.c:305-311 | a slice never exceeds CONFIG_SCHED_TICKS, and is zero exactly if the share is below one tick |
| SchedulerShare.DefaultsOk | include/l4/generic/scheduler.h:17-23 | the priorities of the code with 1000 ticks give every task a share of at least one tick |
| SchedulerShare.StartInv | src/generic/scheduler.c:368-391 | a cpu with all tasks queued and the first one selected satisfies the share invariant |
| SchedulerShare.TicksBounded | src/generic/scheduler.c:432 | ticks_left never exceeds CONFIG_SCHED_TICKS |
| SchedulerShare.ShareBetweenSwaps | src/generic/scheduler.c:129-139 | between two consecutive swaps every task is charged exactly CONFIG_SCHED_TICKS * priority / prio_total ticks, however often it is preempted |
| SchedulerShare.WaitShrinks | src/generic/scheduler.c:327-391 | while a task waits, each tick shortens what those queued before it can still take by one, and no schedule() lengthens it |
| SchedulerShare.SelectedInTime | src/generic/scheduler.c:422-496 | a task is selected again before more than the slices of all others have ticked away |
| SchedulerShare.WaitReached | src/generic/scheduler.c:422-496 | for every configuration a run in which a task that starts behind all others is not selected while exactly their slices tick away: the bound is exact |
| SchedulerShare.TickingCpu.UpdateProcessTimes | src/generic/time.c:108-143 | charges one tick and asks for a reschedule exactly at the end of slice or granule; the BUG() for a task without ticks is unreachable from the timer interrupt |
| SchedulerShare.TickingCpu.Reschedule | src/generic/scheduler.c:422-496 | has the effect of the schedule step and keeps the share invariant |
| WaitEvent.NoLostWakeup | include/l4/lib/wait.h:49-75 | with one waiter, an inactive target that is past its wake-up has nobody asleep on it, for every interleaving with interrupts and with restarts at any time |
| WaitEvent.WakeServesOne | src/generic/scheduler.c:244-270 | the one wake-up of a target that stays inactive leaves nobody behind exactly if at most one waits |
| WaitEvent.WokenGetsThrough | include/l4/lib/wait.h:55-58 | a woken waiter that finds the target inactive leaves the loop |
| IpcRuns.RunInv | src/api/ipc.c:216-341 | queues, phases, flags and saved messages stay consistent in every run |
| IpcRuns.NoMissedRendezvous | src/api/ipc.c:216-341 | no sender sleeps on a receiver that sleeps accepting it |
| IpcRuns.SameOutcome | src/api/ipc.c:162-204 | the sleeper returns the taker's outcome if its call passed no error bits, and otherwise the first of its own bits |
| IpcRuns.ReadBackIff | src/api/ipc.c:183-204 | every outcome is returned as it is exactly if the call passed no error bits |
| IpcRuns.BitsHideOutcome | src/api/ipc.c:597 | whatever bits a receiver passes, a run in which the sender succeeds; the receiver does exactly if no bit is set |
| IpcRuns.SignalThenHandle | src/api/ipc.c:162-204 | handling undoes signalling: the sleeper returns the signalled error and is as before, exactly if the bits were clear |
| IpcRuns.MessageArrives | src/api/ipc.c:90-151 | the receiver gets the registers the sender had at its call, and an L4_ANYTHREAD receiver the sender's own tid |
| IpcRuns.ServedInTime | src/api/ipc.c:297-324 | a sender at position k leaves the queue within k + 1 receives from anyone |
| IpcRuns.NotOvertaken | src/api/ipc.c:303-324 | a receive from anyone never takes the later of two senders |
| IpcRuns.MeetingsMatch | src/api/ipc.c:216-341 | each rendezvous a partner finished is returned from exactly once |
| IpcOps.Rendezvous.LookFor | src/api/ipc.c:303-309 | the scan finds the first acceptable sender |
| IpcOps.Rendezvous.BeginSend | src/api/ipc.c:216-275 | the locked section of ipc_send |
| IpcOps.Rendezvous.BeginRecv | src/api/ipc.c:278-341 | the locked section of ipc_recv |
| IpcOps.Rendezvous.MsgCopy | src/api/ipc.c:90-151 | outcome and copied message by the two ipc types |
| IpcOps.Rendezvous.EndSend | src/api/ipc.c:238-260 | the copy, error signal and wake-up that end ipc_send |
| IpcOps.Rendezvous.EndRecv | src/api/ipc.c:312-322 | the same for ipc_recv |
| IpcOps.Rendezvous.HandleErrors | src/api/ipc.c:183-204 | order of the flags and which one is cleared |
| UserMutex.LockConserves | src/api/mutex.c:155-204 | a lock call keeps conservation: released contenders are the first min(entries, announced), and a record exists just while the sides differ |
| UserMutex.UnlockConserves | src/api/mutex.c:206-292 | so does an unlock call that announces somebody or finds a record |
| UserMutex.UnlockConservesIff | src/api/mutex.c:213-236 | and no other unlock call does |
| UserMutex.WakeLoopMoves | src/api/mutex.c:249-256 | the loop wakes the first min(contenders, waiters) waiters |
| UserMutex.RunConserves | src/api/mutex.c:155-292 | over every run, per address, exactly the first min(lock entries, announced) contenders were let through, in order, unless a call announced nobody while both sides were even |
| UserMutex.RunConservesUntil | src/api/mutex.c:155-292 | and the first such call breaks it |
| UserMutex.ZeroUnlockStrands | src/api/mutex.c:213-238 | an unlock that announces nobody as the first call on an address is such a call |
| UserMutex.MutexControl.Lock | src/api/mutex.c:155-204 | returns at once, sleeps or fails by the history of the address; the delete checks hold |
| UserMutex.MutexControl.Unlock | src/api/mutex.c:206-292 | the same for unlock; the records agree with the history exactly if the call announces somebody or the sides differ |
| UserMutex.MutexControl.WakeContenders | src/api/mutex.c:249-256 | the loop has the effect of the wake function |
| KernelMutex.StepInv | src/lib/mutex.c:101-181 | every locked section keeps the mutex invariant and nlocks equal to the number of mutexes owned |
| KernelMutex.ExclusionAndWakeup | src/lib/mutex.c:101-181 | in every run one owner at most, and a sleeper always has an owner or a woken task that has yet to retry before it |
| KernelMutex.HoldsUntilUnlock | src/lib/mutex.c:113-181 | between lock and unlock by a task nobody else gets the mutex |
| KernelMutex.UnlockChecks | src/lib/mutex.c:146-160 | nlocks and sleepers checks of unlock hold |
| KernelMutex.MutexObject.LockRound | src/lib/mutex.c:120-141 | one round: the lock or a place at the tail; the invariant breaks exactly if the owner locks again |
| KernelMutex.MutexObject.Release | src/lib/mutex.c:146-181 | frees the lock and takes the first sleeper |
| PageTables.AttachFacts | src/arch/arm/mapping-common.c:99-116 | a fresh table changes one slot of one space and stays exclusive |
| PageTables.WriteShared | src/arch/arm/mapping-common.c:207-212 | writing an entry shows in exactly the pages whose slot points to the same table |
| PageTables.WriteFacts | src/arch/arm/mapping-common.c:207-212 | for a user page that is one page of one space |
| PageTables.AddressSpaces.VirtToPte | src/arch/arm/mapping-common.c:23-55 | the two-level walk is the flat lookup |
| PageTables.AddressSpaces.AddMapping | src/arch/arm/mapping-common.c:175-222 | user or kernel pages: the sequence of one-page changes, a prefix of it on -ENOMEM; for user pages exactly the requested ones change and no other space sees it |
| PageTables.AddressSpaces.RemoveMapping | src/arch/arm/mapping-common.c:313-357 | one change, for a user page of exactly one page; -ENOMAP exactly if it was not mapped |
| PageTables.AddressSpaces.CheckMapping | src/arch/arm/mapping-common.c:280-300 | true exactly if every page of the range permits the access |
| PageTables.AddressSpaces.CopyUserTables | src/arch/arm/mapping-common.c:377-428 | the copy shows every user page of the original in tables of its own; it fails exactly if the units do not suffice, and then returns every table and unit |
| PageTables.AddressSpaces.GiveBack | src/arch/arm/mapping-common.c:413-427 | the error path restores tables and units |
| PageTables.ChangedFacts | src/arch/arm/mapping-common.c:175-222 | mapping or unmapping a user page shows in one page of one space or nowhere; a kernel page never shows in a user page; tables stay exclusive |
| PageTables.UnnamedPage | src/arch/arm/mapping-common.c:175-357 | over every sequence of maps and unmaps in all spaces, kernel pages included, a user page that none of them names keeps its entry |
| PageTables.CopyStaysApart | src/arch/arm/mapping-common.c:377-428 | after a copy, whatever sequence of maps and unmaps follows in both spaces, every user page not named in its own space shows what the original showed at the copy |
| VmAreas.UnmappedExact | conts/posix/mm0/mm/munmap.c:116-210 | munmap removes exactly the pages of the range; every other page keeps flags, file page and chain |
| VmAreas.UnmappedValid | conts/posix/mm0/mm/munmap.c:15-135 | vmas stay non-empty and disjoint through split, shrink and destroy |
| VmAreas.InsertedExact | conts/posix/mm0/mm/mmap.c:48-99 | insertion adds exactly the pages of the new vma |
| VmAreas.InsertedInOrder | conts/posix/mm0/mm/mmap.c:48-99 | the list stays ordered exactly if the new vma is above the head or there is at most one |
| VmAreas.RemappedValid | conts/posix/mm0/mm/mmap.c:317-364 | after the unmap the new vma meets no other, whatever the list order |
| VmAreas.FailedMmapIff | conts/posix/mm0/mm/mmap.c:317-358 | a failed mmap changes no page exactly if a split was refused or no vma met the range |
| VmAreas.FailedMmapLosesPages | conts/posix/mm0/mm/mmap.c:317-330 | an mmap that fails with two pages less mapped |
| VmAreas.RunsAreFlat | conts/posix/mm0/mm/mmap.c:317-364 | over every run of mmap and munmap, failing calls included, the vmas are disjoint and show the flat map of that history |
| VmAreas.TaskVmas.DoMunmap | conts/posix/mm0/mm/munmap.c:184-210 | the loop has that effect; -ENOMEM exactly for a split without memory, and then nothing changed |
| VmAreas.TaskVmas.UnmapVma | conts/posix/mm0/mm/munmap.c:116-135 | split, shrink or destroy of one vma |
| VmAreas.TaskVmas.InsertVma | conts/posix/mm0/mm/mmap.c:48-99 | the scan inserts as defined; its intersection checks never fire |
| VmAreas.TaskVmas.MapAt | conts/posix/mm0/mm/mmap.c:317-364 | unmap, three allocations, insert: list and result for every allocation that may fail |
| VmAreas.TaskVmas.AnyIntersects | conts/posix/mm0/mm/mmap.c:101-112 | whether some vma meets the range |
| VmAreas.TaskVmas.FindUnmappedArea | conts/posix/mm0/mm/mmap.c:118-143 | the free region behind the first vma that leaves room, None exactly if none does |
| ListInsert.InsertKeepsOrder | conts/posix/mm0/mm/file.c:233-270 | the insertion scan keeps order exactly if the key is above the head or there is at most one |
| ListInsert.MisplacesBelowHead | conts/posix/mm0/mm/file.c:233-270 | 1 inserted into 2, 3 gives 2, 1, 3 |
| ListInsert.RisingInserts | conts/posix/mm0/mm/file.c:276-293 | pages inserted in rising order above the head keep the cache sorted |
| FileCopy.WrittenPages | conts/posix/mm0/mm/file.c:669-671 | the page range is exactly the pages of the bytes |
| FileCopy.InsertPageOrder | conts/posix/mm0/mm/file.c:233-270 | when a page insertion keeps the cache sorted |
| FileCopy.SortedIsRight | conts/posix/mm0/mm/file.c:537-541 | in a sorted cache that has the range the copy visits exactly its pages in order |
| FileCopy.WriteThenRead | conts/posix/mm0/mm/file.c:522-574 | the copy loop of a read brings back what that of a write left, for all alignments and caches in any order |
| FileCopy.FileIo.CopyCachePages | conts/posix/mm0/mm/file.c:522-574 | over a cache in any order: the j-th page visited gives or takes exactly the bytes of the j-th page of the range, no other byte changes, and nothing is left over exactly if enough pages are visited |
| FileCopy.FileIo.CopyPage | conts/posix/mm0/mm/file.c:548-570 | the inner loop finishes the page or the copy |
| FileCopy.FileIo.CopyChunk | conts/posix/mm0/mm/file.c:550-570 | one chunk stays inside a file page and a user page |
| FilePages.PagedInShows | conts/posix/mm0/mm/file.c:276-293 | a range read in is cached and no byte of the file shows anything new |
| FilePages.PagedInOrderIff | conts/posix/mm0/mm/file.c:233-293 | reading a range in keeps the cache sorted exactly if it had at most one page or all missing pages are above the first |
| FilePages.WithNewShows | conts/posix/mm0/mm/file.c:477-507 | new pages behind all others show what their frames held and keep a sorted cache sorted |
| FilePages.WriteShows | conts/posix/mm0/mm/file.c:522-574 | after a copy over the right pages the file shows the buffer in the range written and is unchanged elsewhere |
| FilePages.ReadDelivers | conts/posix/mm0/mm/file.c:522-574 | a copy over the right pages delivers what the file shows |
| FilePages.ReadsRightIff | conts/posix/mm0/mm/file.c:522-574 | a copy with enough pages delivers what the file shows, whatever the pages hold, exactly if the j-th page visited is the j-th of the range |
| FilePages.BelowTheHead | conts/posix/mm0/mm/file.c:233-293 | with pages 2 and 3 cached, reading page 1 visits no page and reading pages 1 to 3 visits them in the wrong order |
| FileCalls.SortedReadIsRight | conts/posix/mm0/mm/file.c:606-624 | a sorted cache whose missing pages are above its first is right for the read |
| FileCalls.SortedWriteIsRight | conts/posix/mm0/mm/file.c:669-729 | and for the write, new pages included |
| FileCalls.OpenFile.ReadFilePages | conts/posix/mm0/mm/file.c:276-293 | the loop caches the range, or stops at the first page that cannot be read, and shows the same bytes either way |
| FileCalls.OpenFile.NewFilePages | conts/posix/mm0/mm/file.c:477-507 | the loop adds the new pages, or nothing without memory |
| FileCalls.OpenFile.SysRead | conts/posix/mm0/mm/file.c:576-632 | for a cache in any order: stuck at the BUG_ON exactly if too few pages are visited, else the bytes of the pages visited, which are those the file shows if the pages are right; the cursor moves, no byte of the file changes, errors change nothing |
| FileCalls.OpenFile.SysWrite | conts/posix/mm0/mm/file.c:641-744 | the same for the write: over the right pages every position shows the buffer, a new frame or what it showed; length and cursor move; errors change no byte |
| FileCalls.OpenFile.WriteThenRead | conts/posix/mm0/mm/file.c:576-744 | write, seek back, read: unless the write gets stuck the bytes written come back, with page-in, new pages and length update on the way and the cache in any order |
| FileCalls.ExposedIff | conts/posix/mm0/mm/file.c:669-741 | a write makes positions outside its range show a new frame exactly if it starts inside a page behind the last one of the file, and then those before the cursor |
| FileCalls.HoleShowsFrame | conts/posix/mm0/mm/file.c:641-744 | a byte written at 5000 into an empty file makes position 4096 show the frame |
| Bitmaps.BitsExact | conts/posix/mm0/lib/bit.c:79-101 | setting or clearing a bit of a word array changes that bit only |
| Bitmaps.FindAndSetFirstFree | src/lib/bit.c:20-39 | the least clear bit, set; -1 exactly if there is none |
| Bitmaps.FindAndSetContig | conts/posix/mm0/lib/bit.c:44-77 | the least start of n clear bits, exactly those set; -1 exactly if there is no such run or n is 0, for which the search reads on behind the words |
| Bitmaps.EmptySearchIff | conts/posix/mm0/lib/bit.c:55-69 | a search for 0 bits ends inside the words exactly if some bit at or behind the limit is set |
| Bitmaps.ClearContig | conts/posix/mm0/lib/bit.c:103-109 | clears up to the first bit that is clear already; 0 exactly if there is none |
| AddressPools.GrowMarks | conts/posix/mm0/lib/addr.c:38-46 | a new range is disjoint from all live ones |
| AddressPools.ShrinkMarks | conts/posix/mm0/lib/addr.c:48-58 | returning a live range frees exactly its pages |
| AddressPools.AddressPool.constructor | conts/posix/mm0/lib/addr.c:29-36 | an empty pool |
| AddressPools.AddressPool.New | conts/posix/mm0/lib/addr.c:38-46 | the lowest free range inside the pool, None exactly if there is none or no page is asked for; live ranges stay disjoint |
| AddressPools.AddressPool.Del | conts/posix/mm0/lib/addr.c:48-58 | a handed-out range comes back; one past the bitmap is refused; any other is cleared up to its first free page, and the pool stays sound exactly if that is the first |
| AddressPools.HalfReturned | conts/posix/mm0/lib/addr.c:48-58 | of two pages handed out the first alone is taken back, and is free while its range is live |
| AddressPools.AddressPool.NoPagesLeavesBitmap | conts/posix/mm0/lib/addr.c:38-46 | a request for no pages always searches past the bitmap |
| MemCaches.AlignUpBounds | src/lib/memcache.c:188-193 | alignment moves up by less than one size, whatever the size |
| MemCaches.AlignsPowersOfTwo | src/lib/memcache.c:190 | the result is a multiple for powers of two |
| MemCaches.MissesOtherSizes | src/lib/memcache.c:190 | and for every other size there is an address for which it is not |
| MemCaches.LayoutSound | src/lib/memcache.c:129-213 | header, bitmap and elements are disjoint and inside the buffer and the bitmap covers all elements, for all accepted arguments |
| MemCaches.InitAccepts | src/lib/memcache.c:143-183 | a buffer is refused exactly if header, bitmap and one element do not fit |
| MemCaches.BufSizeSuffices | src/lib/memcache.c:98-127 | without alignment the announced size takes n structures exactly if the bitmap reserved first is no larger than the one for n |
| MemCaches.AlignedBufSizeSuffices | src/lib/memcache.c:98-199 | with alignment and any size: exactly if n structures from the aligned end of the reserved bitmap end within the announced buffer |
| MemCaches.PowerOfTwoBufSize | src/lib/memcache.c:98-199 | for powers of two: exactly if the reserved bitmap and the one for n end at the same aligned address |
| MemCaches.AlignedBufSizeFallsShort | src/lib/memcache.c:98-199 | 32 aligned four-byte structures do not fit, nor does one of 12 bytes |
| MemCaches.ElementsAligned | src/lib/memcache.c:186-199 | every element of an aligned cache of power-of-two size is aligned |
| MemCaches.BufSizeFallsShort | src/lib/memcache.c:98-127 | 32 four-byte structures do not fit |
| MemCaches.UsedSize | src/lib/memcache.c:201-207 | a bit below total is clear exactly if fewer than total are used |
| MemCaches.MemCache.constructor | src/lib/memcache.c:201-212 | all elements free |
| MemCaches.MemCache.AllocLocked | src/lib/memcache.c:30-37 | the section under the mutex: the first clear bit is set and free drops by one; it finds none exactly if nothing is free, and only then the count goes wrong |
| MemCaches.MemCache.Alloc | src/lib/memcache.c:22-43 | without another caller between test and section: the first unused element, 0 exactly if all are used; free = total - used |
| CacheCalls.RunInv | src/lib/memcache.c:22-91 | in every run of overlapping calls, up to the first failing check, free = total - used and no two live elements are the same |
| CacheCalls.RunChecks | src/lib/memcache.c:30-35 | in every run a check fails exactly if a caller past the test enters with nothing free |
| CacheCalls.ReservedNeverFails | src/lib/memcache.c:27-35 | never while at each passing test elements in use and callers past the test are fewer than elements |
| CacheCalls.OverclaimedIff | src/lib/memcache.c:27-35 | callers past the test can run into the check among themselves exactly if they and the elements in use are more than all elements |
| CacheCalls.TwoCallersHitBug | src/lib/memcache.c:27-35 | a run of two callers that ends in BUG() |
| CacheCalls.QuotaNeverFails | src/generic/resource.c:28-82 | with a capability no larger than the cache no check fails in any run in which no caller looks while a unit is back before its element |
| CacheCalls.RefundFirstHitsBug | src/generic/resource.c:89-98 | in the order of the code a run with capabilities ends in BUG() |
| MemCaches.MemCache.Free | src/lib/memcache.c:46-91 | 0 exactly for an element in use, which becomes free; otherwise nothing changes; the cache stays sound exactly unless the address is one past the end, the bitmap is full of elements and the word behind it is odd |
| MemCaches.OnePastIsFreed | src/lib/memcache.c:46-91 | a cache laid out by the code in which such a call succeeds |
| MemCaches.MemCache.ElementsApart | src/lib/memcache.c:38 | elements never overlap |

## Left out

- Shared mappings, shm files and the page fault entry path: they have no shadows and only add simple cases.
- Splitting a vma inside `ShadowRuns`: `ShadowSplit` says when a split keeps their invariant and what follows when it does not; what forks and stores do to halves with a shared writable front is not followed further.
- ShadowPager.Pager.Fault: the drop keeps the code's count test, so views are promised only for covered drops; `ShadowLoss.FaultMovesPages` says exactly when.
- SMP memory order.
- WaitqueueOps.Core.Schedule: for one cpu that nobody interferes with; interleavings are the matter of `WaitingRuns` and `WaitingCpus`.
- SchedulerShare.SelectedInTime: ticks that find no ticks left are ignored by the code and not counted.
- ipc_sendrecv and the extended ipc calls: two calls in a row of what is modelled.
- The split of ticks at thread creation, the timer wheel, capability checks per system call, ELF loading, path lookup and device code.
- PageTables.AddressSpaces.CopyUserTables: after a failure the new first-level table still has its stale slots, as in the code; nothing is promised about it.
- MAP_FIXED and address validation in do_mmap, and the file offset, which the code compares in pages and shifts as bytes.
- VmAreas.TaskVmas.MapAt: the object links that a failing mmap of a shm file leaves behind are not modelled, only the vma list.
- VmAreas.TaskVmas.FindUnmappedArea: the region is bounded by map_end only; below map_start it may be, if a vma ends there.
- Bitmaps.FindAndSetContig: a search for 0 bits is followed as far as the memory behind the words that is given; one that meets no set bit there does not end.
- Flushing dirty file pages, truncation and the fd table.
