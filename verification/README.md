# FarmOS, verified

A Dafny model of the parts of the FarmOS RISC-V kernel that have the most state, with
proofs of what every run of them keeps.

**Memory** (`panics`, `words`, `sv39`, `pagetables`, `vm`, `boot`, `simple`, `simpleruns`, `cow`,
`transfer`, `walk`, `visits`, `supply`, `pagesupply`, `fork`, `forkwalk`, `forksupply`, `recycle`,
`processes`, `rights`, `fixedpages`, `kernel`, `kernelcases`).  Reference-counted frames, the
three-level tables of section 4.4 of the RISC-V Privileged Architecture, pages filled when first
touched, fork by copy-on-write, shared pages and page-wise user copies.  State is a value
(`VmState.Mem`) with an invariant: counts equal live entries plus holds, the free list is exactly the
unreferenced frames, tables are disjoint trees, a frame named twice is writable through no entry without
the shared bit.  Each kernel function is a function on that value; the class `KernelMemory.Kernel` has
the C code's assignments, loops and lock, and every method is proved equal to its function, panics
included.  The simple reading (`SimpleSystem`) is a map from process to page to bytes, in which a shared
page that has been touched is one memory under a name.  The main results say that every run of the
kernel is a run of that simple system, from boot on (`Processes.RunRefines`, `Processes.RunsFromBoot`),
that mappings and forks alone decide which accesses go through (`AccessRights.RunRights`,
`AccessRights.ForkedStore`), that every process keeps the kernel's entry code, signal code and trap
frame at their addresses (`FixedPages.EveryProcess`), that processes do not interfere at private pages
and at shared ones only by storing there (`Processes.RunIsolated`, `Processes.RunReadsStay`), which
pages a fork leaves shared (`Processes.RunForkSharing`), exactly when fork succeeds
(`ForkSupply.ForkNeeds`) and that fork followed by exit gives back every frame
(`Processes.ForkExitConserves`).

**Files** (`buf`, `image`, `cluster`, `fatchain`, `filepnt`, `filepos`, `fatfile`, `filerun`,
`filecases`).  Four layers of the FAT32 store, each refining a simpler one: the write-back cache refines
an array of sectors (`Buffers`), sectors refine a table and clusters, at their places on the device
(`Clusters`; "FAT Data Structure" in Microsoft's FAT32 File System Specification), chains partition the
clusters (`FatChains`), the index is a flat array (`FileIndex`) and files are plain byte sequences
(`FatFiles.FileTable`).  Any sequence of operations on any files refines a map from files to bytes
(`FileRuns.PerformAll`), up to an operation whose exact condition fails.

**Threads** (`sched`, `schedruns`, `mutex`, `tsleep`, `diskwait`).  Step systems at the granularity of
lock operations, with any number of harts or threads in any interleaving: placement of threads, whom a
wakeup wakes, order of running and freedom from deadlock, the decision to halt, mutual exclusion,
nesting and wakeups of sleep mutexes, timed sleep, waiting for the disk.  Theorems over runs are stated
from what threads asked for, and each system has a theorem that whoever waits for nothing has a next
step.

**Smaller pieces** (`kmalloc`, `virtio`, `signals`, `strings`).  The kernel heap, the descriptor rings
of sections 2.6 and 5.2.6 of Virtio 1.1, nested signal handlers, and string routines that read eight
bytes at a time.

A panic is the result `Panic` of a function or `ok == false` of a method, and the contracts say exactly
when it happens.  `requires` clauses state the invariant and what callers owe.  `hide` statements only
keep definitions away from proofs that do not need them.

Where the code does less than its comments or its neighbours suggest, the code is followed and the exact
condition is proved; a member named behind a semicolon shows it at a concrete input:

- `ptUnmap` returns with `kvmlock` held exactly if the entry is zero, and reads through a null pointer
  if a table is missing (`KernelMemory.Kernel.PtUnmap`; `KernelCases.UnmapKeepsLock`).
- `clusterAlloc` never looks at clusters before the last one of the file, so a file can fail to grow on
  a volume with free clusters (`FatChains.AllocCounts`, `FatFiles.FileTable.FileExtend`;
  `FatChains.FreeButNotFound`).
- `file_shrink` counts clusters in 32 bits, so a file of nearly 4 GiB loses its clusters to no file when
  it is truncated (`FatFiles.FileTable.Truncate`, `FilePositions.CountWraps`;
  `FileCases.ShrinkCountsNone`).
- `file_read` adds offset and length in 32 bits.  Where the sum wraps it panics, or reads one cluster and
  reports the whole length; where the read reaches the last cluster below 2^32 it panics
  (`FatFiles.FileTable.FileRead`; `FileCases.LongReads`).
- `file_write` has the same sums (`FatFiles.FileTable.FileWrite`; `FileCases.LongWrite`).
- The loop of `file_extend` cannot end by its guard for sizes in the last cluster below 2^32
  (`FilePositions.LoopCanEnd`, `FatFiles.FileTable.FileExtend`; `FileCases.LastClusterOutOfReach`).
- `filepnt_setval` does not test its bound, so a file of more than 529408 clusters can be neither opened
  nor made (`FileIndex.SetVal`, `FatFiles.FileTable.Open`; `FileCases.OneClusterTooMany`).
- `virtio_disk_rw` panics exactly when a third request arrives while two are in flight
  (`VirtioDisk.Driver.Submit`, `DiskWait.SubmitPanics`; `VirtioDisk.ThirdRequestFails`).
- `tsleep` with a mutex of the caller's can leave a thread asleep past its deadline
  (`TimedSleep.CallerMutexForgets`); without one it cannot (`TimedSleep.NobodyOversleeps`).
- `extend_heap` tests its limit for one page whatever it allocates, so the heap passes it exactly when a
  larger block does not fit (`KernelHeap.LimitPassed`; `KernelHeap.PastTheLimit`).
- A shared page that no process has touched stops being shared by a fork
  (`Processes.RunForkSharing`; `KernelCases.ForkSeparates`).

`dafny verify dfyconfig.toml` checks the project.

## Model

| member | source | states |
|---|---|---|
| `Sv39.VpnOfVaOf` | kern/mm/vmtools.c:33-34 | the address rebuilt from the three loop counters of a traversal, plus any offset into the page, splits into the same three table indices again |
| `Sv39.VaOfVpnOf` | include/mm/vmm.h:37-39 | the three indices and the page offset determine an address below 2^39 |
| `Sv39.MappedWord` | include/mm/vmm.h:57-63 | in the stored 64-bit word, page address and flag bits do not disturb each other: both read back |
| `Sv39.FlagBits` | include/mm/vmm.h:42-42 | ten flag bits and the record of permissions used by the rest of the model carry the same information |
| `Sv39.FlagLayout` | include/mm/vmm.h:9-26 | every flag is the bit that section 4.4 of the RISC-V Privileged Architecture, or the kernel for its own two, gives it |
| `Sv39.CowBits` | kern/proc/fork.c:22-22 | the mask expressions that turn a writable page into a copy-on-write one, and back, are the record updates the model uses |
| `PageTables.LeafWrite` | kern/mm/vmm.c:72-101 | writing one leaf entry changes the lookup of one page of one directory, no other lookup anywhere, and keeps all tables disjoint trees |
| `PageTables.Grow` | kern/mm/vmm.c:85-94 | hanging a zeroed table below an empty entry keeps the trees and changes no lookup |
| `PageTables.SlotsAfterWrite` | kern/mm/vmm.c:49-61 | overwriting an entry moves exactly one count from its old target to the new one |
| `VmState.SetLeaf` | kern/mm/vmm.c:49-70 | an entry rewrite with its reference counting keeps every invariant: counts equal live entries plus holds, the free list is exactly the unreferenced frames not handed out, tables are trees |
| `VmState.WalkInv` | kern/mm/vmm.c:72-101 | a walk that creates missing levels keeps the invariant and every existing lookup, and afterwards both levels exist |
| `VmState.MapRemaps` | kern/mm/vmm.c:197-248 | ptMap changes the flat map at one page of one directory to the requested entry and nowhere else; no frame in use loses its bytes |
| `VmState.UnmapRemaps` | kern/mm/vmm.c:250-263 | ptUnmap sets one page of the flat map to zero and nothing else |
| `VmState.MapKept` | kern/mm/vmm.c:197-248 | ptMap adds tables only under its own directory and moves no other table |
| `FrameSupply.PathNeeds` | kern/mm/vmm.c:72-101 | the tables on the way to a page can be made exactly if there is a free frame for each that is missing, and no more are taken |
| `FrameSupply.MapNeeds` | kern/mm/vmm.c:197-248 | ptMap of an unmapped page succeeds exactly under that condition |
| `Boot.BootedOk` | kern/mm/pmm.c:83-95 | the state after boot satisfies the invariant from which the theorems start |
| `KernelMemory.Kernel.PmInit` | kern/mm/pmm.c:83-95 | the two loops build one reference for each kernel frame and the free list of all others, last frame first |
| `KernelMemory.Kernel.PmAlloc` | kern/mm/pmm.c:120-133 | succeeds exactly if a frame is free; takes the head of the list, zeroed, and keeps the counter equal to the list length |
| `KernelMemory.Kernel.PmPageIncRef` | kern/mm/pmm.c:135-138 | one count more on that frame only |
| `KernelMemory.Kernel.PmPageDecRef` | kern/mm/pmm.c:140-148 | one count less; at zero the frame becomes the head of the free list |
| `KernelMemory.Kernel.PtModify` | kern/mm/vmm.c:49-61 | the decrement, write and increment together are the single update SetPte that the invariant lemmas are about |
| `KernelMemory.Kernel.PtClear` | kern/mm/vmm.c:66-70 | the same for an entry that becomes zero |
| `KernelMemory.Kernel.AddTable` | kern/mm/vmm.c:85-93 | a zeroed frame is hung below the entry, or the allocator is empty |
| `KernelMemory.Kernel.NextLevel` | kern/mm/vmm.c:76-98 | one round of the walk, with its three outcomes |
| `KernelMemory.Kernel.PtWalk` | kern/mm/vmm.c:72-101 | the loop over levels finds the leaf table exactly if both levels exist, changes nothing without create, and is the recursive walk with it |
| `KernelMemory.Kernel.PtLookup` | kern/mm/vmm.c:187-192 | returns the entry of the flat map, zero where a level is missing, and leaves the lock as it was |
| `KernelMemory.Kernel.PtPath` | kern/mm/vmm.c:199-204 | look first, create only if that failed |
| `KernelMemory.Kernel.PtMap` | kern/mm/vmm.c:197-248 | the method is the function Map, panics included, and returns with kvmlock released |
| `KernelMemory.Kernel.PtUnmap` | kern/mm/vmm.c:250-263 | the method is the function Unmap; on return kvmlock is held once more than before if and only if the entry was zero |
| `KernelCases.UnmapKeepsLock` | kern/mm/vmm.c:250-263 | from boot: map any page, unmap any unmapped neighbour in the same leaf table, and the call has returned with kvmlock held |
| `KernelMemory.Kernel.VmAlloc` | kern/mm/vmm.c:180-185 | a zeroed frame that no count covers yet, or a panic exactly if none is free |
| `CopyOnWrite.PrivateAlone` | kern/proc/fork.c:20-24 | in every state that satisfies the invariant, a frame some process can write through an entry without the shared bit is named by one entry of all tables, and its count is one plus the holds |
| `CopyOnWrite.RemapViews` | kern/mm/vmm.c:197-248 | changing one entry is, where every process has pages of its own, setting one user page of one process |
| `CopyOnWrite.MapFreshRemaps` | kern/trap/trap_pgfault.c:12-26 | allocate, fill and map shows exactly the filled page at that place, in a frame no other entry names |
| `CopyOnWrite.FaultKeepsViews` | kern/trap/trap_pgfault.c:28-43 | no page fault, served or refused, changes what any process reads at any user page, private or shared; a shared page touched for the first time becomes a memory of its own; a served fault leaves a present entry |
| `CopyOnWrite.FaultOnce` | kern/trap/trap_pgfault.c:28-43 | after a served write fault a second one on the same page is refused, so the retried store ends |
| `CopyOnWrite.StoreIsolated` | kern/trap/trap_pgfault.c:28-43 | a store with its faults changes one byte of the page and of exactly those pages, of any process, that are the same shared memory; a refused store changes no byte (which are refused: AccessRights.StoreGoesThrough) |
| `CopyOnWrite.PrivateStoreIsolated` | kern/trap/trap_pgfault.c:28-43 | a store with its faults through an entry without the shared bit leaves what every other user page of every process shows unchanged, shared pages included |
| `CopyOnWrite.LoadReads` | kern/trap/trap_pgfault.c:28-43 | a load with its faults returns the byte of the page, private or shared, and changes no byte of any process (which are refused: AccessRights.LoadGoesThrough) |
| `CopyOnWrite.MapPageViews` | kern/syscall/sys_mm.c:11-28 | mapping a page shows zeros where the process had no frame, at once or when first touched, private or as a new shared memory, and changes nothing else |
| `CopyOnWrite.UnmapViews` | kern/mm/vmm.c:250-263 | unmapping removes one page from one process; frames that others still map keep their bytes |
| `CopyOnWrite.SpecialAddresses` | include/mm/memlayout.h:42-44 | the three pages no user view has are exactly those at or above the trap frame address |
| `KernelMemory.Kernel.CowFault` | kern/trap/trap_pgfault.c:12-18 | the method is the specified copy: fresh frame, same bytes, writable, no longer copy-on-write |
| `KernelMemory.Kernel.PassiveFault` | kern/trap/trap_pgfault.c:20-26 | the method is the specified fill with zeros under the recorded permissions |
| `KernelMemory.Kernel.PageFault` | kern/trap/trap_pgfault.c:28-43 | the three-way decision of the handler |
| `PageSupply.FaultExactly` | kern/trap/trap_pgfault.c:28-43 | a fault is served exactly if the page is passive, or copy-on-write and written to; it panics exactly if such a page finds no frame, and otherwise changes nothing |
| `PageSupply.AccessNeeds` | kern/trap/trap_pgfault.c:28-43 | a user store or load panics exactly if it faults on such a page without a free frame |
| `PageSupply.PrepareExactly` | kern/lib/transfer.c:38-50 | a kernel copy goes through at a user page exactly if the entry permits the access, a write also if it is copy-on-write, and there is a frame where one is needed |
| `PageSupply.MapPageExactly` | kern/syscall/sys_mm.c:9-28 | sys_map of a page takes one frame for each missing table, and one more exactly below 32 MiB, where the page is present at once; it succeeds exactly with that many, and the entry has the permissions asked for |
| `Transfer.TestFaultOk` | kern/lib/transfer.c:15-27 | after the page test of a copy no byte of any process has changed, and a page with a frame may be written if that was asked for |
| `Transfer.PrepareOk` | kern/lib/transfer.c:38-50 | after the start of a round the page is present, may be written if that was asked for, and has a name of its own if it is shared |
| `Transfer.CopyOutViews` | kern/lib/transfer.c:34-62 | copying out, at any address and length, is storing the bytes one after the other: over present, copy-on-write and passive pages, and into every page that is the same shared memory |
| `Transfer.CopyInReads` | kern/lib/transfer.c:34-67 | copying in, at any address and length, returns the bytes of the process's pages, private and shared, and changes no byte |
| `Transfer.CopyRoundTrip` | kern/lib/transfer.c:34-67 | a copy-in after a copy-out of a mapped range returns the same bytes if and only if bytes agree that fall on one place, which needs one shared frame mapped twice inside the range |
| `KernelMemory.Kernel.TestPageFault` | kern/lib/transfer.c:15-27 | the method is the function TestFault |
| `KernelMemory.Kernel.PreparePage` | kern/lib/transfer.c:38-50 | the start of a round is the function Prepare, its panic on a page without frame included |
| `KernelMemory.Kernel.CopyChunk` | kern/lib/transfer.c:59-62 | the bytes that fall into one page |
| `KernelMemory.Kernel.CopyRound` | kern/lib/transfer.c:38-56 | one round of the page loop does a nonempty first part and leaves the rest of the copy |
| `KernelMemory.Kernel.CopyOutTo` | kern/lib/transfer.c:34-57 | the loop over pages is the recursive copy, for every address and length |
| `KernelMemory.Kernel.FetchChunk` | kern/lib/transfer.c:64-67 | the bytes that one page has there |
| `KernelMemory.Kernel.FetchRound` | kern/lib/transfer.c:38-56 | one round of the page loop reads a nonempty first part and leaves the rest of the copy |
| `KernelMemory.Kernel.CopyInFrom` | kern/lib/transfer.c:34-57 | the loop over pages is the recursive copy-in, for every address and length |
| `PageVisits.VisitsExact` | kern/mm/vmtools.c:20-58 | pdWalk visits exactly the pages with a nonzero entry, each once, in ascending order, and the address it passes leads back to that page |
| `PageVisits.WalkIsCalls` | kern/mm/vmtools.c:20-58 | with a callback that leaves tables alone, pdWalk is that callback on those pages in that order, including where it stops on a panic |
| `TableWalk.WalkRule` | kern/mm/vmtools.c:20-58 | if every callback carries an invariant from one place of the traversal to the next, pdWalk carries it from the first place to the last, even while tables change underneath |
| `TableWalk.WalkOk` | kern/mm/vmtools.c:20-58 | and it does not panic if no callback does where the invariant holds |
| `Fork.InitUptBorn` | kern/proc/procinit.c:85-102 | a new address space has the three pages above user memory (what stands there: FixedPages.InitUptFixed), no user page and nothing shared, and nothing any process reads has changed |
| `Fork.DupStep` | kern/proc/fork.c:10-32 | one duppage moves "all pages before this one are shared correctly" to the next page, in each of its cases |
| `ForkWalk.DupWalk` | kern/proc/fork.c:116-116 | the traversal gives the child an entry for every page of the parent and misses none, while the parent's entries change under it |
| `ForkWalk.ForkCow` | kern/proc/fork.c:10-32 | after it, no frame named twice is writable through an entry without the shared bit |
| `ForkWalk.ForkViews` | kern/proc/fork.c:103-117 | right after fork the child reads the parent's bytes at every user page, private and shared, shares what the parent shared and had touched, and nothing any other process reads has changed |
| `ForkWalk.ForkReads` | kern/proc/fork.c:103-117 | the same for one page, from the state before fork: the child's entry has the parent's user bit, bytes and kind |
| `ForkWalk.ForkEntries` | kern/proc/fork.c:10-32 | at every user page fork leaves parent and child with the modes of the parent's entry and with writable or copy-on-write exactly if it was one of them, carries an entry without a frame over unchanged, and leaves the permissions of all other processes alone |
| `ForkSupply.ForkIsCalls` | kern/mm/vmtools.c:20-58 | although duppage changes the tables the traversal reads, fork's traversal is duppage on the pages the parent had at its start, in order |
| `ForkSupply.CallsNeed` | kern/proc/fork.c:10-32 | duppage on a list of pages succeeds exactly if there is a frame for every table those pages add to the child |
| `ForkSupply.InitUptNeeds` | kern/proc/procinit.c:85-102 | proc_initupt succeeds exactly if four frames are free |
| `ForkSupply.ForkNeeds` | kern/proc/fork.c:103-117 | fork succeeds exactly if the free frames number two plus the middle and leaf tables that the parent's pages and the three fixed pages lie in, and takes exactly that many |
| `KernelMemory.Kernel.NewDirectory` | kern/mm/vmm.c:165-171 | kvmAlloc of a directory: a zeroed frame held once |
| `KernelMemory.Kernel.InitUserPt` | kern/proc/procinit.c:85-102 | the method is the function InitUpt, panics included, and leaves at the three fixed addresses what FixedPages.Fixed says |
| `FixedPages.InitUptFixed` | kern/proc/procinit.c:85-102 | after it the entry at TRAMPOLINE is valid, names the frame of trampoline and permits exactly r, x and g; the one at SIGNAL_TRAMPOLINE names the frame of user_sig_return with exactly r, x and u; the one at TRAPFRAME permits exactly r and w and reads as zeros |
| `FixedPages.TrapframeAlone` | kern/proc/procinit.c:100-101 | no other entry of any process names the frame of a trap frame |
| `FixedPages.ForkFixed` | kern/proc/fork.c:103-117 | the child of a fork has the same three entries, with a zeroed trap frame of its own |
| `FixedPages.StepAbove` | kern/proc/procinit.c:85-102 | no step of any process changes an entry above user memory of a process that does not end or unmap it itself, nor a byte of the kernel's own pages |
| `FixedPages.RunFixed` | kern/proc/procinit.c:85-102 | in every run each process created by spawn or fork has the three pages until it ends or unmaps one of them, and the code on the kernel's pages never changes |
| `FixedPages.EveryProcess` | kern/proc/procinit.c:85-102 | in every run from boot in which nobody unmaps one of them, every process has the three pages at every moment, with a trap frame of its own |
| `KernelMemory.Kernel.DupPage` | kern/proc/fork.c:10-32 | the method is the function Dup, with its four cases and its panic |
| `KernelMemory.Kernel.DupEntry` | kern/mm/vmtools.c:32-40 | the innermost step of the traversal with duppage as callback |
| `KernelMemory.Kernel.DupLeaves` | kern/mm/vmtools.c:32-41 | the innermost loop equals the recursive traversal of one leaf table |
| `KernelMemory.Kernel.DupTables` | kern/mm/vmtools.c:27-47 | the middle loop |
| `KernelMemory.Kernel.DupSpace` | kern/mm/vmtools.c:20-53 | the outer loop: three nested loops that change the tables they read equal the recursive traversal |
| `KernelMemory.Kernel.ForkPt` | kern/proc/fork.c:103-117 | the memory part of proc_fork is the function ForkSpace; it succeeds exactly if the frames of ForkNeeds are free, and takes that many |
| `Recycle.DropInv` | kern/mm/vmm.c:173-178 | giving back a table with no live entry frees its frame and keeps every invariant |
| `Recycle.RecycleRemoves` | kern/proc/procinit.c:125-130 | tearing down an address space never panics, removes exactly its tables and the references they held, and touches no other table |
| `Recycle.RecycleViews` | kern/proc/procinit.c:125-130 | and no other process reads anything different, at private or shared pages |
| `KernelMemory.Kernel.FreeTable` | kern/mm/vmtools.c:12-16 | kvmFree of a table is the function Drop |
| `KernelMemory.Kernel.ClearLeaves` | kern/mm/vmtools.c:32-45 | the innermost loop of the teardown, callback for the leaf table included |
| `KernelMemory.Kernel.ClearTables` | kern/mm/vmtools.c:27-52 | the middle loop of the teardown |
| `KernelMemory.Kernel.RecyclePt` | kern/proc/procinit.c:125-130 | the three loops of the teardown equal the specified traversal |
| `Processes.StepRefines` | kern/proc/fork.c:10-32 | each step of spawn, fork, exit, load, store, map, unmap and kernel copy in or out is the corresponding step of a system in which every process has pages of bytes, and shared pages are one memory under a name; which accesses go through is the table of rights below |
| `Processes.RunRefines` | kern/proc/fork.c:103-117 | so is every run, from any state satisfying the invariant: copy-on-write, laziness, counts and tables never show, at private pages or at shared ones; AccessRights.RunRights says of the same runs which accesses go through |
| `Processes.RunsFromBoot` | kern/mm/pmm.c:83-95 | and every run from boot, where the simple system starts with no process at all |
| `Processes.RunIsolated` | kern/proc/fork.c:103-117 | in every run, what a process reads at its private pages at the end follows from what it read there at the start and its own steps |
| `Processes.RunReadsStay` | kern/proc/fork.c:103-117 | in every run, a process that takes no step reads the same at every user page, shared ones included, as long as nobody stores into that memory |
| `Processes.RunForkSharing` | kern/proc/fork.c:18-19 | in every run after a fork, parent and child have one common shared frame at a page exactly if the parent had it there before: a shared page without frame is filled for each separately |
| `SimpleRuns.OthersKeep` | kern/trap/trap_pgfault.c:28-43 | in the simple system another process's page changes only by a store into that memory |
| `SimpleRuns.PrivateStore` | kern/trap/trap_pgfault.c:28-43 | and a store to a private page changes no other page at all |
| `SimpleRuns.Noninterference` | kern/proc/fork.c:103-117 | in the simple system the private pages of a process depend on its own steps alone |
| `SimpleRuns.ReadsStay` | kern/proc/fork.c:103-117 | the simple system's form of RunReadsStay |
| `SimpleRuns.SharingKept` | kern/proc/fork.c:18-19 | two pages that nobody maps or unmaps are one memory at the end of a run exactly if they were at its start |
| `SimpleRuns.ForkSharing` | kern/proc/fork.c:18-19 | the simple system's form of RunForkSharing |
| `SimpleRuns.ReadBack` | kern/lib/transfer.c:34-67 | reading a range back returns what was stored if and only if bytes on one place agree |
| `SimpleRuns.WriteIsPatch` | kern/lib/transfer.c:34-62 | in a private page, storing a range byte by byte replaces exactly the bytes whose addresses lie in the range |
| `Processes.SameCounts` | kern/mm/vmm.c:24-34 | two whole states with the same tables, targets and holds have the same reference counts and free frames |
| `Processes.ForkExitConserves` | kern/proc/fork.c:103-117 | forking and recycling the child restores every reference count, the set of free frames, the length of the free list and every page, private and shared, of every process |
| `AccessRights.StoreGoesThrough` | kern/trap/trap_pgfault.c:28-43 | a store, its faults included, goes through if and only if the entry is for user mode and writable or copy-on-write, and changes the rights of no process |
| `AccessRights.LoadGoesThrough` | kern/trap/trap_pgfault.c:28-43 | a load, its faults included, goes through if and only if the entry is for user mode and readable, and changes the rights of no process |
| `AccessRights.FaultRights` | kern/trap/trap_pgfault.c:12-43 | a page fault, served or refused, gives and takes no right of any process at any page |
| `AccessRights.CopyOutRights` | kern/lib/transfer.c:34-62 | a copy out, at any address and length, changes no right, and goes through only with the right to store at every user page it touches |
| `AccessRights.CopyInRights` | kern/lib/transfer.c:34-62 | a copy in changes no right, and goes through only with the right to load at every user page it touches |
| `AccessRights.MapPageRights` | kern/syscall/sys_mm.c:11-28 | mapping a page without a frame sets its rights to those asked for, at once or lazily, and no other right changes |
| `AccessRights.ForkRights` | kern/proc/fork.c:103-117 | fork gives the child exactly the parent's rights and changes those of no process, the parent included |
| `AccessRights.ExitRights` | kern/proc/procinit.c:125-130 | the end of a process removes its rights and changes no other |
| `AccessRights.StepRights` | kern/proc/fork.c:10-32 | each step of the kernel is a step of a plain table of rights per process and page, in which a load or store goes through exactly if the table has the right, and a kernel copy only if it has |
| `AccessRights.RunRights` | kern/proc/fork.c:103-117 | so is every step of every run |
| `AccessRights.RightsStay` | kern/proc/fork.c:10-32 | in every run a right stays what it is until its process ends or maps or unmaps that page, whatever faults, forks and copies come between |
| `AccessRights.ForkedStore` | kern/proc/fork.c:10-32 | in every run a store of a child goes through exactly if the parent could store there when it forked |
| `KernelCases.ForkSeparates` | kern/proc/fork.c:10-32 | from boot: map any user page as shared without a frame, fork, let both touch it, and the two shared entries name different frames |
| `Buffers.BufChange` | kern/fs/buf.c:72-95 | changing one buffer keeps the cache invariant (at most one buffer for a block, valid clean buffers equal the disk) and changes the reading of that block only |
| `Buffers.ClaimChange` | kern/fs/buf.c:45-64 | evicting a buffer, written back first if dirty, and claiming it changes what no block reads as |
| `Buffers.LastIsOldest` | kern/fs/buf.c:45-47 | the last unreferenced buffer of the list is the one least recently released |
| `Buffers.ReleaseOk` | kern/fs/buf.c:87-95 | releasing keeps the list ordered by time of release and the reading of every block |
| `Buffers.FindBuffer` | kern/fs/buf.c:34-43 | the forward search finds the buffer of the block if there is one |
| `Buffers.FindVictim` | kern/fs/buf.c:45-66 | the backward search finds the least recently released unreferenced buffer, or all are referenced |
| `Buffers.BufferCache.constructor` | kern/fs/buf.c:11-28 | an empty cache reads as the disk |
| `Buffers.BufferCache.BufAlloc` | kern/fs/buf.c:30-67 | a hit or the least recently released unreferenced buffer; fails exactly if all buffers of the group are in use; every block reads as before |
| `Buffers.BufferCache.BufRead` | kern/fs/buf.c:72-79 | a valid buffer; with is_read its bytes are what the block reads as, without it only that block's reading is open |
| `Buffers.BufferCache.SetData` | kern/fs/cluster.c:138-151 | a holder's write changes the reading of that block only, and marks it as not yet declared dirty |
| `Buffers.BufferCache.BufWrite` | kern/fs/buf.c:82-85 | marking dirty changes no reading |
| `Buffers.BufferCache.BufRelease` | kern/fs/buf.c:87-95 | the method is the list update Released, and changes no reading |
| `Buffers.BufferCache.ReadBlock` | kern/fs/cluster.c:169-186 | open, read, release returns the block and changes nothing visible |
| `Buffers.BufferCache.UpdateBlock` | kern/fs/cluster.c:126-152 | open, change some bytes, mark dirty, release replaces those bytes of the block and nothing else |
| `Buffers.BufferCache.ZeroBlock` | kern/fs/cluster.c:198-208 | the same without reading first: the block becomes zeros |
| `Clusters.FatPlaces` | kern/fs/cluster.c:82-94 | an entry of the table has one place in each copy, and no other entry has that place (which place: Clusters.FatLayout) |
| `Clusters.FatLayout` | kern/fs/cluster.c:82-94 | on the device as one run of bytes, the entry of cluster c in copy k of the table is the little-endian word at byte (reserved + k * size) * 512 + 4 * c |
| `Clusters.DataLayout` | kern/fs/cluster.c:72-76 | byte o of cluster c is the byte at (reserved + copies * size + (c - 2) * sectors per cluster) * 512 + o |
| `Clusters.VolLayout` | kern/fs/cluster.c:72-94 | so the volume that all theorems about files are about is the one on the device |
| `Clusters.WordPut` | kern/fs/cluster.c:154-167 | a little-endian entry reads back and its neighbours in the sector are untouched |
| `Clusters.FatPut` | kern/fs/cluster.c:154-167 | writing an entry of one copy on disk changes that entry of that copy, and no byte of any cluster |
| `Clusters.DataPut` | kern/fs/cluster.c:126-152 | writing bytes of one sector of a cluster changes those bytes of that cluster, no other cluster and no entry |
| `Clusters.FatVolume.FatRead` | kern/fs/cluster.c:169-186 | the word at the place of the entry on the device, in the first copy; refused for numbers that are no cluster; the device is unchanged |
| `Clusters.FatVolume.FatWrite` | kern/fs/cluster.c:154-167 | the loop over copies puts the word at the place of the entry in each of them and changes no other byte of the device, so the copies stay equal; refused for numbers that are no cluster |
| `Clusters.FatVolume.ClusterRead` | kern/fs/cluster.c:96-124 | the loop over sectors returns the bytes at the place of the cluster on the device, refused exactly if they run past its end; the device is unchanged |
| `Clusters.FatVolume.ClusterWrite` | kern/fs/cluster.c:126-152 | the loop over sectors puts the bytes at the place of the cluster on the device and changes no other byte of it |
| `Clusters.FatVolume.ClusterZero` | kern/fs/cluster.c:191-208 | the bytes at the place of the cluster become zeros although its sectors are not read, and no other byte of the device changes |
| `Clusters.FatVolume.ClusterAlloc` | kern/fs/cluster.c:213-230 | the method is AllocFrom: the first free cluster behind prev, linked, ended and zeroed; panics exactly if there is none |
| `FileCases.FormattedChain` | kern/fs/cluster.c:82-94 | on a volume given by its bytes, with 32 reserved sectors, following the table from cluster 2 returns the chain it was formatted with |
| `FatChains.FirstFreeIs` | kern/fs/cluster.c:215-217 | the search returns the first entry that is zero |
| `FatChains.AllocCounts` | kern/fs/cluster.c:213-230 | allocation fails exactly if no cluster behind prev is free, however many lie before it, and otherwise takes one of those |
| `FatChains.FreeButNotFound` | kern/fs/cluster.c:213-230 | a consistent volume of two clusters on which one is free and allocation for the file fails |
| `FatChains.AllocStep` | kern/fs/cluster.c:213-230 | allocation at the end of a file keeps all chains disjoint, acyclic, ended and without leak; that file gains a cluster of zeros, no other file changes |
| `FatChains.RawSlice` | kern/fs/fat32/file.c:172-188 | cluster i of a chain holds the i-th stretch of the file's bytes |
| `FatChains.RawPatch` | kern/fs/fat32/file.c:258-274 | writing into cluster i writes the same bytes at the same place of the whole |
| `FatChains.WriteStep` | kern/fs/fat32/file.c:258-274 | a write through one file's chain changes that file at that place and no other file |
| `FatChains.FreeStep` | kern/fs/fat32/filepnt.c:104-114 | freeing the first cluster of a chain keeps every invariant of the others |
| `FileIndex.SetEntry` | kern/fs/fat32/filepnt.c:9-30 | the index is a flat array of 529408 numbers on both sides of the split between its levels |
| `FileIndex.GetClus` | kern/fs/fat32/filepnt.c:80-98 | the lookup returns that number, and panics exactly if it is zero or out of range |
| `FileIndex.SetVal` | kern/fs/fat32/filepnt.c:9-30 | the number is stored exactly if its place is among the 529408 of the index; for others the code writes outside the page of third-level pointers |
| `FileIndex.AgreesLonger` | kern/fs/fat32/filepnt.c:9-30 | setting the number behind the last keeps the index equal to the longer chain |
| `FatFiles.IndexGives` | kern/fs/fat32/filepnt.c:80-98 | for every k below the file's cluster count the index gives the k-th cluster reached by following the table |
| `FatFiles.GrowStep` | kern/fs/fat32/file.c:224-229 | one round of the extension loop |
| `FatFiles.GrowDone` | kern/fs/fat32/file.c:198-233 | a finished extension has added zeros up to the new size |
| `FatFiles.WriteMore` | kern/fs/fat32/file.c:258-274 | one round of the write loop |
| `FatFiles.WriteDone` | kern/fs/fat32/file.c:258-274 | a finished write has replaced the bytes and changed no other file |
| `FatFiles.FreeMore` | kern/fs/fat32/filepnt.c:104-114 | one round of freeing a chain |
| `FatFiles.TruncateDone` | kern/fs/fat32/file.c:302-323 | a file that has given up its chain has no bytes, every other file is as it was, and the invariant holds |
| `FatFiles.AbandonChain` | kern/fs/fat32/file.c:302-323 | a file that forgets its chain without freeing it leaves a consistent volume with clusters that are no file's |
| `FilePositions.CountWraps` | kern/fs/fat32/file.c:303-304 | the 32-bit cluster count is right up to a size one cluster below 2^32, and 0 above |
| `FilePositions.LoopCanEnd` | kern/fs/fat32/file.c:224-224 | the guard of the extension loop, with its 32-bit product, can become false if and only if the new size is at most 2^32 less one cluster |
| `FilePositions.Endless` | kern/fs/fat32/file.c:182-182 | nor can the guard of the read and write loops, when the last byte lies in the last cluster below 2^32 |
| `FileCases.WholeFile` | kern/fs/fat32/file.c:303-304 | on any volume a file that takes all its clusters satisfies the invariant |
| `FileCases.ShrinkCountsNone` | kern/fs/fat32/file.c:303-304 | on a volume of 65536 clusters of 64 KiB, a file of 2^32 - 1 bytes, with its chain and filled index, satisfies the invariant, and the 32-bit count of its clusters is 0 |
| `FatFiles.ClearIndex` | kern/fs/fat32/file.c:313-316 | the loop that zeroes the index entries |
| `FatFiles.CreateOk` | kern/fs/fat32/filepnt.c:33-41 | a file without clusters can be added |
| `FatFiles.WriteThenRead` | kern/fs/fat32/file.c:241-278 | for plain byte sequences: a read of what was written returns it, everything else reads as before, or as zero in a gap |
| `FatFiles.FileTable.Create` | kern/fs/fat32/filepnt.c:33-41 | a new file reads as empty |
| `FatFiles.FileTable.Open` | kern/fs/fat32/filepnt.c:33-52 | succeeds if and only if the chain has at most 529408 clusters; then following the table has filled the index so that it agrees with the chain, and terminated; no file's bytes change |
| `FileCases.OneClusterTooMany` | kern/fs/fat32/filepnt.c:9-30 | a file of 529409 clusters on a consistent volume, which Open therefore cannot open |
| `FatFiles.FileTable.ClusterAt` | kern/fs/fat32/filepnt.c:80-98 | the cluster of the chain at any place inside it; whatever it returns elsewhere is a cluster of the volume, and outside the index it panics |
| `FatFiles.FileTable.ReadAt` | kern/fs/fat32/file.c:181-187 | one round of the read loop, also where the loop has run past the read |
| `FatFiles.FileTable.ReadBytes` | kern/fs/fat32/file.c:166-188 | the read loop, with its 32-bit sums and products: the bytes of the chain if the read ends inside the file and before the last cluster below 2^32; a panic if its wrapped end lies there; one round if the end has wrapped |
| `FatFiles.FileTable.FileRead` | kern/fs/fat32/file.c:149-193 | for every offset and length: through index, chain, sectors and cache the read returns the count and the bytes of the plain byte sequence if and only if it starts behind the end, is empty, or offset plus length does not wrap and no byte of it lies in the last cluster below 2^32; a wrapped sum gives a panic or one cluster with a false count; nothing changes |
| `FileCases.LongReads` | kern/fs/fat32/file.c:158-188 | in any file of more than two bytes, a read of 2^32 - 1 bytes panics at offset 1, and at offset 2 reports them all and has read one cluster at most |
| `FatFiles.FileTable.AddCluster` | kern/fs/fat32/file.c:225-228 | allocation plus index update, which fails exactly without a free cluster behind the last or a place in the index; says how many free clusters remain behind it |
| `FatFiles.FileTable.AddClusters` | kern/fs/fat32/file.c:224-229 | the extension loop: it ends with exactly the clusters the size needs, and fails exactly if they cannot be had, do not fit the index, or the size lies in the last cluster below 2^32 |
| `FatFiles.FileTable.Lengthen` | kern/fs/fat32/file.c:209-229 | the same from the start, the empty file included |
| `FatFiles.FileTable.FileExtend` | kern/fs/fat32/file.c:198-233 | for every larger size: succeeds if and only if enough clusters are free behind the last one of the file, the index can hold them and the size is at most 2^32 less one cluster; then the file has grown by zeros, the index agrees, and every other file keeps its entry, chain and bytes |
| `FileCases.LastClusterOutOfReach` | kern/fs/fat32/file.c:224-229 | no file on any volume can be extended to 2^32 - 1 bytes |
| `FatFiles.FileTable.WriteAt` | kern/fs/fat32/file.c:266-274 | one round of the write loop over the volume, also where the loop has run past the write |
| `FatFiles.FileTable.WriteBytes` | kern/fs/fat32/file.c:254-274 | the write loop replaces the bytes of the plain sequence if the write ends before the last cluster below 2^32, and panics if its wrapped end lies there |
| `FatFiles.FileTable.FileWrite` | kern/fs/fat32/file.c:241-278 | for every offset and length: the write is the write of a plain byte sequence, zeros in a gap behind the old end, and every other file keeps its entry, chain and bytes, if and only if it is not empty, ends at most one cluster below 2^32, and fits the file or the file can be extended |
| `FileCases.LongWrite` | kern/fs/fat32/file.c:248-274 | a write of 2^32 - 1 bytes at offset 1 panics, in any file |
| `FatFiles.FileTable.SequenceFree` | kern/fs/fat32/filepnt.c:104-114 | frees exactly the clusters of one chain, and terminates |
| `FatFiles.FileTable.GiveUp` | kern/fs/fat32/file.c:302-317 | the chain is freed, or, where its 32-bit count comes out as 0, lost |
| `FatFiles.FileTable.Truncate` | kern/fs/fat32/file.c:284-328 | truncation to zero empties the file and keeps entry, chain and bytes of every other; it frees exactly the file's clusters if and only if the size is at most 2^32 less one cluster, and loses all of them otherwise |
| `FileRuns.Perform` | kern/fs/fat32/file.c:149-328 | each operation does to the volume what it does to a map from files to bytes, if and only if it works: an exact condition on the volume for open, write and read |
| `FileRuns.PerformAll` | kern/fs/fat32/file.c:149-328 | any sequence of create, open, write, truncate and read on any files, through cache, chains and indices, returns what that map returns and ends in what it ends in; it stops early only at an operation whose condition fails, in a state that shows the map so far |
| `FileRuns.FilesApart` | kern/fs/fat32/file.c:149-328 | what a file holds after a run depends on the operations on that file alone |
| `FileRuns.ReadsApart` | kern/fs/fat32/file.c:149-193 | a read returns what it would return had only the operations on its own file gone before |
| `FileRuns.WrittenIsRead` | kern/fs/fat32/file.c:149-278 | what was written is read back whatever was done to other files in between |
| `Scheduler.StepInv` | kern/proc/sched.c:42-137 | every step of yield, sleep, wakeup, fork, exit, pick and halt, in any interleaving, keeps the placement invariant (whom a wakeup wakes: SchedulerRuns) |
| `Scheduler.RunsKeepInv` | kern/proc/sched.c:42-137 | so it holds in every reachable state |
| `Scheduler.OnePlace` | kern/proc/sleep.c:14-75 | in every reachable state every thread is in exactly one of free queue, run queue, sleep queue, a waker's list or one hart, no queue holds it twice, and queued threads have the matching status |
| `Scheduler.WakeFindsSleepers` | kern/proc/sleep.c:53-65 | wakeup's assertion that queued threads are asleep never fails |
| `Scheduler.HaltSafe` | kern/proc/sched.c:69-81 | when a hart holding both queue locks finds both empty and all harts idle, no thread is anywhere but in the free queue |
| `Scheduler.HaltedMeansDone` | kern/proc/sched.c:74-77 | the machine halts only when no thread is runnable, sleeping, running or being moved |
| `SchedulerRuns.SleepsOnItsChannel` | kern/proc/sleep.c:14-30 | in every run a thread in the sleep queue is there under the channel of its own last call of sleep |
| `SchedulerRuns.WakesAll` | kern/proc/sleep.c:46-75 | in every run, when a wakeup returns, every thread that was in the sleep queue it found and had called sleep on its channel has left that queue and is in the run queue |
| `SchedulerRuns.WakesOnlyItsChannel` | kern/proc/sleep.c:46-75 | in every run whatever leaves the sleep queue leaves it in a wakeup, and had called sleep on the channel of that wakeup |
| `SchedulerRuns.KeepsTurn` | kern/proc/sched.c:55-97 | while a thread is in the run queue its position is what it was less the number of threads taken since |
| `SchedulerRuns.RunsInTurn` | kern/proc/sched.c:55-97 | a thread leaves the run queue when exactly those ahead of it have been taken, and gets the hart that takes it |
| `SchedulerRuns.NotStuck` | kern/proc/sched.c:42-137 | in every run a hart has a next step unless it waits for a lock that is taken, or a fork finds no free thread; a running thread may do anything next |
| `SchedulerRuns.NoDeadlock` | kern/proc/sched.c:42-137 | in every reachable state some hart has a next step, until the machine halts or runs out of threads |
| `SchedulerRuns.HaltsExactly` | kern/proc/sched.c:69-81 | in every run a hart that has both queues' locks halts the machine if and only if no thread sleeps and every hart has found nothing to run |
| `SleepMutex.StepInv` | kern/lock/mutex.c:176-247 | every step of lock, unlock, sleep and wake, in any interleaving, keeps the mutex invariant (when a call panics and when it nests: PanicsExactly and LocksAgain) |
| `SleepMutex.RunsKeepInv` | kern/lock/mutex.c:176-247 | so it holds in every reachable state |
| `SleepMutex.Exclusion` | kern/lock/mutex.c:176-247 | wherever threads stand in the code, if one has locked more often than unlocked, or is about to have, every other has nothing; the depth is what the one has and it is the owner, unless it is just giving up its last |
| `SleepMutex.NobodyForgotten` | kern/lock/mutex.c:219-247 | whenever the inner spin lock is free and there is no owner, nobody is asleep on the mutex or about to be |
| `SleepMutex.OwnUnlockIsSafe` | kern/lock/mutex.c:223-227 | a thread that unlocks what it holds does not reach the panic |
| `SleepMutex.CallsKept` | kern/lock/mutex.c:176-247 | in every run what a thread holds is its lock calls that have returned less its unlock calls that have, and it is in the call it asked for |
| `SleepMutex.PanicsExactly` | kern/lock/mutex.c:185-226 | in every run a step is a panic if and only if the thread has the spin lock and locks again a mutex it holds that is not recursive, or unlocks one it does not hold |
| `SleepMutex.LocksAgain` | kern/lock/mutex.c:185-189 | in every run a lock call of a thread that holds a recursive mutex, once it has the spin lock, neither sleeps nor panics, and returns with the depth and what it holds one larger |
| `SleepMutex.LockAgainMoves` | kern/lock/mutex.c:185-189 | on the way its next step is always possible |
| `SleepMutex.NotStuck` | kern/lock/mutex.c:176-247 | in every run a thread inside a call has a next step exactly if it does not wait for a lock that is taken, sleep, or lie in a panic |
| `TimedSleep.InsertEvent` | kern/proc/tsleep.c:100-119 | the walk along the queue is the recursive insertion |
| `TimedSleep.InsertSorted` | kern/proc/tsleep.c:100-119 | insertion keeps the queue sorted by deadline with untimed events last, and adds exactly the event |
| `TimedSleep.RemoveDue` | kern/proc/tsleep.c:208-215 | the loop of the check removes events from the head while they are due |
| `TimedSleep.CheckExact` | kern/proc/tsleep.c:204-217 | in a sorted queue that removes exactly the events that are due |
| `TimedSleep.RemovePass` | kern/proc/tsleep.c:176-181 | one pass of twakeup removes every event of the channel and says whether there was one |
| `TimedSleep.RemoveChannel` | kern/proc/tsleep.c:174-183 | passing until nothing is removed terminates with exactly the other events left |
| `TimedSleep.NextInv` | kern/proc/tsleep.c:154-217 | every step of a sleeper, a check or a wakeup keeps the invariant |
| `TimedSleep.RunsKeepInv` | kern/proc/tsleep.c:154-217 | so it holds in every reachable state |
| `TimedSleep.NeverForgotten` | kern/proc/tsleep.c:154-169 | without a mutex of the caller's, whenever the queue lock is free a thread that sleeps or is about to has its event, with its own channel and deadline, in the queue |
| `TimedSleep.BackWithOutcome` | kern/proc/tsleep.c:133-146 | a thread that comes back finds its event out of the queue with an outcome recorded |
| `TimedSleep.CheckRemovesDue` | kern/proc/tsleep.c:204-217 | in every interleaving a check removes exactly the events due at its time |
| `TimedSleep.NobodyOversleeps` | kern/proc/tsleep.c:204-217 | without a mutex of the caller's, in every interleaving, when a check called at some time has ended, no thread that sleeps or is about to had called tsleep with a deadline at or before that time |
| `TimedSleep.CallsKept` | kern/proc/tsleep.c:154-217 | in every run a thread in tsleep has the channel, deadline and mutex it called with, and a check or wakeup the time or channel it was called with |
| `TimedSleep.WakesSleepers` | kern/proc/tsleep.c:171-186 | in every interleaving, when a twakeup has ended, no thread that called tsleep on its channel without a mutex is asleep or about to be |
| `TimedSleep.NotStuck` | kern/proc/tsleep.c:154-169 | a thread inside tsleep has a next step exactly if it does not wait for a lock that is taken or sleep |
| `TimedSleep.WakerNotStuck` | kern/proc/tsleep.c:171-217 | a check or a wakeup can begin whenever the queue's lock is free, and go on whenever the sleep queue's is |
| `TimedSleep.ReportsWhatEndedIt` | kern/proc/tsleep.c:124-146 | a sleep reports a timeout only if a check of the same call found its event due, and success only if a twakeup of its channel found it |
| `TimedSleep.CallerMutexForgets` | kern/proc/tsleep.c:159-165 | with a mutex of the caller's there is, for every thread, channel and deadline, a run that ends with the thread asleep past its deadline and no event left |
| `KernelHeap.TilesDisjoint` | kern/mm/kmalloc.c:54-130 | blocks of a tiling do not overlap |
| `KernelHeap.LiveMore` | kern/mm/kmalloc.c:163-163 | one more live block adds its own size to the total |
| `KernelHeap.Grow` | kern/mm/kmalloc.c:111-129 | cutting a block from the top keeps the tiling, the lists and the total |
| `KernelHeap.Pop` | kern/mm/kmalloc.c:146-154 | taking the head of a list keeps them, and the block was not live |
| `KernelHeap.Push` | kern/mm/kmalloc.c:168-176 | returning a block to its own class keeps them |
| `KernelHeap.LiveDisjoint` | kern/mm/kmalloc.c:132-166 | two live blocks share no byte and lie inside the heap |
| `KernelHeap.Heap.constructor` | kern/mm/kmalloc.c:54-87 | the first 320 pages are tiled by free blocks of the configured classes, and exactly the classes with pages have blocks |
| `KernelHeap.Heap.CutBlocks` | kern/mm/kmalloc.c:70-77 | the loop that cuts blocks |
| `KernelHeap.Heap.ExtendHeap` | kern/mm/kmalloc.c:92-130 | one page of small blocks or one large block; refused exactly by the limit test on one page; passes the limit exactly if the block is larger than what is left, and by at most 32 pages |
| `KernelHeap.LimitPassed` | kern/mm/kmalloc.c:102-105 | that condition and that bound, for every class and every top |
| `KernelHeap.Heap.Kmalloc` | kern/mm/kmalloc.c:132-166 | a zeroed block of the smallest class that fits, not live before, leaving every live block's bytes alone; says exactly how its list, the other lists and the top of the heap change; the top never gets more than 32 pages past the limit; fails exactly if no class fits or its list is empty at the limit |
| `KernelHeap.PastTheLimit` | kern/mm/kmalloc.c:92-130 | from a fresh heap, 597 requests for the largest block leave the heap 21 pages past its limit |
| `KernelHeap.Heap.Kfree` | kern/mm/kmalloc.c:168-176 | the block goes to the head of its own class's list and its size leaves the total |
| `VirtioDisk.Conserved` | kern/driver/virtio.c:181-191 | free descriptors plus three for every request make eight |
| `VirtioDisk.SubmitOk` | kern/driver/virtio.c:202-265 | submission keeps the ring invariant |
| `VirtioDisk.TakeOk` | kern/driver/virtio.c:265-265 | the device taking the oldest request keeps it |
| `VirtioDisk.ReportOk` | kern/driver/virtio.c:293-295 | the device reporting any request keeps it |
| `VirtioDisk.CompleteOk` | kern/driver/virtio.c:293-310 | completing the oldest reported request keeps it, and its buffer was marked busy |
| `VirtioDisk.FinishOk` | kern/driver/virtio.c:276-278 | freeing the chain of a completed request keeps it |
| `VirtioDisk.StepOk` | kern/driver/virtio.c:202-315 | every step of driver or device keeps it |
| `VirtioDisk.RunsOk` | kern/driver/virtio.c:202-315 | in every interleaving chains are disjoint and descriptors conserved |
| `VirtioDisk.CompletedOnce` | kern/driver/virtio.c:284-315 | in every interleaving a completed request was completed by exactly one step, before which its buffer was busy and after which it is not |
| `VirtioDisk.Driver.constructor` | kern/driver/virtio.c:39-145 | empty rings satisfy the invariant |
| `VirtioDisk.Driver.AllocDesc` | kern/driver/virtio.c:147-155 | the first free descriptor, or none is free |
| `VirtioDisk.Driver.FreeDesc` | kern/driver/virtio.c:157-167 | frees a used descriptor and refuses others |
| `VirtioDisk.Driver.Alloc3` | kern/driver/virtio.c:181-191 | three different free descriptors, or all taken ones are given back and at most two were free |
| `VirtioDisk.Driver.Submit` | kern/driver/virtio.c:202-265 | succeeds exactly if fewer than two requests are in flight; the new request has its own chain |
| `VirtioDisk.ThirdRequestFails` | kern/driver/virtio.c:202-265 | for any three buffers, two requests are accepted and the third, before an answer, is refused |
| `VirtioDisk.Driver.Interrupt` | kern/driver/virtio.c:284-315 | completes every reported request once, in order, and no other |
| `VirtioDisk.Driver.FreeChain` | kern/driver/virtio.c:169-179 | ends after freeing exactly the three descriptors of the chain |
| `VirtioDisk.Driver.Finish` | kern/driver/virtio.c:276-278 | the request is gone and three descriptors are free again |
| `DiskWait.StepInv` | kern/driver/virtio.c:202-315 | every step of callers, interrupts, device and the rest of the kernel keeps the invariant of waiting: a thread goes to sleep only on a busy buffer |
| `DiskWait.SleeperStillWaits` | kern/driver/virtio.c:270-272 | no wakeup is lost in any run: whenever mtx_virtio is free, the request of a thread asleep, or on its way to sleep, is not completed, but offered, with the device, or in the used ring with the interrupt still to read it |
| `DiskWait.DoneIsCompleted` | kern/driver/virtio.c:270-277 | in every run a caller leaves the wait loop only with its request completed, and its chain can be freed |
| `DiskWait.OneWaiter` | kern/driver/virtio.c:251-253 | in every run each request in flight has exactly one thread waiting, on its buffer |
| `DiskWait.SubmitPanics` | kern/driver/virtio.c:211-217 | in every run three descriptors are missing, so that a caller would panic, if and only if two requests are being waited for |
| `DiskWait.NotStuck` | kern/driver/virtio.c:202-315 | in every run a caller or an interrupt that does not wait for a lock or sleep has a next step that is no panic, but where a third request finds no descriptors |
| `Signals.GetEvent` | kern/signal/sigentry.c:18-29 | the first event that is in progress or not blocked |
| `Signals.SignalThread.constructor` | kern/proc/thread.c:44-47 | a thread without events |
| `Signals.SignalThread.SendTd` | kern/signal/sigsend.c:18-35 | a new event at the head of the queue; signal 9 marks the thread |
| `Signals.SignalThread.GetSe` | kern/signal/sigentry.c:18-29 | the search loop |
| `Signals.SignalThread.BeforeStart` | kern/signal/sigentry.c:31-57 | frame and mask are saved in the event; the frame enters the handler with the signal as argument, the return address of the action or of the signal page, and 0x1008 bytes of stack; the signals of the action are blocked beside those blocked before |
| `Signals.SignalThread.SigCheck` | kern/signal/sigentry.c:75-122 | the loop: ignored events are dropped until a handler starts, nothing is left to do, or the thread dies; said without rounds as in CheckIs |
| `Signals.SignalThread.SigReturn` | kern/signal/sigentry.c:126-141 | the search and removal; fails exactly if no event is in progress |
| `Signals.StartPushes` | kern/signal/sigentry.c:31-57 | a handler that starts is the new top of the stack of events in progress, with frame and mask of before (what it starts with: StartsExactly) |
| `Signals.ReturnPops` | kern/signal/sigentry.c:126-141 | a return restores frame and mask of the top and removes it |
| `Signals.CheckStack` | kern/signal/sigentry.c:75-122 | a check starts at most one handler and otherwise touches neither stack, frame nor mask |
| `Signals.CheckIs` | kern/signal/sigentry.c:75-122 | a check drops the ignored events before the first that is in progress or unblocked and not ignored, keeps the blocked ones, and does what that one asks for: nothing, death, or entering its handler |
| `Signals.StartsExactly` | kern/signal/sigentry.c:31-57 | a check starts a handler if and only if that event is not in progress and has one; then epc is the handler, a0 the signal, ra the restorer or the signal page, sp 0x1008 lower modulo 2^64, all else unchanged, and a signal can be handled exactly if it could before and is not in the mask of the action |
| `Signals.NewestFirst` | kern/signal/sigsend.c:18-35 | an unblocked signal with a handler that has just arrived is the next to be handled, before older ones and over handlers in progress |
| `Signals.MaskedMeanwhile` | kern/signal/sigentry.c:40-41 | in every run, until the return from a handler, no check starts a handler for a signal in the mask of its action |
| `Signals.KillWins` | kern/signal/sigentry.c:66-73 | in every run signal 9 cannot be blocked or handled: from its arrival on the thread dies at the next check and no handler starts |
| `Signals.NextStack` | kern/signal/sigentry.c:75-141 | every step pushes, pops or keeps the stack |
| `Signals.DepthKept` | kern/signal/sigentry.c:75-141 | while the stack stays at least d deep its lowest d entries do not change |
| `Signals.MatchingReturn` | kern/signal/sigentry.c:75-141 | in every run the return that comes back to the depth before a handler started restores exactly the frame and mask of that moment |
| `Signals.DroppedIgnored` | kern/signal/sigentry.c:99-111 | a check drops only events that are not in progress, not blocked, without handler and without deadly default |
| `Signals.CheckIds` | kern/signal/sigentry.c:75-122 | a check loses no other event and queues none twice |
| `Signals.ReturnIds` | kern/signal/sigentry.c:126-141 | a return removes exactly the event returned from |
| `Signals.EventsConserved` | kern/signal/sigentry.c:18-141 | in every run each event that arrived is still queued, was dropped, or was returned from, and only once |
| `Strings.ZeroByte` | user/string.c:4-8 | the word test is nonzero exactly if one of the eight bytes is zero |
| `Strings.WordHas` | user/string.c:101-107 | the exclusive-or with a spread byte makes it a test for that byte |
| `Strings.StrLen` | user/string.c:81-94 | for every alignment the result is the distance to the first zero byte, and no word is read outside aligned memory |
| `Strings.MemChr` | user/string.c:96-112 | the first occurrence among n bytes, or none if there is none, for every alignment and also where the n bytes reach past the end of memory behind an occurrence |
| `Strings.StrNLen` | user/string.c:114-117 | the length, cut at n, also where n reaches past the end of memory |
| `Strings.CopyByte` | user/string.c:134-135 | one turn of the byte loop |
| `Strings.CopyWords` | user/string.c:127-132 | the word loop copies only whole words before the end of the string, at aligned addresses |
| `Strings.StrCpy` | user/string.c:119-137 | the string with its end is copied, nothing else changes, and the result points to the copied end, for every alignment of source and target |
| `Strings.CopyCutByte` | user/string.c:144-156 | one turn of the bounded byte loop, which writes a zero but does not step over it |
| `Strings.CopyCutWords` | user/string.c:148-153 | the bounded word loop |
| `Strings.StrNCpy` | user/string.c:139-160 | at most n bytes are copied, the rest of the n are zero, nothing else changes, for every alignment, content and length |

## Left out

- `wakeup_td` and `tcleanup`, which signals use: `wakeup_td` does not recheck the status it read before taking the queue lock, so the placement invariant is for `wakeup`.
- `sys_mprotect`, the temporary page table of exec, the kernel's own identity map, `sys_map`'s loop over pages and its rounding: one page of `sys_map` is modelled.
- System V shared memory (`kern/ipc/shm.c`): shared pages enter through `sys_map` and fork only.
- TLB flushes, fences, interrupt enabling (`lo_critical_enter`, `lo_critical_leave`), trap entry and the context switch: hardware, or a counter around the steps modelled here.
- `copyInStr`.
- User-pointer variants of `clusterRead` and `clusterWrite`: they are a kernel copy per sector.
- Directories, names, paths, mounts, links, and the write-back of directory entries at the end of `file_extend` and `file_shrink`.
- `file_shrink` to a size other than zero, `filepnt_clear`, `clusterFree`, `bufSync`: only truncation to zero takes part in the theorems about files.
- The lock `mtx_file`: file operations are modelled one after the other.
- The file index is a value inside the file record, so page allocation for its tables and its update in place are not captured.
- FileTable.FileRead: where the code would use memory outside the index pages, the model has a failure; bytes are not specified where the count is false.
- FileTable.FileWrite: where offset plus length wraps past 2^32 and the loop still ends, only that the file is not the written sequence is said; the bytes are not specified.
- FileTable.FileExtend: a size in the last cluster below 2^32 is a failure in the model; in the code it is one after the clusters or the index have run out, or, when the old size lies there too, a lookup at index -1.
- FileRuns.PerformAll: offset plus length does not wrap; the single operations say what happens otherwise.
- AccessRights.RunRights: rights to load and store; instruction fetches are not modelled.
- FixedPages.EveryProcess: the frames of `trampoline` and `user_sig_return` are parameters, any two of the kernel's own pages.
- SchedulerRuns.NoDeadlock: a fork that finds no free thread is an error in `td_alloc`, after which the model has no step.
- FatVolume.FatRead: reading the volume's parameters from its boot sector (`clusterInit`) is not modelled.
- BufferCache.BufRelease: assumes, as all callers in the repository do, that a changed buffer was marked dirty before its release.
- TimedSleep.NeverForgotten: threads in `tsleep` use different channels, nobody else wakes those channels, and the pool of 1024 events is not exhausted.
- TimedSleep.NobodyOversleeps: the same.
- SleepMutex.Exclusion: taking a spin lock is a single step, and recursion of spin mutexes is not modelled.
- Scheduler.OnePlace: the caller's lock that `sleep` exchanges, thread names and ticks are not modelled.
- Heap.Kmalloc: frames behind the heap come from the allocator and are not modelled here, and kfree is called with live blocks only. Calls come one after the other: the code updates its count of allocated bytes after it has released the lock, so with two harts an update can be lost.
- VirtioDisk.RunsOk: without device status errors, sector numbers, data and the set-up of the device; a buffer is not submitted twice at once.
- DiskWait.SleeperStillWaits: with the same limits, except that a device error is a panic; taking a spin lock is a single step, and reading one used entry and clearing its buffer's flag are one step under the lock.
- Signals.MatchingReturn: not for SA_SIGINFO; choosing a thread in `sig_send_proc` is not modelled, and signal sets are sets of numbers 1 to 128 instead of bytes.
- Strings.StrLen: memory ends at a multiple of eight bytes, so that the word holding a string's end can be read; `memset` is a primitive.
- Pipes, sockets, futexes, interval timers, system call dispatch, drivers other than the virtio ring, and start-up code.
