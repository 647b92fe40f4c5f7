# OpenBLT in Dafny

This project models the parts of OpenBLT whose correctness rests on invariants that no single function shows,
and proves those invariants: the user heap, the hash table and the sort of the C library; the scheduler, the
semaphores, the ports and the page allocator of the kernel; the terminal; and the two small network protocols
and the boot image format. Code that changes things in place is modelled by classes and arrays with loops;
concurrent code by the atomic steps its threads, tanks, senders and receivers take, in every order.

`dafny verify dfyconfig.toml` checks everything.

| files | what they model |
|---|---|
| `HeapTiling`, `BlockIndex`, `Bins`, `FreeLists`, `HeapState`, `HeapSteps`, `Malloc` | `malloc`, `free` and `realloc` over one word-addressed memory: boundary tags, in-memory circular lists, the block index word, the last remainder and top |
| `Counting`, `Probing`, `HashTable`, `HashLoad` | the double-hashing table, as a map; how full it may get |
| `Qsort` | the library sort |
| `Qsem` | the user-level semaphore on top of the kernel's |
| `KernelLists`, `Scheduling` | the kernel's circular lists, one node per task; run queue, blocking, waking, interrupts, ends of tasks |
| `PortMessages`, `PortBlocking`, `PortRuns`, `PortTable` | queued messages and their buffers; sleeping senders and receivers; both together, over runs on many ports; masters, slaves and ids |
| `FreeIds`, `Areas` | free lists threaded through an array; areas, page groups and physical pages |
| `Vt100`, `TerminalLaws` | the terminal engine; what a program sees of it, cell by cell |
| `Netboot`, `Fish`, `BootImage` | the network boot loader, the fish exchange, the boot image and its file system |

## Main results

- **Heap.** Through any calls, chunks tile the arena, tags agree with the tiling, no two free chunks touch, every
  free chunk is on exactly one list, and live blocks are disjoint and keep their words. `Malloc` serves a request
  from memory beyond the free chunks only when no free chunk is large enough, and what the bin scan takes is the
  smallest binned chunk that fits; the last remainder is used exactly when it is large enough and no exact fit is
  binned. `Malloc` and `Realloc` return nothing only after the system has refused a request for memory, `Malloc` only
  if besides top was too small. `Realloc` keeps the contents on all its growth paths, and takes the first path there
  is room for. A padded request holds the bytes asked for exactly when the padding did not wrap.
- **Hash table.** Any inserts, lookups and removals act as on a map, through tombstones and nested rebuilds, and every
  probe loop ends. A table of p slots keeps a never-used one in every run that does not make it grow, exactly when
  the load limit times p is below p - 1; otherwise any p different keys fill it, and the lookup of one more never ends.
- **Sort.** A sorted permutation for every total preorder and every length.
- **Semaphore.** In every interleaving of any number of threads no more units are held than there are, and none while
  that number is negative, exactly when the semaphore is created with a non-negative count.
- **Scheduler.** Every task is in one place, and every queue is a whole circular list through the nodes of its tasks;
  one node per task is enough exactly because of the first. A task's rank on the run queue never grows, and it runs
  when its turn has come. For every call and interrupt it is proved where each task goes: the line of tasks that run
  or want to, and every queue, before and after. The kernel gives up exactly when the last task alive ends.
- **Ports.** In every run on any ports, messages come out of the kernel's nodes and buffers in order, once, whole, and
  no two waiting messages share a buffer with each other or the pool. Every call's outcome is decided exactly: taken,
  asleep behind the others, or refused; sleepers are woken in turn, by the message their rank counts to. No wake-up
  is lost, for senders exactly when the requests that may meet on a port do not mix valid and invalid ones. A master
  outlives its slaves; a port can be destroyed exactly when nothing is, and nothing was destroyed while, slaved to it.
- **Areas.** Every page is free or in one slot of one group through any calls, and none is lost exactly as long as
  nobody destroys the last area of a grown group of given pages; four calls from an empty manager lose one. Growing
  an area keeps all mappings right exactly when it is called from the area's own space and the area mapped its whole
  group; each half has a run from an empty manager that ends in a wrong mapping.
- **Terminal.** Any input keeps the cursor on the grid, up to a byte that scrolls a region with no rows; those are
  exactly the bytes whose scroll writes beyond the grid. Scrolling moves the rows of the region and no others; written
  control sequences are read back. For text and for every byte and sequence that acts it is proved what each cell or
  row then shows, where the cursor is and which colour bits are set.
- **Protocols.** The image is in memory at every execute, exactly for files of at most 65536 blocks; whatever packets
  are lost it can still get there and be started, unless the lost one is the execute, which is sent once. A fish that
  nobody took is offered again and gets across. A fish never has two copies, exactly when no address that two tanks
  may take, now or by moving, is one that a third tank may come to send a fish to; that no two tanks are ever at one
  address at a time is not enough, and two tanks alone are safe. Files read back from a boot image as they went in,
  and nothing reads back under any other name.

Where the code and its own text disagree the model follows the code: `makeboot` gives up at 63 sections, though its
message speaks of more than 63; the escape that restores the cursor restores the attribute only; `port_recv` returns
a size it reads from a message just freed, which is modelled as the size the message had; and `area_resize` of an area
by less than a page fails for want of memory.

## Model

| member | source | states |
|---|---|---|
| `HeapSteps.Request2Size` | lib/libc/malloc.c:1012-1015 | the padded size is a multiple of 8 and at least the smallest chunk |
| `HeapSteps.RequestFits` | lib/libc/malloc.c:1012-1015 | the padded size holds the request and a size word exactly when the padding did not wrap past 2^31 |
| `Bins.OwnBin` | lib/libc/malloc.c:1201-1208 | every size below 512 has a bin of its own |
| `Bins.BinIndexMonotone` | lib/libc/malloc.c:1201-1208 | a larger chunk never goes to an earlier bin |
| `Bins.BinSpacing` | lib/libc/malloc.c:1201-1208 | sizes in one bin are less than 8, 64, 512, 4096, 32768 or 262144 bytes apart, by the bin; the last bin takes 524288 bytes and more |
| `Bins.UnlinkedOk` | lib/libc/malloc.c:1452-1457 | without one chunk the bins still hold exactly the other free chunks, sorted |
| `Bins.FrontlinkedOk` | lib/libc/malloc.c:1421-1448 | a chunk put in its place keeps its bin sorted and every chunk in one bin |
| `Bins.RemainderLinkedOk` | lib/libc/malloc.c:1462-1467 | the last remainder is the one chunk outside the bin of its size |
| `Bins.UnlinkedBlocks` | lib/libc/malloc.c:1219-1244 | non-empty bins stay in marked blocks when a chunk leaves |
| `Bins.EmptyBetween` | lib/libc/malloc.c:1880-1900 | bins in blocks without a mark are empty |
| `BlockIndex.TestAfterSet` | lib/libc/malloc.c:1242-1244 | setting a bit of the word changes that bit and no other |
| `BlockIndex.TestAfterClear` | lib/libc/malloc.c:1242-1244 | clearing a bit changes that bit and no other |
| `BlockIndex.AnyAboveExactlyWhen` | lib/libc/malloc.c:1885-1898 | the comparison of the word with a bit says exactly whether a bit is set at or above it, so the search ends |
| `BlockIndex.NoneAbove` | lib/libc/malloc.c:1885-1898 | a smaller word has none |
| `BlockIndex.Mark` | lib/libc/malloc.c:1242-1244 | the word stands for the marked blocks and one more |
| `BlockIndex.Unmark` | lib/libc/malloc.c:1242-1244 | the word stands for the marked blocks without one |
| `BlockIndex.FirstMarked` | lib/libc/malloc.c:1888-1898 | the shift loop finds the first marked block at or after one |
| `FreeLists.UnlinkKeepsLinks` | lib/libc/malloc.c:1452-1457 | the two writes of unlink leave every circular list well linked, without the chunk |
| `FreeLists.LinkKeepsLinks` | lib/libc/malloc.c:1421-1448 | the four writes of frontlink leave every list well linked, with the chunk in its place |
| `FreeLists.RemainderKeepsLinks` | lib/libc/malloc.c:1462-1467 | linking the last remainder leaves every other list alone |
| `FreeLists.ClearKeepsLinks` | lib/libc/malloc.c:1470-1471 | clearing the last remainder empties that list and no other |
| `HeapTiling.LiveDisjoint` | lib/libc/malloc.c:1290-1394 | two live blocks share no byte |
| `HeapState.Recut1Arena` | lib/libc/malloc.c:2111-2112 | turning a run of chunks into one keeps the tiling, the tags and the coalescing |
| `HeapState.Recut2Arena` | lib/libc/malloc.c:1916-1927 | cutting a chunk in two keeps them |
| `HeapState.RecutTopArena` | lib/libc/malloc.c:2062-2079 | merging the end of the arena into top keeps them |
| `HeapState.RecutUsedTopArena` | lib/libc/malloc.c:1994-1997 | cutting a block off top keeps them |
| `HeapSteps.CheckFreeChunk` | lib/libc/malloc.c:1309-1338 | in every valid heap a free chunk passes the debug check, and is on exactly one list |
| `HeapSteps.CheckInUseChunk` | lib/libc/malloc.c:1342-1370 | in every valid heap a block in use passes the debug check |
| `HeapSteps.FreedIntoTop` | lib/libc/malloc.c:2062-2079 | a block freed next to top leaves a valid heap without it |
| `HeapSteps.FreedIntoBin` | lib/libc/malloc.c:2081-2114 | a freed block joined with its free neighbours leaves a valid heap without it |
| `HeapSteps.TookWhole` | lib/libc/malloc.c:1930-1936 | a free chunk taken whole becomes a live block, and no other block changes |
| `HeapSteps.SplitDone` | lib/libc/malloc.c:1916-1927 | a free chunk split becomes a live block and a free remainder |
| `HeapSteps.TopDone` | lib/libc/malloc.c:1994-1999 | a block cut off top leaves a valid heap |
| `HeapSteps.FirstIsBest` | lib/libc/malloc.c:1902-1940 | the first chunk large enough in the scan is the smallest binned one |
| `HeapSteps.NothingFits` | lib/libc/malloc.c:1902-1970 | when the scan ends no binned chunk is large enough |
| `HeapSteps.SmallBest` | lib/libc/malloc.c:1794-1818 | the chunk of the exact small bin, or the next, is the smallest that fits |
| `HeapSteps.ReallocMerged` | lib/libc/malloc.c:2304-2343 | a new block that follows the old one is joined to it with the contents kept |
| `HeapSteps.ReallocCopied` | lib/libc/malloc.c:2304-2324 | allocate, copy and free keeps the contents and every other block |
| `Malloc.Heap.constructor` | lib/libc/malloc.c:1170-1190 | the empty heap is valid and has no blocks |
| `Malloc.Heap.Unlink` | lib/libc/malloc.c:1452-1457 | takes one chunk off its list in memory; the lists stay well formed |
| `Malloc.Heap.Frontlink` | lib/libc/malloc.c:1421-1448 | puts a chunk into its bin in order of size, and marks the block |
| `Malloc.Heap.LinkLastRemainder` | lib/libc/malloc.c:1462-1467 | makes a chunk the last remainder |
| `Malloc.Heap.ClearLastRemainder` | lib/libc/malloc.c:1470-1471 | empties the last remainder's list |
| `Malloc.Heap.FreeIntoTop` | lib/libc/malloc.c:2062-2079 | valid heap, the block gone, every other block's words kept |
| `Malloc.Heap.FreeIntoBin` | lib/libc/malloc.c:2081-2114 | the same away from top, with coalescing on both sides |
| `Malloc.Heap.Free` | lib/libc/malloc.c:2026-2115 | exactly the block named stops being live; all others keep their words; freeing null does nothing |
| `Malloc.Heap.ExtendTop` | lib/libc/malloc.c:1606-1709 | top grows by enough for the request and a remainder unless the system refuses, and then it stays as it is |
| `Malloc.Heap.StartTop` | lib/libc/malloc.c:1647-1675 | the first top is aligned and ends on a page boundary |
| `Malloc.Heap.UseTop` | lib/libc/malloc.c:1973-2001 | the block starts where top did; nothing is returned only if top was too small and the system refused; the system is not asked when top is large enough |
| `Malloc.Heap.ExactSmall` | lib/libc/malloc.c:1794-1818 | a small request is served from its bin or the next, without a remainder, exactly when some binned chunk fits that way |
| `Malloc.Heap.ExactLarge` | lib/libc/malloc.c:1821-1846 | a large request is served by the smallest chunk of its bin that fits, exactly when that leaves no remainder |
| `Malloc.Heap.UseRemainder` | lib/libc/malloc.c:1848-1878 | the last remainder is split or used up if it is large enough, and else put into its bin |
| `Malloc.Heap.FindInBin` | lib/libc/malloc.c:1911-1937 | the walk from a bin's smallest chunk on stops at the first that is large enough, or all are too small |
| `Malloc.Heap.ScanBin` | lib/libc/malloc.c:1911-1940 | returns the smallest binned chunk that fits, or finds the bin empty |
| `Malloc.Heap.ClearEmptyBlock` | lib/libc/malloc.c:1944-1955 | a block's mark goes only when all its bins are empty |
| `Malloc.Heap.Scan` | lib/libc/malloc.c:1880-1970 | best fit over all blocks, or no binned chunk fits |
| `Malloc.Heap.AllocPadded` | lib/libc/malloc.c:1794-2000 | where a block comes from: an exact fit, the last remainder exactly when there is none and it is large enough, the best fit in the bins, else the start of top; nothing only when no free chunk fits, top is too small and the system refused |
| `Malloc.Heap.Malloc` | lib/libc/malloc.c:1772-2001 | a new block of the padded size, less than one chunk more, disjoint from all others, which keep their words; from the last remainder, the best fit or, only if no free chunk fits, from the start of top; nothing only if besides top was too small and the system refused |
| `Malloc.Heap.Store` | lib/libc/malloc.c:890-904 | a client may write any word of its block: the heap stays valid and every other block keeps its words |
| `Malloc.Heap.CopyWords` | lib/libc/malloc.c:369-385 | copies words also when the destination overlaps the source from below |
| `Malloc.Heap.SplitTail` | lib/libc/malloc.c:2328-2343 | the shared tail: the surplus is freed, or kept when it is too small for a chunk |
| `Malloc.Heap.GrowForward` | lib/libc/malloc.c:2217-2243 | the block grows in place, with its contents, exactly when the next chunk or top has room |
| `Malloc.Heap.GrowBackward` | lib/libc/malloc.c:2253-2301 | it grows back over the free chunk before it, with or without the next or top, exactly when that makes room, and keeps the contents across the overlapping move |
| `Malloc.Heap.AllocCopy` | lib/libc/malloc.c:2304-2324 | the last resort keeps the contents |
| `Malloc.Heap.Grow` | lib/libc/malloc.c:2205-2324 | in place when there is room behind, else at the chunk before when that makes room; nothing only after the system refused |
| `Malloc.Heap.Resize` | lib/libc/malloc.c:2188-2347 | the block starts with the words of the old one as far as both reach; others are untouched; a block that is large enough or has room behind it stays where it is |
| `Malloc.Heap.Realloc` | lib/libc/malloc.c:2154-2347 | the same for a byte count; null allocates; on failure, which only a refusal of the system brings and never for a block that is large enough, the old block stays |
| `Probing.Hash` | lib/libblt/hash.c:81-84 | the first slot is in the table |
| `Probing.Rehash` | lib/libblt/hash.c:86-89 | the step is at least 1 and below the size |
| `Probing.SameSlotExactlyWhen` | lib/libblt/hash.c:81-89 | two keys start at one slot exactly when they differ by a multiple of the size, and take the same step exactly when by a multiple of two less |
| `Probing.WalkInjective` | lib/libblt/hash.c:111-127 | with a prime size the walk does not come back before it has made as many steps as there are slots |
| `Probing.ProbeOnto` | lib/libblt/hash.c:111-127 | the probe sequence of a key visits every slot |
| `HashTable.EmptyAhead` | lib/libblt/hash.c:169-190 | while a slot was never used every probe loop ends |
| `HashTable.AbsentKey` | lib/libblt/hash.c:169-190 | a key whose probe met an unused slot is not stored |
| `HashTable.Inserted` | lib/libblt/hash.c:111-135 | filling the slot found stores the map with the key added, tombstone or not |
| `HashTable.InsertedExactlyWhen` | lib/libblt/hash.c:111-135 | what an insertion leaves is a map again exactly when the key was not stored |
| `HashTable.Removed` | lib/libblt/hash.c:192-213 | marking the slot dirty stores the map without the key |
| `HashTable.LoadLeavesSlots` | lib/libblt/hash.c:115-116 | a load below six sevenths leaves two slots unused |
| `HashLoad.Fills` | lib/libblt/hash.c:111-135 | with a load limit that lets the last slot go, any different keys, as many as slots, go into a fresh table without growth |
| `HashLoad.NeverEnds` | lib/libblt/hash.c:169-190 | after that the lookup of any other key never ends |
| `HashLoad.SlotLeftExactlyWhen` | lib/libblt/hash.c:111-135 | for every prime size, every run of insertions and removals without growth leaves a slot never used, exactly below that load limit |
| `HashLoad.SmallestTable` | lib/libblt/hash.c:72-75 | for the smallest table the limit is six sevenths |
| `HashTable.Table.constructor` | lib/libblt/hash.c:91-104 | a new table stores the empty map |
| `HashTable.Table.FindSlot` | lib/libblt/hash.c:118-127 | the slot a new key goes to is on its probe sequence and free |
| `HashTable.Table.Insert` | lib/libblt/hash.c:111-135 | adds exactly the key, growing first exactly when the load is exceeded |
| `HashTable.Table.Refill` | lib/libblt/hash.c:163-165 | re-inserting every live entry, with nested growth, stores the same map |
| `HashTable.Table.Rebuild` | lib/libblt/hash.c:137-167 | the contents survive a rebuild in any direction, without tombstones |
| `HashTable.Table.Search` | lib/libblt/hash.c:196-213 | finds the slot of a stored key, and only of a stored key |
| `HashTable.Table.Lookup` | lib/libblt/hash.c:169-190 | returns the entry of the map, or none |
| `HashTable.Table.Remove` | lib/libblt/hash.c:192-220 | removes exactly the key and returns its entry; the table is rebuilt exactly when the dirty slots are more than the load limit leaves and there is a smaller size |
| `Qsort.Med3` | lib/libc/qsort.c:83-91 | a median of three by value |
| `Qsort.PivotAt` | lib/libc/qsort.c:112-123 | the pivot is in the range for every length |
| `Qsort.ScanUp` | lib/libc/qsort.c:129-136 | the left scan keeps the four runs apart and stops at an element above the pivot |
| `Qsort.ScanDown` | lib/libc/qsort.c:137-144 | the right scan keeps them apart and stops at an element below it |
| `Qsort.Partition` | lib/libc/qsort.c:125-151 | the scans meet with every element in its run, and the range rearranged |
| `Qsort.VecSwap` | lib/libc/qsort.c:81-81 | exchanges two blocks |
| `Qsort.Gathered` | lib/libc/qsort.c:160-164 | after the two vector swaps the range is below, equal, above |
| `Qsort.Gather` | lib/libc/qsort.c:160-164 | the two swaps, each of the shorter of two runs |
| `Qsort.InsertionSort` | lib/libc/qsort.c:105-111 | sorts and rearranges its range only |
| `Qsort.PivotDone` | lib/libc/qsort.c:165-172 | once the part below is sorted only the part above the pivot is left |
| `Qsort.SortRange` | lib/libc/qsort.c:94-174 | the range ends up sorted and rearranged, through the recursion, the insertion-sort escape and the tail loop |
| `Qsort.Qsort` | lib/libc/qsort.c:94-174 | the array is sorted and has the elements it had, for every total preorder |
| `Qsort.RearrangedIsPermutation` | lib/libc/qsort.c:94-174 | rearranged means equal as multisets |
| `Qsem.Semaphore.Acquire` | kernel/sem.c:29-45 | a call blocks exactly when the count was not positive |
| `Qsem.Semaphore.Release` | kernel/sem.c:47-64 | wakes the thread that has waited longest, if any |
| `Qsem.FastSemaphore.constructor` | lib/libc/qsem.c:36-49 | starts with the count given and a kernel semaphore at zero |
| `Qsem.FastSemaphore.AddForAcquire` | lib/libc/qsem.c:57-66 | the atomic add of an acquire is one step, and keeps the invariant |
| `Qsem.FastSemaphore.KernelAcquire` | lib/libc/qsem.c:57-66 | so is its kernel call |
| `Qsem.FastSemaphore.AddForRelease` | lib/libc/qsem.c:68-77 | the atomic add of a release is one step |
| `Qsem.FastSemaphore.KernelRelease` | lib/libc/qsem.c:68-77 | and so is its kernel call |
| `Qsem.StepKeepsInv` | lib/libc/qsem.c:57-77 | every step of every thread keeps the balance of the two counts, the queue and the units held |
| `Qsem.InvImplies` | lib/libc/qsem.c:57-77 | a thread waits only while every unit is held or on its way back |
| `Qsem.EveryRun` | lib/libc/qsem.c:57-77 | in every interleaving: the bound, the queue length, and that blocking without a release in progress means all units are held |
| `Qsem.NegativeCount` | lib/libc/qsem.c:36-77 | from any negative count the bound holds at first, and a release and an acquire break it |
| `Qsem.BoundedExactlyWhen` | lib/libc/qsem.c:36-77 | no more units are held than the count and the signals make, or none while that is negative, in all runs exactly for non-negative counts |
| `Scheduling.EnqueueOk` | kernel/resource.c:144-150 | queues keep holding exactly the tasks that name them, once each |
| `Scheduling.DequeueOk` | kernel/resource.c:152-160 | the same when the first task leaves |
| `Scheduling.SwitchOk` | kernel/kernel.c:196-230 | a switch leaves every task in one place |
| `Scheduling.PreemptOk` | kernel/kernel.c:175-194 | so does a preemption by a task that is on no queue |
| `Scheduling.WakeAllOk` | kernel/resource.c:109-112 | waking everything on a resource moves its tasks to the run queue and disturbs nothing else |
| `Scheduling.HandOffOk` | kernel/sem.c:47-64 | a semaphore release that hands the processor over keeps every task in one place |
| `Scheduling.InterruptOk` | kernel/fault.c:162-170 | an interrupt that wakes a sleeping task keeps every task in one place |
| `Scheduling.DestroyOk` | kernel/resource.c:98-119 | releasing a resource leaves no task on it |
| `Scheduling.SpawnOk` | kernel/task.c:131-165 | a new task is in one place |
| `Scheduling.EndedBetween` | kernel/syscall.c:35-53 | an ending task is left to the reaper before the switch |
| `Scheduling.ReapOk` | kernel/kernel.c:77-89 | the reaped task is gone from every table, and what waited for it is woken |
| `Scheduling.StepKeepsInv` | kernel/kernel.c:175-230 | every system call and interrupt keeps the invariant |
| `Scheduling.RunKeepsInv` | kernel/kernel.c:175-230 | so does every run |
| `Scheduling.OnePlace` | kernel/resource.c:144-160 | a task is current, asleep on an interrupt, or on one queue only, the one it names |
| `Scheduling.IdleNowhere` | kernel/kernel.c:205-214 | the idle task is on no queue |
| `Scheduling.StepMoves` | kernel/kernel.c:196-230 | no step moves a task back on the run queue |
| `Scheduling.RankFalls` | kernel/kernel.c:196-230 | over any run a task's rank falls by the number of tasks taken |
| `Scheduling.Fair` | kernel/kernel.c:196-230 | a task at rank r runs at the switch that takes the (r+1)-th task |
| `Scheduling.ExitsExactlyWhen` | kernel/kernel.c:205-219 | the kernel gives up exactly when the last task alive ends |
| `Scheduling.BootOk` | kernel/kernel.c:337-383 | the first switch starts from a good state |
| `Scheduling.BootLine` | kernel/kernel.c:337-383 | the tasks made before it run in the order they were made |
| `Scheduling.TickLine` | kernel/kernel.c:196-230 | a switch puts the task that ran behind all that want to run, whose order stays; no queue changes |
| `Scheduling.SleepLine` | kernel/syscall.c:107-114 | a listener leaves the line and sleeps; anyone else goes to its end |
| `Scheduling.InterruptLine` | kernel/fault.c:162-170 | the sleeping task that asked for the interrupt last comes first, the task it interrupts last; else nothing changes |
| `Scheduling.RunsAtInterrupt` | kernel/syscall.c:97-114 | a task that asks for an interrupt and sleeps runs again when it comes |
| `Scheduling.WaitLine` | kernel/task.c:21-28 | a task that blocks leaves the line and is last on its queue |
| `Scheduling.SignalLine` | kernel/syscall.c:27-33 | the first task blocked joins the end of the line; with none nothing changes |
| `Scheduling.HandOffLine` | kernel/sem.c:47-64 | the first task blocked comes first in the line, the releasing task last |
| `Scheduling.WakeAllLine` | kernel/resource.c:109-112 | the whole queue joins the end of the line, in its order |
| `Scheduling.DestroyLine` | kernel/resource.c:98-119 | so it does when the resource goes, and its queue goes with it |
| `Scheduling.CreateLine` | kernel/resource.c:73-96 | a new resource has nobody on it; asking for an interrupt there is not changes nothing |
| `Scheduling.SpawnLine` | kernel/task.c:131-165 | a new task is last in the line, with nobody waiting for its end, and listens to nothing |
| `Scheduling.TerminateLine` | kernel/syscall.c:35-53 | the task that ends is dead and last on the reaper's queue; those that waited for its end join the line in their order, then the first on the reaper's semaphore; their queues lose exactly those |
| `Scheduling.ReapLine` | kernel/kernel.c:77-89 | the task that ended first is gone with its queue, and those on it join the line |
| `KernelLists.AttachedListed` | kernel/list.c:117-124 | the four writes and the count put a task that is on no list last on one, and leave every other list whole |
| `KernelLists.DetachedListed` | kernel/list.c:126-137 | the two writes and the count take the first task off, which is then on no list |
| `KernelLists.AttachedExactlyWhen` | kernel/list.c:117-124 | attaching keeps all lists whole exactly when the task was on none: one node per task is enough |
| `Scheduling.Kernel.ListAttachTail` | kernel/list.c:117-124 | the pointers hold the queue with the task at its end, and all other queues |
| `Scheduling.Kernel.ListDetachHead` | kernel/list.c:126-137 | the pointers hold the queue without its first task, which it returns, or none for the empty list |
| `Scheduling.Kernel.Swtch` | kernel/kernel.c:196-230 | carries out the switch, from every state a caller leaves |
| `Scheduling.Kernel.WaitOn` | kernel/task.c:21-28 | the current task blocks, and the next one runs |
| `Scheduling.Kernel.SemRelease` | kernel/sem.c:47-64 | the first task blocked runs at once |
| `Scheduling.Kernel.WakeEvery` | kernel/resource.c:109-112 | the loop moves every task, first come first |
| `Scheduling.Kernel.RsrcRelease` | kernel/resource.c:98-119 | wakes the queue and drops the resource |
| `Scheduling.Kernel.OsHandleIrq` | kernel/syscall.c:97-105 | records who listens to an interrupt, for the interrupts there are |
| `Scheduling.Kernel.OsSleepIrq` | kernel/syscall.c:107-114 | a listener sleeps on no queue; anyone else only yields |
| `Scheduling.Kernel.IrqDispatch` | kernel/fault.c:162-170 | runs the listener if it sleeps, and else does nothing |
| `Scheduling.Kernel.TerminateCurrent` | kernel/syscall.c:27-53 | the task is dead and last on the reaper's queue, all that waited for its end and then the first on the reaper's semaphore are in the line behind the others, and the next one runs |
| `Scheduling.Kernel.ReapFirst` | kernel/kernel.c:77-89 | frees the task that ended first |
| `Scheduling.Kernel.ThrSpawn` | kernel/task.c:51-165 | a new task listens to no interrupt, has an empty list of waiters, and is last on the run queue |
| `PortMessages.PoolNeverAliases` | kernel/port.c:101-156 | no queued message of any port lives in a pooled buffer |
| `PortMessages.MessagesNeverAlias` | kernel/port.c:143-174 | no two queued messages share a node or a buffer |
| `PortMessages.BuffersFit` | kernel/port.c:141-157 | no message is longer than its buffer, and every pooled buffer is a whole page |
| `PortMessages.Appends` | kernel/port.c:163-174 | linking a node adds its message at the end of one port's queue and changes no other |
| `PortMessages.TakesFirst` | kernel/port.c:217-227 | unlinking takes the first message off and leaves its buffer loose |
| `PortMessages.Pushed` | kernel/port.c:233-240 | a buffer given to the pool changes no message |
| `PortMessages.Popped` | kernel/port.c:146-156 | a buffer taken from the pool belongs to nobody |
| `PortMessages.SentOk` | kernel/port.c:143-174 | buffer, bytes and node together add the message at the end of one queue and change no other |
| `PortMessages.ReceivedOk` | kernel/port.c:217-243 | unlinking and giving the buffer back take the first message off one queue and change no other |
| `PortMessages.PageComesBack` | kernel/port.c:147-157 | a received large message's page goes on the pool and the next large message gets it; a small block goes back to the allocator |
| `PortMessages.Kernel.GetBuffer` | kernel/port.c:146-156 | none, a small block, the pool's first or a fresh page, by size |
| `PortMessages.Kernel.Fill` | kernel/port.c:158-160 | the bytes arrive in the buffer, and nowhere else |
| `PortMessages.Kernel.Send` | kernel/port.c:143-174 | the message, with sender, receiver, code and bytes, is the last of its port's queue; others are as before |
| `PortMessages.Kernel.Receive` | kernel/port.c:217-243 | gives the first message, cut to the size asked for, and takes it off |
| `PortBlocking.Delivery` | kernel/port.c:135-174 | in every run the receipts are a prefix of the accepted messages, in order, once each, and at most 16 wait |
| `PortBlocking.StepKeepsReceivers` | kernel/port.c:177-232 | no step loses a receiver's wake-up |
| `PortBlocking.StepKeepsSenders` | kernel/port.c:135-232 | with valid requests no step loses a sender's |
| `PortBlocking.NoLostWakeups` | kernel/port.c:135-232 | once the woken have run, no receiver sleeps beside a message and no sender beside a free place |
| `PortBlocking.ReceiveOutcome` | kernel/port.c:210-232 | a receive takes the oldest message and wakes the first sleeping sender; from an empty port it sleeps last, or gives up if told not to wait, and nothing else changes |
| `PortBlocking.SendOutcome` | kernel/port.c:135-188 | a send is accepted and wakes the first sleeping receiver, sleeps last, or is refused, each exactly when: room and a valid request, a full port that waits, and the rest |
| `PortBlocking.ReceiversInTurn` | kernel/port.c:177-215 | over any run a sleeping receiver moves up with each message accepted, and is woken by the one its rank counts to |
| `PortBlocking.SendersInTurn` | kernel/port.c:135-232 | a sleeping sender likewise, with each message received |
| `PortBlocking.SleeperServed` | kernel/port.c:177-232 | a receiver that finds the port empty sleeps, is woken by the next message, and gets it |
| `PortBlocking.NowaitDecides` | kernel/port.c:93-96 | the option decides between sleeping and giving up from the next call on |
| `PortBlocking.RefusedSender` | kernel/port.c:135-143 | a woken sender with an invalid request leaves the next one asleep beside a free place |
| `PortBlocking.SendersKeptExactlyWhen` | kernel/port.c:135-143 | no sender's wake-up is lost exactly when the requests in use do not mix valid and invalid ones |
| `PortRuns.OnPort` | kernel/port.c:135-243 | a thread's step, deciding by the port's count, leaves in the tables the queue of the port and reads its first message out of them |
| `PortRuns.RunCoupled` | kernel/port.c:14-243 | so in every run on all ports the tables hold the queues |
| `PortRuns.DeliveryInMemory` | kernel/port.c:14-243 | in every run, what was read out of the nodes and buffers and what they still hold is what was accepted, in order, once each; no two waiting messages share a buffer, or one with the pool |
| `PortTable.StepKeeps` | kernel/port.c:14-99 | each count is one plus the live slaves plus those destroyed while slaved; no panic |
| `PortTable.EveryRun` | kernel/port.c:14-99 | in every run every master is there, and the panic is not reached |
| `PortTable.MasterStays` | kernel/port.c:38-55 | a port that another is slaved to is not destroyed |
| `PortTable.MasterSame` | kernel/resource.c:73-119 | the id of a master is not given to another port while a slave names it |
| `PortTable.DestroyedExactlyWhen` | kernel/port.c:38-55 | a port goes exactly when none is slaved to it and none was destroyed while slaved |
| `PortTable.SlavedExactlyWhen` | kernel/port.c:57-92 | a port is slaved exactly when the caller owns it and its new master; it alone then has another master, and a refusal changes nothing |
| `PortTable.CreatedFor` | kernel/port.c:14-55 | a new port has no master, can be slaved by its owner only, and can be destroyed |
| `PortTable.StuckPort` | kernel/port.c:38-91 | two ports for which destroying the slave first leaves the master without slaves and not destroyable |
| `PortTable.StuckForGood` | kernel/port.c:38-91 | such a port outlives every run |
| `PortTable.Table.PortCreate` | kernel/port.c:14-36 | takes the ids released last, and counts one reference; without ids no port changes |
| `PortTable.Table.PortDestroy` | kernel/port.c:38-55 | gives both ids back, or refuses |
| `PortTable.Table.PortSlave` | kernel/port.c:57-93 | the new master gains a reference before the old one loses its own |
| `FreeIds.FreeList.constructor` | kernel/resource.c:23-42 | every number but 0 is free, the smallest first |
| `FreeIds.FreeList.Take` | kernel/memory.c:137-150 | takes the number given back last, or says that none is left |
| `FreeIds.FreeList.Put` | kernel/memory.c:128-135 | gives a number back on top |
| `Areas.LocateSpan` | kernel/aspace.c:130-150 | the first unmapped span that is long enough; if there is none, what is unmapped at the end of the table, or 0 |
| `Areas.PagesEnough` | kernel/aspace.c:159-161 | the pages hold the bytes with less than a page to spare; no bytes get one page |
| `Areas.CreateKeeps` | kernel/aspace.c:153-230 | a new area keeps the counts, the chunks and the ownership of pages, and loses none |
| `Areas.CloneKeeps` | kernel/aspace.c:294-348 | so does a clone |
| `Areas.ResizeKeeps` | kernel/aspace.c:395-447 | so does growth, of every group and from every space |
| `Areas.DestroyKeeps` | kernel/aspace.c:350-393 | destruction keeps the invariant, makes up no page, and loses one exactly if it is of the last area of a grown group of given pages |
| `Areas.RunKeeps` | kernel/aspace.c:153-447 | through any calls every page is free or in one slot of one group, and all are still there exactly when no call was such a destruction |
| `Areas.Conserved` | kernel/aspace.c:153-447 | no page is lost in any run that grows no area of given pages |
| `Areas.LostPage` | kernel/aspace.c:153-447 | four calls from an empty manager: an area of a given page is made, grown and destroyed, and the page it grew by is nobody's |
| `Areas.AllReturned` | kernel/aspace.c:153-447 | when no area is left the free pages are all there were, exactly when no call lost one |
| `Areas.CreateMaps` | kernel/aspace.c:192-212 | a new area maps its pages and no other area's addresses |
| `Areas.CloneMaps` | kernel/aspace.c:326-337 | a clone maps the same pages |
| `Areas.DestroyMaps` | kernel/aspace.c:360-361 | destruction unmaps its own addresses only |
| `Areas.RunMaps` | kernel/aspace.c:153-447 | through any calls that grow only areas that map their whole group, and from their own space, every area maps its pages and nothing else is mapped |
| `Areas.ResizeMapsExactlyWhen` | kernel/aspace.c:395-447 | growth keeps every mapping right exactly when the caller is in the area's space and the area mapped its whole group |
| `Areas.WrongMapping` | kernel/aspace.c:294-445 | five calls from an empty manager, a clone and two growths among them, end with a hole in an area |
| `Areas.ForeignGrowth` | kernel/syscall.c:214-216 | four calls from an empty manager: an area that maps its whole group is grown from another space, and ends with a hole while that space has a mapping under no area |
| `Areas.ZeroRest` | kernel/aspace.c:219-226 | the empty slots of the last chunk are zero, and no page is lost |
| `Areas.Manager.FillSlots` | kernel/aspace.c:199-226 | page after page goes to slot after slot and to address after address, or the pages run out |
| `Areas.Manager.AreaCreate` | kernel/aspace.c:153-230 | pages that hold the bytes with less than one to spare, filled and mapped at the first free span at or after the page asked for, or page 512 if that is not in the table; and exactly when it refuses, writes past the table, or stops for want of a page |
| `Areas.Manager.AreaClone` | kernel/aspace.c:294-348 | one more area for the group, at the first free span; and exactly when it refuses or writes past the table |
| `Areas.Manager.AddPages` | kernel/aspace.c:424-443 | all chunks but the last stay full, or the pages run out |
| `Areas.Manager.AreaResize` | kernel/aspace.c:395-447 | grows in the caller's space, does nothing when not asked for more; and exactly when it refuses, writes past the table, or stops for want of a page |
| `Areas.Manager.ReleasePages` | kernel/aspace.c:374-385 | every page goes back once, in order |
| `Areas.Manager.AreaDestroy` | kernel/aspace.c:350-393 | the area goes, and with the last one its group; a foreign area is refused |
| `Vt100.ScrolledUpRows` | srv/console2/vt100.c:129-176 | scrolling up moves each row of the region to the one above, blanks the last, and leaves the rest |
| `Vt100.ScrolledDownRows` | srv/console2/vt100.c:129-161 | scrolling down, likewise |
| `Vt100.LinesOut` | srv/console2/vt100.c:389-398 | deleting n lines, row by row |
| `Vt100.LinesIn` | srv/console2/vt100.c:379-388 | inserting n lines, row by row |
| `Vt100.OutsideStays` | srv/console2/vt100.c:229-270 | a line feed, index or reverse index touches no row outside the region |
| `Vt100.StepValid` | srv/console2/vt100.c:209-463 | every byte that does not scroll a region without rows keeps the cursor and the region's end on the grid and the parameters at most 16 |
| `Vt100.EveryInput` | srv/console2/vt100.c:209-463 | so does every input up to such a byte |
| `Vt100.OverrunsExactlyWhen` | srv/console2/vt100.c:163-186 | a byte's scroll writes beyond the grid exactly when it scrolls a region without rows |
| `Vt100.RequestExactlyWhen` | srv/console2/vt100.c:178-186 | after a request for a region, an index from some row overruns exactly when the region asked for has no rows |
| `Vt100.OverrunAnywhere` | srv/console2/vt100.c:163-186 | on every screen the bytes ESC [ 0 ; 0 r ESC are fine and the next one, D, overruns |
| `Vt100.ReadsNumber` | srv/console2/vt100.c:307-312 | the digits of a number are read as that number |
| `Vt100.ReadsParams` | srv/console2/vt100.c:305-321 | parameters joined by semicolons are read in order, the first sixteen |
| `Vt100.ReadsSequence` | srv/console2/vt100.c:305-463 | the command that ends a sequence gets the parameters that were written |
| `Vt100.CursorTo` | srv/console2/vt100.c:364-375 | the sequence for a position takes the cursor there, or as near as the grid has it |
| `TerminalLaws.PrintsOne` | srv/console2/vt100.c:282-301 | after a printable byte the cell under the cursor shows it in the current colours, every other cell is as before, and the cursor is in the next column or the last |
| `TerminalLaws.PrintsText` | srv/console2/vt100.c:282-301 | text that fits in the rest of the line is shown there as it was written, and nothing else changes |
| `TerminalLaws.Reads` | srv/console2/vt100.c:305-463 | the same as ReadsSequence, also without parameters |
| `TerminalLaws.CursorBy` | srv/console2/vt100.c:325-338 | A, B, C and D take the cursor up, down, right and left, by one or the number given, never off the grid |
| `TerminalLaws.CursorLine` | srv/console2/vt100.c:339-363 | E, F, G and d go to a line's start, a column or a row |
| `TerminalLaws.OtherNames` | srv/console2/vt100.c:328-375 | e, a, backquote and f do what B, C, G and H do |
| `TerminalLaws.CursorBack` | srv/console2/vt100.c:405-409 | u takes the cursor back to where s or ESC 7 was given, after any input in between that saves no other place |
| `TerminalLaws.ColoursBack` | srv/console2/vt100.c:222-228 | ESC 8 restores the colours of ESC 7 and leaves the cursor |
| `TerminalLaws.CharsetIgnored` | srv/console2/vt100.c:213-216 | a character set request changes nothing |
| `TerminalLaws.ErasesScreen` | srv/console2/vt100.c:376-378 | J blanks exactly the cells from the cursor on, up to it, or all |
| `TerminalLaws.ErasesLine` | srv/console2/vt100.c:402-404 | K the same within the line |
| `TerminalLaws.DeletesChars` | srv/console2/vt100.c:399-401 | P brings the rest of the line back, cell by cell, and blanks its end |
| `TerminalLaws.MovesLines` | srv/console2/vt100.c:379-398 | L puts blank rows in and M takes rows out, row by row; outside the region neither does anything |
| `TerminalLaws.FeedsLine` | srv/console2/vt100.c:261-270 | a line feed goes to the next line's start, and scrolls the region exactly on its last line |
| `TerminalLaws.Indexes` | srv/console2/vt100.c:229-237 | ESC D and ESC E go down, and scroll the region from its last line and from below it |
| `TerminalLaws.IndexesBack` | srv/console2/vt100.c:238-245 | ESC M goes up, and scrolls the region down from its first line |
| `TerminalLaws.MovesInLine` | srv/console2/vt100.c:259-282 | carriage return, tab, backspace, which goes round, and the zero byte |
| `TerminalLaws.FeedsForm` | srv/console2/vt100.c:257-258 | a form feed blanks every cell and takes the cursor home |
| `TerminalLaws.SetsRegion` | srv/console2/vt100.c:410-418 | r makes the region exactly the rows asked for, or all, or leaves it |
| `TerminalLaws.ColourBits` | srv/console2/vt100.c:444-454 | 3x and 4x set the three bits of the character's or the background's colour and no other |
| `TerminalLaws.OtherBits` | srv/console2/vt100.c:428-443 | the bright and blink bits, the resets, and the numbers that do nothing |
| `TerminalLaws.ShadesInTurn` | srv/console2/vt100.c:425-457 | attributes given together act as given one after the other |
| `TerminalLaws.Paints` | srv/console2/vt100.c:419-459 | m applies what it is given, or resets |
| `TerminalLaws.PaintedText` | srv/console2/vt100.c:282-459 | a byte printed after both colours were set is shown in them |
| `Vt100.Terminal.ClearCells` | srv/console2/vt100.c:42-50 | blanks exactly the cells asked for |
| `Vt100.Terminal.Scroll` | srv/console2/vt100.c:163-176 | the move of cells within the one array scrolls rows |
| `Vt100.Terminal.ScrollAtCursor` | srv/console2/vt100.c:129-161 | scrolls from the cursor's row, if it is in the region |
| `Vt100.Terminal.ScrollLines` | srv/console2/vt100.c:379-398 | repeats it for every line |
| `Vt100.Terminal.ClearScreen` | srv/console2/vt100.c:52-65 | clears after, before or around the cursor |
| `Vt100.Terminal.ClearLine` | srv/console2/vt100.c:67-83 | the same within the cursor's line |
| `Vt100.Terminal.DeleteChars` | srv/console2/vt100.c:110-127 | closes the gap within the line and blanks its end |
| `Vt100.Terminal.Position` | srv/console2/vt100.c:92-108 | the nearest place on the grid |
| `Vt100.Terminal.PutChar` | srv/console2/vt100.c:282-301 | the cell at the cursor gets the byte and the current colours, every other cell stays, and the cursor goes on or stops at the last column |
| `Vt100.Terminal.PlainByte` | srv/console2/vt100.c:251-303 | one byte outside sequences |
| `Vt100.Terminal.EscapeByte` | srv/console2/vt100.c:209-249 | one byte after an escape |
| `Vt100.Terminal.ControlByte` | srv/console2/vt100.c:305-463 | one byte of a control sequence |
| `Vt100.Terminal.SetAttributes` | srv/console2/vt100.c:419-459 | applies the attributes in order |
| `Vt100.Terminal.Feed` | srv/console2/vt100.c:209-463 | takes one byte, keeping the screen good |
| `Netboot.LoadedBeforeExec` | util/netboot.c:73-118 | from the execute on, the client's memory holds the whole file, whatever was lost, repeated or late |
| `Netboot.LoadedExactlyWhen` | util/netboot.c:73-118 | this holds in all runs exactly for files of at most 65536 blocks |
| `Netboot.GetsThrough` | util/netboot.c:73-118 | from every state a run can reach, though every packet under way be lost, some run ends with the whole file in memory and the execute under way, unless the execute was sent and lost |
| `Netboot.StartsExactlyWhen` | util/netboot.c:75-118 | the file and the execute can still arrive exactly when the execute has not been sent or is under way: it is never sent again |
| `Netboot.ClientKeeps` | netboot/netboot.c:387-458 | a packet, old or new, leaves every acknowledged block in memory |
| `Netboot.AckKeeps` | util/netboot.c:94-110 | only the current block's number moves the sender on |
| `Netboot.Client.Handle` | netboot/netboot.c:387-458 | writes the block to its place and acknowledges it; an execute starts the image |
| `Netboot.Sender.ReadAndSend` | util/netboot.c:75-83 | sends the next block under sixteen bits of its number, or the execute |
| `Netboot.Sender.TimedOut` | util/netboot.c:105-108 | sends the same block again |
| `Netboot.Sender.Receive` | util/netboot.c:91-109 | goes on at the matching acknowledgement, and repeats the block at anything else |
| `Fish.StepKeeps` | srv/fish/fish.c:259-358 | every packet, timeout and expiry keeps each fish to one copy |
| `Fish.GetAckKeeps` | srv/fish/fish.c:295-335 | the fish enters the packet as it leaves the list, whoever acknowledged |
| `Fish.GetSyncKeeps` | srv/fish/fish.c:340-358 | it leaves the packet as it enters a tank |
| `Fish.RelocateKeeps` | srv/fish/fish.c:838-847 | so does a tank that moves, to an address it may take |
| `Fish.GetsAcross` | srv/fish/fish.c:259-358 | a fish on offer that nobody took is live again, is offered again and gets to the neighbour; its old tank has let it go |
| `Fish.Expires` | srv/fish/fish.c:541-548 | a dead fish leaves the list, the others keep their order, and no copy comes or goes |
| `Fish.NeverTwice` | srv/fish/fish.c:259-358 | if no address that two tanks may take is one that a third may send a fish to, no run gives a fish two copies, relocations included |
| `Fish.TakenTwice` | srv/fish/fish.c:838-847 | of three tanks, one takes a fish and moves away, another moves to its address and takes it again; no two tanks ever share an address |
| `Fish.OnceExactlyWhen` | srv/fish/fish.c:212-358 | one copy in all runs from all starts, exactly when no address that two tanks may take is one that a third may send a fish to |
| `Fish.Clash` | srv/fish/fish.c:212-358 | the failing run for every such address: the third tank may also send on an answer meant for a tank whose address it shares |
| `Fish.NeedsThree` | srv/fish/fish.c:212-358 | two tanks never clash, whatever addresses they take |
| `Fish.TankProgram.MakeFish` | srv/fish/fish.c:666-697 | a new fish in one tank's list is the step of the network |
| `Fish.TankProgram.SendFish` | srv/fish/fish.c:470-480 | so is an offer, under the tank's address and the fish's uid |
| `Fish.TankProgram.GetOffer` | srv/fish/fish.c:259-293 | so is an answer to an offer, given for offers to this tank only |
| `Fish.TankProgram.GetSync` | srv/fish/fish.c:340-358 | so is the arrival of a fish, and a packet for another tank changes nothing |
| `Fish.TankProgram.GetAck` | srv/fish/fish.c:295-335 | the first fish on offer under the uid goes, and no other; it is the step of the network |
| `BootImage.EntryRoundTrip` | util/bootmaker.c:304-330 | a directory entry is read back as it was written |
| `BootImage.RangesDisjoint` | util/bootmaker.c:304-310 | no two files share a page, and none has the directory's |
| `BootImage.ImageHolds` | util/bootmaker.c:352-355 | each file lies in the image at the page its entry names |
| `BootImage.DirectoryHolds` | srv/vfs/bootfs.c:88-97 | the directory read back has the entries written, and then none |
| `BootImage.DirectoryBytes` | util/bootmaker.c:304-330 | the bytes of a section's entry: its name, type, lengths, and for code its load address and then its entry address |
| `BootImage.FileAtWord` | util/bootmaker.c:304-355 | the page number in the entry is where the file is |
| `BootImage.ReadBack` | srv/vfs/bootfs.c:272-296 | reading a name at any offset and length gives that slice of the file that went in under it last |
| `BootImage.ReadFile` | srv/vfs/bootfs.c:70-296 | listing, looking up and fetching gives back the file that went in last under a name, from any offset and of any length, and nothing under any other name |
| `BootImage.Layout` | util/bootmaker.c:285-342 | places the files page after page; dies at the 63rd section |
| `BootImage.MakeBoot` | util/bootmaker.c:257-360 | writes the directory and the padded files |
| `BootImage.Mount` | srv/vfs/bootfs.c:70-102 | lists the entries in use but the directory, the latest first |
| `BootImage.Walk` | srv/vfs/bootfs.c:140-162 | finds the first inode of a name |

## Left out

- Heap: 32-bit wrap-around of sums other than the padding; trimming and negative sbrk, mmap, memalign, calloc, and the fenceposts after a foreign sbrk. The block mask of the scan is derived from the bin number instead of being carried beside it.
- Malloc.Heap.Malloc: a request so large that its padding wraps gets a small block, as in the source; `RequestFits` says when.
- HashTable.Table.Insert: requires a key that is not present, without which no map is stored (`InsertedExactlyWhen`), and a larger size in the list when the load is exceeded; the maximal load is a real number, and the primality of the concrete sizes is an assumption.
- Qsort.Qsort: elements are values; the byte-wise exchange of elements of any size and alignment is not modelled.
- Qsem: destroying a semaphore, and the build that goes to the kernel for every call.
- Scheduling: list functions that no queue of the kernel uses, status codes, the timer queue, and the pager. Semaphore counts are in `Qsem`, so a blocking acquire is a wait and a release that wakes is a hand-off.
- Scheduling.Kernel.IrqDispatch: an interrupt whose listener has been freed does nothing; the kernel reads what the task's memory then holds.
- PortMessages: addresses from the kernel's own allocator are parameters.
- PortMessages.Kernel.Send: starts after the check of size and address, which is `ValidRequest` in `PortBlocking`.
- PortBlocking: a port destroyed, or slaved anew, while a thread sleeps on it.
- PortTable: ids of resources other than ports and their send queues, and port names.
- PortTable.Table.PortCreate: running out of ids stops the kernel; the model returns 0, leaves the ports as they were, and does not promise a valid table for later calls.
- Areas: page-table flags, and the initial building of the free page list. The chunks of a group are a sequence instead of a chain. What memory holds after a write past the page table, or after the kernel stopped, is not modelled; the calls say when that happens.
- Vt100: what a scroll that writes beyond the grid leaves, and the bytes after it; 32-bit overflow of a parameter with ten or more digits, hardware cursor and refresh. The cursor starts at the origin, which the source leaves to its caller.
- Netboot: checksums, address resolution and packet headers; a file is read in whole blocks but for the last.
- Fish: pings, movement within a tank and drawing. A tank does not get its own packets, as the network server puts them on the wire only. Uids are any numbers: two tanks that make a fish at one address at one time give it one uid. A tank may offer a fish to any neighbour at any time, which includes every choice the program makes; the addresses it may take are a parameter.
- BootImage: the section file's parser, the floppy boot block and hosts of the other byte order; file and address sizes are below 2^31.
- BootImage.MakeBoot: files that cannot be loaded, and sections without a file or of an unknown type, end the program before the layout.
- Rights, teams, the virtual file system above the boot file system, drivers, the window system and the command line tools.
