# Azalea kernel: a verified model

A Dafny model of the parts of the Azalea unikernel that manage shared state: the buddy
allocator, the System V shared memory table, the thread blocks and scheduler lists, the page
tables and scatter/gather lists, the kernel's locks, and the console's request/response ring.
`dafny verify dfyconfig.toml` checks all of it.

The code is written as the C is: operations that change state are class methods with loops over
arrays, sequences and maps, each proved against a specification function or a property of its
abstract state. Locks, the ring and the console protocol are state machines over their
individual reads and writes, so that their theorems hold for every interleaving.

| file | what it models |
|---|---|
| `Levels.dfy`, `Options.dfy`, `Seqs.dfy`, `Paths.dfy` | powers of two and shifts, optional values, sequences without repetitions, runs of a step relation |
| `BuddyBits.dfy`, `BuddySpec.dfy`, `BuddyPool.dfy`, `BuddyRuns.dfy` | the buddy allocator of `kernel/memory.c`, and of `kernel/shm/shm_mm.c`, which is the same code |
| `ShmSpec.dfy`, `ShmRuns.dfy`, `ShmHistory.dfy`, `Shm.dfy` | `shmget`, `shmat`, `shmdt`, `shmctl` over an allocator of their own |
| `DlList.dfy` | the intrusive circular lists of `kernel/list.h` on the heap, thread lists with counters, and the traversal that unlinks |
| `SchedSpec.dfy`, `SchedInv.dfy`, `SchedSteps.dfy`, `SchedOps.dfy`, `Scheduler.dfy` | thread blocks, reference counts and the scheduler lists of `kernel/thread.c`: specification, invariant, what each operation keeps, and the code |
| `SchedCurrent.dfy`, `SchedPlaces.dfy`, `SchedRuns.dfy`, `SchedState.dfy` | each core's current thread, where blocks go, runs on all cores, and which threads are marked as running |
| `SchedRaces.dfy`, `SchedHides.dfy` | the calls that upset the scheduler |
| `PageTable.dfy`, `Iovec.dfy` | `lk_map`, `lk_unmap`, `get_pa` and `get_iovec` |
| `IrqLock.dfy`, `TicketMutex.dfy` | the recursive ticket spinlock with interrupt save, and the 32-bit ticket mutex |
| `Ring.dfy`, `ConsoleRpc.dfy` | the circular queue, and the console calls built on such queues |

## Where the code does less than it promises

Each promise below is false in general. Each has a lemma that shows the failure and a lemma that
gives the condition under which the promise holds.

* **A suspension at the wrong moment upsets a list counter.** `post_context_switch` unlinks the
  previous thread from its core's runnable list without looking whether it is still there; it is safe
  if and only if it is (`SchedOps.PostExact`, `SchedOps.SwitchExact`). When `schedule` runs undisturbed
  it always is, whatever the thread was asked to do (`SchedRuns.ScheduleKeeps`), so over every run in
  which each `schedule` is one step the counters are exact (`SchedRuns.WholeRunKeepsInv`). When other
  cores act between its two halves, a suspension disturbs if its thread is just being switched by its
  core, has been chosen again or has left the core's runnable list, and is not asked to run. After a
  call, whatever the cores do next without disturbing, all counters stay exact if and only if the call
  itself does not disturb (`SchedRaces.CallExact`); every run of such calls keeps the scheduler in
  order (`SchedRuns.RunKeepsInv`). The harm: a thread that has left its list leaves the counter one
  short at the switch (`SchedRaces.DisturbedDrifts`, `SchedRaces.SuspendDuringSwitch`); one that was
  chosen again goes on running while it is on the blocked list (`SchedRaces.SuspendOwnChoice`) and
  leaves the counter one short when it next blocks (`SchedRaces.BlockedCurrentDrifts`).
  `SchedRaces.DriftReached` is a run from the initial state that ends one short.
* **A wake-up at the wrong moment is lost.** `post_context_switch` makes a blocked thread that is asked
  to run runnable if and only if it is not the thread it switches from (`SchedRaces.WakeExact`). A
  thread that blocks and is woken up between the two halves of `schedule` stays blocked, and nothing
  asks it to run any more (`SchedRaces.WakeUpLost`).
* **A thread that exits can hide another one from its core.** `select_next_thread` marks the first thread
  it may run as running, and still goes idle if it then meets the current thread asked to exit. The
  marked thread stays on the list, and is chosen again only when it is alone there
  (`SchedState.HiddenWaits`). Every call keeps exactly the threads that run, or are about to, marked so,
  if and only if it is not a `schedule` in which the current thread is to exit and a thread that the core
  may run precedes it on the list (`SchedState.StepMarks`); each such call ends with the core idle beside
  a thread marked as running (`SchedHides.ExitHides`), and `SchedHides.HiddenReached` is a run from the
  initial state that gets there. Over every run without one in which nobody is disturbed, the threads
  marked as running are exactly the cores' current threads (`SchedState.RunningExact`).
* **The attach count has 16 bits.** After 2^16 + 1 attaches and a removal, the first detach frees a
  segment that still has 2^16 attachments (`ShmRuns.WrapFreesAttached`). A call keeps all counts exact
  if and only if it is not an attach at 65535 (`ShmRuns.CountStep`), and over every run without one a
  segment is freed only when nothing is attached (`ShmRuns.RunFreesUnattached`).
* **A segment that fills its block can be grown past it.** The size `shmget` reports for such a
  segment is twice its block (`ShmRuns.ReportedSize`), so a later larger request is accepted in
  place, as two calls from the initial table show (`ShmRuns.GrowthReached`). An accepted growth stays
  inside the block if and only if the old size does not fill it (`ShmRuns.GrowthFits`,
  `ShmRuns.FitsStep`).
* **The size of the allocator's metadata is an `int` product.** It is right if and only if it is below
  2^31 (`BuddyBits.ProductExact`), and never is for an area of 7 TiB or more
  (`BuddyBits.ProductOverflows`).
* **The 32-bit mutex** admits two holders once 2^32 + 1 threads take part (`TicketMutex.BoundIsExact`),
  and never before (`TicketMutex.MutexCorrect`).
* **Console replies are told apart by thread id and function type only.** Callers without a current
  thread all have id -1; two of them that print can be given each other's reply
  (`ConsoleRpc.SwapReached`). A call is safe to make if and only if no outstanding call has its thread
  id and function type (`ConsoleRpc.SendExact`), and over every run of such calls everybody gets the
  answer to their own request (`ConsoleRpc.RpcCorrect`).
* **A 4 KiB page inside a 2 MiB page is not mapped.** `lk_map` writes its entry into the large page's
  own memory and reports success; the translation stays as it was, for every page of every large page
  mapped in an empty table (`PageTable.SmallInLarge`). Mapping works if and only if the page is not
  in a large one (`PageTable.PageMap.Map`, `PageTable.PageMap.MapThenGetPa`).

The branch of `select_next_thread` that sends a thread to the migrating list is dead: `create_thread`
makes a thread for one core or for all, so a thread is only ever on the lists of a core it may run on
(`SchedCurrent.ChooseKeepsHere`).

The manual text in `kernel/shm/shmget.c:327` promises an error for an existing key under
`IPC_EXCL`; the code never looks at that flag, and the model follows the code.

## Model

| member | source | states |
|---|---|---|
| `BuddyBits.MaskIsShift` | kernel/memory.c:402-435 | the one-bit masks are the shifts of 1 by the bit number, for all eight bits |
| `BuddyBits.WithBitTest` | kernel/memory.c:402-421 | writing one bit of a byte sets that bit to the flag and leaves the other seven as they were |
| `BuddyBits.ZeroWord` | kernel/memory.c:322-354 | a 64-bit word is zero exactly when its eight bytes are, which is what lets the scan skip 64 blocks |
| `BuddyBits.BitmapSize` | kernel/memory.c:211-234 | for every area below 2^31 pages the loop's 32-bit sums never wrap: the result is the exact number of pages for the block index, the level table and one bitmap per level, rounded up |
| `BuddyBits.MetaFits` | kernel/memory.c:24-92 | the metadata computed from the whole area is enough for the smaller pool that remains after carving it off |
| `BuddyBits.MetaLeast` | kernel/memory.c:78-92 | the pages set aside for the metadata are the least multiple of 512 pages, 2 MiB, that holds it |
| `BuddyBits.ProductExact` | kernel/memory.c:78-92 | the byte size of the metadata, computed as an `int` product, is right iff it is below 2^31, and negative otherwise |
| `BuddyBits.ProductOverflows` | kernel/memory.c:78-92 | for every area of 0x7000_0000 pages or more that product is not below 2^31 |
| `BuddyBits.InitByteBit` | kernel/memory.c:55-77 | the initial bitmap of a level has exactly its last block set, and that only when the level has an odd number of blocks |
| `BuddyBits.LevelOfUnique` | kernel/memory.c:292-316 | the level of a request is the only one whose block holds it while no smaller block does |
| `BuddySpec.CanonicalAdd` | kernel/memory.c:359-397 | marking a freed block keeps the marks the maximal decomposition of the free pages when its buddy is not free |
| `BuddySpec.CanonicalMerge` | kernel/memory.c:359-397 | when the buddy is free, unmarking it gives the maximal decomposition of the pages without the parent block, so merging can go on one level up |
| `BuddySpec.CanonicalRemove` | kernel/memory.c:239-287 | unmarking an allocated block gives the maximal decomposition of what stays free |
| `BuddySpec.CanonicalSplit` | kernel/memory.c:239-287 | splitting a taken block and marking its right half gives the maximal decomposition with only the left half taken |
| `BuddySpec.CanonicalUnique` | kernel/memory.c:239-287 | the maximal decomposition of a set of free pages is unique, so the bitmaps are a function of which pages are free |
| `BuddySpec.MaximalDisjoint` | kernel/memory.c:359-397 | two different maximal free blocks share no page |
| `BuddySpec.MaximalAncestor` | kernel/memory.c:239-287 | every free block lies in a maximal one, so a search over the marks misses nothing |
| `BuddySpec.LiveRemove` | kernel/memory.c:155-206 | freeing a live block adds exactly its pages to the free ones and keeps the rest disjoint |
| `BuddyPool.InitMarksCanonical` | kernel/memory.c:24-92 | the blocks marked at start, one per 1 bit of the page count, are the maximal decomposition of the whole pool |
| `BuddyPool.InitBitmaps` | kernel/memory.c:55-77 | the level bitmaps are laid out back to back without overlap, with the initial contents and counts |
| `BuddyPool.CountLevels` | kernel/memory.c:24-54 | the number of levels is the bit length of the page count |
| `BuddyPool.Pool.constructor` | kernel/memory.c:24-92 | for every area whose metadata stays below 2^31 bytes: a valid pool without live blocks; block index, level table and bitmaps fit below the first pool page; a level-j block is marked iff bit j of the page count is 1 |
| `BuddyPool.Pool.SetBitmapFlag` | kernel/memory.c:402-421 | changes exactly one block's mark, and the level's count follows the number of set bits |
| `BuddyPool.Pool.GetBitmapFlag` | kernel/memory.c:426-435 | reads whether a block is marked |
| `BuddyPool.Pool.WordIsClear` | kernel/memory.c:322-354 | a zero 64-bit word means that none of its 64 blocks is marked, a non-zero one that some block is |
| `BuddyPool.Pool.ScanLevel` | kernel/memory.c:322-354 | the scan with 64-bit skips finds the least marked offset, or -1 when there is none, as a scan bit by bit would |
| `BuddyPool.Pool.FindFreeBlock` | kernel/memory.c:322-354 | the first marked block of a level, -1 iff the level has none; the count shortcut loses nothing |
| `BuddyPool.Pool.SearchLevels` | kernel/memory.c:239-270 | the lowest level from the requested one that has a marked block, and its first such block |
| `BuddyPool.Pool.SplitDown` | kernel/memory.c:255-287 | keeps the leftmost part of the requested level and returns every other page of the larger block to the free set |
| `BuddyPool.Pool.TakeBlock` | kernel/memory.c:239-287 | takes an aligned free block of the level, first fit; fails iff no aligned block of that level is wholly free, and then changes nothing |
| `BuddyPool.Pool.MergeOnce` | kernel/memory.c:359-397 | one merging step either ends with the pages marked or hands the parent block on, with every byte index inside its level |
| `BuddyPool.Pool.GiveBlock` | kernel/memory.c:359-397 | the pages of a freed block join the free set, fully merged; the loop ends before the top level, so no block is lost |
| `BuddyPool.Pool.AlignBuddyBlock` | kernel/memory.c:292-302 | the least block size that holds the request, 0 when the pool has no such level |
| `BuddyPool.Pool.BlockListIndex` | kernel/memory.c:307-316 | the level of the least block that holds the size, -1 when there is none |
| `BuddyPool.Pool.EarlyRejection` | kernel/memory.c:97-125 | a request refused by the level test or by the used-size test could not have been served by any free block |
| `BuddyPool.Pool.Alloc` | kernel/memory.c:97-149 | returns 0 iff no naturally aligned run of the needed pages is wholly free; otherwise takes the first-fit block, records it and returns its address |
| `BuddyPool.Pool.Release` | kernel/memory.c:155-206 | succeeds iff the page starts a live block; then exactly that block is no longer live, and the bitmaps are again the maximal decomposition |
| `BuddyPool.BitmapOffset` | kernel/memory.c:155-206 | dividing the address of a live block by its size gives back its offset in the level |
| `BuddyRuns.AllocIsStep` | kernel/memory.c:97-149 | every successful allocation is a step of the runs below |
| `BuddyRuns.RunKeepsLive` | kernel/memory.c:97-206 | in every state of every run the live blocks are aligned, pairwise disjoint and inside the pool |
| `BuddyRuns.Partition` | kernel/memory.c:97-206 | every page of the pool lies in exactly one marked or live block, and no block reaches outside |
| `BuddyRuns.EveryRun` | kernel/memory.c:97-206 | in every state of every run, marked and live blocks are disjoint and tile the pool |
| `BuddyRuns.InteriorNotRecorded` | kernel/memory.c:97-206 | only the first page of a live block is recorded in the block index |
| `BuddyRuns.NoFreeBuddies` | kernel/memory.c:359-397 | no block and its buddy are ever both marked |
| `BuddyRuns.EmptyPoolIsInitial` | kernel/memory.c:24-92 | a pool without live blocks holds, byte for byte, the bitmaps and counts that initialisation built |
| `BuddyRuns.DrainRestores` | kernel/memory.c:155-206 | freeing all live blocks in any order leads back to the initial marks |
| `ShmSpec.InvCreate` | kernel/shm/shmget.c:225-274 | a new region owns the block allocated for it; on any failure nothing is leaked |
| `ShmSpec.GetExact` | kernel/shm/shmget.c:357-484 | shmget returns -1 and changes nothing iff it must refuse: the private key; a key that is absent, without IPC_CREAT, with a full table or with an exhausted allocator; or a region that is too small and may not or cannot grow; otherwise the id names the only region of that key, now large enough and not waiting for removal: an old one that keeps its segment, attachments and owner, or a new one over a fresh block; no other entry changes |
| `ShmSpec.InvGet` | kernel/shm/shmget.c:357-484 | shmget keeps: live blocks are exactly the segments of regions in use, keys distinct, counts right |
| `ShmSpec.InvAttach` | kernel/shm/shmat.c:119-175 | shmat keeps the table invariant |
| `ShmSpec.InvDetach` | kernel/shm/shmdt.c:91-169 | shmdt keeps the table invariant, whether it frees the segment or not |
| `ShmSpec.InvRemove` | kernel/shm/shmctl.c:183-206 | removal keeps the table invariant, whether it frees or only unlinks |
| `ShmSpec.DestroyFrees` | kernel/shm/shmctl.c:261-276 | destroying a region frees exactly the one block it owns |
| `ShmSpec.FindData` | kernel/shm/shmdt.c:91-169 | the first region whose segment starts at the address, or the table's length when there is none |
| `ShmRuns.RunKeepsInv` | kernel/shm/shmget.c:357-484 | over every run of shmget, shmat, shmdt and shmctl: no leak, no double free, distinct keys, attach counts right modulo 2^16 |
| `ShmRuns.UnlinkedStep` | kernel/shm/shmctl.c:183-206 | a call keeps "an unlinked region is attached" iff it is not the attach that wraps the count to 0 |
| `ShmRuns.RunUnlinked` | kernel/shm/shmctl.c:183-206 | over every run without such an attach, unlinked regions have a positive attach count |
| `ShmRuns.FreedUnattached` | kernel/shm/shmdt.c:91-169 | only a detach or a removal frees a segment; it frees exactly that segment's live block, and the attachments that remain are a multiple of 2^16 |
| `ShmRuns.CountStep` | kernel/shm/shmat.c:119-175 | a call keeps every attach count equal to the number of attachments iff it is not an attach at 65535 |
| `ShmRuns.RunCounts` | kernel/shm/shmat.c:119-175 | over every run without an attach at 65535 every attach count is the number of attachments |
| `ShmRuns.RunFreesUnattached` | kernel/shm/shmdt.c:91-169 | over every such run a segment is freed only when nothing is attached to it |
| `ShmRuns.WrapFreesAttached` | kernel/shm/shmat.c:119-175 | after 2^16 + 1 attaches and a removal, the first detach frees a segment with 2^16 attachments left |
| `ShmRuns.WrapStart` | kernel/shm/shmget.c:357-484 | the state that failure starts from is one shmget away from the initial table |
| `ShmRuns.ReportedSize` | kernel/shm/shm_mm.c:453-467 | the reported block size is the real one, doubled exactly when the segment fills its block |
| `ShmRuns.GrowthFits` | kernel/shm/shmget.c:176-203 | a growth the code accepts stays inside the block iff the old size did not fill it |
| `ShmRuns.GrowthReached` | kernel/shm/shmget.c:176-203 | two requests for one key from the initial table, of one page and then of two, end with a segment of two pages in a block of one |
| `ShmRuns.FitsStep` | kernel/shm/shmget.c:176-203 | a call keeps every segment inside its block iff it does not grow a segment that fills its block |
| `ShmRuns.RunFits` | kernel/shm/shmget.c:357-484 | over every run without such a growth, every segment fits its block and no smaller block would do |
| `ShmHistory.RunHistory` | kernel/shm/shmat.c:119-175 | in every state of every run a region's attach count is the number of attaches minus detaches that the calls since its shmget made, modulo 2^16, and its creator, last process and mode are those of the calls that set them last |
| `ShmHistory.DetachOnce` | kernel/shm/shmdt.c:91-169 | a detach of a removed region with n attachments leaves n - 1, and frees its block and clears its entry iff n is 1 |
| `ShmHistory.RemovalTakesEffect` | kernel/shm/shmctl.c:183-206 | after n attaches, fewer than 2^16, a removal takes effect with the n-th detach, or at once when n is 0, and not before |
| `Shm.ShmTable.constructor` | kernel/shm/shm_initialize.c:84-107 | an empty table over a fresh allocator |
| `Shm.ShmTable.FindRegion` | kernel/shm/shmget.c:78-94 | the loop finds the first entry with the key, or -1 iff there is none |
| `Shm.ShmTable.Reserve` | kernel/shm/shmget.c:112-156 | reserves the first available entry with the key and mode, or fails iff the table is full |
| `Shm.ShmTable.CreateRegion` | kernel/shm/shmget.c:225-274 | allocates and fills a region; undoes the reservation when the allocator is exhausted |
| `Shm.ShmTable.ShmGet` | kernel/shm/shmget.c:357-484 | refines shmget for every key, size and flag: -1 iff the request must be refused, and then nothing changes; otherwise the id of an entry in use with that key and at least that size, with its old segment if it was in use; for a new key a free block was missed only if there was none |
| `Shm.ShmTable.ShmAt` | kernel/shm/shmat.c:119-175 | refines attach: the address of the segment and one attachment more, or failure without change |
| `Shm.ShmTable.ShmDt` | kernel/shm/shmdt.c:91-169 | refines detach, whose count is the one the calls give (RunHistory) and whose last detach of a removed region frees it (RemovalTakesEffect) |
| `Shm.ShmTable.ShmCtl` | kernel/shm/shmctl.c:130-234 | refines stat, set and remove; stat gives the entry; returns -1 exactly for an id out of range, an entry not in use or an unknown command, and 0 otherwise |
| `Shm.ShmTable.DestroyRegion` | kernel/shm/shmctl.c:261-276 | frees the region's block in the allocator and clears the entry |
| `Shm.ShmTable.BuddyBlockSize` | kernel/shm/shm_mm.c:453-467 | the loop computes the reported block size |
| `DlList.Init` | kernel/list.h:21-25 | a ring of one |
| `DlList.Add` | kernel/list.h:27-33 | inserts after the given link of the ring; next and previous stay inverse |
| `DlList.AddTail` | kernel/list.h:35-38 | inserts before the head, that is, at the end |
| `DlList.Del` | kernel/list.h:40-46 | the ring without the link |
| `DlList.DelInit` | kernel/list.h:48-54 | the ring without the link, and the link a ring of its own |
| `DlList.Empty` | kernel/list.h:57-60 | true iff the head is alone in its ring |
| `DlList.Append` | kernel/list.h:62-72 | splices the source's links behind the destination's |
| `DlList.Len` | kernel/list.h:74-82 | the counting loop ends with the number of links besides the head |
| `DlList.ThreadList.AppendAll` | kernel/thread.c:357-370 | append followed by re-initialising the source gives destination ++ source, an empty source, and both counters right |
| `DlList.ThreadList.MoveTo` | kernel/list.h:35-54 | an item moves from anywhere in one list to the end of another, both rings and counters right |
| `DlList.ThreadList.MoveWhere` | kernel/list.h:104-108 | the traversal with the saved next link, whose body moves chosen items to another list, visits exactly the items the list had at the start, in order; the others stay, the chosen ones join the other list in order |
| `SchedInv.WithoutOk` | kernel/list.h:48-54 | removing a block from a list without repetitions removes exactly it |
| `SchedInv.DestroyOk` | kernel/thread.c:345-394 | whichever of the three branches is taken, the block ends on one free list, its generation advances, and no other block changes except by moving between free lists |
| `SchedInv.LeaveOk` | kernel/thread.c:526-533 | an exiting thread leaves its list and gives up its own reference; it is freed iff no other reference is left |
| `SchedPlaces.DestroyPlaces` | kernel/thread.c:345-394 | a destroyed block goes to the end of the global free list iff the core's own has two or more and the lock is won; otherwise to the core's own, which is first emptied into the global one iff it has five or more |
| `SchedSteps.PassChain` | kernel/thread.c:767-834 | the traversal that unlinks, blocks, migrates and destroys threads on the way keeps every list, counter and reference count consistent |
| `SchedSteps.PassPicks` | kernel/thread.c:767-834 | a traversal that is not cut short chooses the first thread in list order that the core may run, and none iff there is none |
| `SchedSteps.PassClears` | kernel/thread.c:767-834 | after a traversal that is not cut short no thread left on the runnable list is asked to block or to exit |
| `SchedSteps.RefillAllChain` | kernel/thread.c:836-852 | a refill gives ten ticks to exactly the ready threads of the list that have none left, and keeps every list and counter |
| `SchedSteps.RetryOnce` | kernel/thread.c:836-852 | after a refill and a second traversal nothing is left to refill, so the retry happens at most once |
| `SchedSteps.ChooseInv` | kernel/thread.c:1203-1224 | the first half of schedule keeps the invariant, whatever the locks it tries do |
| `SchedSteps.AdoptOwnChain` | kernel/thread.c:1033-1057 | taking over the core's migrating threads never exceeds 2048 runnable and blocked threads and leaves room unless it reports full |
| `SchedSteps.PullChain` | kernel/thread.c:1029-1085 | taking over migrating threads keeps all lists consistent, other cores' loads unchanged and this core within its limit |
| `SchedPlaces.PullExact` | kernel/thread.c:1029-1085 | a core below its limit that wins the lock adopts the migrating threads that name it as their own, in list order and up to the limit, and if there is room left the first of the others that may run there; they are put behind its runnable threads in this order, and no other block changes; otherwise nothing happens |
| `SchedSteps.WakeAllChain` | kernel/thread.c:1087-1129 | waking blocked threads keeps all lists consistent and no core's load grows |
| `SchedSteps.WakeSettles` | kernel/thread.c:1087-1129 | afterwards no thread on the blocked list is asked to run or to exit, except the current thread's own exit |
| `SchedOps.PostDrift` | kernel/thread.c:947-1130 | post_context_switch lowers the runnable counter against the list's length by one if the previous thread had left the list it is unlinked from, and by nothing otherwise |
| `SchedOps.PostExact` | kernel/thread.c:947-1130 | post_context_switch keeps the invariant iff the previous thread is on this core's runnable list whenever it is unlinked from there |
| `SchedOps.PostLife` | kernel/thread.c:1017-1130 | post_context_switch never ends the thread that runs on its core |
| `SchedOps.SwitchExact` | kernel/thread.c:1225-1259 | the second half of schedule keeps the invariant iff nothing moved the current thread away in between |
| `SchedOps.AllocOk` | kernel/thread.c:205-265 | a block is found iff the core's or the global free list has one; it is the first of the core's own list, or of the global one if that is empty; it had no reference left, so the refcbug loop is dead |
| `SchedOps.CreateInv` | kernel/thread.c:662-717 | create_thread halts iff no block is free; otherwise the first free block becomes a ready thread on the migrating list with one reference, ten ticks, nothing asked of it, the given core as its own, and forbidden on exactly the other cores, or on none for core -1; no other block changes |
| `SchedOps.GetInv` | kernel/thread.c:414-426 | handing out a reference keeps the invariant and adds one reference to that block only; nothing changes iff the id is out of range or not allocated |
| `SchedOps.PutInv` | kernel/thread.c:434-443 | a put of a reference that was handed out, of any thread, idle ones included, never reaches the debug_halt and frees the block iff the thread has exited and this was the last reference |
| `SchedOps.AskIs` | kernel/thread.c:540-571 | suspend, wake-up and exit requests, to any allocated thread, change the intention and nothing else; their get and put cancel |
| `SchedCurrent.ChooseBetween` | kernel/thread.c:1203-1224 | after the first half of schedule on a core with a current thread of its own, whatever was asked and whatever locks were won, the second half can follow; places and requests of other cores' threads stay; an idle thread must ask to run again, as the timer does |
| `SchedCurrent.ChooseKeepsHere` | kernel/thread.c:812-828 | while every thread is on lists of cores it may run on, the first half of schedule sends no thread to the migrating list: the branch is dead |
| `SchedCurrent.SwitchCurrent` | kernel/thread.c:1225-1259 | the second half of schedule then keeps the invariant, makes the chosen thread current, leaves the core with a current thread of its own and other cores' threads as they were |
| `SchedRuns.ScheduleKeeps` | kernel/thread.c:1203-1259 | a whole schedule keeps the invariant, that every core's current thread is its own idle thread or on its own runnable list, and that every thread is with a core it may run on; only an idle thread must ask to run again |
| `SchedRuns.RunKeepsInv` | kernel/thread.c:205-1259 | every run of creates, gets, puts, requests and the two halves of schedule, interleaved on any cores, in which no suspension disturbs a switch, keeps the invariant and each core's own current thread |
| `SchedRuns.PathKeepsInv` | kernel/thread.c:205-1259 | the same from every world in order, not only from the initial state |
| `SchedRuns.WholeRunKeepsInv` | kernel/thread.c:205-1259 | every run in which schedule is one step keeps the invariant, whoever suspends whom and whenever |
| `SchedRuns.OnePlace` | kernel/thread.c:205-1259 | in every state those runs reach, each non-idle block occurs once on exactly one list, or has exited and is held by references; its reference count is one live reference plus outstanding gets; it returned to a free list once per allocation |
| `SchedRuns.CountersExact` | kernel/thread.c:205-1259 | in every state those runs reach, each counter is its list's length, no core holds more than 2048 threads, and no debug_halt was reached |
| `SchedRuns.OneCore` | kernel/thread.c:1203-1259 | in every state those runs reach, between the halves of schedule or not, no thread is current on two cores |
| `SchedRuns.CoreNumber` | kernel/thread.c:1203-1224 | in every such state the core number stored in the current thread, which the code uses as its own, is the core it runs on |
| `SchedRuns.StaysOnCore` | kernel/thread.c:662-717 | at every point of every such run, a thread made for core k and not freed since is on core d's lists or current on core d only if d is k; one made for core -1 may be anywhere |
| `SchedRuns.EveryRun` | kernel/thread.c:205-1259 | at every point of every such run the counters are exact, nothing has halted, no thread is current twice, and each block is in one place |
| `SchedRaces.SuspendDuringSwitch` | kernel/thread.c:540-552 | for every state: when the current thread blocks and is suspended between the halves of schedule, the runnable counter ends one below the list's length |
| `SchedRaces.DisturbedDrifts` | kernel/thread.c:947-1015 | in every state in order: a suspension of a thread that its core is switching, that has left the core's runnable list and is not asked to run leaves the runnable counter one short at the switch |
| `SchedRaces.SuspendOwnChoice` | kernel/thread.c:540-552 | for every state: when the core has chosen its current thread again and it is suspended before the second half, the switch is safe but the thread runs on while on the blocked list |
| `SchedRaces.BlockedCurrentDrifts` | kernel/thread.c:947-1015 | when such a thread next blocks, undisturbed, the runnable counter ends one below the list's length |
| `SchedRaces.CallExact` | kernel/thread.c:205-1259 | in every state in order, for every call: all counters stay exact over every continuation that disturbs nobody iff the call disturbs nobody |
| `SchedRaces.IdleAsked` | kernel/thread.c:947-1015 | an idle thread that was asked to block and gives up the processor without asking to run leaves the counter one short, whichever thread is next; this is why callers owe that request |
| `SchedRaces.DriftReached` | kernel/thread.c:205-1259 | a run from every initial state with a free block that ends with a runnable counter one short |
| `SchedRaces.WakeExact` | kernel/thread.c:1087-1129 | post_context_switch puts a blocked thread that is asked to run on the runnable list, ready and with nothing asked of it any more, iff it is not the thread the core switches from; that one stays blocked and the request is gone |
| `SchedRaces.WakeUpLost` | kernel/thread.c:559-571 | for every state: when the current thread blocks and is woken up between the halves of schedule, it ends blocked with nothing asking it to run |
| `SchedState.SelectQuiet` | kernel/thread.c:836-860 | when nothing on the list can be chosen, refilled or taken off it, the core runs the only thread of the list, or goes idle if there are none or several |
| `SchedState.ChooseIdle` | kernel/thread.c:759-860 | while of the list only the current thread is marked as running, the first half of schedule lets the core go idle iff the current thread is on the list and is to exit, or the list ends empty |
| `SchedState.SwitchParts` | kernel/thread.c:947-1015 | when a core switches from a thread of its runnable list to another: asked to run, it stays on the list, ready, and with no request but an exit left; else asked to exit, it is gone; else asked to block, it is blocked with no request left; else it is as before; it keeps its slice and its cores |
| `SchedState.YieldPickable` | kernel/thread.c:947-962 | a thread that is switched from while asked to run and not to exit is on its list, ready and with no request left, and with time left it can be chosen at the next traversal |
| `SchedState.SwitchResumes` | kernel/thread.c:1225-1240 | a current thread that carries on is marked as running with nothing asked of it, and gets ten ticks iff it has none left |
| `SchedState.YieldExact` | kernel/thread.c:1203-1259 | over a whole schedule, a running thread that asks only to run again is charged exactly the time it consumed; it becomes ready on its list if another is next, and otherwise runs on, with ten ticks if none are left |
| `SchedState.ExitExact` | kernel/thread.c:1203-1259 | over a whole schedule, a running thread that is only asked to exit is gone, and its core is idle |
| `SchedState.StepMarks` | kernel/thread.c:767-834 | every call keeps each core's current thread or next choice marked as running, and all other threads not, iff it is not a schedule in which the current thread is to exit behind a thread that the core may run |
| `SchedState.RunningExact` | kernel/thread.c:205-1259 | over every run in which nobody is disturbed and no such call is made, a thread on a core's runnable list is marked as running iff it is the core's current thread, whenever the core is outside schedule |
| `SchedState.HiddenWaits` | kernel/thread.c:767-860 | a thread on the list that is marked as running is chosen only when it is alone there |
| `SchedHides.ExitHides` | kernel/thread.c:767-834 | in every state in order, such a schedule ends with the core idle and a thread on its list marked as running |
| `SchedHides.HiddenReached` | kernel/thread.c:205-1259 | a run from every initial state with two free blocks that ends so |
| `Scheduler.Scheduler.constructor` | kernel/thread.c:90-196 | all blocks free in order, all other lists empty, every core on its idle thread |
| `Scheduler.Scheduler.AllocTcb` | kernel/thread.c:205-265 | allocates from the local, else the global free list: succeeds iff one of them has a block; the block was unallocated and unreferenced, leaves its free list, and no other block changes |
| `Scheduler.Scheduler.DestroyTcb` | kernel/thread.c:345-394 | whichever of the three branches is taken, the block ends on one free list with its generation advanced, and other blocks at most move between free lists |
| `Scheduler.Scheduler.GetTcb` | kernel/thread.c:414-426 | refines get and keeps the invariant |
| `Scheduler.Scheduler.PutTcb` | kernel/thread.c:434-443 | refines put for every thread, idle ones included, and keeps the invariant, so no halt |
| `Scheduler.Scheduler.CreateThread` | kernel/thread.c:662-717 | refines create_thread; succeeds iff a block is free; the new thread is the first free block, ready, on the migrating list, with one reference and ten ticks, and forbidden on exactly the cores it is not made for |
| `Scheduler.Scheduler.Request` | kernel/thread.c:540-571 | refines suspend and wake-up for every allocated thread; only the intention changes |
| `Scheduler.Scheduler.VisitThread` | kernel/thread.c:767-834 | treating one runnable thread keeps every list and counter consistent, no core's load grows, no other block changes, and the thread is chosen iff it is the first the core may run |
| `Scheduler.Scheduler.Traverse` | kernel/thread.c:767-834 | the unlinking traversal refines one attempt at a choice |
| `Scheduler.Scheduler.SelectNextThread` | kernel/thread.c:759-860 | the retry loop ends and refines the choice |
| `Scheduler.Scheduler.ScheduleOut` | kernel/thread.c:1203-1224 | refines the first half of schedule and keeps the invariant |
| `Scheduler.Scheduler.PullMigrating` | kernel/thread.c:1029-1085 | both traversals of the migrating list refine their specification |
| `Scheduler.Scheduler.WakeBlocked` | kernel/thread.c:1087-1129 | the traversal of the blocked list refines its specification |
| `Scheduler.Scheduler.PostContextSwitch` | kernel/thread.c:1017-1130 | refines post_context_switch, and keeps the invariant iff the previous thread is on this core's runnable list whenever it is unlinked from there; what becomes of a previous thread on that list: ready, gone, blocked or as before, by what it is asked |
| `Scheduler.Scheduler.ScheduleIn` | kernel/thread.c:1225-1259 | refines the second half of schedule; the invariant survives iff the switch is safe; what becomes of the previous thread, as for post_context_switch |
| `Scheduler.Scheduler.Schedule` | kernel/thread.c:1203-1259 | the whole of schedule: the chosen thread becomes current on this core, other cores' current threads stay, and the invariant and every core's own current thread are kept |
| `PageTable.MaskedIndices` | kernel/map.c:34-69 | masking and shifting an address extracts its four 9-bit indices |
| `PageTable.SamePath` | kernel/map.c:34-69 | two addresses share a page-table entry iff they lie in the same 4 KiB page of the 48-bit space |
| `PageTable.WalkFrom` | kernel/map.c:19-99 | in an unshared tree of tables the walk finds the entry of the path, in a 4 KiB table or in a large page |
| `PageTable.AddTable` | kernel/map.c:36-69 | linking a fresh zeroed table keeps the tables an unshared tree |
| `PageTable.WriteView` | kernel/map.c:80-88 | writing one lowest-level entry changes the translation of that page and of no other |
| `PageTable.PdeView` | kernel/map.c:89-94 | writing a third-level entry to a large page or to zero changes the translation of the 512 pages below it and of no other |
| `PageTable.PageMap.EnsureTable` | kernel/map.c:36-69 | finds or installs the next table without changing any translation; fails only when no page is left |
| `PageTable.PageMap.Map` | kernel/map.c:19-88 | exactly the page of the address gets the new entry, open to user code and uncached iff asked for; on failure nothing is translated differently; inside a large page nothing changes although success is reported |
| `PageTable.PageMap.MapLarge` | kernel/map.c:19-99 | the 512 pages below the entry are mapped to consecutive frames whatever was there, and lie in a large page, open to user code and uncached iff asked for; no other page changes, only pages of the allocator become tables, and three of them are always enough |
| `PageTable.PageMap.Unmap` | kernel/map.c:105-156 | the entry of a 4 KiB page becomes zero, a large page loses all its 512 pages, and every other translation stays |
| `PageTable.PageMap.WalkIsView` | kernel/map.c:19-99 | what the processor's walk finds is the map the other contracts speak of |
| `PageTable.PageMap.AccessIsView` | kernel/map.c:36-99 | user code may use a page iff the page's own entry lets it: no table on the way takes that away |
| `PageTable.MapFlagsAre` | kernel/map.c:80-94 | an entry written by lk_map is present, writable and open to user code, and uncached iff caching was turned off |
| `PageTable.PageMap.GetPa` | kernel/offload/offload_page.c:19-134 | the result is the translation by the tables as the call leaves them: the kernel's own address of a physical address gives that address, shared memory goes by its offset, otherwise it is the frame of the entry, in a large page or not, plus the offset; an unmapped page is given a fresh frame, open to user code and cached, and 0 means an exhausted allocator; no other page changes |
| `PageTable.HighHalfRoundTrip` | kernel/page.h:45-48 | the kernel's own address of a physical address translates back to it, for every memory start; shared memory is translated by its offset |
| `PageTable.PageMap.MapThenGetPa` | kernel/offload/offload_page.c:50-133 | mapping a page and translating any address in it gives the mapped frame plus the offset, or, with success reported all the same, the frame it had in a large page; no other page changes |
| `PageTable.PageMap.MapLargeThenGetPa` | kernel/offload/offload_page.c:100-109 | mapping a large page and translating any address in it gives the mapped frame plus the 21-bit offset, and touches no page outside it |
| `PageTable.SmallInLarge` | kernel/map.c:19-99 | from an empty page table, for every large page and every page in it: mapping the page succeeds and translates nothing differently |
| `Iovec.GetIovec` | kernel/offload/offload_page.c:146-223 | for every translation that is page by page on the buffer: the runs written list the physical address of every byte of the buffer in order, their lengths sum to the count, no two neighbours could be joined, and earlier entries stay |
| `Iovec.FewestRuns` | kernel/offload/offload_page.c:146-223 | no list of runs describes the same bytes with fewer entries |
| `Iovec.TablesArePageWise` | kernel/offload/offload_page.c:19-134 | the translation by page tables that map the buffer is page by page on it, unless it runs across the high-half limit |
| `Iovec.GetIovecOf` | kernel/offload/offload_page.c:146-223 | the runs list in order what get_pa gives for each byte of the buffer, in maximal runs, mapping the pages that were not mapped and keeping those that were; the allocator has four pages for each page of the buffer, or the buffer is mapped |
| `IrqLock.LockCorrect` | kernel/sync.h:70-121 | in every state of every run at most one core is past the ticket wait, turns come in ticket order, re-entry is counted, and the holder's interrupts are off |
| `IrqLock.TurnIsOldest` | kernel/sync.h:70-95 | the core whose ticket matches drew the oldest ticket still out, also when the counters wrap |
| `IrqLock.NextTurn` | kernel/sync.h:70-95 | the holder is the core with the oldest ticket still out; when nobody holds the lock, that core passes the wait with its next step |
| `IrqLock.CanAcquire` | kernel/sync.h:70-121 | no waiting core is locked out: from every state the cores can go on, each holder unlocking in turn, until it has the lock |
| `IrqLock.StepKeepsInv` | kernel/sync.h:70-121 | every single read or write of lock and unlock keeps the lock invariant |
| `IrqLock.EpisodeIrq` | kernel/sync.h:70-121 | from the outermost lock to the end of the matching unlock interrupts are off, and the unlock restores the flag from before the outermost lock |
| `TicketMutex.EnterIsFirst` | kernel/offload/mutex.c:55-65 | the thread whose ticket matches arrived first among those present |
| `TicketMutex.FirstMoves` | kernel/offload/mutex.c:55-75 | while anybody takes part, the thread that arrived first among those present can leave if it holds the mutex, and can enter otherwise |
| `TicketMutex.MutexCorrect` | kernel/offload/mutex.c:32-75 | with at most 2^32 participants at a time, across any number of wraparounds, one holder at a time and in arrival order |
| `TicketMutex.BoundIsExact` | kernel/offload/mutex.c:32-75 | a run with at most 2^32 + 1 participants at a time in which two threads hold the mutex |
| `Ring.AvailIsDistance` | kernel/offload/offload_channel.c:22-25 | the masked 64-bit difference is the number of items, wrapped or not |
| `Ring.SizeIsPowerOfTwo` | kernel/offload/offload_channel.c:22-25 | the mask counts right for all indices only if the size is a power of two |
| `Ring.RingIsFifo` | kernel/offload/offload_channel.c:64-89 | over every interleaving of slot writes, publishes and reads: what was received is a prefix of what was sent, at most size - 1 items are pending, and the slot being written is none of them |
| `Ring.SendsOne` | kernel/offload/offload_channel.c:64-72 | whatever the consumer is at, a send goes through iff fewer than size - 1 items are pending |
| `Ring.ReceivesOne` | kernel/offload/offload_channel.c:81-89 | whatever the producer is at, a receive takes the oldest pending item iff there is one |
| `Ring.CircularQueue.AvailData` | kernel/offload/offload_channel.c:22-25 | the number of items in the queue |
| `Ring.CircularQueue.FreeSpace` | kernel/offload/offload_channel.c:32-35 | the number of items that still fit |
| `Ring.CircularQueue.AddData` | kernel/offload/offload_channel.c:64-72 | appends one item |
| `Ring.CircularQueue.RemoveData` | kernel/offload/offload_channel.c:81-89 | removes and returns the oldest item |
| `ConsoleRpc.ReceiveStep` | kernel/console/console_message.c:59-92 | a caller that takes the reply to its own request gets the result of that request and uses up its one token |
| `ConsoleRpc.StepKeepsGood` | sideloader/offload_console/console_function.c:68-177 | every send that shares no thread id and function type with an outstanding call, every take, execution, answer and receive keeps one token per waiting caller and every finished call right |
| `ConsoleRpc.RpcCorrect` | kernel/console/console_message.c:19-92 | in every state of every run of such calls each waiting caller has exactly one token, others none, and every finished call got the answer to its own request |
| `ConsoleRpc.SharedGoesWrong` | kernel/console/console_message.c:59-92 | from every state with two outstanding calls of equal thread id and function type, one of the callers can be given the other's reply without any further call |
| `ConsoleRpc.SendExact` | kernel/console/console_message.c:19-92 | after a call, whatever happens next without further calls, everybody gets their own reply, iff no outstanding call had its thread id and function type |
| `ConsoleRpc.SwapReached` | kernel/console/console_function.c:126-141 | two callers without a thread, both of id -1, that print: one is given the other's reply |
| `ConsoleRpc.Progress` | sideloader/offload_console/console_proxy.c:37-78 | while a thread waits, the proxy or the thread whose reply is in front can move |
| `ConsoleRpc.CallFinishes` | kernel/console/console_message.c:19-92 | from every state of such runs the proxy and the callers can go on, without further calls, until a given caller has the answer to its own request |

## Left out

- BuddyPool.Pool.AlignBuddyBlock: requests above 2^30 bytes, for which `PAGE_MIN_SIZE << level` leaves the range of `int`.
- BuddyPool.Pool.BlockListIndex: sizes above 2^30 bytes, for the same reason.
- BuddyPool.Pool.Alloc: requests above 2^30 bytes, for the same reason.
- BuddyPool.Pool.Release: addresses outside the pool, for which the code indexes past the block index.
- BuddyPool.Pool.constructor: areas whose metadata takes 2^31 bytes or more, where the `int` product overflows, and areas too small for their own metadata; memory contents are not modelled.
- Shm.ShmTable.constructor: the table is built before the first call instead of lazily inside it.
- Shm.ShmTable.CreateRegion: sizes above 2^30 bytes, as for Alloc.
- Shm.ShmTable.ShmGet: sizes above 2^30 bytes, as for Alloc; permission bits are stored but never checked, as in the code; `IPC_EXCL` is ignored, as in the code.
- Shm.ShmTable.BuddyBlockSize: sizes of 2^30 bytes and above, where the shift leaves the range of `int`.
- DlList.ThreadList.MoveWhere: the body moves items to one other list only; the scheduler's own traversals run over the sequence of items this shows they visit.
- SchedRuns.RunKeepsInv: an idle thread calls `schedule` only asking to run again, as the timer does; `SchedRaces.IdleAsked` shows what happens otherwise.
- SchedState.StepMarks: a call of schedule says what is to become of the caller, as every caller's does.
- Scheduler.Scheduler.CreateThread: stacks and saved registers, so also an exhausted allocator at that point.
- Scheduler.Scheduler.SelectNextThread: a list operation is one step here although other cores may set intention bits during a traversal; fairness is not stated, and of wake-up only what one switch does.
- Scheduler.Scheduler.ScheduleIn: counters are unbounded integers where the code has 64-bit ones, which matters only after a drift below zero.
- PageTable.PageMap.Map: pages from the allocator are taken to be unused and zeroed, as `az_alloc` leaves them; a large page is taken not to cover the page tables themselves, where the stray entry would land in one.
- PageTable.PageMap.MapLarge: the table page that an empty entry is given first and that is then overwritten stays allocated, as in the code.
- PageTable.PageMap.Unmap: requires that the tables on the path exist, as the code does not look.
- Iovec.GetIovec: faults while touching the buffer and a failing `get_pa`; the output array must be large enough, as the code does not look.
- Iovec.GetIovecOf: an allocator that runs out of pages during the calls, where get_pa returns 0.
- Iovec.TablesArePageWise: a buffer across the high-half limit, where one page is translated in two ways.
- Ring.CircularQueue.AddData: the busy wait on a full queue; the interleaved protocol covers it.
- Ring.CircularQueue.RemoveData: the busy wait on an empty queue; the interleaved protocol covers it.
- ConsoleRpc.RpcCorrect: the two queues are bounded sequences with atomic ends; that the ring behaves so under interleaved slot writes is RingIsFifo, and the two are not composed. CONSOLE_EXIT and unknown function types, which the proxy neither consumes nor answers; the contents of writes.
- `shm_mm.c` beyond its block-size report is the allocator of `memory.c` line by line and is not modelled a second time.
- The locks of single thread blocks; so also that `select_next_thread` returns with the lock held of a current thread that is to exit.
- `schedule_to`, `get_cid_of_min_thread` beyond its first branch (which is always taken), `cq_is_full`, signals and time quanta.
- Weak memory ordering, hardware and boot code, ELF loading, system call dispatch, file and network offload, `sys_brk`, statistics and string formatting.
