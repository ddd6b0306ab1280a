# A verified model of FCMalloc

FCMalloc is a segregated-fit allocator. Each thread takes a *heap* from a table; a heap allocates from its
`malloc_` list and keeps, per home core, a list of what it has freed. Per-core *common pools* and the *heap table*
are shared under mutexes. Memory comes from per-core mapped pools that are cut by advancing an offset, and each cut
is carved into chunks of one size class: a 48-byte header and a body.

The project has two halves that meet in the same functions on the *stock* (the sequences of every queue, and the
place of every chunk).

* **The code, as imperative classes.** `SizeClass`, `Bump`, `MmapManagers`, `Carving`, `LinkedLists`, `CommonPools`,
  `LocalHeaps`, `HeapTables` and `FcMallocs` follow the source file by file; `TableViews` lifts the methods of one heap
  to the whole table. Memory has a value at every address: each header field is the value at its first address, and a
  body is one value per address. `heads_`/`lasts_`, `pools_`/`offsets_`, `poolFlags_` and `cntsPerSize` are arrays.
  Method contracts give the exact new sequences of the queues, the exact places of the chunks, the ledger of mapped
  memory, and what may have changed in memory. `FcMallocs.mainInit` builds the whole allocator, and
  `Thread.threadInit`, `malloc`, `realloc`, `free` and `threadTerm` are stated on the whole table: each leaves the
  thread `Steady` with the new stock, and says how many regions it recorded, so that calls chain. `Sessions` is a
  client that runs them one after another.
* **The protocol, as a transition system.** `Protocol.Step` lets any number of threads interleave: acquire, the three
  looks of a request (own lists, common pool under its mutex, carve), release, one pool's share of a flush,
  reallocation, exit with donation, a release without a heap of one's own (borrow, deposit, return), and client
  writes. Its effects are the functions that the classes are proved against: `PutBack`, `TakeLane` with the stage
  functions of `Lanes`, `CarveEffect`, `Donate`, `MoveAll`, `CountRelease`. `Safety.StepKeepsInv` proves the invariant
  for every step, `Runs`, `Outcomes` and `Backlogs` draw the conclusions for every run, and `Progress` shows that no call
  gets stuck.
  `Requests.RequestComposes` and `FreeComposes` prove that a call whose steps are not interrupted is the one change of
  the stock that `Thread.malloc`, `realloc` or `free` is proved to make. The contracts of these methods
  also bound the links and bodies they change by the queues of the steps (`Thread.Reached`), and the contract of
  `threadTerm` is the effect of the protocol's `Exit`.

What the code needs, and the model therefore carries as hypotheses: forced extension (`forceMmapFlag_`) or a request
that fits; fewer than 10000 recorded regions (each request records at most one); a page size that is a multiple of 16 and below 2^32; a batch table whose
carves do not wrap 64 bits and that disables classes above 62 (`Carving.TableOk`, proved of the default table);
`mmap` returning fresh page-aligned regions; `__builtin_clz(0) == 32`; clients that release and reallocate only live
blocks and that write only inside them.

Properties that turned out to hold only in part are proved with their exact condition:

* The class of a carved body is the class of the request exactly for sizes up to 2^62 and for 2^63
  (`SizeClass.ClassRoundTrip`); bodies are as large as the request exactly up to 2^63, because the rounding wraps to
  0 beyond (`SizeClass.BodyFits`).
* Without forced extension a request that does not fit still advances the offset past the pool
  (src/mmap_manager.cpp:136-157); the allocator's invariant survives exactly when the request fits
  (`Bump.AdvanceKeepsInv`, witness `Bump.OverrunWithoutExtension`).
* The touch loop has a 32-bit counter and reaches its exit exactly for pools below 2^32 bytes
  (`Bump.TouchLoopTerminates`), so initial pools of 4 GB or more never finish their first touch (witness
  `FcMallocs.TouchNeverEnds`, a main pool of 4096 MB).
* Carved chunks lie inside the requested bytes exactly when `totalSize * n` and its alignment do not wrap
  (`Carving.ChunksFitIffNoWrap`).

Where code and documentation differ, the model follows the code. The repository's README gives `FCM_MAIN_MEM_MAX` and
`FCM_SUB_MEM_MAX` in GB and the second one per thread; src/fcmalloc.cpp:68-78 multiplies both by one megabyte and
src/mmap_manager.cpp:54 divides the second among the cores. The release of a heap hands a free list on only to heaps in
a slot with another index, on every core (src/global_memory_manager.cpp:106-108), not just to heaps other than the
released one.

## Model

| member | source | states |
|---|---|---|
| `SizeClass.RoundupPowerOf2` | src/misc.hpp:58-68 | the seven smearing steps on 64-bit words compute the round-up, with its wrap-around at 0 and above 2^63 |
| `SizeClass.RoundUpIsLeast` | src/misc.hpp:58-68 | from 1 to 2^63 the round-up is the least power of two at or above its argument |
| `SizeClass.LogarithmMeaning` | src/misc.hpp:70-101 | below 2^63 the clz form is the ceiling of the base-2 logarithm, and at least 3, also at 2^32 where clz sees 0 |
| `SizeClass.DoublingLogarithm2` | src/misc.hpp:80-90 | the disabled doubling loop terminates and agrees with the clz form on every input |
| `SizeClass.ClassRoundTrip` | src/misc.hpp:58-101 | rounding first or not gives the same class exactly for sizes up to 2^62 and for 2^63 |
| `SizeClass.BodyIsClassPower` | src/misc.hpp:58-101 | the body of a request is 2 to the power of its class exactly for sizes below 2^63 |
| `SizeClass.BodyFits` | src/memory_linked_list.cpp:56-58 | a carved body has room for its request exactly for sizes up to 2^63 |
| `Bump.AdvanceKeepsInv` | src/mmap_manager.cpp:136-157 | pools and grants stay disjoint, mapped and inside exactly when the request fits the pool |
| `Bump.OverrunWithoutExtension` | src/mmap_manager.cpp:136-157 | with the pools of one core and the main thread as the start leaves them, a request runs past its pool into the other one when extension is disabled |
| `Bump.ExtensionFits` | src/mmap_manager.cpp:138-152 | an extension always has room, at least 64 MB, and less than a page more than the larger of request and 64 MB, so the failure branch after it is never taken |
| `Bump.RequestServes` | src/mmap_manager.cpp:122-160 | a request is granted in its slot behind what the pool handed out before, or at the start of a new region when it does not fit; the other pools stay |
| `Bump.RequestKeepsPaging` | src/mmap_manager.cpp:136-159 | offsets and handed-out addresses stay page multiples when requests are |
| `Bump.RunIsSafe` | src/mmap_manager.cpp:122-160 | over any sequence of requests all ranges handed out are mapped and pairwise disjoint, one per request and of its size |
| `Bump.TouchLoopTerminates` | src/mmap_manager.cpp:107-120 | the touch loop's 32-bit counter reaches the end exactly for pools below 2^32 |
| `MmapManagers.MmapManager.Init` | src/mmap_manager.cpp:32-84 | one page-rounded untouched pool per core and one for the main thread, disjoint, with the ledger equal to the recorded sizes |
| `MmapManagers.MmapManager.ExtendBuffer` | src/mmap_manager.cpp:86-105 | a fresh region replaces the pool, the ledger still equals the sums of the recorded sizes, and one more region is recorded |
| `MmapManagers.MmapManager.FirstTouch` | src/mmap_manager.cpp:107-120 | in the main thread's own pool, or that of the core, the first byte of every page becomes 0, and no other byte changes |
| `MmapManagers.MmapManager.Malloc` | src/mmap_manager.cpp:122-160 | the main thread's requests come from its own pool, others from their core's, and no other pool changes; first use, and only that, clears the first byte of each page; the range follows those granted before or starts a new region of at least 64 MB; a region is recorded exactly when extension is forced and the request does not fit; the invariant survives exactly when extension is forced or the request fits |
| `Carving.ChunksFitIffNoWrap` | src/memory_linked_list.cpp:63-74 | n chunks lie inside the requested bytes exactly when the 64-bit products and sums do not wrap, and then less than a page is requested beyond them |
| `Carving.CarveRange` | src/memory_linked_list.cpp:81-102 | exactly n headers at equal distances, each with signature, core, number of cores, body size, next and body address in its six words; nothing outside the range is written |
| `Carving.AllocateMemoryLinkedList` | src/memory_linked_list.cpp:50-103 | n new, distinct, well-formed chunks inside one fresh grant; no word of a chunk known before changes |
| `Carving.CarveMemory` | src/memory_linked_list.cpp:83-99 | carving into a fresh grant keeps all chunks apart, aligned, covered by grants and with intact headers |
| `Carving.DefaultTableOk` | src/memory_size_manager.cpp:44-85 | no carve with the default table wraps, for every page size below 2^32 |
| `SizeTables.MemorySizeManager.setDefault` | src/memory_size_manager.cpp:44-85 | afterwards each class has its built-in batch size, and those without one have 0 |
| `SizeTables.DefaultServes` | src/memory_size_manager.cpp:44-85 | the default table has a batch for a request's class exactly for sizes up to 2^34 |
| `LinkedLists.MemoryLinkedListManager.Init` | src/memory_linked_list_manager.hpp:27-34 | the pointers represent 65 empty sequences |
| `LinkedLists.MemoryLinkedListManager.append` | src/memory_linked_list_manager.cpp:20-55 | a linked segment is concatenated to one class; only next words of chunks of this queue or unqueued ones change |
| `LinkedLists.MemoryLinkedListManager.pop` | src/memory_linked_list_manager.cpp:94-117 | the head leaves its class and is unlinked, or the class is empty and nothing but errno changes |
| `LinkedLists.MemoryLinkedListManager.push` | src/memory_linked_list_manager.cpp:139-142 | a live chunk goes to the end of its class |
| `LinkedLists.MemoryLinkedListManager.Malloc` | src/memory_linked_list_manager.cpp:119-137 | the body of the first chunk of the request's class, with room for the request, or null |
| `LinkedLists.MemoryLinkedListManager.Free` | src/memory_linked_list_manager.cpp:144-159 | the chunk in front of the body goes to the end of the class of its recorded size; null changes nothing |
| `LinkedLists.MemoryLinkedListManager.Allocate` | src/memory_linked_list_manager.cpp:57-62 | the carved chunks follow those of the request's class, and no live chunk changes |
| `LinkedLists.MemoryLinkedListManager.Swap` | src/memory_linked_list_manager.hpp:44-58 | exactly one class of two managers changes hands |
| `LinkedLists.MemoryLinkedListManager.Join` | src/memory_linked_list_manager.cpp:161-170 | class by class the other manager's sequence is appended and left empty; every chunk moves with its class |
| `LinkedLists.GetLength` | src/memory_linked_list.hpp:26-37 | the walk to the last node counts the whole sequence |
| `LinkedLists.GetAllFreeLength` | src/memory_linked_list_manager.hpp:62-71 | the number of chunks placed in the manager, in 32 bits |
| `Lanes.FourStagesServeFirst` | src/local_memory_manager.cpp:40-68 | the four stages serve the head of the first nonempty source, move exactly one batch from the pool, or all of it if there is less, carve only when all sources are empty, and leave the stated sequences |
| `Lanes.FourStagesConserve` | src/local_memory_manager.cpp:40-68 | no stage loses or duplicates a chunk |
| `CommonPools.CommonMemoryPool.Malloc` | src/common_memory_pool.cpp:38-62 | the pool loses exactly one batch from its front, or all chunks if it has fewer; they follow those of the list, in order, and the head of the list is served |
| `CommonPools.CommonMemoryPool.Free` | src/common_memory_pool.cpp:64-70 | the pool has all chunks of the list behind its own and the list is empty |
| `LocalHeaps.LocalMemoryManager.Malloc` | src/local_memory_manager.cpp:40-68 | the served chunk and the exact sequences of all three queues are those of the four stages; memory is carved only if needed; null means ENOMEM; nothing outside these queues changes |
| `LocalHeaps.LocalMemoryManager.swap` | src/local_memory_manager.cpp:34-38 | one class of `malloc_` and of the heap's own free list change places |
| `LocalHeaps.LocalMemoryManager.Realloc` | src/local_memory_manager.cpp:70-92 | same pointer and nothing changed when the size fits; else the new block has room, starts with every byte of the old body, and the old chunk is last on its home core's list; on failure the old block stays; no live body changes; null is a request; of all other chunks only links of the near lists and of that list change |
| `LocalHeaps.LocalMemoryManager.Free` | src/local_memory_manager.cpp:94-107 | the chunk goes to the end of its class of the list for its home core |
| `LocalHeaps.LocalMemoryManager.AllFreeToCommonMemoryPool` | src/local_memory_manager.cpp:109-120 | every remote list is behind the pool of its core and empty; the own lists and the own core's pool are unchanged |
| `LocalHeaps.LocalMemoryManager.Join` | src/local_memory_manager.cpp:122-126 | another heap's list for this heap's core is behind this heap's `malloc_` and empty |
| `LocalHeaps.Memcpy` | src/local_memory_manager.cpp:85 | every byte of the source block is in the target and no other address changed |
| `Stocks.FlushReads` | src/local_memory_manager.cpp:109-120 | every queue after a flush, in closed form |
| `Donations.HeirIsLowest` | src/global_memory_manager.cpp:104-112 | the heap that inherits is the lowest idle slot with another index, and there is one exactly if such a slot is idle |
| `Donations.DonateReads` | src/global_memory_manager.cpp:95-121 | every queue after a release of a heap, in closed form |
| `HeapLayouts.RolesBijective` | src/global_memory_manager.cpp:36-59 | each of the coreN * (coreN + 1) * poolN queue managers has one role of one heap, and every role has one |
| `HeapLayouts.RotationVisitsOnce` | src/global_memory_manager.cpp:66-77 | a rotating scan looks at every slot exactly once, in rising order from its start with a wrap to 0 |
| `HeapTables.BuildHeaps` | src/global_memory_manager.cpp:44-59 | the nested loops give each heap the slot of its position and the queue managers of its own block |
| `HeapTables.GlobalMemoryManager.Init` | src/global_memory_manager.cpp:23-60 | all heaps idle, all queues empty, no two queue managers sharing storage |
| `HeapTables.GlobalMemoryManager.AllocLocalMemoryManager` | src/global_memory_manager.cpp:62-77 | null exactly when all slots of the core are busy; else the first idle heap in rotation, whose flag alone is set |
| `HeapTables.GlobalMemoryManager.Locate` | src/global_memory_manager.cpp:98-103 | the scan finds a heap exactly when its flag is set |
| `HeapTables.GlobalMemoryManager.FreeLocalMemoryManager` | src/global_memory_manager.cpp:95-121 | the loops over cores and slots make the donation, exactly this heap's flag is cleared, and no live body changes |
| `HeapTables.GlobalMemoryManager.Free` | src/global_memory_manager.cpp:123-129 | an idle heap of the chunk's core queues it and is given back, with the flags as before |
| `Requests.PlacesDetermined` | src/local_memory_manager.cpp:40-92 | the queues an operation works on and the live set leave only one possibility for the place of every chunk |
| `Requests.ServedSound` | src/local_memory_manager.cpp:40-68 | after a request each chunk is still live, or listed once in a queue of its core and class; exactly the served chunk became live; other queues keep their chunks |
| `Requests.RegrownSound` | src/local_memory_manager.cpp:70-92 | the same after a growing reallocation, where the new block is live instead of the old one, or nothing changed hands |
| `Requests.RequestComposes` | src/local_memory_manager.cpp:40-92 | the protocol's steps of a request or a growing reallocation, with no other thread's step between them, add up to the effect of the method, with exactly one batch carved when no queue had a chunk |
| `Requests.FreeComposes` | src/fcmalloc.cpp:128-142 | a release and the rounds of the flush it begins, uninterrupted, add up to the effect of `free` on stock, counters and links |
| `FcMallocs.mainInit` | src/fcmalloc.cpp:54-82 | the allocator, all of it new, starts with an empty, sound stock and idle heaps; the main thread has a pool of the configured megabytes and each core an equal share of the others, in whole pages, untouched and unused; extension is forced exactly as configured; it can serve when extension is forced and the pools are below 4 GB |
| `FcMallocs.TouchNeverEnds` | src/mmap_manager.cpp:107-120 | with `FCM_MAIN_MEM_MAX` 4096 and pages of 4096 bytes the main pool has 2^32 bytes and the counter never gets there |
| `TableViews.HeapIsReady` | src/global_memory_manager.cpp:47-58 | every heap of the table meets the preconditions of every heap method |
| `FcMallocs.Thread.threadInit` | src/fcmalloc.cpp:88-94 | the thread gets an idle heap of its core, or none exactly when all are busy; the stock and the readiness to serve stay |
| `FcMallocs.Thread.threadTerm` | src/fcmalloc.cpp:95-101 | the heap's free lists are handed on, soundly, with only links of these lists and of idle heaps changed, and its flag is cleared; without a heap nothing happens; no live body changes |
| `FcMallocs.Thread.malloc` | src/fcmalloc.cpp:103-113 | a new block, exactly when the size is positive and the table serves its class; the whole table's stock is then the served one and sound, after exactly one batch was carved if and only if no queue had a chunk; a region is recorded exactly when that carve did not fit; no live body changes |
| `FcMallocs.ServedMeans` | src/local_memory_manager.cpp:40-68 | over a sound stock whose chunks are all of served classes, the four stages find a chunk exactly if the request's class is served |
| `FcMallocs.Thread.realloc` | src/fcmalloc.cpp:164-176 | a block that fits and everything else stay; a growing one is traded for a new block with the old contents exactly when the table serves the new class, and else stays; the whole table's stock is the regrown one and sound; null is a request |
| `FcMallocs.Thread.free` | src/fcmalloc.cpp:115-143 | chunk queued for its home core and counted in its class; only when that makes the main thread's count exceed the batch size are all counts zeroed and the remote lists flushed; without a heap a borrowed one takes the chunk; the stock stays sound |
| `Sessions.TakeTwo` | src/fcmalloc.cpp:103-113 | two requests in a row by any thread with a heap: both are served when their classes are, with blocks that do not overlap |
| `Sessions.TwoBlocks` | src/fcmalloc.cpp:54-143 | from the start of the allocator through two requests and a release to the end of the thread: both requests up to 2^34 bytes are served, and at the end exactly the unreleased block is live and all heaps are idle |
| `Safety.StepKeepsInv` | src/fcmalloc.cpp:88-176 | every step of every thread keeps the invariant: tracked queues, home cores and classes, separate chunks, intact headers, exclusive heaps, claimed blocks live |
| `Safety.InitInv` | src/fcmalloc.cpp:54-82 | the initial state satisfies it |
| `Effects.StepEffect` | src/local_memory_manager.cpp:40-126 | a step changes only the queues it works on, writes only bodies of blocks it just made live, makes at most one block live, with room for the request, and takes only released or moved blocks out of use |
| `Runs.RunKeepsInv` | src/fcmalloc.cpp:88-176 | every reachable state of every interleaving satisfies the invariant |
| `Runs.ChunkPartition` | src/local_memory_manager.cpp:40-126 | every carved chunk is live and in no queue, or at exactly one position of one queue, of its home core and of its size class |
| `Runs.NothingIsLost` | src/local_memory_manager.cpp:40-126 | a carved chunk stays known for ever with its core and size |
| `Runs.DisabledClassesStayEmpty` | src/memory_size_manager.cpp:44-85 | a class with table entry 0 never has a chunk |
| `Runs.ChunksNeverOverlap` | src/memory_linked_list.cpp:50-103 | in every reachable state chunks are pairwise disjoint, 16-aligned, inside one mapped region, and have their own header 48 bytes before the body |
| `Runs.ContentsSurvive` | src/local_memory_manager.cpp:40-126 | while a block is live only its client changes its contents, over any stretch of any run |
| `Runs.QueuesUndisturbed` | src/common_memory_pool.cpp:38-70 | a common pool keeps its sequences and links over every step that does not hold its mutex, and so does every other queue a step is not locked for |
| `Runs.OthersUndisturbed` | src/global_memory_manager.cpp:62-121 | a heap has one owner, and a step of another thread leaves its queues, their links and its owner's phase as they are |
| `Progress.CallsStart` | src/fcmalloc.cpp:88-176 | in every state that satisfies the invariant a thread can make its first call, request any size, release or reallocate any live block no other call holds, release one through an idle heap when it has none, and end, with words that meet all conditions of the step |
| `Progress.CallsGoOn` | src/local_memory_manager.cpp:40-68 | and every call in progress has its next step |
| `Outcomes.RequestDecided` | src/local_memory_manager.cpp:40-68 | whatever others do meanwhile, a request gets a block exactly when the table serves its class; with the default table exactly for sizes 1 to 2^34 |
| `Outcomes.ReallocPreserves` | src/local_memory_manager.cpp:70-92 | whatever others do meanwhile, a growing reallocation yields every byte from when it was called, or leaves the old block live and unchanged |
| `Outcomes.ExitDonates` | src/global_memory_manager.cpp:95-121 | at thread exit each free list goes to the lowest idle heap of its core in another slot, and exactly the leaving heap's flag is cleared |
| `Backlogs.BacklogIsTally` | src/fcmalloc.cpp:115-143 | for every thread and class the remote chunks in its heap are exactly those of the releases and growing reallocations among the run's events since its last flush, and those present at acquisition |
| `Backlogs.CountersAreReleases` | src/fcmalloc.cpp:131-142 | in every run the counter of a class is the number of the thread's releases of that class since its last flush, and at most the batch size for the main thread |
| `Backlogs.OnlyMainFlushes` | src/fcmalloc.cpp:138 | in no reachable state is a thread other than the main one flushing |
| `Backlogs.WorkersCount` | src/fcmalloc.cpp:131-142 | in every run a release by another thread leaves it ready, with one more release counted in that class and nothing cleared |
| `Backlogs.MainCounts` | src/fcmalloc.cpp:131-142 | in every run a release by the main thread that makes its count exceed the batch size begins a flush with all counters at 0, and any other is only counted |
| `Backlogs.FlushBeyondBatch` | src/fcmalloc.cpp:131-142 | in every run a release by the main thread begins a flush, and clears all counters, exactly when it has already released one batch of that class since its last flush |
| `Backlogs.RemoteBacklogBounded` | src/fcmalloc.cpp:131-142 | a working thread's remote chunks of a class are its remote releases, at most the batch size for the main thread, plus its remote growing reallocations since the last flush, plus what it found; a flush leaves the lists it has passed empty |

## Left out

- `mmap`, `pthread`, `getenv`, `sched_getcpu`, `sysconf`: the kernel is a small class that hands out fresh regions; core numbers, sizes and flags are parameters; mutexes appear as atomic steps.
- Concurrent updates of `extendOffset_`, which is shared but guarded per core (src/mmap_manager.cpp:102-104): the ledger is proved for one caller at a time, and a carve is one atomic step of the protocol.
- The copy and the release that end a growing reallocation belong, in the protocol, to the step that found the new block.
- Protocol.Step: a thread acquires a heap once and has none after its exit; calls through a null heap (a request after all heaps were busy, a release when no heap of the core is idle) would dereference null and are not steps.
- Protocol.Step: which idle heap an acquisition finds is left open, so every rotation order of the scans is covered.
- A batch table from a file (`readSizeListFile`) is an arbitrary table; negative entries are not modelled.
- FcMallocs.Thread.free: counters are unbounded, so the overflow of the 32-bit counters of threads that never flush is not modelled.
- Memory is one value per address: a header field is not split into its eight bytes, and nothing depends on how it is. Bodies are copied and compared at every address, and clients write one address at a time.
- Addresses, pool sizes and ledger entries are unbounded; the 64-bit wrap-around is modelled where sizes are rounded, multiplied, aligned and subtracted.
- The pointers `malloc_`, `free_`, `poolsPerCore_` and `managerPools_` are fixed when an object is built, since the source sets them once during start-up.
- `popN` and `FreeLocalMemoryManagerOtherNodeMallocLinkedList` are never called.
- `calloc`, `LocalMemoryManager::GetAllFreeLength`, `MmapManager::Term`, static initialisation order, console and log output, and the code under DEBUG would add only easy members.
- Carving.AllocateMemoryLinkedList: request sizes above 2^62 up to 2^63 with a positive count are excluded, because a body of 2^63 bytes is not the power of its request's class (`SizeClass.BodyIsClassPower`); `Carving.TableOk` requires the table to disable classes above 62, as the default table does.
- LinkedLists.MemoryLinkedListManager.Allocate: the same sizes are excluded; between 2^62 and 2^63 a chunk would be queued in another class than the one its recorded size is released to (`SizeClass.ClassRoundTrip`).
