# RT-Thread 3.1.0 kernel: a verified model

This project models the stateful core of the RT-Thread kernel and proves what it keeps: the three
heap allocators, the hard timers, the scheduler with its thread states, the five IPC objects, the
list primitives below them, and the number formatting of the console.

Each component comes in two layers.

- A *specification*: the state as plain values (a sequence of blocks, a queue of timers, lists of
  threads) and each operation as a function on it.  The properties are proved here: invariants over
  whole runs, what a call adds or takes, when it fails, what one call undoes.
- An *imperative class* with the fields the C code has, links as next/prev maps and bitmaps as words.
  Its methods make the source's loads, stores, branches and loops in the source's order, and their
  `ensures` say that the new state is the specification's function of the old one.

| file | models |
|---|---|
| RtList.dfy | circular doubly linked lists (rtservice.h) |
| Blocks.dfy, Layouts.dfy | a heap as a tiling by used and free blocks, shared by both pointer heaps |
| Memory.dfy | rt_memcpy |
| MemHeapSpec.dfy, MemHeap.dfy | memheap.c: address ring and free ring, grow and shrink in place |
| SmallMemSpec.dfy, SmallMem.dfy | mem.c: first fit with the `lfree` hint |
| Pages.dfy, SlabSpec.dfy, Slab.dfy, SlabUse.dfy, SlabAlign.dfy, SlabAnswers.dfy | slab.c: page allocator, zones and chunks, used_mem, alignment, what a caller gets |
| TimerSpec.dfy, TimerOrder.dfy, SkipList.dfy, Timer.dfy | timer.c and the timer part of clock.c, for any number of skip list rows |
| Bits.dfy, Threads.dfy, SchedSpec.dfy, SchedEffects.dfy, Flight.dfy, Scheduler.dfy | scheduler.c, thread.c, __rt_ffs, the wait lists of ipc.c |
| Ipc.dfy, Waiters.dfy, Semaphore.dfy, Mutex.dfy, Event.dfy, Mailbox.dfy, MessageQueue.dfy | ipc.c |
| Printf.dfy | print_number, divide and skip_atoi of kservice.c |

## Modelling decisions

- Pointers are integers: offsets into the heap, thread and timer numbers, page numbers.  NULL is a
  negative number, and list heads are negative too.  Header words and links are maps from addresses,
  so that a load through a pointer that was never written does not verify.  The data bytes of a heap
  are kept apart from headers and links.
- 32-bit unsigned arithmetic is written out where it can wrap: ticks, RT_ALIGN, the semaphore's
  16-bit value, the mutex's 8-bit hold, the time slice counter, `int` in skip_atoi.
- An interrupt-disabled section is one step.  What other threads and interrupts do in between is any
  sequence of the other steps: the run lemmas quantify over all interleavings.  rt_schedule after an
  IPC call is a step of its own, so a method that would end in it returns whether it follows, and an
  interrupt handler may use the object before it runs: only a call that waits needs a current thread
  that has not suspended itself.
- rt_thread_resume is one step where its caller has disabled interrupts, as the calls of ipc.c have;
  otherwise `Unlink` and `Resume` are its two sections, and Flight.dfy adds its test of the thread's
  state, which stands before both.  `Unlink` is also what the section of rt_thread_suspend does when
  an interrupt has suspended the thread since its own test, and `Prepare` the part of
  rt_thread_startup before it resumes the thread.
- Wait lists are further lists of the scheduler's state, so that a thread's list membership, its
  state and its priority are one invariant over scheduler and IPC objects.
- A condition such as `SlabOk` or `MutexOk` in a `requires` is an invariant that the constructor
  establishes and every call keeps.

## Where the code and what is said of it differ

- mem.c:132 calls `lfree` the lowest free block.  A block shrunk in place can leave a lower one, and
  rt_malloc then misses it.  `SmallMemSpec.ShrinkLowestIff` gives the exact condition,
  `SmallMemSpec.ShrinkCanHideRoom` a heap in which it happens, and `SmallMemSpec.StepKeeps` says that
  no other call ever loses the property.
- mem.c:307: the strict bound of the search misses one kind of fitting block
  (`SmallMemSpec.BoundSkipsExactLast`).  In a heap with less than MIN_SIZE_ALIGNED bytes between its
  headers the bound wraps and the search never ends (`SmallMemSpec.SearchEndsIff`).
- mem.c:299 says that every block has MIN_SIZE_ALIGNED bytes at least.  rt_realloc does not round up and
  can cut a block to fewer (`SmallMemSpec.ShrinkCanCutShort`); `SmallMemSpec.StepCrumbsIff` says that no
  other call does.
- slab.c:163 asks that all power-of-2 sized allocations be aligned to their size.  Zones and large
  allocations are aligned to pages only.  `SlabAlign.PowerAlignedIff` says by the page a request is
  served from, known before the call (`SlabAlign.ServedFrom`), when it is met; `SlabAlign.PowerMayMiss`
  gives a fresh heap in which it is not, wherever that heap begins.
- slab.c:164 says that malloc(0) returns a pointer; the code returns RT_NULL (slab.c:496), and so
  does the model.
- timer.c:540-544: a one-shot timer that its own callback starts again stays linked without its
  ACTIVATED flag, so that rt_timer_stop refuses to stop it.  `TimerSpec.FiredInStep` says exactly when
  one expiry does this, `TimerOrder.InStepIff` for which sets of callbacks no run ever does, and
  `TimerOrder.Parts` gives a run for every other set.
- kservice.c:555-572: base 8 is printed with hexadecimal digits (`Printf.OctalIff`).
- thread.c:711: rt_thread_resume tests the thread's state before it disables interrupts, and enables
  them between its sections.  A second resume of the same thread in that time breaks the ready lists;
  `Flight.SafeIff` says that nothing else does.
- ipc.c:471: the semaphore's value wraps at 65536 (`Semaphore.BookedKeeps` says exactly when units
  are lost).
- ipc.c:694: the mutex's hold wraps at 256, after which a mutex with an owner counts as not held.
  `Mutex.TriedKeeps` says that no other take breaks the invariant, `Mutex.HoldLost` what this one leaves,
  `Mutex.HoldReached` that any thread can get there.

## Model

| member | source | states |
|---|---|---|
| `RtList.InsertAfterInRing` | base_kernel/rt-thread/include/rtservice.h:72-79 | Inserting a node after the i-th node of a circular list puts it at position i + 1; following next and prev shows no other change. |
| `RtList.InsertBeforeHead` | base_kernel/rt-thread/include/rtservice.h:87-94 | Inserting before the list head appends. |
| `RtList.UnlinkFromRing` | base_kernel/rt-thread/include/rtservice.h:100-103 | The two stores that bypass a node leave a ring without it. |
| `RtList.RemoveFromRing` | base_kernel/rt-thread/include/rtservice.h:100-106 | rt_list_remove takes exactly that node out and leaves it linked to itself. |
| `RtList.RingFrame` | base_kernel/rt-thread/include/rtservice.h:61-106 | A ring survives any change of the links of nodes that are not on it, so operations on one list cannot disturb another. |
| `RtList.RingUnique` | base_kernel/rt-thread/include/rtservice.h:61-106 | The links determine the list: two rings over the same links from the same head are equal. |
| `RtList.ListMemory.Init` | base_kernel/rt-thread/include/rtservice.h:61-64 | A node becomes an empty list; lists that do not hold it stay as they were. |
| `RtList.ListMemory.InsertAfter` | base_kernel/rt-thread/include/rtservice.h:72-79 | The four stores, in the source's order, insert behind node i. |
| `RtList.ListMemory.InsertBefore` | base_kernel/rt-thread/include/rtservice.h:87-94 | The four stores append when the node is the head. |
| `RtList.ListMemory.Remove` | base_kernel/rt-thread/include/rtservice.h:100-106 | The node leaves its list and is a list of its own. |
| `RtList.ListMemory.Len` | base_kernel/rt-thread/include/rtservice.h:121-132 | The walk counts the nodes besides the head and ends. |
| `Blocks.BlocksDisjoint` | base_kernel/rt-thread/src/memheap.c:60-605 | No two blocks of a tiling overlap and all lie in the heap. |
| `Blocks.LayoutFromLive` | base_kernel/rt-thread/src/memheap.c:148-605 | The live blocks alone determine the whole layout, because no two free blocks are adjacent. |
| `Layouts.FreedLayout` | base_kernel/rt-thread/src/mem.c:157-195 | Merging a released block with its free neighbours keeps a tiling without adjacent free blocks. |
| `Layouts.FreedBlocksGive` | base_kernel/rt-thread/src/mem.c:157-195 | The merge removes just that block from the live ones and exactly the merged neighbours from the free ones. |
| `Layouts.ResizedLayout` | base_kernel/rt-thread/src/memheap.c:344-501 | Growing into, or shrinking away from, the following free block keeps the layout invariant. |
| `Layouts.ResizedLive` | base_kernel/rt-thread/src/memheap.c:344-501 | An in-place resize changes the length of that one live block and nothing else. |
| `Layouts.FreedAtLeast` | base_kernel/rt-thread/src/mem.c:157-195 | Merging keeps every block but the last at least as long as any bound that held before. |
| `Layouts.ResizedAtLeast` | base_kernel/rt-thread/src/mem.c:472-498 | So does an in-place resize that leaves that much over, if and only if it is to that length at least. |
| `MemHeapSpec.RoundedCovers` | base_kernel/rt-thread/src/memheap.c:157-160 | Rounding a request gives at least the request exactly when the 32-bit RT_ALIGN does not wrap, and rounding again changes nothing. |
| `MemHeapSpec.InitialPoolWellFormed` | base_kernel/rt-thread/src/memheap.c:60-131 | The fresh pool satisfies the invariant, with all but two headers available. |
| `MemHeapSpec.AllocKeeps` | base_kernel/rt-thread/src/memheap.c:148-291 | Allocation keeps: the blocks tile the pool up to the used tail, no two free blocks are adjacent, the free ring holds exactly the free blocks. |
| `MemHeapSpec.AllocGives` | base_kernel/rt-thread/src/memheap.c:148-291 | A successful allocation adds exactly one live block, with at least the requested bytes and less than one header and one minimal block more; available_size falls by that block with its header when it was split off, and by its bytes alone when it was handed out whole. |
| `MemHeapSpec.AllocIsFresh` | base_kernel/rt-thread/src/memheap.c:148-291 | The returned address is not NULL, is no live block's and not the tail's. |
| `MemHeapSpec.AllocFailsIff` | base_kernel/rt-thread/src/memheap.c:165-193 | NULL, with the pool as it was, if and only if available_size does not exceed the request or no free block has room. |
| `MemHeapSpec.AllocFirstFit` | base_kernel/rt-thread/src/memheap.c:180-246 | The block handed out is the first on the free ring with room; what is split off it goes to the front of the ring, and the ring loses nothing else. |
| `MemHeapSpec.FreeKeeps` | base_kernel/rt-thread/src/memheap.c:505-605 | Release keeps the invariant and ends exactly that live block. |
| `MemHeapSpec.FreeGivesBack` | base_kernel/rt-thread/src/memheap.c:545-588 | available_size grows by the block's bytes and one header for each merge. |
| `MemHeapSpec.FreedToFront` | base_kernel/rt-thread/src/memheap.c:518-604 | A released block heads the free ring, unless a free block lies right before it: then the ring gets no new entry. |
| `MemHeapSpec.FreeUndoesAlloc` | base_kernel/rt-thread/src/memheap.c:148-605 | Releasing what was just allocated restores the very same tiling and available_size. |
| `MemHeapSpec.ResizeKeeps` | base_kernel/rt-thread/src/memheap.c:344-501 | In-place growing and shrinking keep the invariant. |
| `MemHeapSpec.ResizeGives` | base_kernel/rt-thread/src/memheap.c:344-501 | They change only that block's length and adjust available_size exactly. |
| `MemHeapSpec.StillAllocated` | base_kernel/rt-thread/src/memheap.c:148-291 | An allocation leaves every other live block where it was and as long as it was. |
| `MemHeapSpec.ReallocKeeps` | base_kernel/rt-thread/src/memheap.c:294-502 | Reallocation keeps the invariant on each of its four ways. |
| `MemHeapSpec.MoveGives` | base_kernel/rt-thread/src/memheap.c:418-426 | Allocate, copy, release exchanges the one block for a new one and touches no other. |
| `MemHeapSpec.ReallocGives` | base_kernel/rt-thread/src/memheap.c:294-502 | Unless refused, reallocation exchanges that one block for one with at least the requested bytes; every other live block stays. |
| `MemHeapSpec.ReallocAnswers` | base_kernel/rt-thread/src/memheap.c:320-502 | Told by the blocks alone: NULL if and only if the block must grow, the block behind it is not free or too small with it, and nothing else has room; the same pointer if and only if the bytes are there or can be taken over; otherwise a block that was free. NULL changes nothing. |
| `MemHeapSpec.ReallocLength` | base_kernel/rt-thread/src/memheap.c:344-501 | A block that stays is untouched when too little would be left over, and otherwise exactly as long as asked. |
| `MemHeapSpec.CutToFront` | base_kernel/rt-thread/src/memheap.c:344-501 | What an in-place resize leaves over heads the free ring, in place of the free block it was joined to. |
| `MemHeapSpec.StepKeeps` | base_kernel/rt-thread/src/memheap.c:148-605 | Each call keeps the invariant. |
| `MemHeapSpec.RunKeeps` | base_kernel/rt-thread/src/memheap.c:60-605 | Over every sequence of alloc, free and realloc calls the invariant holds. |
| `MemHeapSpec.InitialCrumbs` | base_kernel/rt-thread/src/memheap.c:60-131 | The fresh pool has room for MINIALLOC bytes in its block exactly when it has them besides its two headers. |
| `MemHeapSpec.StepCrumbs` | base_kernel/rt-thread/src/memheap.c:148-605 | No call leaves a block, live or free, without room for MINIALLOC bytes. |
| `MemHeapSpec.RunCrumbs` | base_kernel/rt-thread/src/memheap.c:148-605 | Nor does any run of alloc, free and realloc. |
| `MemHeap.DataDisjoint` | base_kernel/rt-thread/src/memheap.c:148-605 | Two live allocations have no byte in common and lie inside the pool. |
| `MemHeap.MemHeap.constructor` | base_kernel/rt-thread/src/memheap.c:60-131 | The two headers, both rings and the counters represent the fresh pool. |
| `MemHeap.MemHeap.Alloc` | base_kernel/rt-thread/src/memheap.c:148-291 | The rings, flags and counters afterwards represent the pool after the specified first fit; max_used_size is the high water mark. |
| `MemHeap.MemHeap.FindFit` | base_kernel/rt-thread/src/memheap.c:180-190 | The walk along the free ring finds the first block with room, or none. |
| `MemHeap.MemHeap.TakeSplit` | base_kernel/rt-thread/src/memheap.c:198-246 | Splitting relinks both rings for the taken and the remaining part. |
| `MemHeap.MemHeap.TakeWhole` | base_kernel/rt-thread/src/memheap.c:247-268 | Handing out the whole block takes it off the free ring only. |
| `MemHeap.MemHeap.Free` | base_kernel/rt-thread/src/memheap.c:505-605 | NULL is ignored; any live pointer is released as specified. |
| `MemHeap.MemHeap.FreeBlock` | base_kernel/rt-thread/src/memheap.c:518-604 | Both merges and the free ring update represent the freed pool. |
| `MemHeap.MemHeap.Grow` | base_kernel/rt-thread/src/memheap.c:360-412 | Absorbing part of the following free block, and the new header behind. |
| `MemHeap.MemHeap.Shrink` | base_kernel/rt-thread/src/memheap.c:442-501 | Splitting the block and merging the rest with a free block behind it. |
| `Memory.Memcpy` | base_kernel/rt-thread/src/kservice.c:219-290 | Copies the bytes and changes no other. |
| `MemHeap.MemHeap.Realloc` | base_kernel/rt-thread/src/memheap.c:294-502 | Resulting pool, returned pointer and contents: a moved block carries its old bytes, otherwise no byte changes. |
| `MemHeap.MemHeap.Resize` | base_kernel/rt-thread/src/memheap.c:320-501 | The same for a live block and a rounded size, with max_used_size. |
| `MemHeap.MemHeap.Move` | base_kernel/rt-thread/src/memheap.c:418-426 | The moving branch: the old bytes are at the new place, or nothing changed. |
| `SmallMemSpec.InitialHeapWellFormed` | base_kernel/rt-thread/src/mem.c:205-258 | The fresh heap satisfies the invariant, lfree is lowest, nothing is used. |
| `SmallMemSpec.MallocKeeps` | base_kernel/rt-thread/src/mem.c:273-411 | rt_malloc keeps the chain a tiling without adjacent free blocks, and lfree on a free block or heap_end. |
| `SmallMemSpec.MallocGives` | base_kernel/rt-thread/src/mem.c:306-405 | A successful call adds exactly one live block of sufficient, bounded size that was free before; used_mem grows by its extent. |
| `SmallMemSpec.MallocFailsIff` | base_kernel/rt-thread/src/mem.c:306-312 | NULL, with the heap as it was, if and only if no fitting free block from lfree on begins below the loop bound. |
| `SmallMemSpec.MallocFirstFit` | base_kernel/rt-thread/src/mem.c:306-312 | The block handed out is the lowest one from lfree on that has room. |
| `SmallMemSpec.MallocHint` | base_kernel/rt-thread/src/mem.c:381-388 | lfree is then the lowest free block from where it was on, or heap_end. |
| `SmallMemSpec.BoundSkipsExactLast` | base_kernel/rt-thread/src/mem.c:307 | The strict bound skips a fitting block if and only if it is an exact fit that ends at heap_end. |
| `SmallMemSpec.SearchEndsIff` | base_kernel/rt-thread/src/mem.c:306-308 | The search loop runs for ever if and only if the heap has less than MIN_SIZE_ALIGNED bytes between its headers: the 32-bit bound then wraps, and heap_end follows itself. |
| `SmallMemSpec.MallocComplete` | base_kernel/rt-thread/src/mem.c:306-312 | While lfree is lowest, NULL if and only if nothing fits, that exact last block apart. |
| `SmallMemSpec.MallocKeepsLowest` | base_kernel/rt-thread/src/mem.c:381-388 | rt_malloc keeps lfree the lowest free block. |
| `SmallMemSpec.FreeKeeps` | base_kernel/rt-thread/src/mem.c:549-611 | rt_free keeps the invariant and ends exactly that live block. |
| `SmallMemSpec.FreeLowersUsed` | base_kernel/rt-thread/src/mem.c:604-606 | used_mem falls by exactly the block's extent. |
| `SmallMemSpec.FreeKeepsLowest` | base_kernel/rt-thread/src/mem.c:592-609 | rt_free keeps lfree the lowest free block, through both merges. |
| `SmallMemSpec.FreeHint` | base_kernel/rt-thread/src/mem.c:592-609 | After rt_free lfree is the free block that holds the lower of the released block and the old lfree. |
| `SmallMemSpec.FreeUndoesMalloc` | base_kernel/rt-thread/src/mem.c:273-611 | Releasing what was just returned restores the chain. |
| `SmallMemSpec.ShrinkKeeps` | base_kernel/rt-thread/src/mem.c:472-498 | Shrinking in place keeps the invariant; the block keeps its address and has exactly the bytes asked. |
| `SmallMemSpec.ShrinkLowersUsed` | base_kernel/rt-thread/src/mem.c:475-477 | used_mem falls by exactly the bytes given up. |
| `SmallMemSpec.ShrinkHint` | base_kernel/rt-thread/src/mem.c:472-498 | A shrink leaves lfree where it was, or on the free block that swallowed it. |
| `SmallMemSpec.ShrinkLowestIff` | base_kernel/rt-thread/src/mem.c:472-498 | lfree is still the lowest free block after a shrink if and only if it lies below the block or was the free block right behind it. |
| `SmallMemSpec.ShrinkCanHideRoom` | base_kernel/rt-thread/src/mem.c:472-498 | A heap that one rt_malloc makes of a fresh one, in which a shrink leaves 156 free bytes that rt_malloc does not find. |
| `SmallMemSpec.ReallocLowestIff` | base_kernel/rt-thread/src/mem.c:422-511 | A run of rt_realloc on a live block keeps lfree lowest if and only if it is no such shrink. |
| `SmallMemSpec.MoveRegions` | base_kernel/rt-thread/src/mem.c:503-508 | When rt_realloc moves a block, the bytes it copies from and to lie in the heap and do not meet. |
| `SmallMemSpec.ReallocGives` | base_kernel/rt-thread/src/mem.c:422-511 | Unless refused, rt_realloc exchanges the block for one with the room asked and leaves every other block alone. |
| `SmallMemSpec.ReallocAnswers` | base_kernel/rt-thread/src/mem.c:460-511 | The same pointer if and only if the block has just these bytes or would have more than a header and MIN_SIZE to spare; NULL, with nothing done, if and only if not and the search finds nothing; otherwise a block that was free. |
| `SmallMemSpec.ReallocLength` | base_kernel/rt-thread/src/mem.c:460-501 | A block that stays is untouched, or exactly as long as asked. |
| `SmallMemSpec.StepKeeps` | base_kernel/rt-thread/src/mem.c:273-611 | Each call keeps the invariant, and lfree lowest if and only if it does not hide room. |
| `SmallMemSpec.RunKeepsLowest` | base_kernel/rt-thread/src/mem.c:273-611 | Over every run of malloc, free and realloc the invariant holds; lfree stays lowest when no shrink hides room. |
| `SmallMemSpec.StepCrumbsIff` | base_kernel/rt-thread/src/mem.c:299-301 | That every block has MIN_SIZE_ALIGNED bytes at least is kept by a call if and only if the call is not an rt_realloc that cuts a block to fewer. |
| `SmallMemSpec.ShrinkCanCutShort` | base_kernel/rt-thread/src/mem.c:472-498 | A heap that one rt_malloc makes of a fresh one, in which rt_realloc to 4 bytes does so. |
| `SmallMemSpec.RunCrumbs` | base_kernel/rt-thread/src/mem.c:273-611 | Every run without such a call keeps it. |
| `SmallMem.SmallMem.constructor` | base_kernel/rt-thread/src/mem.c:205-258 | The two headers represent the fresh heap. |
| `SmallMem.SmallMem.PlugHoles` | base_kernel/rt-thread/src/mem.c:157-195 | The stores give the chain of the merged layout and the moved lfree. |
| `SmallMem.SmallMem.Malloc` | base_kernel/rt-thread/src/mem.c:273-411 | Chain, flags, lfree, used_mem and result are those of the specified first fit, whenever the search ends; max_mem is the high water mark; 0 and oversized requests give NULL and change nothing. |
| `SmallMem.SmallMem.FindFit` | base_kernel/rt-thread/src/mem.c:306-312 | The search loop ends and finds the first fitting block from lfree below the bound, or none. |
| `SmallMem.SmallMem.Take` | base_kernel/rt-thread/src/mem.c:317-388 | Both branches, and lfree moved on when its block was taken. |
| `SmallMem.SmallMem.AdvanceLfree` | base_kernel/rt-thread/src/mem.c:384-385 | The loop stops at the next free block or heap_end. |
| `SmallMem.SmallMem.Free` | base_kernel/rt-thread/src/mem.c:549-611 | NULL is ignored; a live pointer is released as specified. |
| `SmallMem.SmallMem.FreeBlock` | base_kernel/rt-thread/src/mem.c:592-609 | Header, lfree, used_mem and plug_holes together. |
| `SmallMem.SmallMem.Realloc` | base_kernel/rt-thread/src/mem.c:422-511 | Resulting heap, pointer and contents in all cases: NULL pointer, pointer outside the heap, size 0, too large, same size, shrink, move (the old bytes, as many as fit, are at the new place), refusal. |
| `SmallMem.SmallMem.Resize` | base_kernel/rt-thread/src/mem.c:460-511 | Resulting heap, pointer and contents for a live block and an aligned size. |
| `SmallMem.SmallMem.Shrink` | base_kernel/rt-thread/src/mem.c:472-498 | The new header, used_mem and plug_holes. |
| `TimerSpec.StartedKeeps` | base_kernel/rt-thread/src/timer.c:298-414 | Starting keeps the queue of linked timers free of duplicates, in deadline order and within half the tick range of now; it adds just that timer. |
| `TimerSpec.StoppedKeeps` | base_kernel/rt-thread/src/timer.c:424-449 | Stopping keeps that too and unlinks just that timer, if it was active. |
| `TimerSpec.RanKeeps` | base_kernel/rt-thread/src/timer.c:496-554 | Any timer calls made by a callback keep it, at the same tick. |
| `TimerSpec.FiredKeeps` | base_kernel/rt-thread/src/timer.c:518-545 | One expiry keeps it and records the head of the queue as fired now. |
| `TimerSpec.FiredTidy` | base_kernel/rt-thread/src/timer.c:518-545 | One expiry keeps: a timer that carries ACTIVATED is linked, and due no later than one delay from now. |
| `TimerSpec.NoneDueAfterCheck` | base_kernel/rt-thread/src/timer.c:496-554 | When rt_timer_check returns, no linked timer is due. |
| `TimerSpec.FiresInOrder` | base_kernel/rt-thread/src/timer.c:509-548 | One check fires only timers that were due, each at most once, in deadline order. |
| `TimerSpec.FiredInStep` | base_kernel/rt-thread/src/timer.c:533-544 | After an expiry exactly the linked timers carry ACTIVATED if and only if the timer is periodic or its callback's last call on it at this tick is not a start. |
| `TimerSpec.FiredHead` | base_kernel/rt-thread/src/timer.c:518-545 | The fired timer is linked again if and only if its callback's last call on it is a start, or the callback makes none and the timer is periodic and active; it is then due one delay from now; only a periodic one keeps its flag. Every other timer is as the callback left it. |
| `TimerSpec.TickedKeeps` | base_kernel/rt-thread/src/clock.c:83-105 | A tick with its check keeps the invariant; afterwards nothing linked is due. |
| `TimerSpec.StepKeeps` | base_kernel/rt-thread/src/timer.c:298-554 | Every start, stop and tick keeps the invariant. |
| `TimerSpec.RunKeeps` | base_kernel/rt-thread/src/timer.c:298-554 | So does every run of them, however often the tick counter wraps; in every state it reaches every timer that carries ACTIVATED is linked. |
| `TimerSpec.CheckedAsleep` | base_kernel/rt-thread/src/timer.c:496-554 | A check leaves a timer alone that is not linked or not due. |
| `TimerSpec.CheckedAwake` | base_kernel/rt-thread/src/timer.c:496-554 | A due timer that no other callback names fires exactly once in a check; it is then due one delay on, or off the list, as its own callback leaves it. |
| `TimerSpec.StaysQuiet` | base_kernel/rt-thread/src/timer.c:298-554 | An unlinked timer does not fire in any run until a call of the run or another timer's callback starts it. |
| `TimerSpec.RunTimes` | base_kernel/rt-thread/src/timer.c:496-554 | In every run the firing ticks of a linked timer are exactly its deadline and one delay after each firing that leaves it started: its own callback decides, by its last call on it. |
| `TimerSpec.StartTimes` | base_kernel/rt-thread/src/timer.c:298-554 | A timer started at s with delay k fires at s + k (at the next check if k is 0), and k after each firing that leaves it started. |
| `TimerSpec.FiringTimes` | base_kernel/rt-thread/src/timer.c:298-554 | A timer started at s with delay k that no callback names fires once, at s + k, or at s + k, s + 2k, ... if periodic (with k = 0, a one-shot fires at the next check). |
| `TimerSpec.StoppedIsQuiet` | base_kernel/rt-thread/src/timer.c:424-449 | A stopped timer does not fire until started again, whatever its own callback would do. |
| `TimerSpec.StopsItself` | base_kernel/rt-thread/src/timer.c:526-544 | A timer whose callback stops it last, periodic or not, has no further expiry until it is started. |
| `TimerOrder.InStepIff` | base_kernel/rt-thread/src/timer.c:533-544 | In every state of every run from the initial one exactly the linked timers carry ACTIVATED, if and only if no one-shot timer has a callback whose last call on that timer is a start, at any tick at which the timer can fire. |
| `TimerOrder.RunInStep` | base_kernel/rt-thread/src/timer.c:298-554 | Under that condition links and flags agree over every run. |
| `TimerOrder.Parts` | base_kernel/rt-thread/src/timer.c:540-544 | For any timer and tick that break the condition, a run from the initial state that parts links and flags: start the timer so that its delay ends at that tick. |
| `TimerOrder.StepKeepsOrder` | base_kernel/rt-thread/src/timer.c:298-554 | No start of another timer, stop or tick changes the order of two timers that stay linked with their deadlines. |
| `TimerOrder.RunKeepsOrder` | base_kernel/rt-thread/src/timer.c:298-554 | Nor does any run. |
| `TimerOrder.StartedBehind` | base_kernel/rt-thread/src/timer.c:344-372 | A started timer goes behind every linked one that is due no later. |
| `TimerOrder.TiesInStartOrder` | base_kernel/rt-thread/src/timer.c:344-393 | So two timers due at the same tick stay in the order in which they were started, over every run in which both stay linked. |
| `TimerOrder.FiresInQueueOrder` | base_kernel/rt-thread/src/timer.c:509-548 | One check fires timers in queue order, so of two timers due together the one started first fires first. |
| `SkipList.SieveNests` | base_kernel/rt-thread/src/timer.c:374-393 | Each row of the skip list is a subsequence of the row below it. |
| `SkipList.SieveSorted` | base_kernel/rt-thread/src/timer.c:344-372 | Every row is in deadline order. |
| `SkipList.SieveDrop` | base_kernel/rt-thread/src/timer.c:123-131 | Taking a timer out of the bottom row takes it out of every row. |
| `SkipList.SievePlaced` | base_kernel/rt-thread/src/timer.c:344-393 | Placing a timer by deadline in the bottom row is placing it so in every row it reaches, behind equal deadlines. |
| `SkipList.RowRemove` | base_kernel/rt-thread/src/timer.c:123-131 | rt_list_remove keeps a row, whether or not the timer is linked in it. |
| `SkipList.RowInsert` | base_kernel/rt-thread/src/timer.c:381-387 | rt_list_insert_after keeps a row with the timer added at that place. |
| `Timer.MinusIs` | base_kernel/rt-thread/src/timer.c:361-365 | The wrapping difference of two ticks is the true one when that is within half the range. |
| `Timer.WrapCompare` | base_kernel/rt-thread/src/timer.c:361-365 | Inside a half-range window the comparison of wrapped ticks agrees with that of unbounded deadlines, for equality and for order. |
| `Timer.WrapAdd` | base_kernel/rt-thread/src/timer.c:326 | Adding a delay commutes with wrapping. |
| `Timer.RowBelow` | base_kernel/rt-thread/src/timer.c:345-372 | The node where one row's search ends stands in the row below, not past the slot there. |
| `Timer.RowsPlaced` | base_kernel/rt-thread/src/timer.c:378-393 | Inserting into the rows from some row down keeps the whole structure. |
| `Timer.TimerList.constructor` | base_kernel/rt-thread/src/timer.c:679-687 | All rows empty, every timer detached. |
| `Timer.TimerList.RemoveTimer` | base_kernel/rt-thread/src/timer.c:123-131 | The timer leaves every row. |
| `Timer.TimerList.WalkRow` | base_kernel/rt-thread/src/timer.c:347-369 | The walk ends at the last node with a deadline no later. |
| `Timer.TimerList.FindSlots` | base_kernel/rt-thread/src/timer.c:344-372 | One predecessor per row, each search beginning where the row above ended. |
| `Timer.TimerList.InsertRows` | base_kernel/rt-thread/src/timer.c:378-393 | Bottom row always, each row above while two bits of the counter are 0. |
| `Timer.TimerList.Start` | base_kernel/rt-thread/src/timer.c:298-414 | All rows, the timeout tick and the flag represent the started timer. |
| `Timer.TimerList.Stop` | base_kernel/rt-thread/src/timer.c:424-449 | The same for the stopped timer; the result tells whether it was active. |
| `Timer.TimerList.Timeout` | base_kernel/rt-thread/src/timer.c:526 | A callback that makes any sequence of start and stop calls, another one each time it runs. |
| `Timer.TimerList.Fire` | base_kernel/rt-thread/src/timer.c:520-544 | Unlink, call, clear or re-arm. |
| `Timer.TimerList.Check` | base_kernel/rt-thread/src/timer.c:496-554 | The loop ends and yields the specified state. |
| `Timer.TimerList.TickIncrease` | base_kernel/rt-thread/src/clock.c:83-105 | The wrapping tick counter and the check. |
| `Timer.TimerList.NextTimeout` | base_kernel/rt-thread/src/timer.c:110-121 | The earliest deadline of all linked timers, or RT_TICK_MAX. |
| `Bits.ByteLow` | base_kernel/rt-thread/src/kservice.c:1279-1297 | The table entry of every byte but 0 is the index of its lowest set bit. |
| `Bits.FfsIsLowest` | base_kernel/rt-thread/src/kservice.c:1309-1323 | __rt_ffs gives 0 exactly for 0, else one more than the index of the lowest set bit, for all 32-bit words. |
| `Bits.MaskIsShift` | base_kernel/rt-thread/src/thread.c:287-294 | The priority masks are shifts of 1. |
| `Bits.SetBit` | base_kernel/rt-thread/src/scheduler.c:316-319 | Or with a mask sets that bit and no other. |
| `Bits.ClearBit` | base_kernel/rt-thread/src/scheduler.c:357-368 | And with the complement clears that bit and no other. |
| `Bits.TakeOut` | base_kernel/rt-thread/src/ipc.c:1100-1102 | What is cleared and what stays make up the word and are disjoint. |
| `Bits.HasAll` | base_kernel/rt-thread/src/ipc.c:1076 | (a & d) == d says that every bit of d is set in a. |
| `Bits.HasSome` | base_kernel/rt-thread/src/ipc.c:1084 | a & d is not 0 exactly when some bit of d is set in a. |
| `Threads.HomesTaken` | base_kernel/rt-thread/src/scheduler.c:332-372 | Taking a thread off its list keeps every thread on exactly one list or none. |
| `Threads.HomesPut` | base_kernel/rt-thread/src/scheduler.c:286-323 | Putting it on a list does too. |
| `Threads.LinkedTake` | base_kernel/rt-thread/src/scheduler.c:356 | rt_list_remove gives the rings without the thread, all other rings untouched. |
| `Threads.LinkedPut` | base_kernel/rt-thread/src/scheduler.c:299-300 | rt_list_insert_before gives the rings with the thread at that place. |
| `Threads.Neighbours` | base_kernel/rt-thread/src/thread.c:474-475 | tlist.next equals tlist.prev exactly when the thread is alone on its list. |
| `SchedSpec.ReadyPlaces` | base_kernel/rt-thread/src/scheduler.c:286-372 | In a well-formed state a READY thread is on exactly the ready list of its current priority, and no other thread is on a ready list. |
| `SchedSpec.SuspendedKeeps` | base_kernel/rt-thread/src/thread.c:658-691 | rt_thread_suspend keeps that. |
| `SchedSpec.ResumedKeeps` | base_kernel/rt-thread/src/thread.c:701-735 | rt_thread_resume with interrupts disabled keeps that, from any wait list; Flight has its two sections apart. |
| `SchedSpec.UnlinkedKeeps` | base_kernel/rt-thread/src/thread.c:718-726 | The first section of rt_thread_resume keeps that and leaves a suspended thread on no list. |
| `SchedSpec.ResumedInTwo` | base_kernel/rt-thread/src/thread.c:718-731 | The two sections, one after the other, are the call. |
| `SchedSpec.SuspendResume` | base_kernel/rt-thread/src/thread.c:658-735 | Suspending a READY thread and resuming it moves it to the end of its ready list and changes nothing else. |
| `SchedSpec.ChangedKeeps` | base_kernel/rt-thread/src/thread.c:592-624 | Changing a priority keeps that, and the thread has the new priority. |
| `SchedSpec.ChangedSame` | base_kernel/rt-thread/src/thread.c:592-624 | Changing a priority leaves the other lists and threads as they were. |
| `SchedSpec.ScheduledBest` | base_kernel/rt-thread/src/scheduler.c:191-277 | With the scheduler unlocked and a thread ready, rt_schedule picks the first thread of the most urgent non-empty list. |
| `SchedSpec.ScheduledKeeps` | base_kernel/rt-thread/src/scheduler.c:191-277 | rt_schedule keeps the invariant. |
| `SchedSpec.YieldedKeeps` | base_kernel/rt-thread/src/thread.c:462-496 | rt_thread_yield keeps the invariant. |
| `SchedSpec.YieldTurns` | base_kernel/rt-thread/src/thread.c:462-496 | A yield of the running head rotates its ready list by one and runs the next. |
| `SchedSpec.YieldsTurn` | base_kernel/rt-thread/src/thread.c:462-496 | n yields rotate it by n. |
| `SchedSpec.RoundRobin` | base_kernel/rt-thread/src/thread.c:462-496 | With k threads on the top list, k yields run each of them once and restore the whole state. |
| `SchedSpec.StartedKeeps` | base_kernel/rt-thread/src/thread.c:277-309 | rt_thread_startup keeps the invariant. |
| `SchedSpec.TimedOutKeeps` | base_kernel/rt-thread/src/thread.c:744-766 | rt_thread_timeout keeps the invariant. |
| `SchedSpec.LockKeeps` | base_kernel/rt-thread/src/scheduler.c:377-420 | Entering and leaving a critical section keep the invariant. |
| `SchedSpec.StepLocked` | base_kernel/rt-thread/src/scheduler.c:191-420 | While the scheduler is locked no call but the one that unlocks it changes the current thread. |
| `SchedSpec.RunLocked` | base_kernel/rt-thread/src/scheduler.c:191-420 | Nor does any run that leaves it locked throughout. |
| `SchedSpec.ExitSchedules` | base_kernel/rt-thread/src/scheduler.c:377-420 | Over every run in which the scheduler stays locked the current thread stays; the exit of the outermost section then runs the best thread, any other exit changes nothing. |
| `SchedSpec.WaitingKeeps` | base_kernel/rt-thread/src/ipc.c:92-135 | Suspending a thread on a wait list keeps the invariant. |
| `SchedSpec.WaitingInOrder` | base_kernel/rt-thread/src/ipc.c:105-131 | With RT_IPC_FLAG_PRIO it goes behind all waiters no less urgent and before all less urgent ones. |
| `SchedSpec.WokenKeeps` | base_kernel/rt-thread/src/ipc.c:146-159 | Resuming the first waiter keeps the invariant and takes just it off the list. |
| `SchedSpec.AllWokenEmpties` | base_kernel/rt-thread/src/ipc.c:169-197 | Resuming all empties the list, each waiter READY with -RT_ERROR, no other thread changed. |
| `SchedSpec.StepKeeps` | base_kernel/rt-thread/src/thread.c:277-766 | Every scheduler and wait list call keeps the invariant, and so do the parts of rt_thread_startup and rt_thread_resume between which interrupts are enabled. |
| `SchedSpec.RunKeeps` | base_kernel/rt-thread/src/thread.c:277-766 | So does every run of them, the parts interleaved with any other calls. |
| `SchedSpec.StepSchedules` | base_kernel/rt-thread/src/scheduler.c:191-420 | After every call that ends in an unlocked rt_schedule, a yield to another thread included, the best ready thread is the current one. |
| `SchedSpec.YieldsOnlyToOthers` | base_kernel/rt-thread/src/thread.c:474-495 | A thread that is alone on its ready list, or not ready, yields nothing: rt_thread_yield then changes no state. |
| `SchedSpec.StepOrder` | base_kernel/rt-thread/src/ipc.c:92-197 | A call keeps every priority-ordered wait list sorted unless it changes a waiter's priority. |
| `SchedSpec.RunOrder` | base_kernel/rt-thread/src/ipc.c:92-197 | So does every run; Waiters.RunKeepsOrder says the same of the order of ties. |
| `SchedSpec.StepThins` | base_kernel/rt-thread/src/ipc.c:92-197 | Only a wait call on a list puts a thread there. |
| `SchedSpec.StepPriorities` | base_kernel/rt-thread/src/thread.c:277-766 | Only startup and a priority change alter a priority, and only of the named thread. |
| `SchedEffects.SuspendDoes` | base_kernel/rt-thread/src/thread.c:658-691 | rt_thread_suspend takes a READY thread off its list and leaves every other thread, list and place alone; it does nothing to another thread. |
| `SchedEffects.ResumeDoes` | base_kernel/rt-thread/src/thread.c:701-735 | rt_thread_resume moves a suspended thread from wherever it waits to the end of the ready list of its priority, READY, and changes nothing else. |
| `SchedEffects.UnlinkDoes` | base_kernel/rt-thread/src/thread.c:718-726 | Its first section only takes the thread off. |
| `SchedEffects.ChangeDoes` | base_kernel/rt-thread/src/thread.c:592-624 | A READY thread goes to the end of the list of its new priority, even if that is its old one; of another one only the priority and its masks change. |
| `SchedEffects.ScheduleDoes` | base_kernel/rt-thread/src/scheduler.c:191-277 | rt_schedule changes the current thread and nothing else; locked, nothing. |
| `SchedEffects.YieldDoes` | base_kernel/rt-thread/src/thread.c:462-496 | rt_thread_yield sends the current thread behind the others of its priority, also in a critical section, where only the switch is put off. |
| `SchedEffects.TimeoutDoes` | base_kernel/rt-thread/src/thread.c:744-766 | The timed-out thread is READY with -RT_ETIMEOUT at the end of the ready list of its priority and off the list it waited on; nothing else moves. |
| `SchedEffects.StartDoes` | base_kernel/rt-thread/src/thread.c:277-309 | rt_thread_startup makes the thread READY with its initial priority, at the end of that list; without a current thread or locked it does not switch. |
| `SchedEffects.LockDoes` | base_kernel/rt-thread/src/scheduler.c:377-420 | rt_exit_critical undoes rt_enter_critical; leaving the outermost section is rt_schedule. |
| `SchedEffects.WaitDoes` | base_kernel/rt-thread/src/ipc.c:92-135 | Waiting takes the thread from its ready list to the end of the wait list, or with RT_IPC_FLAG_PRIO behind the first waiters no less urgent; every other thread, list and place stays. |
| `SchedEffects.WakeDoes` | base_kernel/rt-thread/src/ipc.c:146-159 | The first waiter, and no other, goes to the end of the ready list of its priority; its error stays. |
| `SchedEffects.AllWakeDoes` | base_kernel/rt-thread/src/ipc.c:169-197 | All waiters, and nobody else, become READY with -RT_ERROR, in the order they waited in, behind the ready threads of their priorities. |
| `Waiters.StepKeepsOrder` | base_kernel/rt-thread/src/ipc.c:92-197 | No scheduler or wait list call changes the order of two threads that stay on a wait list. |
| `Waiters.RunKeepsOrder` | base_kernel/rt-thread/src/ipc.c:92-197 | Nor does any run in which both keep waiting. |
| `Waiters.WaitsBehind` | base_kernel/rt-thread/src/ipc.c:92-135 | A thread that comes to wait goes behind every waiter, and with RT_IPC_FLAG_PRIO behind every one no less urgent. |
| `Flight.StaysPut` | base_kernel/rt-thread/src/thread.c:277-766 | A suspended thread that a call leaves suspended stays on the list it is on, or is unlinked. |
| `Flight.CalmIff` | base_kernel/rt-thread/src/thread.c:701-735 | With any number of resumes under way, each past its test or past its first section: a step leaves all of them harmless if and only if it does not resume one of these threads. |
| `Flight.SafeIff` | base_kernel/rt-thread/src/thread.c:701-735 | If it does, sections still to come leave a thread READY on no list or on a list twice; if it does not, no sections that follow do. |
| `Flight.RunKeeps` | base_kernel/rt-thread/src/thread.c:701-735 | Every interleaving in which nobody resumes a thread whose resume is under way keeps READY threads on exactly their ready lists, and is a run of the calls above, so that whatever holds of those runs holds of it. |
| `Scheduler.NarrowSet` | base_kernel/rt-thread/src/scheduler.c:319 | One level: setting the bit matches the list becoming non-empty. |
| `Scheduler.NarrowClear` | base_kernel/rt-thread/src/scheduler.c:366 | One level: clearing it matches the list becoming empty. |
| `Scheduler.WideSet` | base_kernel/rt-thread/src/scheduler.c:316-319 | Two levels: byte and group bit after an insertion. |
| `Scheduler.WideClear` | base_kernel/rt-thread/src/scheduler.c:360-364 | Two levels: the group bit goes only when the byte is 0. |
| `Scheduler.NarrowHighest` | base_kernel/rt-thread/src/scheduler.c:206 | One level: __rt_ffs - 1 is the most urgent non-empty priority. |
| `Scheduler.WideHighest` | base_kernel/rt-thread/src/scheduler.c:210-211 | Two levels: group number times 8 plus the byte's lowest bit is it. |
| `Scheduler.HighestIsTop` | base_kernel/rt-thread/src/scheduler.c:205-212 | For every configured number of priorities up to 256 the bitmap search finds the most urgent non-empty list. |
| `Scheduler.Kernel.constructor` | base_kernel/rt-thread/src/scheduler.c:120-147 | All lists empty, every thread in its initial state. |
| `Scheduler.Kernel.InsertThread` | base_kernel/rt-thread/src/scheduler.c:286-323 | Links, bitmaps and state represent the thread at the end of its ready list. |
| `Scheduler.Kernel.RemoveThread` | base_kernel/rt-thread/src/scheduler.c:332-372 | Links and bitmaps represent the lists without it. |
| `Scheduler.Kernel.Schedule` | base_kernel/rt-thread/src/scheduler.c:191-277 | The current thread is the specified one; no list changes. |
| `Scheduler.Kernel.Suspend` | base_kernel/rt-thread/src/thread.c:658-691 | New state and error code. |
| `Scheduler.Kernel.Unlink` | base_kernel/rt-thread/src/thread.c:718-726 | The first section: links represent the lists without the thread. |
| `Scheduler.Kernel.Resume` | base_kernel/rt-thread/src/thread.c:701-735 | New state and error code. |
| `Scheduler.Kernel.Startup` | base_kernel/rt-thread/src/thread.c:277-309 | Priority attributes, resume and reschedule. |
| `Scheduler.Kernel.Timeout` | base_kernel/rt-thread/src/thread.c:744-766 | -RT_ETIMEOUT, off the wait list, ready, rescheduled. |
| `Scheduler.Kernel.Yield` | base_kernel/rt-thread/src/thread.c:462-496 | The test on the links decides as specified. |
| `Scheduler.Kernel.TickSlice` | base_kernel/rt-thread/src/clock.c:91-101 | The slice counts down, wrapping at 0; at its end it is refilled and the thread yields. |
| `Scheduler.Kernel.SetPriority` | base_kernel/rt-thread/src/thread.c:592-624 | New state of threads, lists and bitmaps. |
| `Scheduler.Kernel.EnterCritical` | base_kernel/rt-thread/src/scheduler.c:377-392 | Nesting counter. |
| `Scheduler.Kernel.ExitCritical` | base_kernel/rt-thread/src/scheduler.c:398-420 | Nesting counter, and rt_schedule at the outermost exit. |
| `Scheduler.Kernel.FindPlace` | base_kernel/rt-thread/src/ipc.c:111-129 | The walk finds the first less urgent waiter, or the head. |
| `Scheduler.Kernel.ListSuspend` | base_kernel/rt-thread/src/ipc.c:92-135 | Suspended and linked where the flag says. |
| `Scheduler.Kernel.ListResume` | base_kernel/rt-thread/src/ipc.c:146-159 | The first waiter is resumed. |
| `Scheduler.Kernel.ListResumeAll` | base_kernel/rt-thread/src/ipc.c:169-197 | The loop resumes all, with -RT_ERROR. |
| `Scheduler.Kernel.HasWaiters` | base_kernel/rt-thread/include/rtservice.h:112-115 | rt_list_isempty of a wait list. |
| `Scheduler.Kernel.FirstWaiter` | base_kernel/rt-thread/src/ipc.c:151 | The list's next link is its first waiter. |
| `Scheduler.Kernel.Next` | base_kernel/rt-thread/src/ipc.c:1067-1095 | The next node on the walk over waiters. |
| `Scheduler.Kernel.Self` | base_kernel/rt-thread/src/thread.c:264-267 | The current thread. |
| `Scheduler.Kernel.SetError` | base_kernel/rt-thread/src/thread.c:756 | Sets the error of one thread and nothing else. |
| `Ipc.Joined` | base_kernel/rt-thread/src/ipc.c:92-135 | Suspending the caller adds just it to the object's list and changes no priority. |
| `Ipc.JoinedElse` | base_kernel/rt-thread/src/ipc.c:92-135 | It changes no other wait list. |
| `Ipc.CallerWaits` | base_kernel/rt-thread/src/ipc.c:353-391 | A caller that waits is suspended on the object's list with its error cleared, at the end or by priority, and nothing else changes. |
| `Ipc.ForeignFails` | base_kernel/rt-thread/src/thread.c:744-766 | Whatever else happens in the system, a waiter leaves the list only with an error set. |
| `Semaphore.TriedKeeps` | base_kernel/rt-thread/src/ipc.c:334-419 | A take, by a thread or (without waiting) by an interrupt handler at any time, keeps: a positive value means nobody waits, and waiters carry no error. |
| `Semaphore.ReleasedKeeps` | base_kernel/rt-thread/src/ipc.c:443-481 | A release keeps that. |
| `Semaphore.ForeignKeeps` | base_kernel/rt-thread/src/thread.c:277-766 | Every other scheduler call keeps that, time-outs included. |
| `Semaphore.TakeOutcome` | base_kernel/rt-thread/src/ipc.c:353-404 | A take gets a unit if and only if the value is not 0, is refused if and only if it is 0 and time is 0, and otherwise sleeps on the list; what else each outcome changes is exact. |
| `Semaphore.ReleaseOutcome` | base_kernel/rt-thread/src/ipc.c:464-478 | A release with waiters wakes the first and leaves the value alone; without, it adds one. |
| `Semaphore.BookedKeeps` | base_kernel/rt-thread/src/ipc.c:334-481 | value + takes - releases is conserved by a call if and only if it is not a release with nobody waiting at value 65535. |
| `Semaphore.BookedSorted` | base_kernel/rt-thread/src/ipc.c:334-481 | A take, a release and any other call that changes no waiter's priority keep the priority wait list sorted. |
| `Semaphore.TakesSucceed` | base_kernel/rt-thread/src/ipc.c:334-481 | The takes counted by a call are those that succeed: the take itself when it returns at once with a unit, and the waiters that leave the list with their error clear, which is what rt_sem_take returns on waking. |
| `Semaphore.Conservation` | base_kernel/rt-thread/src/ipc.c:334-481 | Over every run without overflow: initial value + releases = value + successful takes, hand-offs included; a positive value means nobody waits; with RT_IPC_FLAG_PRIO the waiters stay sorted while nobody changes their priorities. |
| `Semaphore.HandOff` | base_kernel/rt-thread/src/ipc.c:464-469 | A release with waiters makes exactly the first one ready, without an error, and the value stays 0. |
| `Semaphore.RunKeepsWaiters` | base_kernel/rt-thread/src/ipc.c:334-481 | Over every run of takes, releases, time-outs and other calls two threads that keep waiting keep their order. |
| `Semaphore.FifoTies` | base_kernel/rt-thread/src/ipc.c:334-481 | A thread that a take makes wait stays behind every earlier waiter (with RT_IPC_FLAG_PRIO: every one no less urgent) over every run in which both wait, so the next release does not serve it first. |
| `Semaphore.RtSemaphore.constructor` | base_kernel/rt-thread/src/ipc.c:211-231 | Initial value, nobody waiting. |
| `Semaphore.RtSemaphore.Take` | base_kernel/rt-thread/src/ipc.c:353-404 | Value, lists and outcome (got, refused, waits) as specified. |
| `Semaphore.RtSemaphore.Release` | base_kernel/rt-thread/src/ipc.c:464-478 | Value or hand-off as specified, and whether to reschedule. |
| `Mutex.TriedKeeps` | base_kernel/rt-thread/src/ipc.c:664-789 | A take keeps: value 1 iff no owner iff hold 0, waiters sorted, and the owner at least as urgent as every waiter; it does so if and only if the owner does not already hold it 255 times. |
| `Mutex.HoldLost` | base_kernel/rt-thread/src/ipc.c:691-695 | The 256th hold of the owner wraps the count to 0 while it still owns the mutex. |
| `Mutex.HoldReached` | base_kernel/rt-thread/src/ipc.c:664-712 | Any thread that finds the mutex free gets there: 255 takes in a row lead to a state of which the next one is that. |
| `Mutex.ReleasedKeeps` | base_kernel/rt-thread/src/ipc.c:800-891 | A release keeps that. |
| `Mutex.OtherKeeps` | base_kernel/rt-thread/src/thread.c:277-766 | Other scheduler calls keep that, unless they change the priority of the owner or a waiter. |
| `Mutex.CalledKeeps` | base_kernel/rt-thread/src/ipc.c:664-891 | Each call keeps that. |
| `Mutex.TakeOutcome` | base_kernel/rt-thread/src/ipc.c:664-789 | The mutex is got if and only if it is free or the caller's own, refused if and only if it is another's and time is 0; what each outcome changes is exact. |
| `Mutex.WaitLends` | base_kernel/rt-thread/src/ipc.c:732-762 | A take that waits gives the owner the more urgent of its own and the caller's priority, changes no other priority, and puts the caller on the list, suspended and without an error. |
| `Mutex.ReleaseOutcome` | base_kernel/rt-thread/src/ipc.c:800-891 | A stranger gets -RT_ERROR and changes nothing else; the owner gives back one hold; the last one restores its priority and passes the mutex to the first waiter, or frees it. |
| `Mutex.RunKeeps` | base_kernel/rt-thread/src/ipc.c:664-891 | In every reachable state the owner is at least as urgent as every waiter. |
| `Mutex.OriginalKept` | base_kernel/rt-thread/src/ipc.c:664-891 | While a thread stays the owner its saved priority stays. |
| `Mutex.InheritsExactly` | base_kernel/rt-thread/src/ipc.c:664-891 | While a thread stays the owner, its priority is the most urgent of the one it had and those of the threads that came to wait, and it is one of these. |
| `Mutex.FinalRelease` | base_kernel/rt-thread/src/ipc.c:838-849 | The last release gives the owner its saved priority and ends its ownership. |
| `Mutex.PriorityRestored` | base_kernel/rt-thread/src/ipc.c:664-891 | Take a free mutex, run on as owner, release for good: the priority is the one before taking, whatever was inherited. |
| `Mutex.HandOff` | base_kernel/rt-thread/src/ipc.c:851-871 | With waiters, ownership passes directly to the first, which is no less urgent than any other. |
| `Mutex.RtMutex.constructor` | base_kernel/rt-thread/src/ipc.c:540-560 | Free, nobody waiting. |
| `Mutex.RtMutex.Take` | base_kernel/rt-thread/src/ipc.c:664-789 | All fields, priorities and lists, and the outcome, the wrapping hold included. |
| `Mutex.RtMutex.Release` | base_kernel/rt-thread/src/ipc.c:800-891 | All fields, priorities and lists, and -RT_ERROR for a stranger. |
| `Event.ClearsReported` | base_kernel/rt-thread/src/ipc.c:1185-1194 | The bits a CLEAR receive removes are exactly the reported ones; without CLEAR none are; AND reports all wanted bits, OR at least one. |
| `Event.FewerMeet` | base_kernel/rt-thread/src/ipc.c:1100-1102 | Serving a waiter never satisfies another one. |
| `Event.MeetsBits` | base_kernel/rt-thread/src/ipc.c:1169-1178 | Bit by bit: a wish for all bits is met when each of them is set, one for any when one of them is. |
| `Event.ReceivedKeeps` | base_kernel/rt-thread/src/ipc.c:1137-1247 | A receive keeps: nobody waits for bits that are set. |
| `Event.ReceiveOutcome` | base_kernel/rt-thread/src/ipc.c:1137-1246 | A receive gets the wanted bits that are set, if and only if its wish is met, and takes them out with CLEAR; unmet it is refused if and only if timeout is 0, and otherwise sleeps on the list with its wish recorded. |
| `Event.SweptStarves` | base_kernel/rt-thread/src/ipc.c:1064-1111 | After the pass no waiter is left whose condition holds, even if several CLEAR waiters were served. |
| `Event.SentKeeps` | base_kernel/rt-thread/src/ipc.c:1039-1121 | rt_event_send ends in such a state from any state. |
| `Event.SentSet` | base_kernel/rt-thread/src/ipc.c:1060-1111 | What is sent is added to what is set, and of the union exactly the bits reported to CLEAR waiters go; without waiters nothing else changes. |
| `Event.SentBits` | base_kernel/rt-thread/src/ipc.c:1060-1111 | So a bit is set afterwards if and only if it was set or sent and no CLEAR waiter got it. |
| `Event.SentServes` | base_kernel/rt-thread/src/ipc.c:1062-1111 | Every waiter has its turn in the order of the list: it is served if and only if its wish is met by what the waiters before it left, and its report is the wanted bits then set. Exactly those served become READY, in that order; the others wait on in theirs. |
| `Event.SweptClears` | base_kernel/rt-thread/src/ipc.c:1082-1102 | The bits the pass removes are exactly those reported to the CLEAR waiters it woke. |
| `Event.SweptDelivers` | base_kernel/rt-thread/src/ipc.c:1074-1109 | Every waiter woken has its report in event_set and is off the list when the pass ends. |
| `Event.RunKeeps` | base_kernel/rt-thread/src/ipc.c:1039-1287 | In no reachable state does a thread wait for bits that are set. |
| `Event.ResetOutcome` | base_kernel/rt-thread/src/ipc.c:1259-1287 | A reset leaves no bit set and wakes every waiter with -RT_ERROR. |
| `Event.RtEvent.constructor` | base_kernel/rt-thread/src/ipc.c:925-943 | No bits, nobody waiting. |
| `Event.RtEvent.Recv` | base_kernel/rt-thread/src/ipc.c:1137-1246 | Set, wishes, lists and outcome; -RT_ERROR exactly for an empty wish. |
| `Event.RtEvent.Send` | base_kernel/rt-thread/src/ipc.c:1039-1121 | The loop over the waiters yields the specified pass; -RT_ERROR exactly for an empty set. |
| `Event.RtEvent.Clear` | base_kernel/rt-thread/src/ipc.c:1259-1287 | Reset: no bits, all waiters resumed with -RT_ERROR. |
| `Mailbox.SendKeeps` | base_kernel/rt-thread/src/ipc.c:1452-1571 | A sender's step, of a thread or (without waiting) of an interrupt handler at any time, keeps: if receivers wait, mails are at most the resumed receivers yet to look again; likewise for senders and free slots. |
| `Mailbox.RecvKeeps` | base_kernel/rt-thread/src/ipc.c:1600-1724 | A receiver's step, likewise, keeps that. |
| `Mailbox.ResetKeeps` | base_kernel/rt-thread/src/ipc.c:1736-1768 | A reset keeps that. |
| `Mailbox.SendOutcome` | base_kernel/rt-thread/src/ipc.c:1452-1571 | A send is done if and only if there is room, refused if and only if there is none and timeout is 0, and otherwise sleeps among the senders; a mail put wakes the first receiver and nobody else. |
| `Mailbox.RecvOutcome` | base_kernel/rt-thread/src/ipc.c:1600-1724 | A receive gets the first mail if and only if there is one, is refused if and only if there is none and timeout is 0, and otherwise sleeps among the receivers; a mail taken wakes the first sender and nobody else. |
| `Mailbox.ResetOutcome` | base_kernel/rt-thread/src/ipc.c:1736-1768 | A reset empties the box and wakes all receivers and then all senders with -RT_ERROR. |
| `Mailbox.CalledFifo` | base_kernel/rt-thread/src/ipc.c:1452-1768 | A call takes mails off the front and adds them at the end: old mails + the one put = the one handed out (all, for a reset) + new mails. |
| `Mailbox.FifoRun` | base_kernel/rt-thread/src/ipc.c:1452-1724 | The mailbox is a bounded FIFO: over every run without reset, initial mails + mails accepted = mails received + mails left, in order, and never more than its size. |
| `Mailbox.NoLostWakeup` | base_kernel/rt-thread/src/ipc.c:1452-1768 | In every run, calls of interrupt handlers between a suspension and rt_schedule included: a waiting receiver with no receiver on its way means no mail; a waiting sender with none on its way means a full mailbox. |
| `Mailbox.MailsPush` | base_kernel/rt-thread/src/ipc.c:1545-1552 | Writing at in_offset and moving it round the ring appends. |
| `Mailbox.MailsPop` | base_kernel/rt-thread/src/ipc.c:1693-1701 | Reading at out_offset and moving it round the ring pops; in_offset stays out_offset + entry modulo size. |
| `Mailbox.RtMailbox.constructor` | base_kernel/rt-thread/src/ipc.c:1304-1332 | Empty ring, nobody waiting. |
| `Mailbox.RtMailbox.Send` | base_kernel/rt-thread/src/ipc.c:1471-1571 | One critical section of a send, with its outcome. |
| `Mailbox.RtMailbox.WaitForRoom` | base_kernel/rt-thread/src/ipc.c:1474-1520 | The full case: refuse or suspend. |
| `Mailbox.RtMailbox.PutMail` | base_kernel/rt-thread/src/ipc.c:1545-1571 | The other case: store, and resume a receiver. |
| `Mailbox.RtMailbox.Recv` | base_kernel/rt-thread/src/ipc.c:1617-1724 | One critical section of a receive, with its outcome. |
| `Mailbox.RtMailbox.WaitForMail` | base_kernel/rt-thread/src/ipc.c:1620-1668 | The empty case: refuse or suspend. |
| `Mailbox.RtMailbox.TakeMail` | base_kernel/rt-thread/src/ipc.c:1693-1724 | The other case: fetch, and resume a sender. |
| `Mailbox.RtMailbox.Reset` | base_kernel/rt-thread/src/ipc.c:1736-1768 | Empties the ring and resumes all receivers and senders. |
| `MessageQueue.ReserveKeeps` | base_kernel/rt-thread/src/ipc.c:1991-2008 | Taking a free node keeps: every node is at one place only, and waiting receivers are owed no message; it fails exactly when no node is free. |
| `MessageQueue.FillKeeps` | base_kernel/rt-thread/src/ipc.c:2010-2013 | Filling it outside the critical section keeps that. |
| `MessageQueue.CommitKeeps` | base_kernel/rt-thread/src/ipc.c:2015-2050 | Linking it, at either end, and resuming a receiver keeps that. |
| `MessageQueue.TakeKeeps` | base_kernel/rt-thread/src/ipc.c:2171-2261 | Taking the first message, by a thread or (without waiting) by an interrupt handler at any time, keeps that, and succeeds exactly when there is one. |
| `MessageQueue.ReturnKeeps` | base_kernel/rt-thread/src/ipc.c:2266-2272 | Giving the node back keeps that. |
| `MessageQueue.ResetKeeps` | base_kernel/rt-thread/src/ipc.c:2290-2336 | Reset keeps that and empties the queue. |
| `MessageQueue.ReserveOutcome` | base_kernel/rt-thread/src/ipc.c:1991-2008 | A sender gets a node that was free and is reserved now, and none exactly when none is free; no other node changes. |
| `MessageQueue.CommitOutcome` | base_kernel/rt-thread/src/ipc.c:2015-2050 | The node is queued, at the end or if urgent at the front, and the first receiver is woken; no other node changes. |
| `MessageQueue.TakeOutcome` | base_kernel/rt-thread/src/ipc.c:2171-2261 | A receiver is handed the node of the first message, which was queued and is its own now, if and only if there is a message; without one it is refused if and only if timeout is 0, and otherwise sleeps on the list. |
| `MessageQueue.ReturnOutcome` | base_kernel/rt-thread/src/ipc.c:2266-2272 | The node is free and heads the free list; no other node changes. |
| `MessageQueue.ResetOutcome` | base_kernel/rt-thread/src/ipc.c:2290-2336 | The queued nodes become free, those in flight stay with their holders, no message byte changes, and every receiver wakes with -RT_ERROR. |
| `MessageQueue.Counted` | base_kernel/rt-thread/src/ipc.c:1974-2277 | Free, queued and in-flight nodes add up to max_msgs. |
| `MessageQueue.Conservation` | base_kernel/rt-thread/src/ipc.c:1974-2336 | So they do after every interleaving of senders and receivers. |
| `MessageQueue.Deque` | base_kernel/rt-thread/src/ipc.c:1974-2336 | The queue is a deque: send appends its message, urgent prepends it, receive pops the front, reset empties, nothing else changes it. |
| `MessageQueue.CalledFifo` | base_kernel/rt-thread/src/ipc.c:1974-2277 | Unless it is a reset or urgent, a call takes the message of the node it hands out off the front and adds the one committed at the end. |
| `MessageQueue.FifoRun` | base_kernel/rt-thread/src/ipc.c:1974-2277 | However senders and receivers interleave, without urgent messages and resets: messages queued at first + messages committed = messages of the nodes handed to receivers + messages left, in order. |
| `MessageQueue.DataStays` | base_kernel/rt-thread/src/ipc.c:2010-2013 | A step changes a node's message only if it is the fill of that node. |
| `MessageQueue.HoldStays` | base_kernel/rt-thread/src/ipc.c:1991-2272 | A node held by a sender or receiver stays so until its own next step. |
| `MessageQueue.Exclusive` | base_kernel/rt-thread/src/ipc.c:1991-2272 | While a node is in flight no run of other steps touches its place or its message, although interrupts are enabled. |
| `MessageQueue.PrefixReceived` | base_kernel/rt-thread/src/ipc.c:2263-2264 | Copying a message over old bytes: every prefix of the node up to the message's length is a prefix of the message. |
| `MessageQueue.StepCarries` | base_kernel/rt-thread/src/ipc.c:1991-2336 | No call but giving the node back, or a reset while it is queued, ends or changes the message a node carries. |
| `MessageQueue.RunCarries` | base_kernel/rt-thread/src/ipc.c:1991-2336 | Nor does any run. |
| `MessageQueue.Delivered` | base_kernel/rt-thread/src/ipc.c:1974-2277 | The bytes received are the bytes sent: from the sender's copy until the receiver gives the node back, through any interleaving of other senders and receivers, the node holds the sender's bytes. |
| `MessageQueue.RtMessageQueue.constructor` | base_kernel/rt-thread/src/ipc.c:1791-1838 | All nodes free, queue empty. |
| `MessageQueue.RtMessageQueue.LinkPool` | base_kernel/rt-thread/src/ipc.c:1824-1832 | The loop chains every node on the free list. |
| `MessageQueue.RtMessageQueue.Reserve` | base_kernel/rt-thread/src/ipc.c:1991-2008 | Free list and node, or NIL. |
| `MessageQueue.RtMessageQueue.Fill` | base_kernel/rt-thread/src/ipc.c:2010-2013 | Chain end and contents. |
| `MessageQueue.RtMessageQueue.Commit` | base_kernel/rt-thread/src/ipc.c:2015-2050 | Head, tail, entry and links for a message at the end. |
| `MessageQueue.RtMessageQueue.CommitUrgent` | base_kernel/rt-thread/src/ipc.c:2103-2134 | The same at the front. |
| `MessageQueue.RtMessageQueue.Resume` | base_kernel/rt-thread/src/ipc.c:2033-2047 | The first waiting receiver is resumed. |
| `MessageQueue.RtMessageQueue.Take` | base_kernel/rt-thread/src/ipc.c:2171-2261 | First message, or refuse or suspend. |
| `MessageQueue.RtMessageQueue.CopyOut` | base_kernel/rt-thread/src/ipc.c:2263-2264 | At most msg_size bytes of the message. |
| `MessageQueue.RtMessageQueue.Return` | base_kernel/rt-thread/src/ipc.c:2266-2272 | The node heads the free list. |
| `MessageQueue.RtMessageQueue.Reset` | base_kernel/rt-thread/src/ipc.c:2290-2336 | Receivers resumed, queue emptied. |
| `MessageQueue.RtMessageQueue.EmptyQueue` | base_kernel/rt-thread/src/ipc.c:2307-2325 | The loop moves every node to the free list. |
| `Pages.AllocTakes` | base_kernel/rt-thread/src/slab.c:246-280 | A page allocation takes exactly n pages that were free; the list stays sorted, disjoint and coalesced. |
| `Pages.AllocFailsIff` | base_kernel/rt-thread/src/slab.c:246-280 | It fails if and only if no n free pages lie in a row. |
| `Pages.AllocLowest` | base_kernel/rt-thread/src/slab.c:246-280 | The pages taken begin at the lowest page where that many are free in a row. |
| `Pages.FreeGives` | base_kernel/rt-thread/src/slab.c:282-332 | A release returns exactly those pages; the list stays sorted, disjoint and coalesced. |
| `Pages.RunsUnique` | base_kernel/rt-thread/src/slab.c:246-332 | The set of free pages determines the list. |
| `Pages.FreeUndoesAlloc` | base_kernel/rt-thread/src/slab.c:246-332 | Releasing what was just allocated restores the list itself. |
| `Pages.PageAllocator.constructor` | base_kernel/rt-thread/src/slab.c:337-344 | One run of free pages. |
| `Pages.PageAllocator.FindRun` | base_kernel/rt-thread/src/slab.c:256-274 | The walk stops at the first run of at least n pages. |
| `Pages.PageAllocator.Alloc` | base_kernel/rt-thread/src/slab.c:246-280 | Links and page counts represent the list after the allocation. |
| `Pages.PageAllocator.FindPlace` | base_kernel/rt-thread/src/slab.c:296-323 | The walk stops at the run that touches the pages, or at the first behind them. |
| `Pages.PageAllocator.Free` | base_kernel/rt-thread/src/slab.c:282-332 | Links and page counts represent the list after the release. |
| `Pages.PageAllocator.PutRun` | base_kernel/rt-thread/src/slab.c:261-264 | Writing a run head and linking it from *prev. |
| `Pages.PageAllocator.MergeBack` | base_kernel/rt-thread/src/slab.c:301-310 | Extending the run before, and joining the run behind when they meet. |
| `SlabSpec.OneSizePerIndex` | base_kernel/rt-thread/src/slab.c:411-469 | Below 16384, zoneindex gives one chunk size per index, no smaller than the request, also at the boundaries between classes. |
| `SlabSpec.SizesGrow` | base_kernel/rt-thread/src/slab.c:411-469 | Chunk sizes grow strictly with the index. |
| `SlabSpec.WithinLimit` | base_kernel/rt-thread/src/slab.c:411-469 | A request below the zone limit has a chunk size within it. |
| `SlabSpec.CapacityIs` | base_kernel/rt-thread/src/slab.c:638-656 | Every zone has room for at least two chunks, and they end inside it. |
| `SlabSpec.ChunksSplit` | base_kernel/rt-thread/src/slab.c:179-193 | z_nfree is the never used chunks plus the free-listed ones, the rest are live. |
| `SlabSpec.WhollyFree` | base_kernel/rt-thread/src/slab.c:864 | z_nfree equal to z_nmax means no chunk is live. |
| `SlabSpec.ChunkTakenKeeps` | base_kernel/rt-thread/src/slab.c:553-578 | Taking a chunk makes exactly one chunk live that was not. |
| `SlabSpec.ChunkGivenKeeps` | base_kernel/rt-thread/src/slab.c:840-852 | Returning one ends exactly that chunk. |
| `SlabSpec.NewZoneOk` | base_kernel/rt-thread/src/slab.c:635-658 | A new zone has exactly its first chunk live. |
| `SlabSpec.OwnAlloc` | base_kernel/rt-thread/src/slab.c:246-280 | Pages just allocated belong to nobody else. |
| `SlabSpec.OwnFree` | base_kernel/rt-thread/src/slab.c:282-332 | Releasing an owner's pages disturbs no other owner. |
| `SlabSpec.BootedOk` | base_kernel/rt-thread/src/slab.c:354-405 | A heap of n pages after initialisation satisfies the invariant; its first pages hold the descriptors, and every other page is free. |
| `SlabSpec.MallocKeeps` | base_kernel/rt-thread/src/slab.c:488-677 | rt_malloc keeps the invariant: owners disjoint; zone_array[i] links exactly the zones of index i with a free chunk, at most one wholly free; at most ZONE_RELEASE_THRESH zones cached. |
| `SlabSpec.MallocGives` | base_kernel/rt-thread/src/slab.c:488-677 | A successful call makes exactly one new allocation of at least the requested bytes; all others stay where and as long as they were; a failed one changes nothing. |
| `SlabSpec.MallocFailsIff` | base_kernel/rt-thread/src/slab.c:488-677 | It fails if and only if the size is 0, or no pages lie in a row for it and, for a small size, no cached zone and no zone of the size has a free chunk. |
| `SlabSpec.FreeKeeps` | base_kernel/rt-thread/src/slab.c:781-914 | rt_free keeps the invariant, zone retirement included. |
| `SlabSpec.FreeTakes` | base_kernel/rt-thread/src/slab.c:781-914 | It ends exactly that allocation and disturbs no other. |
| `SlabSpec.Inside` | base_kernel/rt-thread/src/slab.c:488-677 | An allocation lies inside the pages of its owner. |
| `SlabSpec.LiveApart` | base_kernel/rt-thread/src/slab.c:488-914 | No two live allocations have a byte in common. |
| `SlabSpec.UsedExact` | base_kernel/rt-thread/src/slab.c:488-914 | A malloc raises used_mem by exactly the length of the allocation made, a free lowers it by that of the one ended; max_mem is the high water mark. |
| `SlabUse.BootedBalanced` | base_kernel/rt-thread/src/slab.c:354-405 | In a fresh heap used_mem is the total length of the live allocations. |
| `SlabUse.MallocBalanced` | base_kernel/rt-thread/src/slab.c:488-677 | rt_malloc keeps that. |
| `SlabUse.FreeBalanced` | base_kernel/rt-thread/src/slab.c:781-914 | rt_free keeps that. |
| `SlabUse.RunBalanced` | base_kernel/rt-thread/src/slab.c:488-914 | So does every run of malloc, free and realloc. |
| `SlabSpec.MallocAccounts` | base_kernel/rt-thread/src/slab.c:488-677 | rt_malloc loses no page: each is free or owned. |
| `SlabSpec.FreeAccounts` | base_kernel/rt-thread/src/slab.c:781-914 | Nor does rt_free. |
| `SlabSpec.MovedGives` | base_kernel/rt-thread/src/slab.c:688-745 | Moving an allocation leaves every other one alone, and keeps the old one if there is no room. |
| `SlabSpec.ReallocGives` | base_kernel/rt-thread/src/slab.c:688-745 | Unless refused, rt_realloc ends with an allocation of at least the requested bytes and disturbs no other; a chunk whose size is right stays in place, and refusal changes nothing. |
| `SlabAnswers.RoundsClosely` | base_kernel/rt-thread/src/slab.c:411-469 | zoneindex wastes less than 8 bytes or less than an eighth of the request. |
| `SlabAnswers.MallocFits` | base_kernel/rt-thread/src/slab.c:488-677 | From zone_limit on a request gets whole pages, less than one too much; a smaller one gets a chunk of exactly its class size. |
| `SlabAnswers.NextChunk` | base_kernel/rt-thread/src/slab.c:549-578 | A chunk comes from the first zone listed for its size: the next never used one, and when there is none the one given back last. |
| `SlabAnswers.LastFreedFirst` | base_kernel/rt-thread/src/slab.c:549-857 | A chunk given back to a full zone, or to the first listed one, is the next of its size to be handed out when its zone has none never used; that restores the whole state, max_mem apart. |
| `SlabAnswers.ReallocAnswers` | base_kernel/rt-thread/src/slab.c:688-745 | On a live allocation: the same one, with nothing done, if and only if it is a chunk whose class is that of the request; none, with nothing done, if and only if not and the request cannot be served; otherwise a new one. |
| `SlabAnswers.ReallocLive` | base_kernel/rt-thread/src/slab.c:688-745 | Afterwards exactly the other allocations and the one returned are live. |
| `SlabAnswers.ReallocEnds` | base_kernel/rt-thread/src/slab.c:694-701 | With size 0 rt_realloc frees just its allocation and returns none; without a pointer it allocates, and fails exactly when rt_malloc would. |
| `SlabAnswers.GivenUpIff` | base_kernel/rt-thread/src/slab.c:858-910 | rt_free gives a zone up if and only if its last live chunk is freed and another zone of its size has a free chunk; the zone goes to the cache while that has room, and else its pages become free. |
| `SlabSpec.CalledKeeps` | base_kernel/rt-thread/src/slab.c:488-914 | Each call keeps the invariant and the page account. |
| `SlabSpec.RunKeeps` | base_kernel/rt-thread/src/slab.c:488-914 | So does every run of malloc, free and realloc. |
| `SlabHeap.OthersOnList` | base_kernel/rt-thread/src/slab.c:864-865 | The source's test finds exactly whether another zone is on the list. |
| `SlabHeap.ZoneOfPtr` | base_kernel/rt-thread/src/slab.c:835-837 | The page descriptor of any live chunk leads to its zone. |
| `SlabHeap.PtrPage` | base_kernel/rt-thread/src/slab.c:805-837 | The descriptor of a pointer's page tells a large allocation from a chunk. |
| `SlabHeap.MoveRegions` | base_kernel/rt-thread/src/slab.c:712-741 | When rt_realloc moves an allocation, the bytes it copies from and to lie in the heap and do not meet. |
| `SlabHeap.InHeap` | base_kernel/rt-thread/src/slab.c:488-914 | A live allocation lies in the pages of the heap. |
| `SlabHeap.SlabAllocator.constructor` | base_kernel/rt-thread/src/slab.c:354-405 | All n pages become free, the zone size is chosen, the first pages go to the descriptors; what results is the fresh heap, with every page accounted for. |
| `SlabHeap.ZoneSizeFor` | base_kernel/rt-thread/src/slab.c:384-387 | The doubling loop ends with 32K, 64K or 128K, by the size of the heap. |
| `SlabHeap.SlabAllocator.TakeChunk` | base_kernel/rt-thread/src/slab.c:549-587 | Header, list and pointer of a chunk from the first zone. |
| `SlabHeap.SlabAllocator.OpenZone` | base_kernel/rt-thread/src/slab.c:635-668 | Header, list and pointer of a new zone's first chunk. |
| `SlabHeap.SlabAllocator.MarkZone` | base_kernel/rt-thread/src/slab.c:625-632 | The loop makes every page of the zone point to it. |
| `SlabHeap.SlabAllocator.ClearZone` | base_kernel/rt-thread/src/slab.c:895-901 | The loop makes every descriptor of the zone free, and touches no other. |
| `SlabHeap.SlabAllocator.MallocSmall` | base_kernel/rt-thread/src/slab.c:533-669 | A request below zone_limit. |
| `SlabHeap.SlabAllocator.MallocZone` | base_kernel/rt-thread/src/slab.c:606-669 | The case that needs new pages. |
| `SlabHeap.SlabAllocator.MallocLarge` | base_kernel/rt-thread/src/slab.c:503-531 | A request of zone_limit or more. |
| `SlabHeap.SlabAllocator.Malloc` | base_kernel/rt-thread/src/slab.c:488-677 | All headers, lists, descriptors and counters, and the pointer. |
| `SlabHeap.SlabAllocator.ReturnChunk` | base_kernel/rt-thread/src/slab.c:835-856 | The chunk, and a full zone back on its list. |
| `SlabHeap.SlabAllocator.FindOnList` | base_kernel/rt-thread/src/slab.c:872-874 | The walk to the zone on its list. |
| `SlabHeap.SlabAllocator.Cache` | base_kernel/rt-thread/src/slab.c:872-884 | The zone leaves its list, wherever it stands, for the cache. |
| `SlabHeap.SlabAllocator.FreeSmall` | base_kernel/rt-thread/src/slab.c:832-914 | Release of a chunk. |
| `SlabHeap.SlabAllocator.Release` | base_kernel/rt-thread/src/slab.c:886-910 | The cache over its limit gives a zone's pages back. |
| `SlabHeap.SlabAllocator.FreeLarge` | base_kernel/rt-thread/src/slab.c:807-830 | Release of whole pages. |
| `SlabHeap.SlabAllocator.Free` | base_kernel/rt-thread/src/slab.c:781-914 | All headers, lists, descriptors and counters. |
| `SlabHeap.SlabAllocator.Realloc` | base_kernel/rt-thread/src/slab.c:688-745 | Resulting state, pointer and contents in every case: a moved allocation carries its old bytes, as many as fit, and otherwise no byte changes. |
| `SlabHeap.SlabAllocator.Move` | base_kernel/rt-thread/src/slab.c:712-741 | Allocate, copy, free the old one. |
| `SlabAlign.PowerAlignedIff` | base_kernel/rt-thread/src/slab.c:641-648 | With heap_start on a page boundary, a request of n bytes, n a power of 2, is answered at a multiple of n if and only if the page it is served from begins at one; up to 4096 it always does. |
| `SlabAlign.PowerMayMiss` | base_kernel/rt-thread/src/slab.c:162-163 | Alignment of all power-of-2 sizes does not hold: in a fresh heap of 100 pages, wherever it begins, 8192 bytes come misaligned at once or after one request of 8193. |
| `SlabAlign.ServedFrom` | base_kernel/rt-thread/src/slab.c:488-677 | Before the call, free runs, lists and cache tell which page a request is served from: the first run with enough pages for a large one, else the first zone of its size, the first cached zone or a new one; there is none exactly when rt_malloc fails. |
| `SlabAlign.PowerKept` | base_kernel/rt-thread/src/slab.c:411-469 | zoneindex leaves powers of 2 from 8 to 8192 as they are. |
| `SlabAlign.ChunkAlignedIff` | base_kernel/rt-thread/src/slab.c:641-654 | Every chunk of a zone is as far from a multiple of its power-of-2 size as the zone itself. |
| `Printf.DigitsEval` | base_kernel/rt-thread/src/kservice.c:555-572 | The digits divide produces evaluate to the number. |
| `Printf.DigitsFit` | base_kernel/rt-thread/src/kservice.c:608-660 | They fit the scratch array. |
| `Printf.AtoiReads` | base_kernel/rt-thread/src/kservice.c:574-581 | Below 2^31 skip_atoi reads the number its leading digits denote. |
| `Printf.DecimalText` | base_kernel/rt-thread/src/kservice.c:592-752 | In base 10, for every number, width, precision and flags: blanks and sign, then digits that denote the magnitude, then blanks. |
| `Printf.ReadsBack` | base_kernel/rt-thread/src/kservice.c:574-752 | skip_atoi after the lead of the text gives the magnitude back. |
| `Printf.RoundTrip` | base_kernel/rt-thread/src/kservice.c:574-752 | With ZEROPAD only, any width and precision, skip_atoi of the whole text is the number. |
| `Printf.LeadText` | base_kernel/rt-thread/src/kservice.c:628-714 | The lead has a '-' if and only if the number is negative with SIGN, a '+' if and only if it is not, with SIGN and PLUS; with SPACE instead a blank; the sign stands right before the prefix and behind the padding blanks, which LEFT and ZEROPAD put elsewhere. |
| `Printf.TextWidth` | base_kernel/rt-thread/src/kservice.c:620-749 | A text is exactly as wide as asked or as sign, prefix, precision and digits need, whatever is more; only a sign behind the end of the buffer adds at most one. |
| `Printf.NumeralShort` | base_kernel/rt-thread/src/kservice.c:653-660 | The digits begin with no zero, unless the number is 0. |
| `Printf.HexText` | base_kernel/rt-thread/src/kservice.c:592-752 | In base 16 the digits denote the magnitude, in both letter cases. |
| `Printf.OctalIff` | base_kernel/rt-thread/src/kservice.c:555-572 | In base 8 the digits are octal digits of the number if and only if it is below 8, because divide works in base 16. |
| `Printf.SkipAtoi` | base_kernel/rt-thread/src/kservice.c:574-581 | Value, with the wrap of int, and the position after the digits. |
| `Printf.Divide` | base_kernel/rt-thread/src/kservice.c:555-572 | Remainder and quotient in base 10, or 16 for every other base. |
| `Printf.Digits` | base_kernel/rt-thread/src/kservice.c:653-660 | The digit loop, least significant first. |
| `Printf.Put` | base_kernel/rt-thread/src/kservice.c:677-679 | A character is stored unless the buffer has ended, and always counted. |
| `Printf.Fill` | base_kernel/rt-thread/src/kservice.c:675-680 | A padding loop. |
| `Printf.PutLead` | base_kernel/rt-thread/src/kservice.c:670-714 | Blanks, sign, prefix. |
| `Printf.PutCore` | base_kernel/rt-thread/src/kservice.c:716-749 | Zeros, precision, digits, trailing blanks. |
| `Printf.PrintNumber` | base_kernel/rt-thread/src/kservice.c:592-752 | The buffer holds exactly the specified text as far as it reaches; the position counts all of it. |

## Left out

Weaker than the source, or under a condition of its own:

- TimerSpec.StartedKeeps: rt_timer_start is one step; its two critical sections and the tick read between them are not interleaved with other calls.
- TimerSpec.StoppedKeeps: rt_timer_stop is one step, although the flag is cleared after interrupts are enabled again.
- TimerSpec.RunKeeps: periodic timers, and timers that callbacks start, have a delay above 0; with 0 rt_timer_check need not end. Delays are below RT_TICK_MAX / 2, as the source asserts.
- TimerSpec.TickedKeeps: the timers are checked on every tick, and no tick arrives while a callback runs.
- TimerSpec.StartTimes: for a timer that no other timer's callback and no other call of the run names; what its own callback does is arbitrary, and so are other timers and their callbacks. TimerSpec.FiringTimes is the case in which its own callback does not name it either.
- Timer.TimerList.Timeout: what a callback does besides starting and stopping timers is not modelled; which timer calls it makes is arbitrary at every tick.
- MemHeapSpec.RunKeeps: requests are small enough that RT_ALIGN does not wrap (`RoundedCovers` says when it would), RT_ALIGN_SIZE is 4 (rtconfig.h is not part of this model).
- SmallMemSpec.RunKeepsLowest: the same about RT_ALIGN; a run in which a shrink hides room keeps the other invariants.
- SmallMem.SmallMem.Malloc: a request whose search would never end is excluded; `SmallMemSpec.SearchEndsIff` says that this is possible only in a heap with less than MIN_SIZE_ALIGNED bytes between its headers. The same holds of SmallMem.SmallMem.Realloc.
- SmallMem.SmallMem.PlugHoles: heap_end's prev word is written but never read, so nothing is said about it.
- SmallMem.SmallMem.Free: a pointer outside the heap violates an assertion of the source and is excluded.
- SlabSpec.RunKeeps: each call is one step; the window in rt_malloc between releasing the heap lock and having new pages is not interleaved with other calls.
- SlabHeap.SlabAllocator.constructor: the pages are numbered from the page-aligned start; the alignment of a raw address range (slab.c:361-370) and its error return for an empty one are left out.
- Mutex.RunKeeps: one mutex with RT_IPC_FLAG_PRIO, in runs without a 256th hold; nobody else changes the priority of its owner or waiters, so nested mutexes are not covered.
- Mutex.HandOff: the new owner does not inherit from the waiters that remain; they are sorted, so none is more urgent.
- Semaphore.Conservation: for runs in which no release finds the value at 65535.
- Semaphore.ForeignKeeps: nobody but this semaphore's own calls suspends threads on its wait list or resumes its waiters without an error; rt_thread_resume by a third party on a waiter, or its first section, is excluded, also for mutexes.
- Event.RtEvent.Recv: the AND or the OR option is given, as the source asserts.
- Mailbox.RtMailbox.Send: the remaining timeout of a sender or receiver that looks again, and whether a call is the first look, another one or an interrupt handler's, are parameters of the step.
- MessageQueue.RtMessageQueue.Take: the same.
- MessageQueue.RtMessageQueue.Fill: the message is at most msg_size bytes; rt_mq_send and rt_mq_urgent return -RT_ERROR for a longer one before they touch the queue.
- Printf.PrintNumber: with RT_PRINTF_PRECISION and RT_PRINTF_SPECIAL, without RT_PRINTF_LONGLONG.
- Printf.RoundTrip: for the untruncated text.

Not modelled:

- the semaphores and locks that protect the heaps themselves: heap calls are steps
- rt_calloc, hooks, memory statistics lists, heaps spread over several memheaps
- soft timers, the timer thread, rt_timer_control, timer detach and delete: interference during a callback is unconstrained there
- starting and stopping a thread's own timer in suspend, resume and take: a time-out may strike any waiter at any time instead
- thread exit, detach and delete, the idle thread, stacks, context switches, rt_system_scheduler_start
- rt_current_priority, which the code does not keep in step with the current thread
- detach and delete of IPC objects, rt_sem_control, rt_mutex_control, signals
- mempool.c, module.c, object.c, device.c, irq.c, components.c, singly linked lists
- rt_vsnprintf's parsing of formats, rt_kprintf, the string functions of kservice.c
- drivers, the STM32 headers, the file system, the application
