# Verified models of the RT-Thread kernel and two of its build tools

A Dafny model of the parts of the RT-Thread 4.0.3 kernel that are hardest to get right, and proofs of
what every run of them keeps: three memory allocators, the timer skip list, the scheduler with its thread
states, the blocking objects (mailbox, message queue, mutex, event flags), and from the build tools the
Kconfig evaluator and the worst-case stack analysis.

The kernel is modelled on one processor, with hooks and signals off. In the thread calls and the blocking
objects a region of the source that runs with interrupts disabled is one step, and so is the look at a
thread's state that a call takes before its first region; anything can happen between two steps. An
allocator call is one step. Code that changes things in place is a class whose methods change fields;
each method is tied to a function on values, and the properties are proved of that function or of the
state all methods keep. `dafny verify dfyconfig.toml` checks everything.

| file | what it models |
|---|---|
| `KconfigModel.dfy`, `KconfigExpr.dfy` | Kconfig symbols and expressions; printing and parsing expressions |
| `KconfigGrammar.dfy` | every way of writing an expression, and that it is read as what it means |
| `KconfigCache.dfy` | lazily cached symbol values and their invalidation |
| `KconfigMeaning.dfy` | what the value of a symbol means, rule by rule |
| `WorstCaseStack.dfy` | the worst-case stack search over a call graph |
| `PageAllocator.dfy`, `SlabZones.dfy` | the slab allocator: page runs, and zones of chunks on top of them |
| `Lists.dfy`, `Ring.dfy`, `BlockLayout.dfy` | lists; doubly linked rings; heaps cut into blocks, for both heaps below |
| `MemHeap.dfy` | the memory-heap allocator |
| `SmallMem.dfy` | the small-memory heap, down to the bytes of its headers |
| `TimerSkipList.dfy` | timers in a skip list of any number of rows |
| `Bitmap.dfy`, `Scheduler.dfy` | the priority bitmap, ready queues, where threads belong |
| `ThreadCalls.dfy`, `Interference.dfy` | the thread calls region by region; what may come between the regions |
| `ThreadEffects.dfy` | what each thread call does to the threads and the queues |
| `QueueOrder.dfy`, `KernelObject.dfy` | order in the ready queues; the thread calls in place |
| `WaitList.dfy` | wait lists, and when a wake-up is not lost |
| `Mailbox.dfy`, `MessageQueue.dfy`, `Mutex.dfy`, `EventFlags.dfy` | the blocking objects |
| `Answers.dfy` | what callers learn from the answers of a mailbox and of a message queue |

Where the code and its comments differ, the model follows the code:

- `rt_malloc(0)` in `slab.c` returns no block, though line 154 says it returns one.
- Lines 152-153 of `slab.c` say that every power-of-two request is aligned to its size. That holds up to a
  page. A larger one is aligned exactly when the page it comes from is: the lowest pages for a block of its
  own, or the zone's first page for a chunk (`Allocator.Malloc`). The first request of 8192 bytes is already
  misaligned in every heap of 3 to 1024 pages that starts on an even page (`FirstBigBlock`).
- The comment at line 527 of `slab.c` says that the free list is tried before unused space. The code does
  it the other way round.
- Line 119 of `mem.c` calls the end block "always unused". The code marks it used.
- `rt_realloc` in `mem.c` moves a block also when it shrinks by no more than a header and twelve bytes, so a
  request for less memory can fail; the old block then stays as it was.

Five more properties one would expect do not hold of the code, and their exact conditions are proved:

- The search for a block in the small-memory heap stops before the end block exactly in heaps of at least
  twelve bytes (`SearchStops`); in smaller ones it does not end (`SearchNeverEnds`). It never finds an exact
  fit at the very end of the heap (`Heap.Malloc`), so a request for the whole heap is always refused
  (`WholeHeapRefused`). A request within four of 2^32 wraps round and gets the smallest block (`NeedCovers`).
- Threads are not always in the list that goes with their state. `rt_thread_resume` and `rt_thread_delete`
  enable interrupts between their regions and do not look at the thread again. A timeout that comes after a
  delete took a thread off its wait list makes it ready, and the delete then closes it and links it into the
  defunct list while it is in a ready list (`TimeoutBreaksDelete`). A second resume between the regions of
  the first puts a thread into its ready list twice (`ResumeBreaksResume`). Over all interleavings every
  thread is where it belongs in every state exactly when no region finds its thread in a list again, or with
  its timer started again, and no closed thread goes to sleep or waits (`PlacedExactly`). It is enough that
  nobody touches a thread while a resume or a delete is engaged with it (`UndisturbedRuns`), but not needed:
  a thread may have been moved and be back (`TouchMayBeHarmless`).
- A thread that deletes itself and then sleeps, or waits for a limited time, has its timer running though it
  is closed; when the timer fires the thread is taken off the defunct list and runs again (`ClosedSleeper`).
  That is so in builds without RT_DEBUG. With it, an assertion in `rt_timer_control` stops the kernel first,
  since deleting the thread has reset the type of its timer.
- The test whether a memory-heap block can grow in place is right exactly for sizes whose sum with twelve
  does not wrap round 32 bits (`CanGrowIsRight`); two calls lead to a heap where it goes wrong
  (`WrappedTestAccepts`).
- The values that a symbol says can be assigned to it are not always those that it then has, as the
  documentation of `set_value` says. They are, except exactly when the visibility and the selects of the
  symbol are m and an imply of y is in force (`AssignableSticks`): then it offers m, and reads back y
  whatever is set (`AssignedMReadsY`).

## Model

| member | source | states |
|---|---|---|
| `KconfigExpr.RoundTrip` | rt-thread/tools/kconfiglib.py:5910-5951 | parsing the tokens of a printed expression consumes all of them and gives the right-associated form of the same expression, for every expression and every treatment of m |
| `KconfigExpr.RoundTripKeepsValue` | rt-thread/tools/kconfiglib.py:5838-5892 | with m left as it is, the expression read back has the value of the printed one under every configuration and assignment |
| `KconfigExpr.RightAssocValue` | rt-thread/tools/kconfiglib.py:5847-5861 | regrouping a chain of && or of \|\| to the right keeps its value |
| `KconfigGrammar.EveryWriting` | rt-thread/tools/kconfiglib.py:3264-3348 | for every way of writing an expression, with any parentheses that precedence allows or asks for, and every treatment of m: all of it is read, as that expression with chains of && and of \|\| grouped to the right |
| `KconfigGrammar.AcceptsExactly` | rt-thread/tools/kconfiglib.py:3264-3348 | a line is read as a whole if and only if it is a way of writing some expression |
| `KconfigGrammar.OneMeaning` | rt-thread/tools/kconfiglib.py:3264-3348 | if a line can be taken as written in two ways, both have the same value under every configuration and assignment |
| `KconfigGrammar.WritingKeepsValue` | rt-thread/tools/kconfiglib.py:5838-5892 | with m left as it is, what is read has the value of what was written |
| `KconfigGrammar.RewriteCuts` | rt-thread/tools/kconfiglib.py:3322-3327 | with m rewritten, an expression whose comparisons do not mention m has the value it would have if m were no more than MODULES |
| `KconfigExpr.AndLeft` | rt-thread/tools/kconfiglib.py:3305-3312 | if the tokens behind an && parse to z, a left operand printed before them parses to the join of its right-associated form with z |
| `KconfigExpr.OrLeft` | rt-thread/tools/kconfiglib.py:3264-3303 | the same for \|\|, whose operands may be && chains without parentheses |
| `KconfigExpr.Parser.Factor` | rt-thread/tools/kconfiglib.py:3314-3348 | the cursor ends where the parse of the remaining tokens ends, with the same expression, and malformed input is an error |
| `KconfigExpr.Parser.AndExpression` | rt-thread/tools/kconfiglib.py:3305-3312 | the same for chains of && |
| `KconfigExpr.Parser.Expression` | rt-thread/tools/kconfiglib.py:3264-3303 | the same for chains of \|\| |
| `KconfigCache.InvalidationSound` | rt-thread/tools/kconfiglib.py:4737-4766 | after a user value changes, clearing the symbol and, through dependents, only those with a cached visibility leaves a cache whose every entry is the value computed from scratch |
| `KconfigCache.KeptValue` | rt-thread/tools/kconfiglib.py:4746-4766 | a value that stays cached is not affected by the change, though evaluation looked at only some of the symbols it mentions |
| `KconfigCache.FrameValue` | rt-thread/tools/kconfiglib.py:4166-4384 | two assignments that agree on the symbols evaluation looks at give a symbol the same value, and it looks at the same symbols |
| `KconfigCache.FrameAssignable` | rt-thread/tools/kconfiglib.py:4685-4729 | the same for the assignable values |
| `KconfigCache.ScratchSolves` | rt-thread/tools/kconfiglib.py:4166-4384 | for an acyclic configuration the values computed from scratch by rank satisfy every symbol's defining equation |
| `KconfigCache.Kconfig.constructor` | rt-thread/tools/kconfiglib.py:3354-3396 | a freshly parsed configuration has complete dependents and a right cache |
| `KconfigCache.Kconfig.BuildDep` | rt-thread/tools/kconfiglib.py:3354-3396 | the dependents of a symbol that can change are exactly the defined symbols that mention it |
| `KconfigCache.Kconfig.ExprVal` | rt-thread/tools/kconfiglib.py:5838-5892 | short-circuit evaluation over cached values gives the value of the expression and leaves all it looked at cached |
| `KconfigCache.Kconfig.Visibility` | rt-thread/tools/kconfiglib.py:6145-6173 | the visibility computed over cached values is the one from scratch, and the cache stays right |
| `KconfigCache.Kconfig.TriVal` | rt-thread/tools/kconfiglib.py:4307-4384 | reading a tristate value returns the value computed from scratch and keeps every cached value right |
| `KconfigCache.Kconfig.StrVal` | rt-thread/tools/kconfiglib.py:4166-4304 | the same for string values, with ranges and defaults |
| `KconfigCache.Kconfig.Assignable` | rt-thread/tools/kconfiglib.py:4685-4729 | the same for the assignable values |
| `KconfigCache.Kconfig.RecInvalidate` | rt-thread/tools/kconfiglib.py:4737-4766 | terminates because each call uncaches a symbol, and clears the least set that holds the symbol and, with each member, its dependents that had a cached visibility; all symbols for MODULES |
| `KconfigCache.Kconfig.SetValue` | rt-thread/tools/kconfiglib.py:4430-4517 | is refused if and only if the value has the wrong form for the type; otherwise it is recorded; every cached value stays right |
| `KconfigCache.Kconfig.UnsetValue` | rt-thread/tools/kconfiglib.py:4519-4526 | forgets the user value and keeps every cached value right |
| `KconfigMeaning.ValueByCuts` | rt-thread/tools/kconfiglib.py:5838-5892 | an expression is at least m, or y, if and only if the same formula holds of truth values when every symbol is cut there |
| `KconfigMeaning.StringsCompare` | rt-thread/tools/kconfiglib.py:6220-6223 | comparing strings is equality and the dictionary order |
| `KconfigMeaning.VisibilityMeans` | rt-thread/tools/kconfiglib.py:6145-6173 | a symbol is invisible if and only if no prompt condition holds; a tristate is as visible as its most visible prompt, any other is never m-visible |
| `KconfigMeaning.SelectsForce` | rt-thread/tools/kconfiglib.py:4358-4371 | the value of a symbol is never less than what selects it, and a bool, or a symbol with an imply of y in force, is never m |
| `KconfigMeaning.UserIsFollowed` | rt-thread/tools/kconfiglib.py:4335-4371 | a visible symbol with a user value has, before a possible m is promoted, the nearest value to it of those from the selects up to the visibility |
| `KconfigMeaning.DefaultIsTaken` | rt-thread/tools/kconfiglib.py:4339-4371 | otherwise it has the least value that is no less than the selects, the first default whose condition holds, cut to that condition, and the implies if its dependencies hold |
| `KconfigMeaning.FixedValues` | rt-thread/tools/kconfiglib.py:4166-4320 | constants have the value they are made with, and undefined symbols their name |
| `KconfigMeaning.AssignableSticks` | rt-thread/tools/kconfiglib.py:4685-4729 | a value is assignable if and only if a visible symbol set to it reads back as it, except exactly for m and y where visibility and selects are m and an imply of y is in force |
| `KconfigMeaning.AssignedMReadsY` | rt-thread/tools/kconfiglib.py:4685-4729 | a configuration with such a symbol: it offers m, and reads back y when m is set |
| `KconfigMeaning.AssignableAscends` | rt-thread/tools/kconfiglib.py:4685-4729 | the assignable values come in order, each once, and there are none but for bool and tristate |
| `KconfigMeaning.ValueIfSet` | rt-thread/tools/kconfiglib.py:4166-4384 | setting a symbol changes nothing that its own value is computed from |
| `KconfigMeaning.TextMeans` | rt-thread/tools/kconfiglib.py:4282-4293 | a string symbol has the string of the user if it is visible, otherwise the first default whose condition holds, or nothing |
| `KconfigMeaning.NumberMeans` | rt-thread/tools/kconfiglib.py:4196-4280 | a number of the user stands if the symbol is visible and the range in force lets it pass; otherwise the first default whose condition holds stands if it passes, and is moved to the nearer end of the range if not |
| `KconfigMeaning.NumberInRange` | rt-thread/tools/kconfiglib.py:4196-4280 | so with a range in force the number lies in it, and a default is moved no further than it has to be |
| `KconfigMeaning.StoredForm` | rt-thread/tools/kconfiglib.py:4470-4471 | n, m and y given as strings are stored as the values they name, and anything else as it is |
| `KconfigMeaning.FormsAccepted` | rt-thread/tools/kconfiglib.py:4484-4491 | which values each type of symbol accepts |
| `WorstCaseStack.Analysis.CalcAll` | rt-thread/tools/WCS.py:292-299 | every function gets "unbounded" exactly when a pointer call or a cycle can be reached from it, otherwise the largest total of local stacks over all call paths |
| `WorstCaseStack.Analysis.Calc` | rt-thread/tools/WCS.py:246-290 | terminates on every finite call graph, keeps results already found, marks functions still being worked on only as unbounded, and bounded functions take over exactly the unresolved calls they can reach |
| `WorstCaseStack.RightIsUnique` | rt-thread/tools/WCS.py:245-299 | at most one result is right, so the visiting order cannot matter |
| `WorstCaseStack.BoundedCallees` | rt-thread/tools/WCS.py:257-279 | a function without pointer calls is bounded if and only if all its callees are |
| `WorstCaseStack.MaxOfCallees` | rt-thread/tools/WCS.py:281-290 | adding the local stack to the largest result of the callees gives the largest total over all paths |
| `PageAllocator.CanonicalUnique` | rt-thread/src/slab.c:236-334 | two canonical lists of free runs with the same free pages are the same list |
| `PageAllocator.TakeEffect` | rt-thread/src/slab.c:236-270 | taking pages keeps the list canonical and removes exactly the pages handed out, all of which were free |
| `PageAllocator.TakeLowestAll` | rt-thread/src/slab.c:244-266 | the result is the lowest address with that many free pages in a row, and there is a result whenever there is such an address |
| `PageAllocator.TakeFits` | rt-thread/src/slab.c:236-270 | the lowest fit and the count of its pages, or no change when and only when there is no fit |
| `PageAllocator.GiveEffect` | rt-thread/src/slab.c:272-325 | giving pages back keeps the list canonical and adds exactly those pages |
| `PageAllocator.GiveUndoesTake` | rt-thread/src/slab.c:236-325 | freeing what was allocated restores exactly the earlier list |
| `PageAllocator.GiveCommutes` | rt-thread/src/slab.c:272-325 | the order in which two runs are freed does not matter |
| `PageAllocator.PageHeap.Alloc` | rt-thread/src/slab.c:236-270 | the walk over the list finds the lowest fit, and fails exactly when no such run of pages is free |
| `PageAllocator.PageHeap.Free` | rt-thread/src/slab.c:272-325 | the walk joins the pages with their neighbours into the canonical list |
| `SlabZones.ZoneIndexBest` | rt-thread/src/slab.c:401-459 | every small request gets the smallest chunk size that holds it, and the index determines the size |
| `SlabZones.LittleWaste` | rt-thread/src/slab.c:401-459 | a chunk exceeds the request by less than an eighth of it, or of 64 bytes |
| `SlabZones.TakeChunkOk` | rt-thread/src/slab.c:539-577 | taking a chunk keeps the split of a zone into live, freed and never-used chunks and the count of free ones, and makes exactly one chunk live |
| `SlabZones.ChunkOrder` | rt-thread/src/slab.c:548-577 | chunks are first used in the order of their addresses and none again before all were used; then the last to come back goes out first |
| `SlabZones.PutChunkOk` | rt-thread/src/slab.c:830-846 | putting a live chunk back keeps it too, and makes exactly that chunk free |
| `SlabZones.AllFreeAgain` | rt-thread/src/slab.c:854-855 | when the free count reaches the number of chunks, no chunk of the zone is live |
| `SlabZones.FullIsOut` | rt-thread/src/slab.c:539-577 | a zone that counts no free chunk has every chunk in the hands of a caller |
| `SlabZones.PagesFor` | rt-thread/src/slab.c:493-497 | the fewest pages that hold a number of bytes |
| `SlabZones.NewZoneOk` | rt-thread/src/slab.c:625-647 | a new zone holds its header and then chunks that leave less than one chunk unused at either end, one of which is live |
| `SlabZones.LiveBlocksApart` | rt-thread/src/slab.c:478-667 | two live blocks never overlap, in every state the invariant allows |
| `SlabZones.LiveNotFree` | rt-thread/src/slab.c:478-667 | no page of a live block is on the free page list |
| `SlabZones.LiveInHeap` | rt-thread/src/slab.c:478-667 | every live block lies inside the heap, behind the page table |
| `SlabZones.PagesConserved` | rt-thread/src/slab.c:344-904 | in every state the invariant allows, each page behind the page table is in exactly one of a free run, a zone in use, a kept zone and a large block that is out, and no other page is in any |
| `SlabZones.ZoneOfLive` | rt-thread/src/slab.c:789-828 | the page table leads from a live block to its own zone or to its number of pages |
| `SlabZones.PowerOfTwoAligned` | rt-thread/src/slab.c:631-638 | every chunk of a new zone of power-of-two chunks is aligned to its size if and only if the zone is |
| `SlabZones.ChunkOfPower` | rt-thread/src/slab.c:401-459 | a request of a power of two from 8 bytes on gets a chunk of exactly that size |
| `SlabZones.FirstBigBlock` | rt-thread/src/slab.c:152-153 | the first block of 8192 bytes that a fresh heap gives out is aligned to its size if and only if the page behind the page table is even; in 3 to 1024 pages from an even page on it is the second page, and misaligned |
| `SlabZones.Allocator.constructor` | rt-thread/src/slab.c:344-395 | the invariant holds of a fresh heap of any number of pages, and its free pages are exactly those behind the page table |
| `SlabZones.Allocator.ZonePagesFor` | rt-thread/src/slab.c:372-376 | the zone size doubles up to 128 KB while twice it is below a 1024th of the heap |
| `SlabZones.Allocator.Malloc` | rt-thread/src/slab.c:478-667 | no block exactly for size zero or when no chunk, empty zone or pages are left, and then nothing changes: for a small request callers hold every chunk of every zone of its size, less than a chunk is unused at either end of each, no zone is kept and no run of free pages is long enough for one; for a large request no run of free pages is long enough. Otherwise one new live block inside the heap, of the size the request calls for: a large one less than a page longer, a small one less than an eighth, or of 64 bytes; on a multiple of 8, and a power-of-two request aligned to its size if and only if the page it comes from is, and always up to a page; max_mem is the most in use so far |
| `SlabZones.Allocator.Free` | rt-thread/src/slab.c:771-904 | exactly that block stops being live, max_mem stays, and the invariant is kept |
| `SlabZones.Allocator.ReleaseChunk` | rt-thread/src/slab.c:822-901 | a chunk comes back; its zone goes exactly when this was its last live chunk and another zone is on its list |
| `SlabZones.Allocator.Retire` | rt-thread/src/slab.c:857-901 | a wholly free zone joins the kept ones while there are fewer than ZONE_RELEASE_THRESH; otherwise the kept ones stay and exactly its pages become free |
| `BlockLayout.LayoutUnique` | rt-thread/src/memheap.c:138-591 | the blocks of a heap are determined by the live allocations alone, so freeing what was just allocated restores every block |
| `BlockLayout.LiveApart` | rt-thread/src/mem.c:272-615 | two live allocations never overlap and lie, with a header between them, inside the heap |
| `BlockLayout.PoolAccounted` | rt-thread/src/memheap.c:62-65 | free bytes, used bytes and headers add up to the pool |
| `BlockLayout.GiveBack` | rt-thread/src/memheap.c:535-591 | freeing a block with its free neighbours joined keeps a layout, and adds to the free bytes its size and a header for each join |
| `BlockLayout.CutOff` | rt-thread/src/memheap.c:408-470 | cutting a used block, and joining the rest with a free block behind it, keeps a layout and counts the free bytes |
| `MemHeap.RoundedCovers` | rt-thread/src/memheap.c:149-151 | the rounded size covers the request if and only if rounding does not wrap |
| `MemHeap.CanGrowIsRight` | rt-thread/src/memheap.c:340-355 | for every block of at least twelve bytes, free block behind it and size, the test for growing in place is right if and only if its sum does not wrap; when it wraps it accepts what does not fit |
| `MemHeap.WrappedTestAccepts` | rt-thread/src/memheap.c:340-355 | behind an allocation of twelve bytes in a pool of 256 the test accepts every size within twelve of 2^32 |
| `MemHeap.Pool.constructor` | rt-thread/src/memheap.c:50-119 | one free block up to a used tail, with both lists and the counters right |
| `MemHeap.Pool.FirstFit` | rt-thread/src/memheap.c:172-184 | the first block of the free list with the bytes asked for, or none has them |
| `MemHeap.Pool.Alloc` | rt-thread/src/memheap.c:138-263 | nothing exactly when the rounded size is not below the free bytes or no free block has it; otherwise one new live block, in the first block of the free list that has the bytes: all of it, or the front if the rest holds a header and twelve bytes, and then the rest is first on the free list; blocks tile the pool, free neighbours are merged, the free list is exactly the unused blocks, the counters agree and the peak is the most in use so far |
| `MemHeap.Pool.Free` | rt-thread/src/memheap.c:495-592 | exactly that allocation ends, and all of that is kept; a block that is not joined to a free one before it becomes the first on the free list |
| `MemHeap.Pool.Realloc` | rt-thread/src/memheap.c:284-492 | size zero frees, no pointer allocates; a block stays in place exactly when it is big enough or the free block behind it is, else it moves, and nothing changes exactly when it can do neither; in place it keeps its size if that exceeds the new one by no more than a header and twelve bytes, and has the new size otherwise; all of that is kept |
| `SmallMem.HeaderReadable` | rt-thread/src/mem.c:98-114 | a header can be read back from its twelve bytes |
| `SmallMem.NeedCovers` | rt-thread/src/mem.c:286-303 | the block a request gets covers it if and only if rounding up does not wrap; a request that wraps gets the smallest block |
| `SmallMem.SearchStops` | rt-thread/src/mem.c:305-307 | the search bound for an accepted request lies before the end block if and only if the heap holds the smallest block |
| `SmallMem.SearchNeverEnds` | rt-thread/src/mem.c:305-310 | in a smaller heap every block, also the end block whose next is itself, is below the bound and none will do |
| `SmallMem.WholeHeapRefused` | rt-thread/src/mem.c:305-310 | a request of exactly the heap's size is refused in every state |
| `SmallMem.ChainInsert` | rt-thread/src/mem.c:326-347 | the headers written for a new block link it in order, both ways |
| `SmallMem.ChainRemove` | rt-thread/src/mem.c:176-192 | the headers written to join two blocks take one out of the order |
| `SmallMem.HeaderWriteKeeps` | rt-thread/src/mem.c:326-347 | writing the header of a block changes no byte of a live allocation |
| `SmallMem.DataWriteKeeps` | rt-thread/src/mem.c:506-510 | writing inside an allocation changes no header and no other allocation |
| `SmallMem.PluggedLowest` | rt-thread/src/mem.c:170-191 | joining holes leaves the lowest free block where it is: neither block that goes away is it |
| `SmallMem.HeapSize` | rt-thread/src/mem.c:204-228 | the heap gets all the room between the aligned addresses but two headers, or none exactly if that does not fit |
| `SmallMem.Heap.constructor` | rt-thread/src/mem.c:204-255 | for addresses that leave room for two headers, one free block of the room between them and a used end block, with their headers in memory |
| `SmallMem.Heap.Malloc` | rt-thread/src/mem.c:272-410 | the lowest block that fits, all of it or the front if the rest holds a header and the smallest block, or nothing exactly when every free block is too small or an exact fit at the end of the heap; other allocations keep their bytes, blocks tile the heap, prev and next agree, free neighbours are merged, lfree is the lowest free block, used_mem the size of the used ones and max_mem its highest value so far |
| `SmallMem.Heap.Free` | rt-thread/src/mem.c:552-615 | exactly that allocation ends, other allocations keep their bytes, and all of that is kept |
| `SmallMem.Heap.PlugHoles` | rt-thread/src/mem.c:156-194 | a free block is joined with its free neighbours; links, header bytes and lfree stay right and no allocation changes |
| `SmallMem.Heap.Realloc` | rt-thread/src/mem.c:421-516 | the result holds the first bytes of the old block, up to the smaller size; a block of the same size or much too big stays in place, any other moves; no result, and no change, exactly when it has to move and there is no room; size zero frees; no pointer allocates; a pointer outside the heap comes back; on every path other allocations keep their bytes |
| `SmallMem.Heap.Store` | rt-thread/src/mem.c:272-410 | a caller writing into its own allocation disturbs no header and no other allocation |
| `TimerSkipList.DiffTellsOrder` | rt-thread/src/timer.c:378-385 | the wrapped comparison orders times correctly that are later by less than half the tick range or earlier by at most two ticks more than half |
| `TimerSkipList.OrderExactly` | rt-thread/src/timer.c:378-385 | of times less than the tick range apart, it orders exactly those correctly |
| `TimerSkipList.UpperIsSubsequence` | rt-thread/src/timer.c:398-410 | in every state an upper row is a subsequence of each row below it |
| `TimerSkipList.Timers.Start` | rt-thread/src/timer.c:315-412 | the timer is pending with its true timeout; every row stays sorted by true time with equal timeouts in starting order, and nested, for any number of rows |
| `TimerSkipList.Timers.Search` | rt-thread/src/timer.c:361-389 | entering each row below the last timer passed above still finds the place behind all timers due no later |
| `TimerSkipList.Timers.Link` | rt-thread/src/timer.c:395-412 | the timer joins the full row and as many rows above as the counter has pairs of zero bits |
| `TimerSkipList.Timers.Stop` | rt-thread/src/timer.c:442-466 | takes exactly this timer out of every row, and fails for one that is not active |
| `TimerSkipList.Timers.NextTimeout` | rt-thread/src/timer.c:114-134 | the timeout of a pending timer that no other precedes, or RT_TICK_MAX for none |
| `TimerSkipList.Timers.Check` | rt-thread/src/timer.c:533-598 | terminates and calls, of the timers pending at entry, exactly those whose time has come, each once, in order of timeout with ties in starting order; periodic ones are pending again, none that is due is left, and the local list holds exactly the one-shot ones |
| `TimerSkipList.Drive` | rt-thread/src/timer.c:315-598 | in every run that makes, starts and stops timers, with delays below half the tick range and periods above zero, and checks them at every tick, each pending timeout is still to come and less than half the range away, so what `Start` and `Check` ask holds at each call |
| `Bitmap.FfsFirst` | rt-thread/src/kservice.c:1289-1333 | the table search gives one more than the least bit set, for every 32-bit word but zero |
| `Scheduler.SearchIsScan` | rt-thread/src/scheduler.c:158-180 | in the one-level and the two-level form the bitmap search finds the first list that is not empty, and the group is zero exactly when there is none |
| `Scheduler.IndexInsert` | rt-thread/src/scheduler.c:726-733 | setting the bits on insertion keeps them equal to which lists are not empty |
| `Scheduler.IndexRemove` | rt-thread/src/scheduler.c:815-827 | so does clearing them when a list becomes empty |
| `ThreadCalls.StepKeeps` | rt-thread/src/thread.c:80-851 | every step of create, startup, suspend, resume, timeout, sleep, block, yield, priority change, exit, delete, scheduling and critical sections, region by region where a call has several, keeps every thread where it belongs, unless a closed thread goes to sleep or waits or a region finds its thread in a list or with its timer running |
| `ThreadCalls.EveryRun` | rt-thread/src/thread.c:80-851 | in every state of every interleaving without such a step, a READY thread is in the list of its priority and not current, or a delete of it is under way; who is in a ready list is READY; a RUNNING thread is current and in no list; a running thread timer means SUSPEND; nobody is in two lists or twice in one |
| `ThreadCalls.PlacedExactly` | rt-thread/src/thread.c:80-851 | over all interleavings of all regions, every thread is where it belongs in every state if and only if no such step is taken |
| `ThreadCalls.SpoilsBreaks` | rt-thread/src/thread.c:434-816 | a region that finds its thread in a list or with its timer running, and a sleep or wait of a closed thread, always leaves a thread where it does not belong |
| `ThreadCalls.TimersExactly` | rt-thread/src/thread.c:80-851 | after any interleaving without such a step and one step more, an active timer means SUSPEND if and only if that step does not start the timer of a closed thread, nor make ready or close a thread whose timer has been started since the call took it |
| `ThreadCalls.DeleteInSteps` | rt-thread/src/thread.c:434-470 | the look and the three regions of a delete with nothing between them do what the call does with interrupts disabled |
| `ThreadCalls.DeleteNewInSteps` | rt-thread/src/thread.c:434-470 | so do its last two regions for a thread that was never started |
| `ThreadCalls.ResumeInSteps` | rt-thread/src/thread.c:786-816 | so do the look and the two regions of a resume |
| `ThreadCalls.SleepTimer` | rt-thread/src/thread.c:502-521 | going to sleep starts the timer, and the thread is then SUSPEND if and only if it was neither closed nor never started |
| `ThreadCalls.BlockTimer` | rt-thread/src/ipc.c:83-129 | a wait puts the thread on the wait list whatever rt_thread_suspend returned; its timer is active without SUSPEND if and only if the wait is timed and the thread was closed or never started |
| `Interference.TimeoutBreaksDelete` | rt-thread/src/thread.c:434-470 | a run from the start in which a timeout between the first two regions of a delete leaves a closed thread in a ready list and in the defunct list |
| `Interference.ResumeBreaksResume` | rt-thread/src/thread.c:786-816 | a run from the start in which a resume between the two regions of another leaves a thread twice in its ready list |
| `Interference.UndisturbedRuns` | rt-thread/src/thread.c:80-851 | every thread is where it belongs throughout every run in which no call or timeout touches a thread that a resume or delete is engaged with and no closed thread goes to sleep or waits |
| `Interference.TouchMayBeHarmless` | rt-thread/src/thread.c:786-816 | from a state that is reached, a run in which another resume and a suspend come between the look and the first region of a resume, and every thread is where it belongs in every state |
| `Interference.Untouched` | rt-thread/src/thread.c:80-851 | a step that is not about a thread puts it into no list, starts no timer of it and does not make it run unless it was ready |
| `Interference.ClosedSleeper` | rt-thread/src/thread.c:434-521 | a run from the start in which a thread deletes itself and then sleeps, or waits for a limited time, leaves its timer running while it is closed, and after the timeout the thread is off the defunct list and runs |
| `Scheduler.ScheduleIsUrgent` | rt-thread/src/scheduler.c:414-534 | after an unlocked rt_schedule with a ready thread the current one runs, no ready thread in a list is more urgent, and a running thread gave way only to a more urgent one or, yielding, to one as urgent |
| `ThreadEffects.ScheduleMeans` | rt-thread/src/scheduler.c:414-534 | locked or with no ready thread nothing changes; otherwise the current thread stays if it runs and is more urgent than all, or as urgent and does not yield; if not, the first thread of the most urgent list runs, and the old one, if it ran, goes to the end of its list; all other threads stay as they are |
| `ThreadEffects.YieldMeans` | rt-thread/src/thread.c:479-492 | a running thread that yields gives way to the first thread that is as urgent or more, and goes to the end of its list; with none it goes on |
| `ThreadEffects.RoundRobin` | rt-thread/src/scheduler.c:414-534 | while the threads of the most urgent priority only yield, after k yields the k-th behind the first runs and the others follow in their order, and after as many yields as there are threads the first runs again |
| `ThreadEffects.PriorityMeans` | rt-thread/src/thread.c:644-685 | the priority becomes the new one and nothing else of the thread changes; a READY thread goes to the end of the list of its new priority, any other stays where it is; all other threads keep their places and order |
| `ThreadEffects.SuspendMeans` | rt-thread/src/thread.c:737-775 | a READY or RUNNING thread is suspended, its timer stopped, and in no list; any other is left alone, and so are all other threads |
| `ThreadEffects.ResumeMeans` | rt-thread/src/thread.c:786-816 | a suspended thread is off its wait list with its timer stopped and last in the list of its priority, or RUNNING if it is current; any other is left alone, and so are all other threads |
| `ThreadEffects.StartupMeans` | rt-thread/src/thread.c:289-320 | a new thread is READY at the priority it was made with, last in that list |
| `ThreadEffects.SleepMeans` | rt-thread/src/thread.c:502-521 | a running thread that sleeps is suspended with its timer active and in no list |
| `ThreadEffects.BlockMeans` | rt-thread/src/ipc.c:83-129 | one that waits is suspended on the wait list, with its timer active exactly if the wait is timed |
| `ThreadEffects.TimeoutMeans` | rt-thread/src/thread.c:829-850 | a thread whose time is up has its timer stopped and is ready behind those of its priority; if it is more urgent than the running thread and all ready ones, and the scheduler is not locked, it runs at once |
| `ThreadEffects.LockMeans` | rt-thread/src/scheduler.c:877-966 | while the scheduler is locked no step of any call switches threads |
| `ThreadEffects.LockNests` | rt-thread/src/scheduler.c:877-966 | leaving a critical section undoes entering it |
| `ThreadEffects.ExitMeans` | rt-thread/src/thread.c:80-115 | a thread that exits is closed and, if kept, in the defunct list; unlocked, the first thread of the most urgent list runs |
| `ThreadEffects.DeleteMeans` | rt-thread/src/thread.c:434-470 | a deleted thread is closed, in no ready or wait list, and first in the defunct list if kept; all other threads stay as they are |
| `QueueOrder.NeverBack` | rt-thread/src/scheduler.c:704-831 | no step, region by region, moves back a thread that stays in the same queue, but for setting its own priority |
| `QueueOrder.NeverBackInRun` | rt-thread/src/scheduler.c:704-831 | over every interleaving in which a thread stays ready at one priority it ends no further back than it began |
| `KernelObject.Kernel.InsertThread` | rt-thread/src/scheduler.c:704-738 | the current thread becomes RUNNING, any other READY at the end of its list, and the index stays right |
| `KernelObject.Kernel.RemoveThread` | rt-thread/src/scheduler.c:801-831 | the thread leaves whatever list it is in, and the index stays right |
| `KernelObject.Kernel.Schedule` | rt-thread/src/scheduler.c:414-534 | picks the thread a linear scan would, requeues the one that gives way, and keeps placement and index |
| `KernelObject.Kernel.SuspendThread` | rt-thread/src/thread.c:737-775 | succeeds exactly for READY and RUNNING threads, and a RUNNING one is the current thread |
| `KernelObject.Kernel.SuspendRegion` | rt-thread/src/thread.c:756-772 | the region of rt_thread_suspend keeps placement and bitmap whatever has become of the thread since the call looked at it |
| `KernelObject.Kernel.ResumeThread` | rt-thread/src/thread.c:786-816 | called with interrupts disabled, it succeeds exactly for suspended threads |
| `KernelObject.Kernel.UnlinkRegion` | rt-thread/src/thread.c:804-813 | the first region of rt_thread_resume keeps placement and the bitmap, which it does not touch, for a thread in no ready list |
| `KernelObject.Kernel.InsertRegion` | rt-thread/src/thread.c:815-816 | its second region keeps both for a thread that is in no list and has its timer stopped |
| `KernelObject.Kernel.TimeoutThread` | rt-thread/src/thread.c:829-850 | the assertion that the thread is suspended holds, and the thread is ready or runs |
| `KernelObject.Kernel.ChangePriority` | rt-thread/src/thread.c:644-685 | a READY thread moves to the end of its new list, any other only changes its priority |
| `KernelObject.Kernel.ExitThread` | rt-thread/src/thread.c:80-115 | the current thread is closed, out of every list but the defunct one, and another runs if one is ready |
| `KernelObject.Kernel.DeleteThread` | rt-thread/src/thread.c:434-470 | called with interrupts disabled, it closes any thread, out of every list but the defunct one |
| `KernelObject.Kernel.RemoveRegion` | rt-thread/src/thread.c:446-450 | the first region of rt_thread_delete takes the thread out of whatever list it is in, and keeps the bitmap right |
| `KernelObject.Kernel.CloseRegion` | rt-thread/src/thread.c:455-465 | its last region closes and links a thread that is in no list and has its timer stopped |
| `WaitList.EnqueueSorted` | rt-thread/src/ipc.c:96-120 | with the PRIO flag a sorted wait list stays sorted |
| `WaitList.EnqueueOvertakes` | rt-thread/src/ipc.c:83-129 | a thread that starts to wait overtakes nobody with the FIFO flag and with the PRIO flag exactly those that are less urgent; the others keep their order |
| `WaitList.Suspend` | rt-thread/src/ipc.c:83-129 | the search loop puts a thread just before the first that is less urgent, or last if there is none or with the FIFO flag |
| `WaitList.ResumeAll` | rt-thread/src/ipc.c:163-190 | everybody on the list gets the error code |
| `WaitList.RestAdds` | rt-thread/src/ipc.c:1588-1600 | the time left after two passes is that after both together, never more than there was, and none exactly when it has gone by; a wait for ever stays one |
| `Mailbox.NoLostWakeUp` | rt-thread/src/ipc.c:1530-1790 | in every interleaving of sends, receives, timeouts and resets, while senders wait the free slots are no more than the senders woken and not yet run, while receivers wait the mails are no more than the receivers woken and not yet run, and mails come out once each in the order they went in, those a reset drops aside |
| `Mailbox.Settled` | rt-thread/src/ipc.c:1530-1790 | once everybody woken has run, senders wait only at a full mailbox and receivers only at an empty one, so never both |
| `Mailbox.StepKeeps` | rt-thread/src/ipc.c:1530-1840 | every step keeps that invariant |
| `Mailbox.Box.PassSend` | rt-thread/src/ipc.c:1542-1637 | one pass of the sending loop on the ring buffer does the step on the queue, and the ring buffer goes on holding the queue |
| `Mailbox.Box.PassRecv` | rt-thread/src/ipc.c:1699-1790 | one pass of the receiving loop takes the oldest mail |
| `Mailbox.Box.SendAgain` | rt-thread/src/ipc.c:1584-1604 | a sender that runs again returns its error, or tries again with the time that is left |
| `Mailbox.Box.RecvAgain` | rt-thread/src/ipc.c:1744-1764 | the same for a receiver |
| `Mailbox.Box.Reset` | rt-thread/src/ipc.c:1811-1833 | every waiting thread leaves with an error and the mailbox is empty |
| `MailAnswers.SendMeans` | rt-thread/src/ipc.c:1510-1637 | OK if and only if there is room, and then the mail is the last and the first waiting receiver is woken; FULL if and only if there is none and no time, and then nothing changes; otherwise the sender waits |
| `MailAnswers.RecvMeans` | rt-thread/src/ipc.c:1667-1790 | OK if and only if there is a mail, and then the oldest is gone and the first waiting sender is woken; TIMEOUT if and only if there is none and no time, and then nothing changes; otherwise the receiver waits |
| `MailAnswers.AgainMeans` | rt-thread/src/ipc.c:1584-1764 | a thread that runs again ends with the error it was resumed with, or is answered as if it called now with the time it has left; one that waits for ever is never told that time is up |
| `MailAnswers.EndMeans` | rt-thread/src/ipc.c:1803-1840 | a thread whose timer fires is off the lists and answered TIMEOUT; all who wait when the box is reset are answered ERROR, and the box is empty |
| `MailAnswers.FirstInFirstOut` | rt-thread/src/ipc.c:1510-1840 | in every run the mails that left the box, to receivers or dropped by a reset, and then those that lie in it are what senders were told was accepted, each once and in that order |
| `MessageQueue.EveryRun` | rt-thread/src/ipc.c:2052-2530 | in every interleaving each node is in exactly one of free list, queue, a send or a receive under way; no wake-up is lost; no message is handed out twice; in the queue urgent messages stand first, the newest in front, and the others behind them in the order they were linked, which is also the order these are handed out in; what a receiver copied is the front of the message as it was linked and begins with what the sender passed |
| `MessageQueue.NextInLine` | rt-thread/src/ipc.c:2356-2446 | the message a receiver gets next is the newest urgent one, or with none the oldest |
| `MessageQueue.StepKeeps` | rt-thread/src/ipc.c:2052-2530 | every step keeps that invariant |
| `MessageQueue.LinkKeeps` | rt-thread/src/ipc.c:2162-2191 | linking at the tail or, urgent, at the head keeps urgent messages in front, order and contents |
| `MessageQueue.RoomForEntry` | rt-thread/src/ipc.c:2177-2186 | while a sender holds a node the queue is shorter than the pool, so the counter has room |
| `MessageQueue.Queue.constructor` | rt-thread/src/ipc.c:1858-1908 | the loop links all nodes into the free list |
| `MessageQueue.Queue.PassSend` | rt-thread/src/ipc.c:2080-2151 | one pass of the sending loop takes the first free node, waits, or gives up |
| `MessageQueue.Queue.LinkTail` | rt-thread/src/ipc.c:2160-2207 | the linked list, tail and counter follow the queue with the node at the end |
| `MessageQueue.Queue.LinkHead` | rt-thread/src/ipc.c:2277-2310 | the same with the node at the front |
| `MessageQueue.Queue.PassRecv` | rt-thread/src/ipc.c:2356-2446 | one pass of the receiving loop takes the first node of the queue, waits, or gives up |
| `MessageQueue.Queue.CopyOut` | rt-thread/src/ipc.c:2448-2449 | the receiver gets as many bytes as it asked for, but no more than a message has: the front of the message as it was linked, byte for byte what was sent |
| `MessageQueue.Queue.GiveBack` | rt-thread/src/ipc.c:2451-2472 | the node becomes the first free one and the first waiting sender is woken |
| `MessageQueue.Queue.ReleaseAll` | rt-thread/src/ipc.c:2508-2522 | the loop moves every queued node to the free list |
| `MessageAnswers.SendMeans` | rt-thread/src/ipc.c:2052-2160 | ERROR if and only if the message is too long; OK if and only if it is not and a node is free, and then the sender holds the first one for exactly its message; FULL only without time; neither error changes anything; otherwise the sender waits |
| `MessageAnswers.UrgentMeans` | rt-thread/src/ipc.c:2240-2275 | the same for an urgent message, which never waits |
| `MessageAnswers.RecvMeans` | rt-thread/src/ipc.c:2333-2446 | OK if and only if there is a message, and then the receiver holds the first node; TIMEOUT if and only if there is none and no time, and then nothing changes; otherwise the receiver waits |
| `MessageAnswers.EndMeans` | rt-thread/src/ipc.c:2490-2530 | a thread whose timer fires is off the lists and answered TIMEOUT; all who wait when the queue is reset are answered ERROR, and its nodes are free |
| `MessageAnswers.SentWasAccepted` | rt-thread/src/ipc.c:2052-2310 | in every run the messages linked and those still in the hands of their senders are exactly those that callers passed and were told were accepted, each as often |
| `Mutex.OwnershipInEveryRun` | rt-thread/src/ipc.c:670-930 | in every run, with either flag, the mutex is free with nobody waiting or held by one thread one to 255 deep |
| `Mutex.InheritanceInEveryRun` | rt-thread/src/ipc.c:670-930 | in every run with the PRIO flag, and priorities only this mutex changes, waiters are sorted, the owner is at least as urgent as each, and every other thread has the priority it began with |
| `Mutex.WaitInherits` | rt-thread/src/ipc.c:737-758 | raising the owner when a more urgent thread starts to wait keeps that |
| `Mutex.ReleaseInherits` | rt-thread/src/ipc.c:862-905 | the last release gives every thread the priority it began with, and the first waiter may own the mutex without being raised |
| `Mutex.TakeMeans` | rt-thread/src/ipc.c:670-758 | OK if and only if the caller owns the mutex afterwards, one deeper than before, and it was free or its own; FULL only for its own 255 deep and TIMEOUT only for another's without time, and neither changes anything; otherwise the caller waits and owner and depth stay |
| `Mutex.WaitLends` | rt-thread/src/ipc.c:737-758 | a thread that starts to wait makes the owner exactly as urgent as the more urgent of the two, and changes no other priority |
| `Mutex.ReleaseMeans` | rt-thread/src/ipc.c:826-930 | OK if and only if the caller is the owner, which is one less deep; the last release gives it its old priority and makes the first waiter the owner once deep, or the mutex free; ERROR changes nothing |
| `Mutex.ExpireMeans` | rt-thread/src/ipc.c:784-798 | a thread whose timer fires is off the list and fails with TIMEOUT; the owner keeps the mutex and the priority it was lent |
| `Mutex.HoldCountsTakes` | rt-thread/src/ipc.c:670-930 | in every run, with either flag, the depth is what its owner has been granted, by answers OK or by hand-over, and not released, and every other thread has been granted as often as it released |
| `Mutex.OneInside` | rt-thread/src/ipc.c:670-930 | in every run no two threads have it; a thread is answered OK only while no other has it, and always if nobody has |
| `Mutex.PriorityExactly` | rt-thread/src/ipc.c:670-930 | in every run, with either flag and priorities only this mutex changes, the owner is exactly as urgent as the most urgent of itself and those who have begun to wait since it became the owner, and everybody else as urgent as at the start |
| `Mutex.Lock.Take` | rt-thread/src/ipc.c:670-758 | the owner goes one deeper, or fails unchanged at 255; a free mutex is taken; otherwise the thread fails, or waits and lends the owner its priority if that is more urgent; the answer is OK if and only if the caller owns it one deeper than before, FULL and TIMEOUT change nothing, and there is none if and only if the caller waits |
| `Mutex.Lock.Release` | rt-thread/src/ipc.c:826-930 | only the owner releases, and the last release hands over to the first waiter or frees the mutex |
| `EventFlags.NobodyOverlooked` | rt-thread/src/ipc.c:1081-1340 | in no state of any run does a suspended thread wait for bits that are there |
| `EventFlags.ServeLeavesUnmet` | rt-thread/src/ipc.c:1104-1158 | though each thread served may clear bits, afterwards nobody left on the list has what it waits for, and everybody else was served |
| `EventFlags.DelayedIsImmediate` | rt-thread/src/ipc.c:1104-1158 | a send does what would happen if all waiting threads asked again in order without waiting: it wakes exactly those whose receive would succeed, with the same bits, and leaves the same bits |
| `EventFlags.RecvMeans` | rt-thread/src/ipc.c:1186-1271 | OK if and only if some bits are wanted and all of them, or with OR alone some, are on; the bits returned are exactly those on and wanted; with CLEAR exactly the wanted bits go off, without it none; the errors change nothing; otherwise the thread waits |
| `EventFlags.SendServes` | rt-thread/src/ipc.c:1102-1160 | the waiting threads take turns in order: each is woken if and only if what is on in its turn is enough, with exactly the bits then on and wanted, and with CLEAR exactly its wanted bits go off; the others stay in their order |
| `EventFlags.SendLeaves` | rt-thread/src/ipc.c:1081-1160 | a bit is on after a send if and only if it was on or sent and no thread woken by it wanted it with CLEAR |
| `EventFlags.EndMeans` | rt-thread/src/ipc.c:1273-1340 | a thread whose timer fires is off the list and fails with TIMEOUT; a reset turns all bits off and everybody who waits fails with ERROR |
| `EventFlags.DelayedAnswer` | rt-thread/src/ipc.c:1081-1293 | in every run, a resumed thread returns with exactly the bits it wanted that were on in its turn of an earlier send, and they were enough |
| `EventFlags.Flags.Scan` | rt-thread/src/ipc.c:1102-1160 | the loop over the waiting threads serves them in order, each as if it asked only then |
| `EventFlags.Flags.Send` | rt-thread/src/ipc.c:1081-1168 | an empty set is an error; otherwise the bits are added and the waiting threads take turns in order, each woken if and only if what is on in its turn is enough, with exactly the bits then on and wanted, exactly its wanted bits going off if it asked to clear |
| `EventFlags.Flags.Recv` | rt-thread/src/ipc.c:1186-1271 | an empty set is an error; if what is on is enough the bits on and wanted are returned, and with CLEAR exactly the wanted ones go off; otherwise the thread fails or waits |
| `EventFlags.Flags.RecvAgain` | rt-thread/src/ipc.c:1273-1293 | a thread that runs again returns the bits a send found for it, or its error |

## Left out

- Multiprocessor paths, signals, hooks, debugging output, names and magic numbers.
- Deletion of threads that wait and of IPC objects in use; semaphores, memory pools, devices, the idle thread and start-up.
- Kconfig choices, macros, menus, warnings and files; splitting text into tokens. Numbers in strings are read by a function given as part of the configuration.
- `rt_realloc` and `rt_calloc` of the slab allocator; the copying of bytes in `rt_memheap_realloc`.
- Several mutexes at once, as far as priorities go.
- Soft timers, which run the same code on a second list, and timer callbacks that start or stop timers.
- `WorstCaseStack.Analysis.Calc`: functions are told apart by identity, while the source compares their records by content.
- `SlabZones.Allocator.Malloc`: each call is one step, though the source lets go of the semaphore around the page allocator; sizes within a page of 2^32, which wrap, are not modelled.
- `MemHeap.Pool.Realloc`: where the block behind is free, sizes for which `CanGrowIsRight` says the test wraps are excluded; the source then grows the block over what is not free.
- `SmallMem.Heap.Malloc`: requests whose search does not end, as `SearchNeverEnds` says, are excluded.
- `SmallMem.Heap.Realloc`: so are they here.
- `KconfigExpr.RoundTripKeepsValue`: where m is rewritten to m && MODULES the value may differ; `RewriteCuts` says what it is.
- `KconfigGrammar.RewriteCuts`: comparisons that mention m are excluded, since they go on seeing m as it is.
- `KconfigMeaning.NumberInRange`: the number functions of the configuration are taken to read back what they write, and the range to have its ends in order.
- `ThreadCalls.EveryRun`: a run is not followed beyond the first step that leaves a thread where it does not belong; `PlacedExactly` says which steps these are.
- `ThreadCalls.BlockTimer`: wait lists are a set here, so it does not show what the second wait of a thread that cannot be switched away does to the first list.
- `ThreadCalls.StepKeeps`: interrupt handlers do not nest, so that a call from one is a single step. The stores of `rt_thread_startup` are one step, and so are the last store and the link of `rt_thread_detach`. The lock depth is unbounded, while the source's counter has 16 bits.
- `TimerSkipList.Timers.Check`: what it asks of the pending timeouts holds in the runs of `Drive`, which check at every tick; periods of zero are excluded, with which the loop need not end. The tick read again after each callback is the one at entry, since interrupts are off; callbacks that set the tick are not modelled.
- `TimerSkipList.Timers.Start`: the same runs; `OrderExactly` says how far apart timeouts may be otherwise.
- Bit words in the scheduler and in event flags are sets of bit numbers; `FfsFirst` relates the set to the word for the search.
