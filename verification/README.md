# A model of the kernel

This project models the parts of a small x86-64 kernel that carry its logic, and proves what they
are for. `dafny verify dfyconfig.toml` checks all of it.

**Virtual memory.** Physical memory is a map from frames to pages of 512 words; a word is the record
of an entry's fields, and `Words` shows that this record and the 64-bit word determine each other.
`PageTables` defines when the tables below a root form a tree apart from the free frames. `Hardware`
is the walk of the processor with its rights and fault codes (Intel 64 SDM, Volume 3A, sections 4.5
to 4.7) and the machine the kernel code runs on; kernel pointers are 64-bit addresses, and every
access through one goes through that walk. On this, `Mapping` models both ways the kernel maps a page
(`k_map_v` over physical tables, `map_page` through slot 510 of the active root) and says exactly when
they agree. `Ranges` lifts the first to ranges. `AddressSpaces` is the state of a process that shares no
page, `NewTables` makes a new root beside it, `Fork` copies the tree through slots 510 and 509 and
`Forking` puts the copy together with the cross links. `CopyOnWrite` defines the state of a forked
pair and proves that it refines two separate memories. `KernelHalf` is the half of the kernel that
both roots share, `PageFaults` models the handler and the code it calls for pages of either half, and
`SharedRuns` says what runs of accesses leave of the shared half. `Isolation` draws the consequence
for a reader: what a read delivers depends on the saves of its own process only.

**Page allocator and kernel heap.** `PageAllocator` is the array of page descriptors with its two
queues threaded by index, and `FreeFrames` ties the free queue to the free frames of the part above.
`KernelHeap` says which stretch of which page a request gets. `KernelMemory` is the kernel's side of
both: the frame behind every page of the heap, the addresses that the callers get (`Pointers` is the
arithmetic of a pointer into a page), the three allocators as they run on the machine, and
the memory half of a fork from `kmalloc` to the copy, composed with the refinement of `CopyOnWrite`.
`Booting` is `setup_paging`, from which all this starts.

**Processes.** `Lifecycle` is a state machine whose steps are whole system calls, timer ticks and
keyboard notifications, with the theorems about runs. `Scheduler` is the process table as it is
kept, a ring of 100 slots and control blocks updated in place; each of its methods performs one step
of the machine. `SystemCalls` says what each event means for the caller, for those it wakes and for
all others, and over the runs that follow a call. `ForkedPairs` joins the lookup of a partner to the
fault it is made for.

**Files and names.** `CStrings` are the string functions, `Paths` the reference for path names (a
stack of directories), `PathCleanup` the normaliser as it runs in place, `Directories` the change of
directory, `Tarfs` the archive with its searches and opens, and `FileReader` the line-wise reader
with the program that prints a file.

**Console.** `Console` is the screen over flat display memory, refined by the whole text laid out in
rows of 80 columns.

Where a property does not hold of the code, the code is kept and the condition is proved: the two
mapping functions differ if the last new table is not already clear (`LateClearedIff`), an access
at address 0 halts the machine (`NullHangs`), a write fault whose partner is not found repeats
(`HandleCowResolves`, `CompletesIff`) and lets the other process write what both see
(`PartnerlessLeaks`), a living parent does not find its living child as a partner if it is itself
the child of a process that is not queued any more (`PairFindsPartner`, reached from the initial
state in `OrphanForks`, its writes in `PairAccess`), a mapped range must not end where its counter
wraps around (`RangeEndsIff`), an exhausted free queue hands out the end marker (`TakenEmpty`), the
tail of the filtered queue can be stale and the filter does not end for a range that contains
address 0 or every free page (both exactly in `FilterOut`), the archive scan skips an entry after a
size that is a positive multiple of 512 (`VisitsIff`), a name of 100 characters is not found under
itself (`OwnNameIff`), a user write to a page of the kernel's is taken for copy-on-write
(`KernelCopySeen`), reads of size 1 never reach the end of a file (`ReadsArriveIff`), a file with a
NUL is not shown whole (`ShownIff`), an alarm whose sum reaches 2^64 asks for an instant that is
too early (`AlarmSleeps`), `chdir("/")` never works (`SlashFails`), "./" in the top directory is
treated unlike its equals (`MergedDotSlash`), and a backspace does not undo a scroll
(`BackspaceUndoes`).

Scope of the virtual memory part: a process alone and one forked pair, accesses in user mode to
aligned words, pages of the process in slots 0 to 508 of its root, and free frames that read as zero
where `map_page` and `_do_mark_COW` rely on it. Scope of the process part: at most 99 processes that
are not yet dropped from the queue, process 1 (idle) neither killed nor blocked nor forked, no
`waitpid(0)`, and steps that are not interrupted.

## Model

| member | source | states |
|---|---|---|
| Words.DecodeEncode | sys/memory_helpers.c:166 | a table entry as a record of fields survives being written as a 64-bit word |
| Words.EncodeDecode | sys/memory_helpers.c:166 | every 64-bit word is such a record |
| Words.PageFlags | include/sys/memory_helpers.h:10-13 | the flags are bits 0, 1, 2 and 9, and the flags of kernel and user pages are those combinations of them |
| Words.FieldBits | include/sys/memory_helpers.h:10-13 | the fields that decide about an access are bits 0 to 2 of the entry, and its frame is bits 12 to 51 |
| Words.LeafBits | sys/memory_helpers.c:102 | the masking and or-ing of a physical address with kernel or user flags is the leaf entry of that frame |
| Words.LinkBits | sys/memory_helpers.c:96 | a frame's base or-ed with the table flags is the link to that frame |
| Words.MarkedBits | sys/memory_helpers.c:310-311 | clearing READ_WRITE and setting COW changes just these two fields, for every 64-bit word |
| Words.CrossedBits | sys/memory_helpers.c:351-354 | clearing COW and setting READ_WRITE changes just these two fields, for every 64-bit word |
| Words.ZeroBits | sys/memory_helpers.c:92 | the test against 0 is the test for the unused entry |
| Addresses.DeeperPath | sys/memory_helpers.c:99 | for every table pointer and index, the shift-and-or pointer walks the old path without its first index and with the new one at its end |
| Addresses.RootSlots | sys/memory_helpers.c:85 | the two constant pointers are slot 510 four times and slot 510 three times then 509 |
| Addresses.EntryPaths | sys/memory_helpers.c:343-349 | the masked addresses of `map_page_COW` and `cross_off_COW` lead to the leaf entry of the page in the own and in the partner's tables |
| Hardware.UserWalkEntry | sys/memory_helpers.c:96 | under tables that the kernel links, rights and fault code of a user access are decided by the leaf entry alone |
| Hardware.KernelWalkEntry | sys/memory_helpers.c:96 | the same for what a kernel access reaches |
| Hardware.PaddedWalk | sys/memory_helpers.c:85-99 | leading visits to slot 510 of a self-mapped root do not change what a walk reaches |
| Hardware.Machine.ZeroOut | sys/memory_helpers.c:50-54 | the loop over the words, each found by a walk of its own, clears exactly the frame that the pointer denotes, and the pointer still denotes it |
| PageTables.AgreeReach | sys/memory_helpers.c:162-179 | a table tree depends on the frames of its own tables only |
| PageTables.Graft | sys/memory_helpers.c:171-176 | hanging a new tree below one slot of a tree, apart from its tables, gives a tree with the tables of both |
| PageTables.MappedGrows | sys/memory_helpers.c:162-179 | after mapping, the entry is at the path, the tables are a tree apart from the free frames, exactly the missing tables were taken from the front of the free chain, and no other frame changed |
| Mapping.KMapV | sys/memory_helpers.c:162-179 | the recursion leaves exactly the memory and free chain of the direct walk |
| Mapping.MappedOther | sys/memory_helpers.c:162-179 | every other path of the tree keeps its entry |
| Mapping.MappedTranslates | sys/memory_helpers.c:162-179 | the processor finds the new frame at the mapped page, every other page is translated as before with the same rights, and the tables stay a tree apart from the free frames |
| Mapping.LateClearedIff | sys/memory_helpers.c:88-102 | clearing each new table one iteration late gives the same memory as the direct walk if and only if the table linked in last is already clear but for the leaf's slot |
| Mapping.MapPageStep | sys/memory_helpers.c:88-100 | one iteration keeps the pointer denoting the table that the direct walk stands at, through slot 510 |
| Mapping.MapPage | sys/memory_helpers.c:84-105 | the loop through slot 510 leaves exactly the late-clearing walk's memory, for every virtual address whose own first index is not 510, and returns the next page |
| Ranges.AddressNext | sys/memory_helpers.c:185 | adding 4096 to a 64-bit address moves its path to the next page, with carries between the four indices |
| Ranges.FurtherPath | sys/memory_helpers.c:182-187 | d such additions move the path d pages on |
| Ranges.PagesApart | sys/memory_helpers.c:183-186 | pages less than the whole address space apart are different |
| Ranges.KMemMapV | sys/memory_helpers.c:181-188 | when the counter does not wrap around, maps the pages of the range in order and returns the start moved by ceil((end - base) / 4096) pages |
| Ranges.RangeEndsIff | sys/memory_helpers.c:181-187 | on 64 bits the loop over a range ends if and only if the first page boundary of its counting at or behind the end is below 2^64 |
| Ranges.RangeTranslates | sys/memory_helpers.c:181-188 | page d of the virtual range reaches frame d of the physical range |
| Ranges.RangeKeeps | sys/memory_helpers.c:181-188 | pages outside the range are translated as before and the tables stay a tree apart from the free frames |
| AddressSpaces.FirstRoot | sys/memory_helpers.c:285-288 | the kernel's first root, cleared and linked to itself, is an address space that nobody shares, with no page mapped |
| Booting.KernelMapsKeep | sys/memory_helpers.c:181-188 | so does mapping any list of pages of the kernel's half |
| Booting.ThreeEach | sys/memory_helpers.c:162-188 | three frames a page are enough for it |
| Booting.SetupPaging | sys/memory_helpers.c:283-299 | first root, image and display: the machine is left with exactly these mappings, no page of a process, and an empty heap behind them that is ready to serve |
| Booting.HeapBehind | sys/memory_helpers.c:290-296 | no page of the heap is one of the image or the display |
| Booting.RangePrivate | sys/memory_helpers.c:162-188 | what is mapped for the kernel is closed to user mode: a read faults with 5, a write with 7 |
| Booting.Mappings | sys/memory_helpers.c:290-292 | every page of image and display is then found at its place, the second range not disturbing the first |
| AddressSpaces.PageMappedAdds | sys/memory_helpers.c:107-122 | taking and mapping the next free frame adds one page of zeros, keeps every other entry of both halves, and takes exactly the missing tables besides |
| AddressSpaces.KernelPageKeeps | sys/memory_helpers.c:116-122 | a page for the kernel leaves the process alone with the same pages |
| AddressSpaces.KernelMapKeeps | sys/memory_helpers.c:162-179 | mapping any frame in the kernel's half leaves the process alone with the same pages |
| AddressSpaces.DemandKeeps | sys/memory_helpers.c:107-113 | demand paging keeps one tree, separate frames for all pages and zeroed free frames, and the process sees one more page, of zeros |
| NewTables.CopyKernelPml4 | sys/memory_helpers.c:21-28 | the page seen at the address becomes a copy of the active root, read through slot 510 |
| NewTables.GetNewPageTable | sys/memory_helpers.c:254-269 | takes the next free frame, maps it at the next kernel page and leaves in it the active root with slot 510 leading to itself |
| NewTables.NewRootReady | sys/memory_helpers.c:254-269 | a root that is a copy of the active one and linked to itself, on a frame nobody has, meets what the copy of fork needs |
| NewTables.NewRootAlone | sys/memory_helpers.c:254-269 | it is a root of the same address space: a process alone under the active root is alone under it too and sees the same pages |
| NewTables.NewRootUndisturbed | sys/memory_helpers.c:254-269 | making a new root leaves the process alone with the same pages and the same number of tables to copy |
| Fork.CopiedSlot | sys/memory_helpers.c:319-329 | a copied table is added to the slots copied before: the parent's tree is kept, the child's tables are exactly the frames taken, nothing else changed |
| Fork.LeavesSlot | sys/memory_helpers.c:319-329 | and every leaf below shows the parent's old leaf, marked, in both trees |
| Fork.LeavesLeaf | sys/memory_helpers.c:306-314 | at the last level each used leaf is marked in the parent and copied to the child, an unused one stays unused |
| Fork.DoMarkCow | sys/memory_helpers.c:305-330 | the recursion through slots 510 and 509 makes a deep copy: every walk below the copied slots reaches the same marked leaf in parent and child, and the child's tables are fresh frames |
| Forking.MarkForkCrossEntry | sys/memory_helpers.c:412-417 | links each root into slot 509 of the other, the second one through the first |
| Forking.ForkMemory | sys/process_helpers.c:177-178 | cross links and copy establish the invariant, both see the old pages, and the frames used equal the parent's links to tables |
| Forking.ForkEstablishes | sys/memory_helpers.c:305-335 | a faithful deep copy satisfies the copy-on-write invariant, and both processes see what the parent saw |
| KernelHalf.ForkShares | sys/process_helpers.c:176-178 | after the fork both roots lead to the tables of the kernel's half, which are apart from both processes' tables and pages and have kept their entries |
| CopyOnWrite.DemandInv | sys/memory_helpers.c:107-113 | demand paging keeps the invariant |
| CopyOnWrite.SplitInv | sys/memory_helpers.c:359-409 | splitting a shared page keeps the invariant |
| CopyOnWrite.SplitSeen | sys/memory_helpers.c:359-409 | splitting a page is seen by neither process |
| CopyOnWrite.WriteSeen | sys/memory_helpers.c:382-409 | a write through a writable leaf is seen by its own process only |
| CopyOnWrite.WriteFault | include/sys/idt.h:134-144 | an access to a page of the process's own faults with 7 exactly if the page is mapped, and otherwise with 6 for a write and 4 for a read; 7 is a write to a page that is not writable |
| CopyOnWrite.HandlerResumes | include/sys/idt.h:119-149 | after the handler the faulting access succeeds |
| CopyOnWrite.ExecuteRefines | include/sys/idt.h:119-149 | one access with whatever fault it takes keeps the invariant and is one step of two separate memories |
| CopyOnWrite.CowRefinesEagerCopy | sys/memory_helpers.c:305-409 | from the invariant, for every interleaving of reads and writes by parent and child with four free frames each, every access delivers what it delivers had fork copied every page |
| Isolation.ReadsOwn | sys/memory_helpers.c:305-409 | after any interleaving of reads and writes by parent and child, a read delivers the last word its own process saved there, or the word at the start if there is none |
| CopyOnWrite.ExecuteFrames | include/sys/idt.h:119-149 | an access with its fault completes with four free frames and takes at most four |
| CopyOnWrite.CompletesIff | include/sys/idt.h:119-149 | an access completes if and only if it is no write to a page not yet split or the partner is found; otherwise it faults forever |
| CopyOnWrite.NullHangs | include/sys/idt.h:127-133 | an access at address 0 halts the machine exactly when it faults |
| PageFaults.NullAddress | include/sys/idt.h:127-133 | among the aligned addresses the processor accepts, the access that halts is the one at 0 |
| CopyOnWrite.HandleCowResolves | sys/memory_helpers.c:388-409 | the faulting write succeeds after `handle_COW` if and only if the partner was found; otherwise it faults again with code 7 |
| CopyOnWrite.HandleCowOpens | sys/memory_helpers.c:388-409 | in either case the other process gets write access to the frame that was shared; where no partner was found that is all that happens |
| CopyOnWrite.PartnerlessLeaks | sys/memory_helpers.c:388-409 | so without a partner found the next write of the other process is granted on the shared frame and seen by both |
| PageFaults.CrossOffCow | sys/memory_helpers.c:337-355 | makes the partner's entry writable and unmarked, and changes nothing else; in the kernel's half it changes nothing |
| PageFaults.DoCow | sys/memory_helpers.c:359-386 | the process gets a frame of its own with the contents of the shared one; in the kernel's half the copy takes the place of the page |
| PageFaults.HandleCowFault | sys/memory_helpers.c:388-409 | with a partner the page is copied and the partner's entry crossed off, without one only the partner's entry is crossed off |
| PageFaults.AddPhysicalPageIn | sys/memory_helpers.c:107-113 | maps the next free frame at the faulting page of either half, for the user and writable |
| KernelHalf.KernelAccess | include/sys/idt.h:119-149 | a user access to the kernel's half faults with 4 or 6 where nothing is mapped, with 5 or 7 on a page of the kernel's own, and is granted otherwise |
| PageFaults.PageFault | include/sys/idt.h:119-149 | the handler dispatches every fault a user access to slots 0 to 508 or 511 can raise to one of these; it halts exactly at address 0 and on code 5, a read of a page of the kernel's own |
| KernelHalf.KernelCopySeen | sys/memory_helpers.c:388-409 | code 7 in the kernel's half, with a partner: for both processes a copy with the same contents takes the place of the page and is open to user mode; their own pages and the invariant are kept |
| KernelHalf.KernelDemandSeen | sys/memory_helpers.c:107-113 | codes 4 and 6 there: both processes get one new page of zeros; their own pages and the invariant are kept |
| SharedRuns.ExecuteBeside | include/sys/idt.h:119-149 | an access to a page of the process's own, with its fault, leaves the shared half and all its entries as they are |
| SharedRuns.RunsShare | sys/memory_helpers.c:305-409 | over every interleaving of such accesses the pair keeps one kernel half, and both see at the end what separate memories hold |
| PageAllocator.PageList.constructor | sys/memory_helpers.c:139-158 | both queues are empty and entry 0 is the end marker |
| PageAllocator.PageList.Dequeue | sys/memory_helpers.c:36-47 | of every chain the first entry goes out and the rest stays a chain with the right ends; an empty one yields the marker |
| PageAllocator.PageList.Queue | sys/memory_helpers.c:56-64 | links the entry behind the tail and terminates it |
| PageAllocator.AppendedChain | sys/memory_helpers.c:56-64 | queueing an entry that is not in the chain appends it, keeps head and tail right and touches no other entry |
| PageAllocator.PageList.GetFreePage | sys/memory_helpers.c:66-74 | moves the head of the free queue to the end of the used one |
| PageAllocator.TakenChains | sys/memory_helpers.c:66-74 | one call keeps both chains terminated, disjoint and in the original order |
| PageAllocator.TakesPartition | sys/memory_helpers.c:36-74 | any number of calls hands out the front of the free queue, no entry twice and never the marker; used ++ free stays the original order with right heads and tails |
| PageAllocator.TakenEmpty | sys/memory_helpers.c:36-38 | a call on an empty free queue hands out the marker, and keeps the queues in order if and only if the used one is empty too |
| PageAllocator.PageList.MakePages | sys/memory_helpers.c:216-229 | queues entries 1 to ceil(length / 4096) with consecutive bases, or nothing for base 0 |
| PageAllocator.SurvivorsAre | sys/memory_helpers.c:192-214 | the filtered chain holds exactly the pages outside the range, without repetition |
| PageAllocator.PageList.FilterOut | sys/memory_helpers.c:192-214 | ends if and only if the range does not contain the marker or all of a queue; the free chain is then the order-preserving filter, the used one untouched, and the tail right if and only if the last page survives |
| PageAllocator.MarkerSpins | sys/memory_helpers.c:208-212 | behind the last entry, with the marker in the range, a round of the inner loop changes nothing |
| FreeFrames.RegionFrames | sys/memory_helpers.c:216-229 | the queue made for a region describes different frames, one after the other |
| FreeFrames.SurvivingFrames | sys/memory_helpers.c:192-214 | the filter leaves exactly the frames outside the range, described by the remaining queue |
| FreeFrames.TakesFrames | sys/memory_helpers.c:66-74 | n calls take the first n frames of the list, and the rest of the queue describes the rest |
| FreeFrames.FirstRootTaken | sys/memory_helpers.c:285-288 | a queue that describes different frames gives the first root what it needs of them besides zeros |
| KernelMemory.Kernel.constructor | sys/memory_helpers.c:16-19 | an empty heap beside a process alone |
| KernelMemory.Kernel.Kmalloc | sys/memory_helpers.c:124-136 | refuses more than a page, takes and maps a page when the rest is too small, and returns the address of the block served, which BlockByte and AddressesDisjoint place; every page of the heap keeps its frame |
| Pointers.PlusStepped | sys/memory_helpers.c:133 | going on byte by byte from a pointer into a page is the sum of the page's address and the offsets |
| Pointers.PlusInPage | sys/memory_helpers.c:133 | that sum lies on the same page, has the offset as its low twelve bits, and is canonical if the page's address is |
| KernelMemory.BlockByte | sys/memory_helpers.c:133-135 | byte j of a block lies on the page of the heap that the block is cut from, at the block's offset plus j |
| KernelMemory.AddressesDisjoint | sys/memory_helpers.c:116-136 | over every interleaving of the three allocators the 64-bit addresses of the bytes of any two blocks are different, while the heap is smaller than the address space |
| KernelMemory.NullIff | sys/memory_helpers.c:125 | the pointer is NULL exactly for a request that is refused |
| KernelMemory.AllocatedRights | sys/memory_helpers.c:116-136 | a user access to the new page is granted if it is one for a process or a root, and faults with 5 or 7 if `kmalloc` cuts it |
| KernelMemory.Kernel.GetNewPageV | sys/memory_helpers.c:116-122 | takes the next frame, maps it at the next page of the heap for the user, and points to it |
| KernelMemory.Kernel.GetNewPageTable | sys/memory_helpers.c:254-269 | the same for a root, which is filled as in NewTables |
| KernelMemory.Kernel.GetNewPcb | sys/process_helpers.c:143-158 | control block, kernel stack and root are the three requests in this order, and the root is one to switch to and ready to be a child's |
| KernelMemory.Kernel.SwitchTo | sys/process_helpers.c:134 | under a new root everything holds as under the old one: the process is alone, sees the same pages, and the heap is where it was |
| KernelMemory.Kernel.GetForkedPcb | sys/process_helpers.c:174-178 | the memory of a fork, from a process alone to a pair over one kernel half: both see what the one saw, the frames used are counted exactly, and every interleaving of their accesses delivers what it delivers had fork copied every page |
| KernelMemory.AllocatedKeeps | sys/memory_helpers.c:116-136 | each request leaves the process undisturbed, every page of the heap on a frame of its own at its address, and takes exactly the page and the missing tables |
| KernelMemory.ActsKeep | sys/memory_helpers.c:107-136 | over every interleaving of requests, demand paging and writing, the process sees exactly what it wrote and every page of the heap stays on its own frame |
| KernelMemory.FourEach | sys/memory_helpers.c:84-136 | four frames a request are enough for any run of requests |
| KernelMemory.BlocksApart | sys/memory_helpers.c:124-136 | blocks that are apart in the heap are apart in physical memory |
| KernelHeap.ServeStep | sys/memory_helpers.c:116-136 | a block is refused exactly above a page, has the size asked for and lies in space not handed out before |
| KernelHeap.PacksIff | sys/memory_helpers.c:124-136 | of two requests in a row the second block follows the first in its page if and only if a byte of that page is left behind it; otherwise it starts a page |
| KernelHeap.LastByteFree | sys/memory_helpers.c:126 | over every run only a block at the start of its page can reach the end of it |
| KernelHeap.RegionsDisjoint | sys/memory_helpers.c:116-136 | for every interleaving of the three allocators all regions returned are pairwise disjoint and each lies in one page |
| KernelHeap.ServesGrow | sys/memory_helpers.c:116-136 | the heap grows by exactly the pages taken |
| Lifecycle.RotateIs | sys/process_helpers.c:114-141 | the recursion selects the first runnable process of queue ++ [active] and leaves the rest rotated, with the finished ones passed over dropped |
| Lifecycle.RotateConserves | sys/process_helpers.c:114-141 | no process is duplicated or invented, and only finished ones are lost |
| Lifecycle.CanAlwaysSchedule | sys/process_helpers.c:201-205 | the idle process makes the selection terminate in every consistent state |
| Lifecycle.InitialInv | sys/process_helpers.c:240-262 | the initial state satisfies the lifecycle invariant |
| Lifecycle.StepInv | sys/systemcall.c:39-203 | every system call, tick and notification keeps it: active process not queued, nobody queued twice, pids up to the last one given, a waiting process queued with exactly one reason |
| Lifecycle.RunInv | sys/systemcall.c:39-203 | from any state with the invariant, over every run of events that the environment may offer, no switch of processes fails to find one and the invariant holds at the end |
| Lifecycle.BootInv | sys/process_helpers.c:240-262 | so for every run from the initial state |
| Lifecycle.TicksAllowed | sys/process_helpers.c:312-318 | there are such runs of every length: the clock can always tick |
| Lifecycle.FinishedForever | sys/process_helpers.c:114-141 | over every run a finished process stays finished and is never selected |
| Lifecycle.BoundedWaiting | sys/process_helpers.c:114-141 | a runnable process at queue position i that is not killed becomes active within i + 1 switches or within 17 * (i + 1) ticks less the slice already used, whatever happens meanwhile |
| Lifecycle.WaitingTicks | sys/process_helpers.c:312-318 | the bound of 17 * (i + 1) ticks from any point of a time slice |
| Lifecycle.StepSleeps | sys/timer_helpers.c:33-36 | a sleeper is woken by the due alarm tick and by nothing else |
| Lifecycle.SleepRun | sys/process_helpers.c:46-54 | over every run it waits until the first alarm tick from its time on and is RUNNING then |
| Lifecycle.AlarmBound | sys/systemcall.c:104-111 | an alarm of s seconds at tick c ends at the first tick from c + 10s on that is 1 modulo 3: never early, at most two ticks late |
| Lifecycle.StepWaitsFor | sys/process_helpers.c:35-44 | a process in waitpid leaves WAITING only in a step that announces the one it waits for, or in its own kill |
| Lifecycle.StepTold | sys/systemcall.c:94-102 | the status it was told is kept until it stores it |
| Lifecycle.WaitCausality | sys/systemcall.c:94-102 | over every run the status it stores next is the first one announced for the process it waits for, and without an announcement it keeps waiting |
| SystemCalls.StepTurns | sys/systemcall.c:39-203 | which events give up the processor, a tick exactly at the end of a slice of 16, and that then the first runnable process is active and the rest of the table is kept |
| SystemCalls.ActiveRuns | sys/process_helpers.c:114-141 | over every run the active process is RUNNING or READY |
| SystemCalls.StepCaller | sys/systemcall.c:39-203 | the caller's control block after each event: what it waits for, its status, and where it will go on |
| SystemCalls.StepOthers | sys/systemcall.c:39-203 | every other process is left as it is, unless the event kills it or brings what it waits for |
| SystemCalls.ForkMakes | sys/systemcall.c:60-90 | a fork makes one process, with a new pid, the caller as parent, running, and last in the queue |
| SystemCalls.ForkedRuns | sys/systemcall.c:60-90 | a forked child that is not killed runs within 17 ticks for each process queued and itself, whatever happens meanwhile |
| SystemCalls.KillFinishes | sys/systemcall.c:193-199 | a kill finishes the process of that pid if it is queued, changes nothing if it is not, and finishes nobody else |
| SystemCalls.WaitStarts | sys/systemcall.c:94-99 | waitpid waits for the pid it is given, and stores nothing yet |
| SystemCalls.WaitFromCall | sys/systemcall.c:94-102 | from the call on, over every run: without an announcement for that pid the caller keeps waiting, and the status it stores next is the first one announced for it |
| SystemCalls.AlarmSleeps | sys/systemcall.c:104-111 | the caller sleeps until its tick plus ten times the seconds modulo 2^64: too early if and only if the sum reaches 2^64, and below 2^64 / 10 seconds exactly then at an instant that is over |
| SystemCalls.ReadStarts | sys/systemcall.c:42-45 | a read without a line ready leaves its caller WAITING on standard input |
| SystemCalls.StepInput | sys/process_helpers.c:25-34 | a process waiting on standard input is made RUNNING, its reason cleared, by a complete line, and is left waiting by every other event but its own kill |
| SystemCalls.StepWoken | sys/systemcall.c:42-46 | a woken reader stays so until it goes on itself; then it has its line, or waits again |
| SystemCalls.InputRun | sys/process_helpers.c:25-34 | over every run a reader waits until the first complete line and is woken by it |
| SystemCalls.ReadFromCall | sys/systemcall.c:39-48 | the same from the call on |
| SystemCalls.ExecStarts | sys/process_helpers.c:279-310 | a new program goes on in user mode, RUNNING, when its process is resumed |
| SystemCalls.QuantumIs | sys/process_helpers.c:312-318 | over ticks alone the active process stays for what is left of its slice of 16 and is switched away by the next tick |
| Scheduler.RingEnqueue | sys/process_helpers.c:114-119 | writing at the tail appends to the ring, also across the wrap-around |
| Scheduler.RingDequeue | sys/process_helpers.c:126-128 | advancing the head removes the first process, also across the wrap-around |
| Scheduler.PairFindsPartner | sys/memory_helpers.c:388-402 | while both processes of a fork are alive the child finds its partner, and the parent does if and only if it has no parent itself or that one is still queued |
| Scheduler.OrphanForks | sys/memory_helpers.c:388-402 | a run from the initial state after which a living parent does not find its living child |
| ForkedPairs.PairAccess | sys/memory_helpers.c:388-409 | an access by one of a living pair completes unless it is a write of such a parent to a page not yet split, which faults forever |
| ForkedPairs.OrphanWrites | sys/memory_helpers.c:388-409 | after the run of OrphanForks every such write faults forever |
| Scheduler.ProcessTable.constructor | sys/process_helpers.c:104-112 | together with `init`, the table starts in the initial state |
| Scheduler.ProcessTable.EnqueueProcess | sys/process_helpers.c:114-119 | appends to the queue unless the process is finished |
| Scheduler.ProcessTable.GetNextContext | sys/process_helpers.c:123-141 | terminates with the queue and active process of the rotation |
| Scheduler.ProcessTable.DoSchedule | sys/process_helpers.c:268-273 | performs the switch of the state machine |
| Scheduler.ProcessTable.NotifyInput | sys/process_helpers.c:25-34 | performs the notification, which by StepInput and StepOthers wakes exactly the queued processes that wait for input |
| Scheduler.ProcessTable.NotifyExitPid | sys/process_helpers.c:35-44 | wakes exactly the queued processes that wait for that pid and tells them the status |
| Scheduler.ProcessTable.NotifyClock | sys/process_helpers.c:46-54 | wakes exactly the queued sleepers whose time has come |
| Scheduler.ProcessTable.KillPid | sys/process_helpers.c:56-65 | finishes the queued process of that pid and says whether there was one |
| Scheduler.ProcessTable.FindByPpid | sys/process_helpers.c:83-91 | the first queued child, or none when there is none |
| Scheduler.ProcessTable.FindByPid | sys/process_helpers.c:93-101 | finds a pid if and only if it is queued |
| Scheduler.ProcessTable.FindPartner | sys/memory_helpers.c:388-405 | the lookup of `handle_COW` |
| Scheduler.ProcessTable.DoFork | sys/systemcall.c:60-90 | performs the fork step: a new pid, queued and running, with the caller as parent |
| Scheduler.ProcessTable.DoExit | sys/systemcall.c:141-148 | performs the exit step |
| Scheduler.ProcessTable.DoWaitPid | sys/systemcall.c:94-99 | performs the first half of waitpid, which by WaitStarts leaves the caller waiting for the pid it gave |
| Scheduler.ProcessTable.DoResume | sys/systemcall.c:42-46 | performs the second half of a call: waitpid stores the status, read looks again, a new program starts |
| Scheduler.ProcessTable.DoAlarm | sys/systemcall.c:104-111 | performs the alarm step |
| Scheduler.ProcessTable.DoKill | sys/systemcall.c:193-199 | performs the kill step and returns 0 exactly for a queued pid |
| Scheduler.ProcessTable.DoYield | sys/systemcall.c:201-204 | performs the yield step |
| Scheduler.ProcessTable.DoRead | sys/systemcall.c:39-48 | performs the blocking part of read |
| Scheduler.ProcessTable.DoExec | sys/process_helpers.c:279-310 | performs the status change and switch of exec |
| Scheduler.ProcessTable.TimerInterrupt | sys/process_helpers.c:312-318 | performs the tick step: clock, alarms every third tick, switch when the slice is over |
| Scheduler.ProcessTable.KeyboardInterrupt | sys/stdin.c:26-31 | performs the notification of a complete line |
| CStrings.KStrLen | sys/sysutil.c:3-7 | the length up to the first NUL |
| CStrings.KStrCmp | sys/sysutil.c:19-27 | 0 exactly for equal texts; otherwise the difference of the signed characters at the first difference, or the character the longer text has more, negated when that is the second |
| CStrings.KStrStartsWith | sys/sysutil.c:29-35 | true exactly for a prefix |
| CStrings.KStrCpy | sys/sysutil.c:9-17 | copies with terminator and returns the length, or cuts after size + 1 characters and returns -1; nothing else is written |
| CStrings.KStrCat | sys/sysutil.c:37-45 | writes both texts and a terminator and nothing else |
| Paths.ResolvedNames | sys/sysutil.c:72-89 | a resolved path holds names only: no empty piece, ".", ".." or slash |
| Paths.WalkUp | sys/sysutil.c:72-89 | a name goes one directory down, ".." takes it back, and stays at the top there |
| Paths.ResolvedWritten | sys/sysutil.c:90-99 | writing directories down and resolving the text gives them back |
| Paths.CleanedIdempotent | sys/sysutil.c:48-101 | the normal form is its own normal form and leads where the path led |
| Paths.MergedWalks | sys/sysutil.c:103-114 | when base ends in a slash, all three branches follow the relative name from the base's directory; the result is that directory written out, or "/" if that is the joined path itself |
| Paths.MergedDotSlash | sys/sysutil.c:108-111 | the branch for "./" gives what plain joining gives, except exactly for "./" in "/" |
| PathCleanup.SplitPath | sys/sysutil.c:52-70 | the pointers lead to the components of the path, in order and without overlap, for every path whose components fit the 15 pointers |
| PathCleanup.FollowParts | sys/sysutil.c:72-89 | the shifting loop with its index stepping back terminates and leaves the pointers to exactly the stack of directories |
| PathCleanup.WriteParts | sys/sysutil.c:90-99 | the buffer holds the pieces, each after a slash, or nothing |
| PathCleanup.CleanupPath | sys/sysutil.c:48-101 | in place, the buffer ends up with the normal form and is not written beyond the end of the path |
| PathCleanup.JoinPaths | sys/sysutil.c:103-113 | what each branch hands to the normaliser |
| PathCleanup.PathMerge | sys/sysutil.c:103-114 | the buffer holds the merged normal form |
| Tarfs.TarSize | sys/tarfs.c:10-16 | the value of the 11 characters in 64-bit arithmetic, for signed characters |
| Tarfs.FieldOctal | sys/tarfs.c:10-16 | reading the octal digits of a size gives the size back |
| Tarfs.RoundupIff | sys/tarfs.c:18-21 | size plus padding is a whole number of records if and only if the size is 0 or not a multiple of 512; otherwise one record too many |
| Tarfs.VisitsIff | sys/tarfs.c:99-113 | the scan of a well-formed archive visits exactly its entries in order if and only if no entry but the last has a size that is a positive multiple of 512 |
| Tarfs.OwnNameIff | sys/tarfs.c:99-105 | an entry whose name no earlier one is read with is found under its name if and only if that leaves room for a terminator in its 100 characters or the mode field is empty |
| Tarfs.LookupFirst | sys/tarfs.c:99-113 | a lookup reaches the first entry read with that name, with its contents, or there is none; a name of 100 characters is read on into the mode field |
| Tarfs.PackedIsArchive | sys/tarfs.c:96-114 | packing entries in the ustar format gives an archive of exactly these entries |
| Tarfs.Scan | sys/tarfs.c:96-114 | the loop shared by all searches and opens is the lookup of the text behind the first character, also for an empty path |
| Tarfs.SearchFileOpen | sys/tarfs.c:96-114 | succeeds exactly if the first entry of the name has a size other than 0 |
| Tarfs.SearchForDir | sys/tarfs.c:75-94 | succeeds exactly if the first entry of the name has size 0 |
| Tarfs.SearchFileForExec | sys/tarfs.c:51-73 | succeeds exactly if the name leads to a program image |
| Tarfs.MapFile | sys/tarfs.c:29-49 | hands the offset of the same image that the search found to the loader, which by ExecFinds is where the contents of the entry start |
| Tarfs.ExecFinds | sys/tarfs.c:51-73 | in a regular archive the name leads to an image exactly if the contents of its first entry start as an ELF file (an empty entry is judged by the name of the next one, and one of up to three characters by what follows them); the image starts 512 behind that entry's header and holds its contents |
| Tarfs.Process.DoOpenFile | sys/tarfs.c:116-135 | opens the first entry of the name in the next slot, or returns -1 and changes nothing |
| Tarfs.Process.DoOpenDir | sys/tarfs.c:137-165 | opens a directory by its header, "/" by the end of the archive, or returns -1 and changes nothing |
| Tarfs.SearchThenOpen | sys/tarfs.c:96-135 | in a regular archive a successful search means that opening finds the same entry with its size and contents |
| FileReader.LineStops | sys/tarfs.c:210-229 | a piece is a stretch of the file that ends at a newline, a full buffer or the end of the file |
| FileReader.PieceFits | sys/tarfs.c:215-228 | a read of some size takes up to size - 1 characters, fewer only at the end of the line or of the file; a size of 0 is taken for 2^64 |
| FileReader.ReadToBuffer | sys/tarfs.c:210-229 | delivers the next piece with a terminator, moves past it, and returns 0 exactly at the end; the count leaves the terminator out when the piece ends a line |
| FileReader.DeliveredText | sys/tarfs.c:210-229 | the characters delivered are those of the archive from the reader's place in the file on, with a terminator behind them, counted unless a newline ends them |
| FileReader.ReadsArriveIff | sys/tarfs.c:215-228 | reading again and again reaches the end of the file if and only if the size is not 1 or it is there already |
| FileReader.Cat | bin/cat/cat.c:31-37 | reading until 0 terminates for sizes from 2 on and prints every piece |
| FileReader.ShownIff | bin/cat/cat.c:31-37 | what is printed is exactly the file if and only if it has no NUL |
| FileReader.OpenThenCat | bin/cat/cat.c:24-37 | from archive to screen: the name of a regular archive's entry prints its contents, exactly if they hold no NUL |
| Directories.TargetSpells | sys/systemcall.c:127-134 | the path looked up spells the directories reached, except that "/" becomes "//" |
| Directories.DirectoryIff | sys/tarfs.c:75-94 | in a regular archive a name is a directory if and only if the first entry of that name has empty contents |
| Directories.ChangesTrack | sys/systemcall.c:127-139 | over every run of changes the working directory is the spelling of a list of names that follows them |
| Directories.SlashFails | sys/systemcall.c:129-138 | asking for "/" never works, although ".." from below the top does |
| Directories.DoChdir | sys/systemcall.c:127-139 | returns 0 and replaces the directory exactly if the target is the top or a directory of the archive |
| Console.Screen.constructor | sys/unix_helpers.c:3-9 | a blank screen shows the empty text |
| Console.Screen.Rollup | sys/unix_helpers.c:11-23 | every row moves up by one, the last is blank, the status row stays |
| Console.Screen.DoNewline | sys/unix_helpers.c:25-39 | pads the text to the end of the row and scrolls if the cursor would leave the last row |
| Console.Screen.WriteK | sys/unix_helpers.c:40-75 | for every character the screen keeps showing the text, cursor at its end within 23 rows of 80; a newline ends in column 0 of the row below, or of the last row after scrolling, a plain character that does not scroll stands where the cursor was; the status row is not written |
| Console.Screen.DoWrite | sys/systemcall.c:27-37 | writes the text up to its terminator or size characters and returns how many |
| Console.WritesVisible | sys/unix_helpers.c:40-75 | for every string, backspaces included, the cursor stays in the 23 rows |
| Console.LastRows | sys/unix_helpers.c:25-39 | without backspaces the screen shows the last 23 rows of the text |
| Console.AddsPage | sys/unix_helpers.c:40-52 | the text is the lines of the string, each from the start of a row and wrapped at 80, with tabs to multiples of 4 |
| Console.AddsPlain | sys/unix_helpers.c:68-74 | a line of plain characters is its own text |
| Console.Screen.PlainShown | sys/unix_helpers.c:68-74 | plain text shorter than the screen, written on a blank one, stands in its first cells, blanks in all others, and the cursor behind it |
| Console.NewlineFills | sys/unix_helpers.c:25-39 | a newline fills the row with at least one blank, so that the next character starts the row below |
| Console.TabFills | sys/unix_helpers.c:46-52 | a tab adds up to three blanks and ends in a column that is a multiple of 4 |
| Console.BackspaceUndoes | sys/unix_helpers.c:54-67 | a backspace takes back the character before it if and only if that did not scroll |

## Left out

- Several forks from one parent, and copy-on-write after one of the pair has exited: the source marks the first as open, and `cross_off_COW` touches the partner's entry only.
- Slots 509 and 510 of a root as pages of a process, which lead back to roots. Slot 511 is the kernel's half: its faults are modelled (PageFaults.PageFault), what a user access then does to the contents of its open pages, among which are roots, is not.
- CopyOnWrite.CowRefinesEagerCopy: accesses at address 0 are excluded, because the ones that fault halt the machine (NullHangs), and so are those to the kernel's half; each process is found by the other, which PairFindsPartner says when.
- Unaligned accesses and accesses that span two pages: an access reads or writes one word of 512 in a page.
- Mapping.MapPage: states the late-clearing walk; that it equals the direct walk needs the condition of LateClearedIff, which free frames that read as zero satisfy. An address with 510 as its first index is left out, since it is a table already.
- Fork.DoMarkCow: the child's new tables are never cleared by the source, so free frames that read as zero are assumed.
- NewTables.GetNewPageTable: assumes the same.
- Ranges.KMemMapV: requires that the counter does not wrap around, since the source does not end otherwise (RangeEndsIff); a parameter tells the frame an address lies in, and the cast of wider addresses is not modelled.
- The translation buffer of the processor: loading CR3 is taken to select the address space at once.
- PageAllocator.PageList.MakePages: a second accepted region, for which the source starts its index at 1 again; addresses near the top of 64 bits.
- PageAllocator.PageList.FilterOut: returns that the source hangs where it does; after that the queues are described only as far as a page survives.
- KernelMemory.Kernel.GetNewPcb: the fields of the control block and the new pid, which Lifecycle and Scheduler model without their memory; of the kernel stack only the word pushed at first.
- KernelMemory.Kernel.GetForkedPcb: leaves out the same, and allocations while a forked pair shares pages.
- FreeFrames.FirstRootTaken: that a physical address below 2^52 has a frame number of 40 bits is taken from the list of frames, not computed.
- Booting.SetupPaging: runs after the filters (PageAllocator) and leaves out the addresses kept for the display and the descriptors; the frame of a physical address is a parameter.
- `vma_register_page` and `vma_free_pages`: empty in the source, so no page is ever given back.
- Interrupts inside a system call, stack switching, ring 3 entry, and the contents of kernel stacks.
- Control blocks are keyed by pid, and the truncation of 64-bit pids to `int` is not modelled; the tick counter is a natural, while the sum in `do_alarm` wraps at 64 bits.
- Lifecycle.StepInv: Fork is allowed while fewer than 99 processes are queued or active, and requires as much, since the ring does not detect that it is full.
- Lifecycle.AlarmBound: requires a wait of at least a second and a sum below 2^64; with a sum of 0 the source's process would wait forever.
- The buffer of the keyboard line: whether a line is ready is an input of `DoRead` and `DoResume`.
- The clock display and the divider by 10 that drives it.
- PathCleanup.CleanupPath: absolute paths with at most 13 slashes that fit the buffer. With 14 slashes all 15 pointers are in use, none is ever freed again (FullStays), and the source runs past the array or does not end; with more it writes past the array.
- PathCleanup.SplitPath: up to 14 slashes; from the 15th on the source writes past its array.
- PathCleanup.JoinPaths: the joined path fits the buffer; an absolute name that does not is cut without a terminator (KStrCpy), and a concatenation is written past the buffer.
- PathCleanup.PathMerge: requires the same, and at most 13 slashes in the joined path.
- Directories.DoChdir: requires that the texts fit their buffers, which the source overruns otherwise.
- Tarfs.Process.DoOpenFile: requires a free slot in the descriptor table; the source writes past a full one.
- Tarfs.Process.DoOpenDir: requires a free slot in the descriptor table; the source writes past a full one.
- Tarfs.Scan: stands for the loop that the source repeats in each search and open; offsets are naturals, so a corrupt size that wraps the offset is not modelled. For an empty path the name is what stands behind the terminator, which the source reads too.
- Tarfs.MapFile: stops at the image and leaves out the entry point that the loader returns.
- The prefix field of a header, which the source does not read.
- CopyOnWrite.WriteFault: the process's own pages; the kernel's half is in KernelAccess.
- The line of `do_execve` that clears slot 0 of the active root, with which a process gives up its lower pages.
- The ELF loader, the contents of the stack of a new program, and `getdents`, whose terminator is skipped at the end block of an archive.
- FileReader.ReadToBuffer: a descriptor is an object of its own rather than an element of the process's table.
- Console attributes: the attribute byte is written as 0 but no property of it is stated.
- The other system calls (`brk`, `getcwd`, `getps`, `close`), printf, the keyboard's scan codes, descriptor tables and the boot code.
