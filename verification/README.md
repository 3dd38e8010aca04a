# Memory, processes and the shell of an xv6 teaching kernel, in Dafny

The repository holds the student versions of three parts of xv6-riscv. This project models
their logic and proves what it is for.

1. Virtual memory on Sv39 (`Riscv`, `PageTable`, `Kalloc`, `Vm`, `Space`, `Need`, `Uvm`, `FreeWalk`,
   `UserMemory`, `Copy`, `Vmprint`) and the memory side of processes (`ProcTable`, `Proc`,
   `Processes`, `Syscalls`, `Fork`, `Runs`, `Conservation`, `Histories`, `PgAccess`). Physical memory is a
   map from page numbers to pages; a page holds 512 PTEs, 4096 bytes, or the link of the free
   list. The page tables are the pointer structure that the kernel builds, and every page of
   RAM has one owner, a ghost record that the invariant `PtInv` ties to the pointers in both
   directions. The operations of `vm.c` are methods that change this memory in place and are
   proved against the flat map from pages to PTEs. On top of it, the memory that a process
   sees is a sequence of pages in which a page that is not mapped yet reads as zeros; copies,
   faults and both kinds of sbrk are proved against that view. The results are about whole
   runs: a lazy heap looks like an eager one, nothing a process does is visible to another,
   no panic is reachable, each page has exactly one place, and the life of a process gives
   back every page that it took.
2. The process table protocol (`Protocol`, `ProtocolInv`, `ProtocolSteps`, `ProtocolProofs`,
   `ProtocolLocks`, `ProtocolFamily`, `ProtocolSafety`, `ProtocolEffects`, `ProtocolCalls`,
   `ProtocolWait`, `ProtocolSched`, `ProtocolExample`): fork, exit, wait, sleep, wakeup,
   yield, kill and the scheduler as interleaved atomic steps with explicit program counters,
   for any number of CPUs and processes, with the lock of a process handed over across
   `swtch`. Every step keeps one invariant; from it follow no lost wakeup in wait, no free of
   a running process, no orphaned zombie, the lock order, and that some CPU can always go on.
   What a step does is stated field by field over all steps, and what a call does from its
   first step to its last, in any run: kill and wakeup reach their victims, kwait returns or
   sleeps when it should, exit never returns, and the scheduler runs what is runnable.
3. The shell (`Parser`, `ParserMeaning`, `Pipeline`): the in-place tokenizer refines a recursive description
   of what a line means, and the recursive `execline` wires any number of pipes.

Page numbers stand for physical addresses divided by PGSIZE, and 0 for the null pointer. A
PTE is its page number and its ten low bits; `Riscv` proves on 64-bit words that the macros
build and take apart exactly that. Sizes and addresses are natural numbers, with the 64-bit
wrap written out where the code can reach it (`sz + n`, `base + npages * PGSIZE`). The Sv39
facts are those of sections 4.3.1 and 4.4 of the RISC-V Privileged Architecture v1.12. A
`panic` is a precondition, or `assert false` where it would be called.

`oom` is a ghost result that is true when an allocation failed on the way. Contracts of the
form "unless oom" say everything for the other case; for the failing case they say what has
been kept, and when it happens. For allocproc, fork, uvmcopy, eager growth and a fault this is
exact: when the free pages do not cover the pages to be mapped and the tables missing on the
way to them (`Need`). For the copies it is a bound: a page and two tables for each page that
the copy touches and that is not mapped yet.

Where the comments of the sources promise more than the code does, the code is followed, with
an input at which the promise fails and the exact condition under which it holds. The comment
of `uvmcopy` says that it frees any allocated pages on failure; the code leaves the tables
that it made in the child's tree (they go with `freeproc`). `TablesRemain` is such a failure,
and the contract of `UvmCopy` says when tables remain: exactly when the copy gets to a mapped
page of the parent for which the child lacks a table with two free pages left
(`MakesTable`); `FirstPageDecides` is the common case, two free pages at the start. `growproc`
is said to change the memory by n bytes; a shrink by more than the size returns success and
does nothing, because `sz + n` wraps. `ShrinkIgnored` is such a call, and `GrowExact` and
`SbrkExact` say that a success changes the size by n exactly when `sz + n` is not negative.

## Model

| member | source | states |
|---|---|---|
| Riscv.MakePte | Proyecto3/kernel/riscv.h:403-407 | On 64-bit words: the PTE that mappages builds decodes to the page and the bits it was built from, with V set |
| Riscv.ClearBits | Proyecto3/kernel/riscv.h:403-407 | Clearing A or U in a PTE word, and PTE_FLAGS, keep the page and every other bit |
| Riscv.PxWord | Proyecto3/kernel/riscv.h:409-412 | PX on words: below MAXVA the three fields and the offset rebuild the address, and the top field is below 256 |
| Riscv.RoundWord | Proyecto3/kernel/riscv.h:392-393 | PGROUNDDOWN and PGROUNDUP on words are the nearest multiples of a page below and above |
| Riscv.PxRebuilds | Proyecto3/kernel/riscv.h:409-418 | The same split on numbers loses nothing, for every address below MAXVA |
| Riscv.SplitInjective | Proyecto3/kernel/riscv.h:409-412 | Two pages with the same three indices are the same page |
| Riscv.PgRoundUp | Proyecto3/kernel/riscv.h:392 | The least multiple of a page at or above sz, for every sz that does not wrap |
| Kalloc.Machine.FreeRange | Proyecto2/kernel/kalloc.c:33-40 | After freerange every whole page of the range is on the free list and every other page has the owner it had, for every range inside the RAM behind the kernel |
| Kalloc.Machine.Kfree | Proyecto2/kernel/kalloc.c:46-63 | kfree of a page that is allocated pushes it in front of the list and changes no other page; a second kfree is ruled out |
| Kalloc.Machine.Kalloc | Proyecto2/kernel/kalloc.c:68-82 | kalloc takes the first page of the list, filled with junk, and returns 0 exactly when the list is empty |
| Kalloc.Machine.GetFreeMemory | Proyecto2/kernel/kalloc.c:85-101 | The walk of the list stops and returns PGSIZE times the number of free pages |
| Kalloc.Machine.SysInfoPages | Proyecto2/kernel/sysproc.c:126-139 | Used and available pages add up to (PHYSTOP-KERNBASE)/PGSIZE, and the clamp to zero is never taken |
| Kalloc.FewFree | Proyecto2/kernel/kalloc.c:85-101 | Free pages are always fewer than pages of RAM, whatever the history of the list |
| Kalloc.ChainIsFree | Proyecto2/kernel/kalloc.c:85-101 | Following the links in memory from any node reads the rest of the list, in order, and then stops |
| Kalloc.Pigeonhole | Proyecto2/kernel/kalloc.c:85-101 | Distinct page numbers of a range are no more than the range has |
| PageTable.Reached | Proyecto3/kernel/vm.c:98-116 | Every table page and user page of a tree is reached from the root along the position recorded for it, so none has two parents |
| PageTable.LeafOwner | Proyecto3/kernel/vm.c:98-116 | A valid leaf has R and leads to a page that belongs to this tree at this position; an invalid one is zero |
| PageTable.UpperHalfEmpty | Proyecto3/kernel/riscv.h:414-418 | Slots 256 and above of a root are zero in every reachable state |
| PageTable.OtherTrees | Proyecto3/kernel/vm.c:98-213 | An operation on one tree leaves every translation of every other tree as it was |
| PageTable.PagePathInjective | Proyecto3/kernel/riscv.h:409-412 | Different pages have different positions in a tree |
| PageTable.LinkTable | Proyecto3/kernel/vm.c:109-112 | Linking a zeroed page below an invalid slot keeps the invariant of all trees |
| PageTable.MapLeaf | Proyecto3/kernel/vm.c:166-168 | Writing one leaf changes the translation of that page only, and the page mapped joins the tree |
| PageTable.UnmapLeaf | Proyecto3/kernel/vm.c:205-211 | Clearing a leaf, its page freed before, unmaps that page only |
| PageTable.UnlinkTable | Proyecto3/kernel/vm.c:274-279 | A table without valid slots can be detached from its parent and given away |
| PageTable.MissingAfter | Proyecto3/kernel/vm.c:98-116 | Making the tables on the way to one page makes exactly those that other pages share with it |
| Vm.Walk | Proyecto3/kernel/vm.c:98-116 | walk returns the slot of the page in the flat map, null only when there is no translation; without alloc it changes nothing; with alloc it adds exactly the missing tables and no translation, and it fails exactly when there are fewer free pages than missing tables |
| Vm.MapPages | Proyecto3/kernel/vm.c:146-175 | mappages maps exactly the first k pages, all of them on success, leaves every other translation of every tree alone, and stops only when memory has run out |
| Vm.UvmUnmap | Proyecto3/kernel/vm.c:193-213 | Exactly the pages of the range are unmapped and, below USYSCALL, freed; every other translation, owner and content is as before |
| Uvm.UvmCreate | Proyecto3/kernel/vm.c:179-188 | A new root with no translation, or nothing changed when memory has run out |
| Uvm.MapFresh | Proyecto3/kernel/vm.c:226-240 | kalloc, fill and mappages together succeed exactly when there is a free page and one for each missing table; on success one more page with the given bytes, on failure the page is back on the list, and a table remains exactly when one was missing and two pages were free |
| Uvm.UvmAlloc | Proyecto3/kernel/vm.c:217-242 | It succeeds exactly when the free pages cover the new pages and the tables that are missing for them; then exactly the pages that newsz has beyond oldsz are mapped, to zeros, and just that many pages are gone from the list; on failure no page remains mapped, and tables remain exactly when it got as far as making one |
| Uvm.UvmDealloc | Proyecto3/kernel/vm.c:248-260 | Exactly the pages that oldsz has beyond newsz are unmapped and freed; a newsz that is not smaller, as after a 64-bit wrap, changes nothing |
| FreeWalk.EmptySlot | Proyecto3/kernel/vm.c:264-280 | No page of a tree lies below an invalid slot |
| FreeWalk.FreeWalk | Proyecto3/kernel/vm.c:264-280 | Every table at or below a position is freed, each once, and nothing else; the leaf panic cannot be reached |
| FreeWalk.UvmFree | Proyecto3/kernel/vm.c:319-325 | All pages of a tree, user pages and tables, are free again and nothing else changes |
| Uvm.UvmCopy | Proyecto3/kernel/vm.c:333-361 | It succeeds exactly when the free pages cover the mapped pages of the parent and the tables that the child lacks; then the child has those pages with the same bits and bytes and lazy pages stay unmapped; on failure no page remains, and tables remain exactly when the copy got as far as making one, which can be told before the call |
| Need.FirstPageDecides | Proyecto3/kernel/vm.c:327-361 | With a table missing on the way to the first mapped page, a failing copy leaves tables behind exactly when two pages were free; with at most one free page it never does |
| Uvm.FreshLacks | Proyecto3/kernel/proc.c:187-227 | The child of allocproc lacks a table for every page but the topmost 512 |
| Uvm.TablesRemain | Proyecto3/kernel/vm.c:327-361 | A machine on which uvmcopy fails and a table remains, against its comment: one page to copy, an empty tree, two free pages |
| Need.MapNeedBounds | Proyecto3/kernel/vm.c:333-361 | Mapping a set of pages takes one free page for each and at most two tables for each |
| Need.MapNeedSame | Proyecto3/kernel/vm.c:217-361 | What it takes depends on which pages are to be mapped and which tables are missing alone |
| Need.NeedMore | Proyecto3/kernel/vm.c:217-361 | Mapping one page more takes that page and those tables that no page before it has needed |
| Uvm.CopyView | Proyecto3/kernel/vm.c:333-361 | A copied page looks like the original and lies on a physical page that was free before |
| Uvm.VmFault | Proyecto3/kernel/vm.c:493-513 | A fault maps a page of zeros exactly when the address is below the size and not mapped and there are free pages for it and the missing tables; otherwise nothing is mapped |
| Uvm.IsMapped | Proyecto3/kernel/vm.c:515-526 | Whether the page has a translation |
| Space.GrownView | Proyecto3/kernel/vm.c:217-242 | Growing a tree changes the view of no page but those mapped anew |
| Space.ZeroView | Proyecto3/kernel/vm.c:493-513 | A page of zeros mapped on demand looks the same as before it was mapped |
| Space.GrownUndone | Proyecto3/kernel/vm.c:231-239 | Growing and then unmapping what was mapped leaves tables and nothing else |
| UserMemory.CopyOutMeaning | Proyecto3/kernel/vm.c:379-412 | copyout writes exactly a prefix of src and touches no other byte and no permission; it succeeds, with all of src, exactly when every byte of the range may be written |
| UserMemory.CopyInMeaning | Proyecto3/kernel/vm.c:417-440 | copyin stores exactly the memory from the address on, up to the first byte that may not be read, and succeeds exactly when there is none |
| UserMemory.CopyInStrMeaning | Proyecto3/kernel/vm.c:446-487 | copyinstr succeeds exactly when a readable string of at most max bytes, NUL included, starts at the address, and then stores that string |
| UserMemory.CopyRoundTrip | Proyecto3/kernel/vm.c:379-440 | copyin of a range just written by copyout gives back what was written |
| UserMemory.CopyOutSplit | Proyecto3/kernel/vm.c:379-412 | A copyout may be cut at any page boundary |
| UserMemory.RoundsNext | Proyecto3/kernel/vm.c:385-410 | A copy has one round for each page that its bytes lie in |
| UserMemory.Chunk | Proyecto3/kernel/vm.c:402-404 | The bytes of one round of a copy loop: the rest of the page, or of the data |
| UserMemory.FirstNul | Proyecto3/kernel/vm.c:468-480 | The position of the first NUL |
| Copy.WalkAddr | Proyecto3/kernel/vm.c:121-139 | The physical page of a page that the user may access, 0 in every other case, addresses at or above MAXVA included |
| Copy.FindPage | Proyecto3/kernel/vm.c:388-395 | walkaddr followed by vmfault finds a page exactly when the user may read it, unless it is not mapped yet and there are no pages for it and its tables; the user memory looks the same |
| Copy.FaultStep | Proyecto3/kernel/vm.c:493-513 | A fault, successful or not, does not change the memory that the process sees |
| Copy.StoreStep | Proyecto3/kernel/vm.c:405 | Storing bytes through a mapped page changes the view of that page only |
| Copy.CopyOutUser | Proyecto3/kernel/vm.c:379-412 | copyout on page tables, with its lazy faults, refines copyout on plain user memory; the pages of the bytes written are mapped afterwards, and no other translation changes; it runs out of memory only on a page that is not mapped yet, with fewer than three free pages for each such page of the range, and then has written a prefix |
| Copy.CopyInUser | Proyecto3/kernel/vm.c:417-440 | copyin on page tables refines copyin on plain user memory, which it leaves as it was; exactly the pages of the bytes read have been faulted in; it runs out of memory only on a page that is not mapped yet |
| Copy.CopyInStrUser | Proyecto3/kernel/vm.c:446-487 | copyinstr on page tables refines copyinstr on plain user memory, which it leaves as it was; exactly the pages of the bytes read have been faulted in; it runs out of memory only on a page that is not mapped yet |
| Copy.ScanChunk | Proyecto3/kernel/vm.c:465-478 | The inner loop stores the bytes up to and including the first NUL |
| Vmprint.VmPrint | Proyecto3/kernel/vm.c:286-315 | The lines of level 0 are in strictly increasing address order, and an address is printed with a PTE exactly when walk finds that valid PTE |
| Vmprint.VmPrintLevel | Proyecto3/kernel/vm.c:286-307 | The recursion ends, and appends the lines of one table |
| Vmprint.LinesOrdered | Proyecto3/kernel/vm.c:286-307 | The lines of a table lie in its address range, in strictly increasing order |
| Vmprint.LinesMembers | Proyecto3/kernel/vm.c:286-307 | A line is printed for an address exactly when the descent by indices finds that valid PTE |
| Vmprint.PrintedIsMapped | Proyecto3/kernel/vm.c:286-315 | Printed lines of level 0 and the flat map of walk agree, for every address and PTE |
| Proc.PidReadBack | Proyecto3/user/ulib.c:23-28 | The int that a program reads from the page is the C int that getpid returns, also after pids have wrapped around |
| Proc.SlotChange | Proyecto3/kernel/proc.c:109-238 | A step of one slot on its own pages keeps the invariant of the whole process table |
| ProcTable.ProcPagetable | Proyecto3/kernel/proc.c:187-227 | A page table with exactly the trampoline, the trapframe and the shared page mapped, made of three pages; it fails exactly with fewer than three free pages, and then every page is back |
| ProcTable.ProcFreePagetable | Proyecto3/kernel/proc.c:231-238 | All pages of the tree are free again, the three top pages are only unmapped |
| Processes.Isolation | Proyecto3/kernel/proc.c:258-277 | What one process does to its own pages no other process can see |
| Processes.Kernel.constructor | Proyecto3/kernel/proc.c:46-59 | An empty process table in order |
| Processes.Kernel.AllocProc | Proyecto3/kernel/proc.c:109-159 | The first unused slot gets the next pid, a trapframe, a shared page and an empty page table, five free pages in all; it fails exactly without an unused slot or with fewer than five free pages, and then every page has its owner back |
| Processes.Kernel.FreeProc | Proyecto3/kernel/proc.c:164-183 | Every page of the slot is free, no other page and no other process changes, and the slot is clean |
| Processes.GainedReleased | Proyecto3/kernel/proc.c:109-183 | What a slot gained since it had nothing and then releases leaves all owners as they were |
| Syscalls.GrowProc | Proyecto3/kernel/proc.c:258-277 | An eager growth fails exactly beyond USYSCALL or when the free pages do not cover the new pages and the tables missing for them; on success every page from the old end to the new one has a valid RWU translation to zeros, and no other translation has changed; a shrink unmaps exactly the pages given up; size and memory become what the abstract growproc says, or stay as they were when it fails; a success changes the size by n exactly when n takes away no more than there is |
| Syscalls.SysSbrk | Proyecto3/kernel/sysproc.c:39-65 | Eager or lazy, sbrk has the same meaning on size and memory; an eager growth maps every new page and fails exactly as growproc does, a lazy one touches no page and fails exactly beyond USYSCALL; no other translation changes; a success changes the size by n exactly when n takes away no more than there is |
| Syscalls.SbrkExact | Proyecto3/kernel/sysproc.c:39-65 | sbrk fails exactly on a growth beyond USYSCALL; a success changes the size by n exactly when the size plus n is not negative; a larger shrink returns success and changes nothing |
| Syscalls.GrowExact | Proyecto3/kernel/proc.c:257-277 | The same for growproc, whose comment promises a change by n |
| Syscalls.ShrinkIgnored | Proyecto3/kernel/proc.c:257-277 | An input at which the promise fails: size 4096 and n -4097 succeed and change nothing |
| Syscalls.LazilyGrown | Proyecto3/kernel/sysproc.c:55-63 | Adding to the size alone looks like mapping pages of zeros |
| Syscalls.Write | Proyecto3/kernel/vm.c:379-412 | copyout by one process among others: its memory changes as the abstract copyout says, nobody else notices; it runs out of memory only with fewer than three free pages for each page of the range that is not mapped yet, and then a prefix is written |
| Syscalls.Read | Proyecto3/kernel/vm.c:417-440 | copyin by one process among others, which does not change its memory; it runs out of memory only on pages that are not mapped yet |
| Syscalls.ReadStr | Proyecto3/kernel/vm.c:446-487 | copyinstr by one process among others; it runs out of memory only on pages that are not mapped yet |
| Syscalls.Fault | Proyecto3/kernel/vm.c:493-513 | A fault changes neither size nor memory as any process sees them; it maps a page exactly when the address is below the size, not mapped yet, and there are free pages for it and the missing tables |
| Fork.KFork | Proyecto3/kernel/proc.c:281-328 | The child has the size and memory of its parent, with the same pages mapped, on pages that were free, its own pid in the shared page, and the registers of the parent but for a zero a0; it fails exactly without an unused slot or when the free pages do not cover the five of a new process and what the copy takes; then every page is back |
| Fork.ForkPages | Proyecto3/kernel/vm.c:333-361 | After uvmcopy both processes see the same private pages with the same PTE bits |
| Fork.LifeConserves | Proyecto3/kernel/proc.c:109-183 | From allocproc to freeproc, whatever the process did in between on its own pages, every page gets its owner back |
| Fork.SharedPage | Proyecto3/kernel/proc.c:135-142 | The page at USYSCALL holds the pid and may not be written |
| Runs.AlikeRuns | Proyecto3/kernel/sysproc.c:39-65 | On sizes and bytes, runs that differ only in which growths are eager have the same outcomes: SysSbrk meets one meaning for both modes, in which the mode plays no part |
| Runs.DoOp | Proyecto3/kernel/sysproc.c:39-65 | One sbrk, copy or fault on page tables does what the abstract operation says; sbrk fails for lack of memory exactly when an eager growth is not covered, the others only with fewer free pages than the unmapped pages of the range may need; an eager growth maps its pages, a copy or a fault those of its bytes, and no other translation changes but those that a shrink gives up |
| Runs.RunOps | Proyecto3/kernel/sysproc.c:39-65 | Any sequence of sbrk, copies and faults has the outcomes and the memory of a model that knows no pages, whenever the free pages cover the cost of the sequence |
| Runs.LazyIsEager | Proyecto3/kernel/sysproc.c:39-65 | Two processes with the same size and memory that do the same, one eagerly and one lazily, have exactly the outcomes and the final memory of one abstract run, whenever the free pages cover the costs; no other process notices |
| Runs.Lifetime | Proyecto3/kernel/proc.c:109-183 | allocproc, any run and freeproc: every page has its owner back and no other process has changed; it fails exactly without an unused slot or with fewer than five free pages, and otherwise the outcomes are those of the abstract run on an empty memory |
| Runs.UgetpidIsGetpid | Proyecto3/user/ulib.c:23-28 | In every reachable state the bytes at USYSCALL are the pid and zeros, and reading them as an int gives what getpid returns |
| Conservation.TreeIsMine | Proyecto3/kernel/vm.c:98-116 | The pages that memory shows below a root are exactly those that the invariant records |
| Conservation.Partition | Proyecto2/kernel/kalloc.c:46-82 | In every reachable state each page of RAM that the rest of the kernel does not hold has exactly one place: the free list, one trapframe, one shared page, or one page table |
| Histories.History | Proyecto3/kernel/proc.c:109-328 | Any history of allocproc, fork, sbrk, copies, faults and freeproc on any processes: the state is in order after every event, each event does what it stands for, and no panic on the way can be reached |
| Histories.HistoryIsolates | Proyecto3/kernel/proc.c:109-328 | A process that neither acts nor is freed has the same slot, size and memory at the end of any history of the others |
| Histories.NothingLost | Proyecto3/kernel/proc.c:109-328 | Whenever no process is left at the end of a history, every page but those of the kernel itself is free again, however often memory ran out on the way |
| PgAccess.Hart.Access | Proyecto3/kernel/sysproc.c:122-124 | A load or store succeeds exactly when the page may be accessed, unless the page is due but not mapped yet and there are no pages for it and its tables; it marks the page as used and leaves the memory as it looks; a TLB hit does not touch the page table |
| PgAccess.Hart.ChangeSize | Proyecto3/kernel/sysproc.c:39-65 | sbrk during a session: pages given up are forgotten, new pages start unused, the uses of all other pages are kept; which pages are mapped, and when memory runs out, is as for sbrk |
| PgAccess.Hart.KernelWrite | Proyecto3/kernel/vm.c:379-412 | A copyout in any system call does what it means and marks no page as used, whatever it maps on the way |
| PgAccess.BitProcs | Proyecto3/kernel/sysproc.c:157-163 | Setting or clearing an A bit keeps the whole process table in order and is seen by no other process |
| PgAccess.Hart.PgAccess | Proyecto3/kernel/sysproc.c:124-169 | Bit i of the mask says exactly whether page i was used since the last successful query that covered it; the call succeeds exactly when the mask can be written, stores it and nothing else and starts the history of the range anew; a failing call forgets nothing; bad arguments change nothing; lack of memory is bounded by the pages that the mask touches |
| PgAccess.Hart.ReadBits | Proyecto3/kernel/sysproc.c:145-152 | The first pass reads the A bits and changes nothing, so it maps no page |
| PgAccess.Hart.ClearBits | Proyecto3/kernel/sysproc.c:157-163 | The second pass finds a PTE for every bit of the mask, clears exactly those A bits, and takes or gives no page |
| PgAccess.CheckArgs | Proyecto3/kernel/sysproc.c:136-143 | The 64-bit checks accept exactly the aligned ranges of 1 to 64 pages that end at or below the size |
| PgAccess.MaskReadBack | Proyecto3/kernel/sysproc.c:154-155 | The program finds in its memory the mask that the kernel computed, bit by bit |
| PgAccess.ValueBits | Proyecto3/kernel/sysproc.c:151-152 | Bit k of the number made of a sequence of bits is bit k of the sequence |
| PgAccess.AfterMeaning | Proyecto3/kernel/sysproc.c:122-124 | A page counts as used exactly when it was touched after the last entry that forgot it (a query that covered it, or sbrk giving it up), or was used from the start and never forgotten |
| PgAccess.Session | Proyecto3/kernel/sysproc.c:124-169 | Any sequence of accesses, TLB evictions, queries, calls of sbrk and copies by the kernel: each request is logged and does what a model without page tables, A bits and TLB says, or fails with fewer free pages than it may need; a page in use never fails |
| PgAccess.QueryExact | Proyecto3/kernel/sysproc.c:122-169 | In every session, bit j of the answer to a successful query is set exactly when page j was used since the last successful query that covered it, or from the start, and the program reads that bit from its memory |
| PgAccess.EnoughMemory | Proyecto3/kernel/sysproc.c:124-169 | A session whose free pages cover its need never runs out of memory |
| PgAccess.StepCoherent | Proyecto3/kernel/vm.c:379-412 | A page mapped by a fault or by copyout starts with A clear, so it does not disturb history |
| ProtocolSafety.InitKeeps | Proyecto3/kernel/proc.c:241-254 | The state after userinit satisfies the invariant |
| ProtocolSafety.StepKeeps | Proyecto3/kernel/proc.c:92-645 | Every atomic step of every CPU keeps the invariant; what the steps do is said in ProtocolEffects, and what whole calls do in ProtocolCalls, ProtocolWait and ProtocolSched |
| ProtocolSafety.RunKeeps | Proyecto3/kernel/proc.c:92-645 | The invariant holds in every state of every run, for any number of CPUs and processes |
| ProtocolSafety.NoLostWakeup | Proyecto3/kernel/proc.c:332-442 | Whenever wait_lock is free, a process prepared or asleep in kwait and not woken has no zombie child; SLEEPING implies a channel |
| ProtocolSafety.SleeperHasChild | Proyecto3/kernel/proc.c:393-442 | Whenever wait_lock is free, a process prepared or asleep in kwait and not woken has a child that is still alive: nobody waits for a wakeup that cannot come |
| ProtocolSafety.OneCpu | Proyecto3/kernel/proc.c:451-531 | A process is current on at most one CPU; with its lock free it is RUNNING exactly when some c->proc points to it, and a zombie is off every CPU; myproc is the process whose thread runs |
| ProtocolSafety.FreedIsOff | Proyecto3/kernel/proc.c:404-424 | The zombie that kwait frees is on no CPU and no c->proc points to it |
| ProtocolSafety.Family | Proyecto3/kernel/proc.c:297-343 | Parents are live, every live process but init and every zombie has a parent while wait_lock is free, live pids are distinct and below nextpid, unused slots are clean |
| ProtocolSafety.SchedHoldsOwnLock | Proyecto3/kernel/proc.c:502-531 | Each call of sched is made with p->lock held and no other lock |
| ProtocolSafety.NoDeadlock | Proyecto3/kernel/proc.c:370-442 | In no reachable state do CPUs wait for each other's locks in a circle, and chains of waiting CPUs are at most three long |
| ProtocolSafety.NeverStuck | Proyecto3/kernel/proc.c:92-645 | In every reachable state some CPU can take a step |
| ProtocolSafety.Order | Proyecto3/kernel/proc.c:370-442 | A CPU that is waited for waits only for a lock of higher rank: wait_lock, then p->lock, then pid_lock and kmem.lock |
| ProtocolSafety.EnterAlone | Proyecto3/kernel/proc.c:469-476 | The scheduler that is about to enter a process is the only CPU with its lock |
| ProtocolSafety.ResumedLocks | Proyecto3/kernel/proc.c:523-595 | A thread that may be entered expects its own lock and no other |
| ProtocolFamily.OffCpu | Proyecto3/kernel/proc.c:405-421 | A zombie whose lock kwait has acquired has left its CPU |
| ProtocolFamily.KeepsPidBody | Proyecto3/kernel/proc.c:92-103 | Handing out a pid keeps pids distinct and the invariant |
| ProtocolFamily.KeepsParentBody | Proyecto3/kernel/proc.c:319-321 | Setting np->parent keeps the invariant |
| ProtocolFamily.KeepsRunBody | Proyecto3/kernel/proc.c:323-325 | Making the child runnable keeps the invariant |
| ProtocolFamily.KeepsFailBody | Proyecto3/kernel/proc.c:294-298 | Freeing a half-made child under kmem.lock keeps the invariant |
| ProtocolFamily.KeepsAdopt | Proyecto3/kernel/proc.c:332-343 | Passing a child to init keeps the invariant, a zombie child of a sleeping init included |
| ProtocolFamily.KeepsZombieBody | Proyecto3/kernel/proc.c:378-383 | Becoming a zombie, after the wakeup of the parent, keeps the invariant |
| ProtocolFamily.KeepsReap | Proyecto3/kernel/proc.c:405-420 | Taking a zombie from its parent keeps the invariant |
| ProtocolFamily.KeepsReapBody | Proyecto3/kernel/proc.c:421-422 | freeproc of a zombie keeps the invariant |
| ProtocolProofs.KeepsCopyOut | Proyecto3/kernel/proc.c:411-416 | A fault in the copyout of the exit status, which takes kmem.lock under wait_lock and the lock of the child, keeps the invariant |
| ProtocolProofs.KeepsSetBody | Proyecto3/kernel/proc.c:647-653 | setkilled keeps the invariant |
| ProtocolFamily.KeepsPrepBody | Proyecto3/kernel/proc.c:568-579 | sleep_prepare keeps the invariant: in kwait there is no zombie child when it registers |
| ProtocolLocks.KeepsSleep | Proyecto3/kernel/proc.c:584-595 | Going to sleep and handing the lock to the scheduler keeps the invariant |
| ProtocolLocks.KeepsYieldSwitch | Proyecto3/kernel/proc.c:523-531 | Yielding keeps the invariant |
| ProtocolLocks.KeepsExitSched | Proyecto3/kernel/proc.c:385-387 | The last switch of a zombie keeps the invariant |
| ProtocolLocks.WantGets | Proyecto3/kernel/proc.c:92-645 | An acquire adds exactly the lock asked for to those of the program point |
| ProtocolProofs.KeepsWakeBody | Proyecto3/kernel/proc.c:598-618 | A round of wakeup keeps the invariant; what the round does is WakeStep |
| ProtocolProofs.KeepsKillBody | Proyecto3/kernel/proc.c:623-645 | A round of kkill keeps the invariant; for pid 0 it would spoil an unused slot; what the round does is KillStep |
| ProtocolProofs.KeepsScan | Proyecto3/kernel/proc.c:401-427 | A round of the search for children keeps the invariant: its flag says exactly whether one of the slots before has p as parent |
| ProtocolSteps.Exclusive | Proyecto3/kernel/proc.c:92-645 | A lock that one thread holds at its program point no other CPU holds |
| ProtocolEffects.StepEffect | Proyecto3/kernel/proc.c:92-653 | For each field of each slot, which steps of which CPU change it and to what: state, channel, killed, pid, parent, pages, the CPU it is on, and the context of a thread that does not run; every other step leaves it as it was |
| ProtocolCalls.Turn | Proyecto3/kernel/proc.c:92-653 | A thread goes on by its own steps only, whatever other CPUs do |
| ProtocolCalls.KillStep | Proyecto3/kernel/proc.c:630-643 | The round of kkill at a slot with the pid sets killed, makes a SLEEPING process RUNNABLE and changes no other field and no other slot; at a slot with another pid it changes nothing; it releases the lock of that slot alone |
| ProtocolCalls.KillReturns | Proyecto3/kernel/proc.c:623-645 | In every run, kkill returns with the step that killed the process of that pid, or after a look at every slot, none of which had that pid when it was looked at |
| ProtocolCalls.KillKills | Proyecto3/kernel/proc.c:623-645 | A process that keeps its slot and its pid is killed when a kkill of its pid returns, by the last step of that call |
| ProtocolCalls.WakeStep | Proyecto3/kernel/proc.c:602-617 | The round of wakeup at a slot: a process on that channel, whatever the channel, is taken off it, and made RUNNABLE if it slept; nothing else changes |
| ProtocolCalls.WakeReturns | Proyecto3/kernel/proc.c:598-618 | In every run, wakeup has looked at every slot when it returns |
| ProtocolCalls.WakeupWakes | Proyecto3/kernel/proc.c:598-618 | No process sleeps on one channel all through a wakeup on it |
| ProtocolCalls.SleepEnds | Proyecto3/kernel/proc.c:568-645 | A sleep ends only with a wakeup on the channel that it began on, or with a kill of its pid |
| ProtocolCalls.PreemptMay | Proyecto3/kernel/proc.c:523-531 | The timer can interrupt a thread exactly when its CPU holds no lock |
| ProtocolCalls.PreemptedStays | Proyecto3/kernel/proc.c:523-531 | A preempted thread takes its lock, becomes RUNNABLE, gives up the CPU, and when it runs again releases the lock and goes on where it was |
| ProtocolCalls.UserMay | Proyecto3/kernel/proc.c:281-653 | A running program can fork, wait, kill any pid but 0, sleep and wake up at any time, and exit unless it is init |
| ProtocolWait.KwaitReturns | Proyecto3/kernel/proc.c:392-442 | In every run, kwait returns only after it has taken and freed a zombie child, has failed to report one, which stays a zombie, has found no child in the whole table, or has found itself killed |
| ProtocolWait.KwaitSleeps | Proyecto3/kernel/proc.c:429-440 | A scan of the whole table by a process with a child is followed by no return unless it is killed: the process registers on its channel and sleeps, unless it was woken in between, before it scans again |
| ProtocolWait.WaitFlow | Proyecto3/kernel/proc.c:392-442 | Where each step of kwait leads: a scan ends with a return exactly when there is no child, and a child is reaped exactly when it is a zombie |
| ProtocolWait.KforkReturns | Proyecto3/kernel/proc.c:281-328 | In every run, kfork ends with a child of the caller that is RUNNABLE for the first time, or has given up its slot for lack of memory, or has found every slot in use |
| ProtocolWait.KexitDies | Proyecto3/kernel/proc.c:348-389 | kexit never returns, and the process is dead only after it has given its children away, woken its parent up and become a zombie |
| ProtocolSched.RunsRunnable | Proyecto3/kernel/proc.c:468-485 | In every reachable state, a scheduler that holds the lock of a slot can go on, and every step of it runs the process if it is RUNNABLE (RUNNING, c->proc and the CPU set, the lock still held); otherwise it changes nothing but its own place |
| ProtocolSched.LeaveStep | Proyecto3/kernel/proc.c:485-486 | Then it gives back the lock of that slot alone, and goes on to the next slot or from the last to the first |
| ProtocolSched.RoundsAreFull | Proyecto3/kernel/proc.c:468-486 | In every run, before a scheduler begins a new round it has looked at every slot, and has run each process that was RUNNABLE when it did |
| ProtocolExample.LifeOfAChild | Proyecto3/kernel/proc.c:241-486 | There is a run from the start in which init runs, forks, sleeps in kwait with a live child, has a zombie child, and has reaped it |
| Parser.ParseLine | Proyecto1/user/parser.c:12-64 | The in-place tokenizer ends, stays inside the command, and leaves argv, infile and outfile pointing at NUL-terminated strings equal to the words and the last redirections of the original text |
| Parser.WordsMeaning | Proyecto1/user/parser.c:12-64 | Words are not empty and hold no blank and no arrow, and there are at most (len+1)/2 of them |
| Parser.ShortLinesFit | Proyecto1/user/parser.h:5 | Lines of at most 62 characters leave room for the null behind the words in MAXARGS entries |
| Parser.LettersParse | Proyecto1/user/parser.h:5 | The bound is tight: 2n-1 characters may hold n words |
| Parser.PassFileName | Proyecto1/user/parser.c:33-53 | A file name starts behind the spaces and ends at a space, a newline or the end |
| Parser.PassWord | Proyecto1/user/parser.c:56-58 | A word ends at a space, a newline, an arrow or the end |
| Parser.FindPipe | Proyecto1/user/parser.c:67-82 | The line is cut at its first bar and nowhere else, and the address behind it returned; without a bar nothing changes |
| ParserMeaning.ParseRendered | Proyecto1/user/parser.c:12-64 | A line written from words and redirections, with spaces and newlines between them, gives those words in order and the last name of each kind of redirection |
| ParserMeaning.EveryLine | Proyecto1/user/parser.c:12-64 | Every line can be written in that way, so this says what Parse gives on all lines |
| ParserMeaning.TwoWords | Proyecto1/user/parser.c:28 | Of two words and a newline, typed with a space between them, the newline belongs to neither |
| Pipeline.SegmentsJoin | Proyecto1/user/commands.c:54-108 | A line with k bars has k+1 parts, none with a bar in it, and joining them with bars gives back the line |
| Pipeline.RunCmd | Proyecto1/user/commands.c:10-49 | It quits exactly when the text has no words; otherwise the words are executed with the input file as descriptor 0 exactly when the command names one and the inherited descriptor if not, the output file as descriptor 1 likewise, and all other descriptors as they were |
| Pipeline.ExecLine | Proyecto1/user/commands.c:54-108 | The recursion over forked children runs exactly the commands of the line, wired as the recursive description says |
| Pipeline.Wiring | Proyecto1/user/commands.c:54-108 | Exactly k+1 commands run, on the parts in order, with the descriptors of the pipes; k shells wait, none with a write end |
| Pipeline.Connected | Proyecto1/user/commands.c:54-108 | The input of command j+1 is pipe j's read end and the output of command j its write end; the outer ends and all other descriptors are the shell's own |
| Pipeline.CommandsConnect | Proyecto1/user/commands.c:10-108 | Command j of a line is executed with its own redirections where it has any, with the pipes to its neighbours where not, and with the descriptors of the shell at the outer ends |
| Pipeline.OneWriter | Proyecto1/user/commands.c:54-108 | After the closes pipe j's write end is open only as the output of command j, and its read end is the input of command j+1 and of no other command |
| Pipeline.Lowest | Proyecto1/user/commands.c:78-92 | The lowest free descriptor |

## Left out

- Vm.MapPages: does not say which of several pages stay mapped for a caller that needs all or nothing, because a failing mappages keeps the first ones; every caller maps one page.
- Vm.UvmUnmap: requires that user pages are freed with their mapping and the three top pages are not, as every caller does; freeing a top page here would free it twice.
- Uvm.UvmAlloc: requires sizes up to USYSCALL, which growproc and sys_sbrk check before the call.
- Kalloc.Machine.FreeRange: requires a range inside the RAM behind the kernel whose pages are not free yet, since kfree panics outside of it and a second kfree would make the list cyclic.
- Processes.Kernel.AllocProc: kernel stacks, the saved context, names, open files and the current directory are not modelled.
- Fork.KFork: the steps after the child's memory is ready, parent and state, are those of the protocol model, where they are interleaved with other CPUs; here they are one step.
- PgAccess.Hart.Access: one hart; page table changes made elsewhere are taken to be followed by a flush before the program goes on, and the D bit is not modelled.
- ProtocolSafety.StepKeeps: the protocol is a transition system on values and not a class, since its point is the interleaving; the calls of kalloc and kfree in one allocproc, uvmcopy or freeproc are one critical section of kmem.lock, and success of an allocation or of copyout is a free choice.
- ProtocolCalls.KillReturns: returned values are no part of the protocol model; the step that kills stands for 0, the end of the loop for -1.
- ProtocolSched.RoundsAreFull: whether a CPU ever finishes a round depends on the processes that it runs, and no fairness between CPUs is assumed; the claim is about every round that is finished.
- Pipeline.ExecLine: pipe, fork, dup and open succeed, since the shell does not check them; open failing and the order in which the children run are not modelled.
- Parser.ParseLine: requires that the words fit into argv with the null behind them, as the code does not check it; every line of 62 characters does.
- Histories.History: operations on memory follow each other; each is atomic under the locks that the kernel holds, and the interleaving of locks is the subject of the protocol model alone.
- uvmclear: only exec calls it; pages without U are allowed for in all contracts.
- kexec, the file system, devices, traps, the trampoline code and the kernel's own page table are not part of this model; a process starts from allocproc with no memory.
- The protocol does not claim that a killed process dies promptly: a kill between the check and the sleep waits for the next wakeup.
- get_runnable_count reads states one after the other and is no snapshot; nothing is claimed of it.
- Shrinking and growing again within a page does not clear the rest of that page; the view of memory keeps its bytes, as the code does.
- Pids are natural numbers that stay distinct; getpid and the shared page turn them into C ints, and pids that meet again after 2^32 forks are not modelled.
- ProtocolSafety.NoDeadlock: locks that callers hold around sleep_prepare and wakeup, such as tickslock, come before p->lock and are no program points; neither are the wakeups of interrupt handlers, which run where no lock is held.
- Interrupt state (noff, intena) is modelled only in that a thread that holds a lock is not preempted.
- trace, syscall dispatch, argument fetching and printing formats: finite tables and one-branch facts.
