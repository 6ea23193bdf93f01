# Verified models of a RISC-V port of Linux 0.11 and its flashing tool

The repository is Linux 0.11 moved to the Kendryte K210 (RISC-V), together with `kflash.py`, the
tool that writes firmware to the chip. This project models the parts of it that keep state and
branch most, and proves what they are for. One module follows one component.

- **Files** (`Volume`, `BlockTree`, `Inodes`, `FileData`, `Truncation`). Zone bitmaps, the tree of
  direct, single- and double-indirect zones, and reading and writing through it. Every place that
  can hold a zone number is a *slot*; all facts about a tree are facts about what its slots hold.
  A file refines a flat array of bytes in which missing blocks read as zeros.
- **Memory** (`PageRefs`, `Memory`). Reference-counted pages, copy-on-write fork, teardown and
  contiguous allocation. `PageRefs` proves the invariant for single steps and for every run of
  them; `Memory` has the kernel's loops. That the state is one a run of single steps after
  `mem_init` leads to is part of what every one of them keeps.
- **Tasks** (`Scheduler`, `FileTable`, `Pipe`, `RecursiveLock`). Choice and recharge with a bound
  on waiting; open-file counts; the pipe ring; the recursive lock. Kernel code gives up the
  processor only where it sleeps, so the steps of the first three are no longer than what runs
  between two sleeps; the lock runs on several cores, and there every access to shared memory is a
  step.
- **execve** (`Exec`). Strings copied backwards into pages, mapped at the top of the user segment,
  and pointed to by tables built by reading them forwards.
- **Drivers** (`Pll`, `Sha256`, `Calendar`). The divider search, feeding the SHA accelerator, and
  dates.
- **kflash.py** (`AesTables`, `AesRows`, `Gf256`, `SBox`, `Fips197`, `AesVectors`, `AesTableFacts`,
  `Aes`, `Cbc`, `Slip`). AES by table lookup against FIPS 197 and its examples, chaining, and SLIP
  framing.
- `Bytes`, `Reals`, `Sets` and `Wrappers` hold bytes and little-endian numbers, products and quotients,
  a fact on finite sets, and `Option`.

Constants are the source's: 1024-byte blocks, 4096-byte pages, 512 entries in a table, 20
descriptors, 64 files and tasks, a 26 MHz crystal.

Places where the code departs from what its comments or names suggest are modelled as coded:

- `find_first_zero` reads the first word of a map block over and over (src_test/fs/bitmap.c:39).
  `Volume.Device.NewBlock` states exactly when allocation succeeds, and
  `Volume.AllocatorMissesFreeZone` gives a volume with a free zone that it cannot find.
- `truncate` frees zone 8 with the single-indirect routine (src_test/fs/truncate.c:82).
  `Truncation.TruncateFreesAllIff` gives the exact condition under which nothing is left allocated,
  `Truncation.TruncateLeaksBlock` a file for which something is.
- `file_read` delivers zeros for a block whose table cannot be read, as if it were a hole.
- `put_page` over an entry that is present loses that entry's page (src_test/mm/memory.c:354-358);
  the model counts lost references, `Memory.MemoryMap.PutPage` states exactly which one is lost, and
  `Memory.LosePage` does it.
- The size check of `copy_strings` (src_test/fs/exec.c:122) never fires (`Exec.GuardNeverFires`), so
  given the pages, strings that do not fit make it leave the page array, exactly then
  (`Exec.Machine.CopyStrings`, `Exec.Machine.Execve`, and an instance in `Exec.OverrunHappens`).
- `show_error` returns: an environment call from machine mode resumes behind the call
  (src_test/trap/machine_exception.c:184, 285-286, 292, 317). So a release of a recursive lock by a
  core that does not hold it goes on to free the lock word a second time
  (src_test/bsp/locks.c:218-224), under whoever is inside by then.
  `RecursiveLock.MismatchedReleaseBreaksLock` ends with two owners. The lock excludes as long as no
  release is refused (`RecursiveLock.MutualExclusion`), and after a refusal it always can fail
  (`RecursiveLock.MismatchBreaks`); `RecursiveLock.UnmatchedRelease` says which releases are
  refused, and callers that release only what they hold make none
  (`RecursiveLock.OrderlyCallersExclude`).
- The search for PLL dividers divides by zero for some requests to PLL2 (`Pll.Sysctl.SetFreq` says
  for which, `Pll.ZeroDivider` gives one), and keeps some settings that its last test refuses
  (`Pll.BorderlineHappens`).
- `sys_nice` can leave a counter above the bound of the new priority (`Scheduler.NiceLeavesBound`).
- The block count announced to the SHA accelerator is a field of 16 bits
  (src_test/drivers/include/sha256.h:33); `Sha256.DeviceReceivesPaddedMessage` says for which
  messages it is right, `Sha256.CountWraps` gives one for which it is not.
- `kernel_mktime` computes the years in 32 bits, takes every fourth year for a leap year and is two
  days ahead; `Calendar.SecondsSince1970` and `Calendar.SecondsPerDay` state exactly what comes of
  it. Overflow is modelled as wrapping around.

## Model

| member | source | states |
|---|---|---|
| `Volume.FindFirstZero` | src_test/fs/bitmap.c:33-56 | the lowest clear bit of the first word, or 8192 exactly when that word is full |
| `Volume.PickBit` | src_test/fs/bitmap.c:113-129 | the first present map block whose first word has a clear bit, or that there is none |
| `Volume.Device.NewBlock` | src_test/fs/bitmap.c:102-160 | succeeds if and only if one of the first 64 bits of one of the eight map blocks is clear and stands for a zone inside the volume; the zone is the lowest such, was free, is now allocated and cleared, and nothing else changed; after a failure nothing can be allocated any more |
| `Volume.PicksFirstWords` | src_test/fs/bitmap.c:33-129 | the same condition for every volume, in bit numbers |
| `Volume.Device.FreeBlock` | src_test/fs/bitmap.c:58-100 | exactly that zone becomes free, unless somebody holds its buffer; no block is written |
| `Volume.AllocatorMissesFreeZone` | src_test/fs/bitmap.c:33-56 | a valid volume with a free data zone on which the allocator finds nothing |
| `Volume.PickIsUnique` | src_test/fs/bitmap.c:113-129 | at most one bit satisfies what the allocator looks for |
| `Volume.LeakKeepsFailing` | src_test/fs/bitmap.c:131-143 | the bit leaked for a zone past the end does not help a later call |
| `BlockTree.SlotOfInjective` | src_test/fs/inode.c:83-207 | different file blocks use different slots, and the way to one block passes no other block's slot |
| `BlockTree.PutChangesOneSlot` | src_test/fs/inode.c:137-144 | storing a fresh cleared zone changes what exactly one slot of the whole tree holds |
| `BlockTree.PutGrows` | src_test/fs/inode.c:100-144 | one allocation keeps every zone of the tree distinct and allocated, all file data, and every block outside the tree |
| `BlockTree.GrewTransitive` | src_test/fs/inode.c:152-206 | the growth relation composes over the levels of the tree |
| `BlockTree.GrewKeepsOtherBlocks` | src_test/fs/inode.c:209-217 | growing for one file block leaves the zone of every other file block as it was, filled or not |
| `BlockTree.DisjointFileKept` | src_test/fs/inode.c:83-207 | a tree none of whose blocks were written holds the same zones and data |
| `Inodes.Fill` | src_test/fs/inode.c:100-107 | an empty slot gets a fresh zone if and only if the allocator can pick one; the tree grows only there |
| `Inodes.EnsureEntry` | src_test/fs/inode.c:130-147 | the same for an entry of a table that has to be read; 0 with a failed read, otherwise what the entry holds; the buffer is released on every path |
| `BlockTree.SlotNames` | src_test/fs/inode.c:83-207 | what the slot of a block holds is, in the bytes on the device, an inode zone, a two-byte entry of the table zone 7 names, or one of a table that the table of zone 8 names |
| `Inodes.Bmap` | src_test/fs/inode.c:83-217 | for every block below 7+512+512*512 and every point where allocation or reading fails: the tree stays sound, only slots on the way are filled, and unless a read failed the result is the zone of the block in the bytes on the device, 0 from a creating call meaning that no zone can be allocated; without create nothing changes |
| `FileData.DataWriteKeepsTree` | src_test/fs/file_dev.c:70-83 | rewriting one data block changes no slot and no other slot's data |
| `FileData.DataWriteSplices` | src_test/fs/file_dev.c:70-83 | replacing bytes in one block splices exactly those bytes into the flat file |
| `FileData.SpliceTwice` | src_test/fs/file_dev.c:65-84 | two adjacent splices are one |
| `FileData.GrewKeepsContent` | src_test/fs/file_dev.c:66-67 | allocation changes no byte of the file |
| `FileData.OtherFileKept` | src_test/fs/file_dev.c:49-91 | a file with a disjoint tree keeps its zones, data and soundness, and stays disjoint |
| `FileData.OtherFileReadsSame` | src_test/fs/file_dev.c:49-91 | every byte of such a file is unchanged |
| `FileData.WriteChunk` | src_test/fs/file_dev.c:65-84 | one turn of the loop splices its bytes, or nothing and then a read failed or no zone can be allocated |
| `FileData.FileWrite` | src_test/fs/file_dev.c:49-91 | the file is the old one with the first n bytes spliced in at the start position; size, position and result follow n; n falls short only if a read failed or no zone can be allocated; nothing outside the tree changes |
| `FileData.FetchBlock` | src_test/fs/file_dev.c:26-30 | the block of the slot, zeros for a hole, and zeros after a failed read of a table only |
| `FileData.ContentOnDisk` | src_test/fs/file_dev.c:26-46 | byte p of a file is byte p % 1024 of the zone of block p / 1024, or 0 if there is none |
| `FileData.ReadChunk` | src_test/fs/file_dev.c:25-44 | one turn delivers the file's bytes; zeros instead, or nothing, only if a read failed |
| `FileData.FileRead` | src_test/fs/file_dev.c:18-47 | without a failed read exactly the window of count bytes from the position on; after one, every byte delivered is the file's or a zero; the volume does not change |
| `FileData.WriteThenRead` | src_test/fs/file_dev.c:18-91 | without a failed read everything comes back, and less was written only because no zone could be allocated |
| `Truncation.FreeOneMore` | src_test/fs/truncate.c:5-87 | a slot not freed yet names a zone that is still allocated, so the already-cleared panic is never reached |
| `Truncation.FreeInd` | src_test/fs/truncate.c:5-32 | exactly the entries of the table and the table are freed; only the table if and only if its read failed |
| `Truncation.Truncate` | src_test/fs/truncate.c:63-87 | exactly the zones named by the nine slots and by the tables that could be read are freed, save those somebody holds; the inode is empty afterwards; other kinds of file are left alone |
| `Truncation.TruncateFreesOnlyTree` | src_test/fs/truncate.c:63-87 | a zone that became free belonged to the file's tree |
| `Truncation.TruncateKeepsOthers` | src_test/fs/truncate.c:63-87 | a sound file with a disjoint tree stays sound |
| `Truncation.TruncateFreesAllIff` | src_test/fs/truncate.c:81-83 | the whole tree is freed if and only if there is no data under the double-indirect zone |
| `Truncation.TruncateLeaksBlock` | src_test/fs/truncate.c:82-82 | a sound file of one block under the double-indirect zone whose block stays allocated |
| `PageRefs.ReferencedIsCounted` | src_test/mm/memory.c:98-118 | a referenced page has a positive count, and a count of 1 means that reference alone |
| `PageRefs.OnlyMapping` | src_test/mm/memory.c:372-377 | a mapped page with count 1 has exactly one mapping, the reason `un_wp_page` may write in place |
| `PageRefs.TakeSafe` | src_test/mm/memory.c:101-118 | a page handed out is referenced nowhere and the invariant is kept |
| `PageRefs.AddTableSafe` | src_test/mm/memory.c:340-351 | a page that becomes a table keeps the invariant |
| `PageRefs.MapPageSafe` | src_test/mm/memory.c:354-361 | mapping a fresh page writable keeps the invariant |
| `PageRefs.ForgetLeafSafe` | src_test/mm/memory.c:354-361 | overwriting a present entry keeps the invariant once its page is counted as lost |
| `PageRefs.DropLeafSafe` | src_test/mm/memory.c:223-232 | giving up a mapping never drives a count below zero |
| `PageRefs.DropTableSafe` | src_test/mm/memory.c:234-235 | giving up an emptied table keeps the invariant |
| `PageRefs.ShareSafe` | src_test/mm/memory.c:290-306 | sharing a page read-only between two directories keeps counts exact and writable pages unshared |
| `PageRefs.MakeWritableSafe` | src_test/mm/memory.c:372-377 | write access in place at count 1 keeps a writable page unshared |
| `PageRefs.StepSafe` | src_test/mm/memory.c:98-422 | every step keeps the invariant |
| `PageRefs.RunSafe` | src_test/mm/memory.c:98-422 | in every state of every run counts equal references, a writable page has one mapping, and a page handed out is referenced nowhere |
| `PageRefs.Reached` | src_test/mm/memory.c:98-422 | a step from a reachable memory leads to a reachable memory |
| `PageRefs.ReachableSafe` | src_test/mm/memory.c:98-422 | every memory that a run of steps after `mem_init` leads to is safe |
| `PageRefs.CountsDetermined` | src_test/mm/memory.c:98-181 | equal mappings and equal other references give equal counts |
| `PageRefs.NoOverflow` | src_test/mm/memory.c:98-98 | without lost references a count is at most the number of directories, so the byte does not wrap |
| `Memory.MemoryMap.constructor` | src_test/mm/memory.c:821-840 | after `mem_init` exactly the given range is free and the invariant holds |
| `Memory.MemoryMap.GetFreePage` | src_test/mm/memory.c:101-118 | the highest free page other than 0, which nothing refers to; 0 exactly when there is none |
| `Memory.MemoryMap.FindRun` | src_test/mm/memory.c:121-156 | despite the skipping, the highest run of n free pages without page 0, and 0 only if there is none; indices stay in range |
| `Memory.MemoryMap.GetFreePages` | src_test/mm/memory.c:121-156 | that run, and only it, is marked used |
| `Memory.MemoryMap.FreePages` | src_test/mm/memory.c:183-191 | exactly the counts of the run go down by one |
| `Memory.MemoryMap.AllocateAndFree` | src_test/mm/memory.c:121-191 | freeing an allocated run restores the map |
| `Memory.MemoryMap.PutPage` | src_test/mm/memory.c:316-362 | the page is mapped writable at that entry, no other entry changes; exactly the page of an entry that was present gains a lost reference; it fails only with no page free, and then nothing changes |
| `Memory.LosePage` | src_test/mm/memory.c:354-361 | two calls of `put_page` at one address after which a page has count 1 and no reference |
| `Memory.MemoryMap.UnWriteProtect` | src_test/mm/memory.c:365-395 | the entry becomes writable, in place if and only if the count was 1, otherwise on a page nothing referred to; no reference is lost; it fails only with no page free |
| `Memory.MemoryMap.WriteVerify` | src_test/mm/memory.c:407-422 | absent and writable entries are left alone, others get write access unless no page is free; no reference is lost |
| `Memory.MemoryMap.CopyPageTables` | src_test/mm/memory.c:243-311 | the child maps exactly the parent's pages of the range, both read-only, everything else unchanged; it fails only with no page free, and then exactly the rows before are copied |
| `Memory.MemoryMap.FreePageTables` | src_test/mm/memory.c:194-239 | exactly the mappings and tables of the range are gone, all others unchanged |
| `Memory.MemoryMap.ForkAndTearDown` | src_test/mm/memory.c:194-311 | fork then teardown restores every count and table and leaves every translation of the parent |
| `Memory.RoomWithoutLosses` | src_test/mm/memory.c:301-305 | with fewer than 255 directories and no lost references a fork cannot wrap a count |
| `Memory.ShareAdvances` | src_test/mm/memory.c:290-306 | one entry of the copy loop is possible and extends the copy by one entry |
| `Memory.TornDown` | src_test/mm/memory.c:194-311 | what is left after copy and teardown are the original mappings |
| `Scheduler.BestIsChoice` | src_test/kernel/sched.c:213-230 | the selection is a runnable task with the largest counter, in the highest such slot, and idle exactly when none is runnable |
| `Scheduler.RechargeHalves` | src_test/kernel/sched.c:237-243 | a recharge halves, rounding down, the distance to 2 * priority - 1 and leaves at least the priority |
| `Scheduler.OneRecharge` | src_test/kernel/sched.c:211-245 | after a recharge the selection cannot come out at zero again |
| `Scheduler.EveryRunValid` | src_test/kernel/sched.c:180-250 | in every run of ticks, schedules, sleeps, exits and forks counters stay in 0 .. 2 * priority - 1 |
| `Scheduler.StepValid` | src_test/kernel/fork.c:71-71 | every step, a fork's initial counter included, keeps counters in bounds |
| `Scheduler.ChargeTakesOne` | src_test/kernel/sched.c:429-434 | a tick takes exactly one from the rivals' ticks, and only when the current rival has any |
| `Scheduler.RechargePotential` | src_test/kernel/sched.c:237-243 | a recharge while t waits does not raise what rivals can still be charged |
| `Scheduler.StepPotential` | src_test/kernel/sched.c:398-443 | over any step, ticks charged plus the new potential are at most the old potential |
| `Scheduler.BoundedWaiting` | src_test/kernel/sched.c:211-246 | in any run in which a task stays runnable and is not chosen, rivals are charged at most twice the sum of their (2 * priority - 1) |
| `Scheduler.RunnableRuns` | src_test/kernel/sched.c:180-250 | a task that stays runnable becomes the current one before there were more user-mode ticks than four times its rivals' bounds, twice what idle has left, and one |
| `Scheduler.TicksBounded` | src_test/kernel/sched.c:398-443 | while a task waits, user-mode ticks are bounded by a potential of the table |
| `Scheduler.Kernel.Select` | src_test/kernel/sched.c:213-230 | the downward loop computes the selection |
| `Scheduler.Kernel.RechargeAll` | src_test/kernel/sched.c:237-243 | every task but idle is recharged |
| `Scheduler.Kernel.Wake` | src_test/kernel/sched.c:191-208 | exactly the signalled interruptible sleepers become runnable |
| `Scheduler.ScheduleLaw` | src_test/kernel/sched.c:180-250 | the task switched to is runnable with ticks left, none has more, none in a higher slot as many, or it is idle and none is runnable; counters stay, or all runnable ones were 0 and each is halved and raised by the priority |
| `Scheduler.TickLaw` | src_test/kernel/sched.c:427-443 | a tick takes one from the current task; the task is replaced if and only if that used up its ticks in user mode |
| `Scheduler.Kernel.DoSchedule` | src_test/kernel/sched.c:180-250 | the law of `schedule` task by task: who is woken, who runs, what every counter is, and that it recharges at most once |
| `Scheduler.Kernel.DoTimer` | src_test/kernel/sched.c:427-443 | the tick of the step system, with the source's early returns: the current task stays unless its ticks are used up in user mode |
| `Scheduler.Kernel.Nice` | src_test/kernel/sched.c:491-499 | a priority never drops to zero and nothing else changes; the counters stay in bounds if and only if the caller's is at most 2 * new priority - 1 |
| `Scheduler.EveryMoveWithin` | src_test/kernel/sched.c:180-250 | in every run with `sys_nice` in between, counters stay below twice the largest priority so far and no schedule needs a second recharge |
| `Scheduler.NiceLeavesBound` | src_test/kernel/sched.c:491-499 | a task that lowers its priority with a full counter leaves its bound |
| `FileTable.EveryRunSound` | src_test/fs/open.c:138-209 | after every run of opens, closes, dups, pipes, forks and exits, half-finished calls included, each count is the number of (task, descriptor) slots at the entry |
| `FileTable.NoPanicNoReuse` | src_test/fs/open.c:203-204 | no run closes an entry with count 0 and no new open gets an entry in use |
| `FileTable.CountsBounded` | src_test/fs/open.c:156-156 | no count exceeds 1280, so the 16-bit field never wraps |
| `FileTable.StepSound` | src_test/fs/open.c:138-209 | every step keeps counts exact and half-finished calls the only users of their entries |
| `FileTable.OpenStartSound` | src_test/fs/open.c:145-156 | the entry an open takes was referred to by nobody and is now by its slot alone |
| `FileTable.OpenEndSound` | src_test/fs/open.c:158-185 | setting the count to 0 on failure and to 1 on success are both exact |
| `FileTable.CloseSound` | src_test/fs/open.c:193-209 | closing keeps counts exact and disturbs no call that is asleep |
| `FileTable.DupSound` | src_test/fs/fcntl.c:18-34 | duplicating keeps counts exact |
| `FileTable.PipeStartSound` | src_test/fs/pipe.c:78-96 | the two entries of a pipe in the making are different and its own |
| `FileTable.PipeFailSound` | src_test/fs/pipe.c:98-103 | giving both back is exact |
| `FileTable.CopyFilesSound` | src_test/kernel/fork.c:114-120 | the child's descriptors are the parent's, nobody else's change, and the counts follow |
| `FileTable.Files.OpenBegin` | src_test/fs/open.c:144-156 | the lowest of 20 descriptors and the lowest of 64 entries that are free, or -22 and no change, if and only if there is none of one kind |
| `FileTable.Files.OpenEnd` | src_test/fs/open.c:158-185 | on success the descriptor stays, on failure it is given back; the entry's count follows |
| `FileTable.Files.SysClose` | src_test/fs/open.c:193-209 | exactly that descriptor goes, or -22 and no change |
| `FileTable.Files.DupFd` | src_test/fs/fcntl.c:18-34 | the lowest free descriptor from arg on gets the same entry; -9, -22 and -24 each exactly in its case |
| `FileTable.Files.SysDup2` | src_test/fs/fcntl.c:36-40 | close then dup; the new descriptor points where the old one does |
| `FileTable.Files.PipeBegin` | src_test/fs/pipe.c:78-96 | takes the two lowest free entries and descriptors, or changes nothing, the latter only if there are no two of one kind |
| `FileTable.Files.PipeEnd` | src_test/fs/pipe.c:97-111 | on success both descriptors stay, on failure both are given back |
| `FileTable.Files.CloseAll` | src_test/kernel/exit.c:181-187 | exactly the slots of the exiting task are cleared and counts stay exact |
| `FileTable.Files.ForkFiles` | src_test/kernel/fork.c:63-120 | the whole table is copied and then counted, which is the fork step |
| `Pipe.ChunkAppends` | src_test/fs/pipe.c:54-66 | a chunk within the page and the free space is appended to the unread bytes |
| `Pipe.ChunkSparesUnread` | src_test/fs/pipe.c:54-66 | and is written to cells from head on, none of them unread |
| `Pipe.ChunkTakes` | src_test/fs/pipe.c:24-35 | a chunk within the page and the unread bytes is their oldest part |
| `Pipe.PipeInode.ReadChunk` | src_test/fs/pipe.c:24-35 | one turn of the loop takes the chunk of the ring model from the page |
| `Pipe.PipeInode.WriteChunk` | src_test/fs/pipe.c:54-66 | one turn puts the chunk of the ring model into the page |
| `Pipe.PipeInode.ReadTurn` | src_test/fs/pipe.c:13-39 | takes exactly as many of the oldest bytes as there are and are wanted; sleeps exactly when short with both ends open; in any system on this ring it is a row of turns of its caller, with the same ring, bytes and result |
| `Pipe.PipeInode.WriteTurn` | src_test/fs/pipe.c:41-69 | puts in exactly as much as fits; sleeps exactly when some is left with both ends open; it too is a row of turns of its caller |
| `Pipe.TurnedReaches` | src_test/fs/pipe.c:13-69 | a row of turns of one caller after a run is a run |
| `Pipe.StepFifo` | src_test/fs/pipe.c:13-69 | every turn of any caller on the ring keeps the order and every caller's account |
| `Pipe.EveryRunIsFifo` | src_test/fs/pipe.c:13-69 | for any number of readers and writers and any order of turns, bytes delivered then bytes unread in the page are the bytes accepted, and each caller moved exactly what it says |
| `Pipe.EveryChunkInPage` | src_test/fs/pipe.c:13-69 | in every reachable state, whatever comes next, a chunk stays within the page end, one put in touches no unread cell and one taken out changes no cell |
| `Pipe.ShortReturn` | src_test/fs/pipe.c:18-53 | a call returns short only with the other end gone, a reader on an empty ring, a writer on a full one of 4095 bytes, and then -1 if it wrote nothing |
| `Pipe.Callers.Advance` | src_test/fs/pipe.c:13-69 | a turn on the real page is the step of the run |
| `Pipe.Play` | src_test/fs/pipe.c:13-69 | so whatever steps are taken on a real page are a run and first in, first out |
| `RecursiveLock.WordStep` | src_test/bsp/locks.c:29-49 | every step but a second free keeps the lock word at -1 exactly while one core, and only one, is inside |
| `RecursiveLock.OutsideStep` | src_test/bsp/locks.c:149-190 | steps outside, the read of slot 0 with any result included, keep the invariant and touch neither record nor depths |
| `RecursiveLock.InsideKnows` | src_test/bsp/locks.c:103-225 | each lookup, test and field access but a refused release keeps what the core inside relies on |
| `RecursiveLock.PeacefulRunKeepsInvariant` | src_test/bsp/locks.c:29-225 | the invariant holds in every interleaving of any number of cores in which no release is refused |
| `RecursiveLock.RecordInUse` | src_test/bsp/locks.c:103-225 | in such a run a core that uses the record has found one |
| `RecursiveLock.MutualExclusion` | src_test/bsp/locks.c:103-225 | in every run without a refused release at most one core is inside and at most one has positive depth |
| `RecursiveLock.RecordCounts` | src_test/bsp/locks.c:192-225 | in such a run, with the lock word free, the counter is its core's depth, and once used the record exists exactly while some core holds the lock |
| `RecursiveLock.StepReturns` | src_test/bsp/locks.c:103-225 | over every step of every core, depth and calls returned from move together, but for the silent release |
| `RecursiveLock.CounterCountsCalls` | src_test/bsp/locks.c:103-225 | if cores release only what they hold, then with the lock word free the counter is the number of acquires its core has returned from less its releases, every other core's number is 0, and once the lock was taken the record is there if and only if some number is positive; counted from the states of the run |
| `RecursiveLock.CallersExclude` | src_test/bsp/locks.c:103-225 | in every run without a refused release at most one core has returned from more acquires than releases |
| `RecursiveLock.AcquireAlone` | src_test/bsp/locks.c:103-190 | undisturbed, an acquire takes a free lock or its own core's and adds one to the counter; on another core's lock a try is refused and an acquire goes on to wait |
| `RecursiveLock.ReleaseAlone` | src_test/bsp/locks.c:192-225 | undisturbed, a release by the owner takes one off the counter, and the last one frees the record |
| `RecursiveLock.ReturnsAreTrue` | src_test/bsp/locks.c:103-190 | in such a run a core told it has the lock has it alone; a waiting core or one that went on without a record does not hold it |
| `RecursiveLock.UnmatchedRelease` | src_test/bsp/locks.c:192-235 | a release that finds a record is refused if and only if its core does not hold the lock, but for core 0 with the record `_lock_init_recursive` made, which it drops; one that finds none was made by a core that does not hold it |
| `RecursiveLock.OrderlyIsPeaceful` | src_test/bsp/locks.c:192-225 | if cores release only what they hold, no release is refused |
| `RecursiveLock.OrderlyCallersExclude` | src_test/bsp/locks.c:103-225 | so among such callers the lock excludes, in every interleaving |
| `RecursiveLock.MismatchBreaks` | src_test/bsp/locks.c:218-224 | after every run, whenever a release is refused and another core can go on, some continuation has two cores inside at once |
| `RecursiveLock.MismatchedReleaseBreaksLock` | src_test/bsp/locks.c:192-225 | a run of two cores that ends with both told that they hold the lock |
| `RecursiveLock.UnmatchedReleaseHappens` | src_test/bsp/locks.c:192-235 | a run in which core 0 drops the record of a lock just set up |
| `Exec.StoreLoads` | src_test/fs/exec.c:166-166 | a store through the page array changes what one address reads |
| `Exec.Machine.CopyByte` | src_test/fs/exec.c:128-166 | offset and page pointer stay those of p, also over page borders; exactly byte p is written; exactly the missing page is taken, and it fails only without one |
| `Exec.Touch` | src_test/fs/exec.c:142-145 | looking up pages from one end of an interval takes exactly the missing ones, and fails exactly when there were too few for them |
| `Exec.Machine.CopyString` | src_test/fs/exec.c:114-168 | the string and its NUL end just below p, nothing above changes; pages run out only if there were too few from where the string begins; it leaves the page array only if the string does not fit |
| `Exec.Machine.CopyStrings` | src_test/fs/exec.c:78-179 | all strings in order with their NULs end just below p, nothing above changes; 0 if and only if there were too few pages for the bytes from where the strings begin; otherwise success if and only if the strings fit, and it leaves the page array if and only if they do not |
| `Exec.GuardNeverFires` | src_test/fs/exec.c:121-126 | the size check is false for every address of the area and every length |
| `Exec.GuardMissesOverrun` | src_test/fs/exec.c:121-126 | a string that passes the check and does not fit the area |
| `Exec.OverrunHappens` | src_test/fs/exec.c:121-126 | a call with 32 free pages and such a string that leaves the page array |
| `Exec.CopiedBoth` | src_test/fs/exec.c:377-378 | what one call puts in front of what an earlier one left is both, one after the other, with the pages of both taken |
| `Exec.Relocated` | src_test/fs/exec.c:181-210 | the same pages read the same at the top of the segment |
| `Exec.Machine.ChangeLdt` | src_test/fs/exec.c:181-210 | every byte of the area appears moved by limit less area size |
| `Exec.Machine.SkipString` | src_test/fs/exec.c:47-47 | the forward scan stops just past the NUL |
| `Exec.Machine.PointToEach` | src_test/fs/exec.c:44-50 | entry k is the address of string k, the entry after the last is 0, nothing else is written |
| `Exec.TablePoints` | src_test/fs/exec.c:44-58 | such a table read as 64-bit pointers leads to NUL-terminated copies of the strings |
| `Exec.FirstTableStays` | src_test/fs/exec.c:44-58 | building envp leaves argv and its strings intact |
| `Exec.Machine.CreateTables` | src_test/fs/exec.c:26-60 | sp is a multiple of 8, both tables lie at it below all strings, both lead to the strings and end in 0 |
| `Exec.Machine.Execve` | src_test/fs/exec.c:212-405 | the outcome is determined by the strings and the number of free pages: it leaves the page array if and only if the strings exceed 131064 bytes and there are 32 pages; it succeeds if and only if they do not and there is a page for every page from the stack pointer to the end of the segment; then the new program finds exactly the argv and envp it was given |
| `Exec.PagesLeft` | src_test/fs/exec.c:26-60 | after mapping the strings the tables get their pages if and only if there was one for every page from the stack pointer on |
| `Pll.LargestDivisor` | src_test/drivers/sysctl.c:1111-1120 | the largest output divider that divides nr; never zero |
| `Pll.Scale` | src_test/drivers/sysctl.c:1121-1155 | whichever branch is taken, output over input stays nfi / nr and the divider is in 1 .. 16; the first setting is never given up here |
| `Pll.ScaleIsMaximal` | src_test/drivers/sysctl.c:1121-1155 | the VCO is raised as often as multiplier and output divider allow, and no more |
| `Pll.AtLeastOne` | src_test/drivers/sysctl.c:1111-1119 | the divisor of the divider loop is non-zero if and only if the request is within the VCO limit |
| `Pll.ReachedIff` | src_test/drivers/sysctl.c:1093-1119 | for every input no PLL exceeds and every request beyond the VCO limit, some multiplier gets to the output dividers if and only if the request is below 64 times the input |
| `Pll.NearMultiple` | src_test/drivers/sysctl.c:1093-1109 | some multiple of any ratio between 1 and 64 lies within a 64th of a number below 64 |
| `Pll.ZeroDivider` | src_test/drivers/sysctl.c:1111-1119 | PLL2 fed by a PLL set to 1014 MHz and asked for 2028 MHz divides by zero |
| `Pll.SameRatio` | src_test/drivers/sysctl.c:1132-1163 | the output frequency of a scaled setting is fin * nfi / nr |
| `Pll.RelativeError` | src_test/drivers/sysctl.c:1104-1107 | the source's error is the relative error of the output frequency |
| `Pll.Consider` | src_test/drivers/sysctl.c:1121-1187 | a setting accepted by one turn is within all limits and has the recorded error |
| `Pll.TurnsFind` | src_test/drivers/sysctl.c:1092-1187 | something is kept in the end if and only if some multiplier would be accepted as the first |
| `Pll.TurnsPass` | src_test/drivers/sysctl.c:1092-1206 | what is kept passes the last test unless some multiplier's error is within a millionth of a 64th |
| `Pll.FoundOnce` | src_test/drivers/sysctl.c:1092-1206 | a request for 1638 MHz from the crystal finds its setting |
| `Pll.BorderlineHappens` | src_test/drivers/sysctl.c:1201-1204 | a request whose setting is kept and then refused |
| `Pll.Search` | src_test/drivers/sysctl.c:1080-1206 | for every input and request: divides by zero if and only if the request is beyond the VCO limit and below 64 times the input; what is found is within all limits and within 1/64 of the request; something is found only if some multiplier is acceptable, and then always but for a borderline error |
| `Pll.MiddleSucceeds` | src_test/drivers/sysctl.c:1080-1206 | every request to the crystal from 52.8125 MHz to 1651 MHz succeeds |
| `Pll.FoundIsNear` | src_test/drivers/sysctl.c:1080-1206 | a request to the crystal succeeds only if 26 MHz * nf / no misses it by less than (1 - 0.000001) / 64 for some nf in 14 .. 63 and no in 1 .. 16 |
| `Pll.NearIsFound` | src_test/drivers/sysctl.c:1080-1206 | and then it does, unless some multiplier is borderline |
| `Pll.NearlyTheBest` | src_test/drivers/sysctl.c:1093-1187 | what is kept misses by at most 0.000002 more than any setting with nf in 33 .. 63 and no in 1 .. 16 |
| `Pll.ExactIsKept` | src_test/drivers/sysctl.c:1093-1187 | if such a setting is exact, so is what is kept |
| `Pll.Boot800` | src_test/startup/entry.c:49-49 | 800 MHz keeps 26 MHz * 62 / 2 |
| `Pll.ReferenceUndivided` | src_test/drivers/sysctl.c:1170-1171 | from the 26 MHz crystal the reference divider is always 1 |
| `Pll.ConversionsFit` | src_test/drivers/sysctl.c:1093-1125 | every number the search turns into an `int` fits, from the crystal for every non-zero 32-bit frequency, from a PLL for 50 Hz and more |
| `Pll.ReadingBounded` | src_test/drivers/sysctl.c:941-992 | PLL0 and PLL1 read as 101562 to 1664000000 Hz whatever their registers hold |
| `Pll.Sysctl.GetFreq` | src_test/drivers/sysctl.c:941-992 | the output frequency the registers make, rounded down, for each PLL and each source of PLL2 |
| `Pll.Sysctl.SetFreq` | src_test/drivers/sysctl.c:994-1262 | for every PLL, every source and every frequency but 0: divides by zero if and only if PLL2 on a PLL is asked for more than 1.75 GHz and less than 64 times its input; otherwise succeeds if and only if the source is taken and the search keeps a setting that passes the last test; from the crystal it succeeds for all of 52.8125 to 1651 MHz and only where some setting is near, and the setting is nearly the best; on success fields fit, VCO within limits, output within 1/64; else nothing written; the other PLLs untouched |
| `Pll.Sysctl.Boot` | src_test/startup/entry.c:49-49 | the boot code's request sets PLL0 to 1, 62, 2 and reads back 806 MHz |
| `Sha256.FedTwice` | src_test/drivers/sha256.c:57-86 | feeding in two calls is feeding at once |
| `Sha256.ByteSwapReverses` | src_test/drivers/sha256.c:20-23 | the rotations and masks reverse the four bytes |
| `Sha256.SwappedIsBigEndian` | src_test/drivers/sha256.c:37-42 | the swapped counter lies in memory as the big-endian length |
| `Sha256.PadLength` | src_test/drivers/sha256.c:94-96 | the padding length is the least the standard allows, and the 16-bit count holds the number of blocks if and only if the message has at most 4194231 bytes |
| `Sha256.DeviceReceivesPaddedMessage` | src_test/drivers/sha256.c:44-110 | for every message below 2^64 bits and every split, the device gets exactly the padded message of section 5.1.1 of FIPS 180-4, in the announced number of blocks if and only if the message has at most 4194231 bytes |
| `Sha256.CountWraps` | src_test/drivers/sha256.c:49-49 | with 4194232 bytes no block is announced and 65536 are pushed |
| `Sha256.Hasher.Update` | src_test/drivers/sha256.c:57-86 | the buffering loop feeds exactly its input |
| `Sha256.Hasher.Final` | src_test/drivers/sha256.c:94-99 | pads and appends the length counted before the padding |
| `Sha256.HashParts` | src_test/drivers/sha256.c:44-118 | the whole run on the real buffer has the property above |
| `Calendar.NextDayNumber` | src_test/drivers/rtc.c:283-291 | day number and day of the year advance by one each day of the Gregorian calendar |
| `Calendar.DayNumberCounts` | src_test/drivers/rtc.c:278-291 | the day number counts the days stepped through from 1 January of year 1 |
| `Calendar.WeekdayIsDayNumber` | src_test/drivers/rtc.c:293-298 | the weekday formula is the day number modulo 7 for every date |
| `Calendar.WeekdayAdvances` | src_test/drivers/rtc.c:283-298 | the weekday advances by one each day and is that of 1 January moved on by the day of the year |
| `Calendar.WeekdayCounts` | src_test/drivers/rtc.c:293-298 | n days after Monday 1 January of year 1 it is weekday (n + 1) modulo 7 |
| `Calendar.SecondsPerDay` | src_test/kernel/mktime.c:25-44 | a day later is 86400 more, if and only if the step is neither over the 29 February a century year lacks nor over a new year at which the 32-bit part wraps |
| `Calendar.SecondsPerDayInRange` | src_test/kernel/mktime.c:25-44 | from 1902 to 2038 a day later is always 86400 more |
| `Calendar.WrapsIn2039` | src_test/kernel/mktime.c:31-31 | at the first midnight of 2039 the result falls by 2^32 less a day |
| `Calendar.NoOverflow` | src_test/kernel/mktime.c:31-31 | every 32-bit result is in range if and only if 1902 <= year <= 2038 |
| `Calendar.SecondsSince1970` | src_test/kernel/mktime.c:25-44 | for every date, the result is the time since 1970 plus two days if and only if 1902 <= year <= 2038 |
| `AesRows.T1Table` | tools/kflash.py:109-109 | every entry of T1 is the column of MixColumns for its S-box value |
| `AesRows.T5Table` | tools/kflash.py:115-115 | every entry of T5 is the column of InvMixColumns for its inverse S-box value |
| `AesRows.U1Table` | tools/kflash.py:121-121 | every entry of U1 is the column of InvMixColumns for its index |
| `AesRows.Rotated1` | tools/kflash.py:110-122 | T2, T6 and U2 are T1, T5 and U1 turned by one byte |
| `AesRows.Rotated2` | tools/kflash.py:111-123 | T3, T7 and U3 by two |
| `AesRows.Rotated3` | tools/kflash.py:112-124 | T4, T8 and U4 by three |
| `AesTableFacts.EncryptionLookups` | tools/kflash.py:109-112 | four lookups in T1 to T4 are SubBytes and MixColumns of a column |
| `AesTableFacts.DecryptionLookups` | tools/kflash.py:115-118 | four lookups in T5 to T8 are InvSubBytes and InvMixColumns of a column |
| `AesTableFacts.KeyLookups` | tools/kflash.py:121-124 | four lookups in U1 to U4 are InvMixColumns of a key word |
| `AesTableFacts.RoundConstantIsPower` | tools/kflash.py:102-102 | the round constants are the powers of x |
| `SBox.SBoxIsInverse` | tools/kflash.py:105-105 | every S-box entry is the affine transform of the multiplicative inverse of its index, section 5.1.1 of FIPS 197 |
| `Fips197.InvSBoxUndoes` | tools/kflash.py:105-106 | the inverse S-box undoes the S-box |
| `Gf256.InvMixColumnUndoes` | tools/kflash.py:115-124 | InvMixColumns undoes MixColumns on every column |
| `Fips197.DecryptionRetraces` | tools/kflash.py:232-264 | round by round, the equivalent inverse cipher of section 5.3.5 of FIPS 197 goes back through the states of the cipher |
| `Fips197.InvCipherInverts` | tools/kflash.py:198-264 | for every 16, 24 or 32-byte key and every block, the inverse cipher undoes the cipher |
| `AesVectors.ExpansionA1` | tools/kflash.py:126-187 | the expanded 16-byte key of appendix A.1 of FIPS 197, word for word |
| `AesVectors.ExpansionA2` | tools/kflash.py:126-187 | the expanded 24-byte key of appendix A.2 of FIPS 197, word for word |
| `AesVectors.ExpansionA3` | tools/kflash.py:126-187 | the expanded 32-byte key of appendix A.3 of FIPS 197, word for word |
| `AesVectors.CipherC1` | tools/kflash.py:198-230 | the cipher gives the ciphertext of appendix C.1 of FIPS 197 for its 16-byte key |
| `AesVectors.CipherC2` | tools/kflash.py:198-230 | the cipher gives the ciphertext of appendix C.2 of FIPS 197 for its 24-byte key |
| `AesVectors.CipherC3` | tools/kflash.py:198-230 | the cipher gives the ciphertext of appendix C.3 of FIPS 197 for its 32-byte key |
| `AesVectors.EncryptC1` | tools/kflash.py:198-230 | so does the program's method on the example of appendix C.1 |
| `Aes.NextWords` | tools/kflash.py:155-179 | one round of the in-place expansion gives the next words of the key schedule, for all three key sizes |
| `Aes.ExpandKey` | tools/kflash.py:126-187 | both round-key arrays, of 11, 13 or 15 entries, hold the key schedule of section 5.2 of FIPS 197, one in reverse |
| `Aes.InvertKeys` | tools/kflash.py:189-196 | the decryption keys are those of the equivalent inverse cipher |
| `Aes.CreateAes` | tools/kflash.py:126-129 | exactly the key sizes 16, 24 and 32 are accepted, with 10, 12 and 14 rounds |
| `Aes.AES.EncryptRound` | tools/kflash.py:212-219 | a round of lookups is SubBytes, ShiftRows, MixColumns and AddRoundKey |
| `Aes.AES.Encrypt` | tools/kflash.py:198-230 | computes the cipher of FIPS 197; a block of another length is refused |
| `Aes.AES.DecryptRound` | tools/kflash.py:246-253 | a round of lookups is the round of the equivalent inverse cipher |
| `Aes.AES.Decrypt` | tools/kflash.py:232-264 | computes the inverse cipher; a block of another length is refused |
| `Aes.EncryptThenDecrypt` | tools/kflash.py:198-264 | decrypting an encrypted block gives the block |
| `Cbc.ChainInverts` | tools/kflash.py:266-295 | chained decryption of any number of blocks returns the plaintext |
| `Cbc.Chain.Encrypt` | tools/kflash.py:278-285 | a block of cipher block chaining, section 6.2 of NIST SP 800-38A |
| `Cbc.Chain.Decrypt` | tools/kflash.py:287-295 | its inverse |
| `Cbc.EncryptFirmware` | tools/kflash.py:1056-1059 | what is flashed has (n + 15) / 16 blocks, each the cipher of the firmware's bytes, zeros beyond its end, exclusive-or the block flashed before |
| `Cbc.FirmwareDecrypts` | tools/kflash.py:1056-1059 | decrypting it gives the firmware and fewer than 16 zeros |
| `Slip.BodyByByte` | tools/kflash.py:627-632 | the two whole-packet replacements escape byte by byte as the PROTOCOL section of RFC 1055 says |
| `Slip.BodyHasNoEnd` | tools/kflash.py:627-632 | no frame body contains 0xC0 |
| `Slip.FeedInParts` | tools/kflash.py:328-361 | feeding bytes in two reads is feeding them in one, errors included |
| `Slip.ChunkingDoesNotMatter` | tools/kflash.py:328-361 | so is any chunking |
| `Slip.FramesDecode` | tools/kflash.py:328-361 | the frames of any list of packets decode to that list |
| `Slip.RoundTrip` | tools/kflash.py:328-632 | the output of `write` for any packets, read in any chunks, yields exactly the packets |
| `Slip.FrameInBytes` | tools/kflash.py:627-632 | a frame with both special bytes and both escape codes in it, byte for byte |
| `Slip.ReadIsWire` | tools/kflash.py:328-361 | the reader has read some packets and stands inside another if and only if the bytes were those packets' frames and the beginning of that one |
| `Slip.FailsOnBadByte` | tools/kflash.py:328-361 | it fails if and only if, after such bytes, a frame does not begin with 0xC0 or 0xDB is followed by neither 0xDC nor 0xDD; each error in its case, with what was read before |
| `Slip.SlipReader.Accept` | tools/kflash.py:328-361 | the reader's loop over one read is the step function over its bytes, with each of its errors |

## Left out

- Register plumbing, pin tables, CSR access, `mret` and the context switch: hardware with no semantics in the source.
- Buffer cache, tty, ramdisk: `bread`, `brelse` and `getblk` have small contracts, and `bread` may fail at any time.
- Inode numbers and path lookup: code that differs from its intent. Directories, permissions, dirty flags and times: no hard property.
- Sleeping inside file reads and writes: one file operation runs at a time.
- FileData.FileWrite: requires that the range ends within the last file block, because `_bmap` panics beyond it; the same goes for `FileData.FileRead`.
- Volume.Device.FreeBlock: requires an allocated data zone, because the source panics on any other.
- Page contents after a write fault: `copy_page` never advances its pointers, so mappings and counts are claimed only.
- `try_to_share`, `page_transform_addr` and `mem_copy_*`.
- Failure paths of fork: `free_page_tables` is modelled as acting on the active directory.
- Physical addresses: a page is its index in `mem_map`, a directory a number.
- Memory.MemoryMap.CopyPageTables: requires that no page to be shared already has 255 references, since the source lets the byte wrap (`Memory.RoomWithoutLosses` says when that holds); the caller's clean-up after a failure is left out, because it acts on the wrong directory.
- Memory.MemoryMap.FreePage: requires a page the kernel holds; on a free page the source panics.
- Memory.MemoryMap.PutPage: requires a page just allocated; on others the source only prints a warning.
- Alarms, the timer list and the signal mask: the set of signalled tasks is a parameter of the scheduler.
- Wake-up liveness, and ticks in kernel mode with an empty counter, which no counter pays for.
- Scheduler.BoundedWaiting: priorities are fixed and nobody forks during the wait; the same goes for `Scheduler.RunnableRuns`.
- The `int` that holds a counter during selection: counters are taken to fit it.
- `close_on_exec`, file modes and positions, and inode counts in the file table.
- FileTable.Files.SysDup2: states the sequential call; other tasks running during its close are covered by the two steps of the run.
- Page faults of user buffers inside the pipe loops: buffers are resident, as nothing else keeps a turn whole.
- A recursive lock after a core went on without a record: the source uses a null pointer, so the model stops that core there.
- Two slots for one lock word, which two cores inside at once could make: the model has one record per lock.
- Recursive-lock liveness, several locks sharing the slot table (whether a slot is free and what slot 0 holds are choices of the step), and closing a lock.
- RecursiveLock.RecordCounts: the depth of a core does not go below zero, so the one silent unmatched release counts as none.
- `#!` scripts, the header checks of `do_execve`, and registers a0 to a2.
- Exec.Machine.CopyStrings: what happens after it has left the page array is undefined, so the model stops there; a string is shorter than the 64 MB user segment it comes from.
- Exec.Machine.ChangeLdt: `put_page` is taken to succeed, as the source ignores its result.
- Exec.Machine.GetFreePage: the pages to come are a list given beforehand.
- Rounding of `double` in the PLL search: computed over reals.
- Pll.NearIsFound: excludes requests for which some multiplier's error is within a millionth of a 64th; these lie within some 30 Hz of finitely many frequencies, and those from 52.8125 to 1651 MHz succeed all the same.
- Which requests to PLL2 on a PLL succeed, other than by what the search keeps.
- Pll.Sysctl.SetFreq: requires a frequency other than 0, for which the source divides by zero.
- Pll.Sysctl.GetFreq: the result for PLL2 is the exact floor; beyond 32 bits the conversion in the source is undefined. The same goes for conversions to `int` of requests below 50 Hz to PLL2 (`Pll.ConversionsFit`).
- What follows an integer division by zero: undefined in C, so the model stops there.
- Sha256.HashParts: requires a message below 2^64 bits, the limit of FIPS 180-4.
- The hash itself, computed by the accelerator, and the wait loops on its FIFO.
- Calendar.Weekday: does not model overflow of `int` for years near 2^31.
- `recv_one_return`, retries, the serial port, terminal and argument handling of kflash.py.
