# Verified model of a small RISC-V kernel

This project models four parts of a teaching kernel and a fifth piece of its C library, and proves what they promise
over all inputs, all runs and all reachable states. `dafny verify dfyconfig.toml` checks all of it.

* **File system** (`Fs*.dfy`, `FileSystem.dfy`). A volume is a card of 512-byte sectors with a block map, an inode map, an
  inode table and block storage; files have ten direct pointers and two 4 MB indirect tables. `FsContent` specifies the
  write as one sector step after another and proves that it is a splice of the file's bytes; `FileSystem` has the calls
  as they are coded (unaligned heads, three sector loops, allocation on demand) and proves them equal to that. `FsNames`,
  `FsPath`, `FsRemove`, `FsLife` and `FsCalls` add directories, paths, links, removal and whole runs, `FsSeek` and `FsOpen` what
  seeking and opening are for, and `FsCard` the bytes on the card.
* **Descriptor ring** (`BdRing.dfy`). A circular region cut into four groups by 64-bit pointer arithmetic.
* **Processes** (`Lists.dfy`, `Queues.dfy`, `Kernel*.dfy`). `Lists` proves the intrusive lists at heap level, `Queues` lifts them
  to a family of disjoint queues. `KernelState`, `KernelSched` and `KernelLocks` define each kernel operation as a function on
  a state value, `KernelInv` and `KernelEffects` what it keeps and does, and the class `Kernel` has the code over the heap lists
  and proves each method equal to its function. `KernelRuns`, `KernelFair`, `KernelSleep`, `KernelWait`, `KernelHeld`,
  `KernelSync`, `KernelMail` and `KernelBegin` treat every interleaving of events on two cores.
* **Virtual memory** (`Vm*.dfy`). Sv39 tables (RISC-V Privileged Architecture, section 4.4) as frames reached through links,
  proved to stay trees; mapping, lookup, `ioremap`, demand paging with swap, and ELF loading. The classes `Vm.Memory` and
  `VmPager.Process` and the methods of `VmElf` have the code. `VmBoot` and `VmExec` say where it all starts, and `VmFlat` and
  `VmSystem` prove, from boot on and for any number of processes, that each of them sees flat, private memory. `VmRights`,
  `VmShared` and `VmDevices` follow the walk of the hardware (section 4.3.2 there) through these tables, `VmLimit` counts the pages
  that stay in memory, and `VmElfFile` lays an ELF file out independently of the loader.
* **Numbers** (`Printer.dfy`). `mini_itoa` with its build from back to front and reversal in place, and `atol`.

How the model reads the code:

* The card, the page table, the page frames and the swap area are fields that the methods change; card transfers are whole
  sectors. On the volume the block map, the inode map and the inode table are kept as typed regions beside the sectors of the
  blocks; `FsLayout.DataAboveMetadata` is why a block never overlaps them. The magic number test is the field `formatted`.
* A frame is seen as 512 page-table entries or as 4096 bytes; that no frame is ever used as both is proved, not assumed.
  A page-table entry is a page number and ten attribute bits. The 44-bit page number field that the comments of
  pgtable.h describe is modelled; the literals there shift a 32-bit value.
* The kernel runs under one lock, so each event is the code between two points where the lock is free. A process blocked in
  a mailbox call keeps what it asked for, and runs its loop test again when it is dispatched.
* Clock values, the program to run, semaphore handles and fault addresses are parameters. `timer_check` reads the clock once.
* Preconditions are what the callers see to: enough free blocks for a write, a free inode below 512 and a place in the
  directory for a new name, a free PCB, fewer than 20 recorded locks, an initialised queue, frames left for a mapping,
  canonical fault addresses.

Where code and documentation differ, the code is followed:

* The ring's comment calls HwTail the last descriptor of the work group; the code leaves it one past, equal to PreHead, and
  that is proved.
* The scan of received descriptors is not bounded by the work group, although its caller relies on that;
  `BdRing.FromHwRxKeepsIff` says exactly when the partition survives.
* `is_elf_format` compares the file with index constants and its result is negated, so `load_elf` takes almost any file;
  `VmElf.RefusedIff` says exactly which it refuses.
* `ioremap` does not end for a size that is no multiple of a page; `VmIo.IoRemapEnds`.
* `rm` loses indirect tables that the size of the file does not show, which a write after seeking back can bring about;
  `FsRemove.ReleaseLeaks`, `FsLife.SeekBackLeaks`. It also loses the second table of a file of the greatest size; `FsLife.SequentialShows`.
* The fault handlers mean to leave a process at most four pages in memory. `do_swap` gives up at the first page that is on disk,
  so it only ever takes the first page of the list (`VmPaging.VictimIsFirst`), and the limit does not hold: `VmLimit.LimitIff` is
  the exact condition, `VmLimit.NewPagesPileUp` passes every bound.
* `do_waitpid` does not look at the status of the process it finds. A live one wakes its waiters when it ends
  (`KernelWait.ExitMoves`, `KernelWait.KillMoves`); a killed one keeps its id, and who waits for it then sleeps for ever
  (`KernelWait.WaitInVain`, `KernelWait.NeverWoken`). `KernelWait.WaitPidReturns` is the exact condition.
* `do_exit` and `do_kill` give back only the pages on the list of the process: its tables, its directory and its program's
  pages stay taken. `VmSystem.ExitKeeps`.
* `do_fopen` and `do_ln` do not go back to the current directory when they do not find their path, as `do_cd` does;
  `FsPath.SearchKeepsDirIff` says exactly when it is lost, and `FsCalls.OpenLosesDir` loses it.
* A release takes the last recorded lock off the record, whichever lock it lets go; `KernelHeld.ReleaseForgetsIff`.
* `ln` also links a directory, and then counts a name in that directory which it does not hold; `FsOpen.ApplyShows`,
  `FsOpen.DirLinkMiscounts`.
* `atol` knows no sign, so printing and parsing undo each other exactly for values that are not negative; `Printer.DecimalRoundTrip`.

## Model

| member | source | states |
|---|---|---|
| FsLayout.OneBit | myos/kernel/fs/fs.c:28-43 | Setting or clearing the bit of one block or inode in a map changes that bit and no other. |
| FsLayout.TableRoundTrip | myos/kernel/fs/fs.c:752-769 | An indirect table written to its eight sectors reads back entry by entry as it was written. |
| FsLayout.DataAboveMetadata | myos/kernel/fs/fs.c:168-215 | Every data block lies above the sectors of the superblock, both maps and the inodes. |
| FsVolume.FillDirectAttaches | myos/kernel/fs/fs.c:729-733 | Putting a free block into an empty direct pointer of one inode keeps all pointers of all files distinct and marked, and attaches just that block. |
| FsVolume.FillLev1Attaches | myos/kernel/fs/fs.c:752-761 | The same for a fresh indirect table, whose entries all start empty. |
| FsVolume.FillEntryAttaches | myos/kernel/fs/fs.c:765-769 | The same for an entry of an indirect table. |
| FsVolume.DataBlockKeepsPtrs | myos/kernel/fs/fs.c:703-872 | A write inside a data block of one file changes no pointer of any file. |
| FsContent.SectorsApart | myos/kernel/fs/fs.c:594-872 | Different files, and different sectors of one file, lie in different sectors of the card. |
| FsContent.FirstClearIsLeast | myos/kernel/fs/fs.c:22-38 | The allocator's search finds the lowest clear bit. |
| FsContent.WriteFileWrites | myos/kernel/fs/fs.c:703-872 | A write at any position, alignment and crossing of direct, first and second indirect region is a splice: bytes [p, p+n) become the data, every other mapped byte of every live file is unchanged, only empty slots are filled, and no block gets two owners. |
| FsContent.WriteFileTakes | myos/kernel/fs/fs.c:703-872 | A write takes exactly one free block for each slot it needed and found empty. |
| FileSystem.FileSys.AllocDataBlock | myos/kernel/fs/fs.c:22-38 | Returns the lowest clear bit of the block map and sets it, 0 and no change when there is none. |
| FileSystem.FileSys.WriteHead | myos/kernel/fs/fs.c:727-788 | The unaligned head of a write leaves the first sector spliced, in whichever region it lies. |
| FileSystem.FileSys.WriteDirectRun | myos/kernel/fs/fs.c:790-805 | The loop over direct sectors writes what remains up to the end of the direct region, allocating on demand. |
| FileSystem.FileSys.WriteTableRun | myos/kernel/fs/fs.c:807-867 | The loop over the sectors of one indirect table does the same, keeping the copy of the table in memory equal to the table on the card. |
| FileSystem.FileSys.WriteRuns | myos/kernel/fs/fs.c:789-867 | The three loops together write everything that starts at a sector boundary. |
| FileSystem.FileSys.DoFwrite | myos/kernel/fs/fs.c:703-872 | The whole call: the volume becomes the specified write, the write pointer advances by size and becomes the file size, size is returned; on an unformatted card -1 is returned and nothing happens. |
| FileSystem.FileSys.ReadHead | myos/kernel/fs/fs.c:616-657 | The unaligned head of a read copies what the file holds at the read pointer; behind the direct region always to the end of its sector. |
| FileSystem.FileSys.ReadRun | myos/kernel/fs/fs.c:661-698 | Each of the three sector loops of a read continues the copy with the file's bytes. |
| FileSystem.FileSys.DoFread | myos/kernel/fs/fs.c:594-701 | The first size bytes of the buffer become the file's bytes at the read pointer, which advances by size; the volume is unchanged. |
| FileSystem.FileSys.DoLseek | myos/kernel/fs/fs.c:933-957 | Both pointers of the descriptor move as the mode says, in 32 bits; nothing else changes. |
| FileSystem.HeadPosition | myos/kernel/fs/fs.c:619-656 | The byte arithmetic of the unaligned head finds the same block and sector as the sector arithmetic of the loops. |
| FileSystem.LoopPosition | myos/kernel/fs/fs.c:661-698 | The sector loops compute table, entry and sector of a position as the address split defines them. |
| FileSystem.WrittenSplices | myos/kernel/fs/fs.c:703-872 | After a write call the data is in the file, every other mapped byte of every file is as before and the invariant holds. |
| FileSystem.ReadBack | myos/kernel/fs/fs.c:594-872 | What was written at a position is what a read there finds, and nothing else is. |
| FileSystem.WriteSeekRead | myos/kernel/fs/fs.c:594-957 | Write at p, seek to p, read the same length: both calls return the length, the buffer holds exactly the data, the read pointer stands behind it and the write pointer at p. |
| FsSeek.WrittenAppends | myos/kernel/fs/fs.c:703-872 | A write of n bytes at the end of a file of u bytes: bytes [u, u+n) are the data, every byte below u that was there is as before, and the size is u + n. |
| FsSeek.AppendAtEnd | myos/kernel/fs/fs.c:703-957 | Seek to the end, then write: the call appends, and leaves the read pointer at the old and the write pointer at the new end. |
| FsSeek.ReadAgain | myos/kernel/fs/fs.c:594-957 | Read n bytes, seek by -n, read n bytes: the second read gives the same bytes and the read pointer ends where the first one left it. |
| FsSeek.ThereAndBack | myos/kernel/fs/fs.c:933-957 | Seeking by k and then by -k restores both pointers, for every k. |
| FsSeek.SeekLands | myos/kernel/fs/fs.c:933-957 | The three modes in numbers: to the offset, that much on, that much behind the end of the file; no other descriptor moves. |
| FsCard.BitOnCard | myos/kernel/fs/fs.c:28-43 | Block or inode n is bit n % 8, from the lowest, of byte n / 8 of its map. |
| FsCard.TableFormat | myos/kernel/fs/fs.c:752-769 | An indirect table stands on the card as 1024 little-endian words, 128 a sector; what is laid out so is read as that table. |
| FsCard.DirFormat | myos/kernel/fs/fs.c:77-116 | A directory block stands on the card as 128 entries of two little-endian words and a 24-byte name; what is laid out so is read as that block. |
| FsDirectory.DirRoundTrip | myos/kernel/fs/fs.c:77-116 | A directory block of 128 entries reads back as it was written. |
| FsDirectory.NamesBound | myos/kernel/fs/fs.c:960-1001 | A file is named at most 126 times in each of at most 512 directories, so its 16-bit link count never wraps. |
| FsNames.TouchOk | myos/kernel/fs/fs.c:481-539 | touch keeps pointers, directories and link counts sound and loses no block; a new name stands last in the directory and leads to a new empty file with one link; an old name changes nothing. |
| FsNames.MkdirOk | myos/kernel/fs/fs.c:288-355 | mkdir keeps the same; a new name stands last in the directory and leads to a new directory that holds exactly "." for itself and ".." for its parent; an old name changes nothing. |
| FsNames.LinkToOk | myos/kernel/fs/fs.c:988-1001 | A new link keeps the same: the new name stands last and refers to the inode, which has one more name, and its count stays the number of names. |
| FsNames.RelinkKeeps | myos/kernel/fs/fs.c:960-1001 | Changing link counts alone changes no directory and no pointer. |
| FsRemove.ReleaseInv | myos/kernel/fs/fs.c:1048-1076 | Giving an inode and its blocks back keeps the pointers of every other inode sound. |
| FsRemove.ReleaseLeaks | myos/kernel/fs/fs.c:1055-1076 | Giving an inode back loses exactly the blocks in and under the indirect tables that the size of the file does not show, so nothing if and only if it shows every table. |
| FsRemove.ReleaseGives | myos/kernel/fs/fs.c:1048-1076 | Exactly the blocks that the inode names in places rm looks at become free. |
| FsRemove.RmOk | myos/kernel/fs/fs.c:1003-1081 | rm takes out the first entry of that name and no other; the file has one name less and, unless that was the last, one less in its count and both maps as before; with the last one exactly that inode goes, exactly the blocks in the places rm looks at become free, and exactly those in and under tables that the size does not show are lost, nothing if and only if there are none. |
| FsRemove.RmFreesOwned | myos/kernel/fs/fs.c:1003-1081 | On every sound volume, whatever was lost before: removing the last name of a file whose size shows its tables frees exactly the blocks the file names. |
| FsRemove.RmSteps | myos/kernel/fs/fs.c:1003-1081 | rm takes out the entry first and then gives the inode back or lowers its count. |
| FsPath.FindDirWalks | myos/kernel/fs/fs.c:118-165 | find_dir looks the names between the slashes up one after the other, each in the directory the one before it led to, from the root if a slash is in front and from the current directory otherwise; one slash behind makes no difference. |
| FsPath.DoubledSlash | myos/kernel/fs/fs.c:118-165 | A second slash in a row starts again at the root; at the end of the path it makes the search fail. |
| FsPath.WalkFails | myos/kernel/fs/fs.c:118-165 | A search fails if and only if some name is missing in the directory to which the names before it lead, and it ends in that directory. |
| FsPath.FindDirEnds | myos/kernel/fs/fs.c:118-165 | A search that succeeds ends at a live inode, one that fails in a directory. |
| FsPath.SearchKeepsDirIff | myos/kernel/fs/fs.c:542-987 | open and ln keep the current directory if and only if no name of the path is missing, or those in front of the missing one lead back to it: on failure they do not put it back. |
| FsPath.CdEnds | myos/kernel/fs/fs.c:360-386 | cd always ends in a directory. |
| FsPath.CdGoesIff | myos/kernel/fs/fs.c:360-386 | cd goes where the names of its path lead when none of them is missing and the last leads to a directory; in every other case the current directory stays. |
| FsPath.CdNone | myos/kernel/fs/fs.c:360-386 | cd without a path stays; cd of a lone slash goes to the root. |
| FsPath.MkdirAndBack | myos/kernel/fs/fs.c:288-386 | cd into a directory just made goes there, and cd to its ".." from where it was made comes back. |
| FsPath.LnOk | myos/kernel/fs/fs.c:960-1001 | ln with any path keeps the invariant of the file system: the new name stands last in the current directory and refers to the inode the path leads to, which has one more name; a path that leads nowhere changes nothing on the volume. |
| FsLife.WrittenOk | myos/kernel/fs/fs.c:703-872 | Writing a file keeps every directory entry, every link count and the whole invariant. |
| FsLife.AppendSequential | myos/kernel/fs/fs.c:703-872 | Appending keeps a file that was written from start to end such a file: it has exactly the tables its size needs. |
| FsLife.AppendsKeep | myos/kernel/fs/fs.c:703-872 | Any number of appends keeps everything but the one file and the blocks it takes. |
| FsLife.OwnersFixMap | myos/kernel/fs/fs.c:22-45 | A block is marked exactly when it is reserved, named by a live inode or lost, so pointers and lost blocks determine the block map. |
| FsLife.LifeRestoresMaps | myos/kernel/fs/fs.c:481-1081 | On every sound volume, whatever earlier removals lost: create a file, write it from start to end in any number of calls, remove it: both bitmaps are as they were. |
| FsLife.SequentialShows | myos/kernel/fs/fs.c:1055-1076 | A file written from start to end shows all its tables to rm exactly while it is smaller than 2^23 + 40960 bytes: the bound tested for the second table is strict. |
| FsLife.SeekBackLeaks | myos/kernel/fs/fs.c:703-1076 | One byte written at 40960 and then one at 0: the file has size 1 and a table that its size does not show, whose block is lost with the last name. |
| FsCalls.AllocInode | myos/kernel/fs/fs.c:47-62 | Returns the lowest clear bit of the inode map and sets it. |
| FsCalls.ClearDataBlock | myos/kernel/fs/fs.c:40-45 | Clears exactly the bit of one block. |
| FsCalls.ClearInodeMap | myos/kernel/fs/fs.c:64-69 | Clears exactly the bit of one inode. |
| FsCalls.LookupEntry | myos/kernel/fs/fs.c:97-116 | Finds the first entry of a directory with the name. |
| FsCalls.AppendEntry | myos/kernel/fs/fs.c:525-536 | Adds one entry at the end of a directory and counts it there. |
| FsCalls.DoTouch | myos/kernel/fs/fs.c:481-539 | touch as it is coded is the specified touch, or changes nothing. |
| FsCalls.DoMkdir | myos/kernel/fs/fs.c:288-355 | mkdir as it is coded is the specified mkdir, or changes nothing. |
| FsCalls.SplitPath | myos/kernel/fs/fs.c:140-149 | The two character loops cut a path at its first slash. |
| FsCalls.FindPath | myos/kernel/fs/fs.c:118-165 | The recursion over the path is the specified search, and the current directory moves with it. |
| FsCalls.DoCd | myos/kernel/fs/fs.c:360-386 | cd goes to the directory the path leads to, and stays where it is when there is none. |
| FsCalls.DoLn | myos/kernel/fs/fs.c:960-1001 | ln as it is coded is the specified ln, or changes nothing on the volume; the current directory stays or is where the search failed. |
| FsCalls.ShiftOut | myos/kernel/fs/fs.c:1026-1038 | The loop that closes the gap takes the first entry of that name out and keeps the others in order. |
| FsCalls.ReleaseInode | myos/kernel/fs/fs.c:1048-1076 | The loops over direct pointers and tables clear exactly the bits the specification releases. |
| FsCalls.DoRm | myos/kernel/fs/fs.c:1003-1081 | rm as it is coded is the specified rm, or changes nothing. |
| FsCalls.DoMkfs | myos/kernel/fs/fs.c:168-246 | mkfs leaves the fresh volume, the root as current directory, and the card formatted. |
| FsCalls.MkfsOk | myos/kernel/fs/fs.c:168-246 | A fresh volume has exactly one live inode, the root, whose directory holds exactly "." and ".."; exactly the reserved blocks and its own are taken; it is sound and nothing is lost. |
| FsCalls.DoFopen | myos/kernel/fs/fs.c:542-592 | Opens what the path leads to in the first free descriptor, with both pointers at 0, or says why not; the current directory stays or is where the search failed. |
| FsCalls.ApplyKeeps | myos/kernel/fs/fs.c:168-1081 | Each call keeps the invariant of the file system; what is lost grows exactly by what an untidy removal loses. |
| FsCalls.RunKeeps | myos/kernel/fs/fs.c:168-1081 | Every sequence of calls keeps the invariant; what is lost stays lost, and a run loses nothing if and only if all its removals are tidy. |
| FsCalls.ReachableOk | myos/kernel/fs/fs.c:168-1081 | In every state that any calls reach from a fresh volume no block has two owners, every owned block is marked and a data block, and link counts are name counts; exactly the reserved and the owned blocks are marked if and only if all removals were tidy. |
| FsCalls.OpenLosesDir | myos/kernel/fs/fs.c:118-575 | On a fresh volume, make a directory a and open a/x: there is no such file, and the current directory is no longer the root. |
| FsOpen.LinkToShows | myos/kernel/fs/fs.c:988-1001 | A link to a file keeps every directory count right; a link to a directory makes that directory count one name too many. |
| FsOpen.ApplyShows | myos/kernel/fs/fs.c:168-1081 | Every call leaves every inode open for reading and writing, and keeps the counts of the directories right if and only if it is not a link to a directory. |
| FsOpen.ReachableShows | myos/kernel/fs/fs.c:168-1081 | In every state that any calls reach from a fresh volume every inode is open for reading and writing; while no link was made to a directory, each directory counts exactly its names other than "." and "..". |
| FsOpen.DirLinkMiscounts | myos/kernel/fs/fs.c:960-1001 | On a fresh volume, mkdir a and ln a b: a holds no name of its own and counts one. |
| FsOpen.OpenFound | myos/kernel/fs/fs.c:542-592 | On such a volume opening a path succeeds, with every access, if and only if the path leads to something. |
| FsOpen.TouchAndOpen | myos/kernel/fs/fs.c:481-592 | touch of a new name and open of it with any access succeed: the lowest free descriptor stands, with both pointers at 0, at a new empty file that the name leads to. |
| BdRing.SeekAheadMoves | myos/drivers/emacps/xemacps_bdring.c:115-137 | Seeking ahead is movement modulo the number of descriptors, even when the 64-bit sum passes the top of memory. |
| BdRing.SeekBackMoves | myos/drivers/emacps/xemacps_bdring.c:143-154 | Seeking back undoes seeking ahead, even below address 0. |
| BdRing.NextMoves | myos/drivers/emacps/xemacps_bdring.h:181-204 | BdRingNext and BdRingPrev step to the neighbours around the ring and undo each other. |
| BdRing.NextTimesMoves | myos/drivers/emacps/xemacps_bdring.c:115-137 | n steps of BdRingNext are one seek by n. |
| BdRing.GroupsCoverRing | myos/drivers/emacps/xemacps_bdring.c:162-182 | The four groups together are every descriptor of the ring exactly once. |
| BdRing.AllocMoves | myos/drivers/emacps/xemacps_bdring.c:421-437 | Alloc succeeds exactly when the free group is large enough, and moves its first n descriptors to the end of the pre-work group; a failure changes nothing. |
| BdRing.UnAllocMoves | myos/drivers/emacps/xemacps_bdring.c:501-520 | UnAlloc gives the last n allocated descriptors back to the front of the free group. |
| BdRing.ToHwMoves | myos/drivers/emacps/xemacps_bdring.c:549-578 | ToHw hands over the oldest n allocated descriptors, only when they are named by the first one's address, and keeps the tail pointer one past the work group. |
| BdRing.FreeMoves | myos/drivers/emacps/xemacps_bdring.c:886-906 | Free moves the oldest n post-work descriptors to the end of the free group. |
| BdRing.FromHwRxMoves | myos/drivers/emacps/xemacps_bdring.c:794-863 | A receive scan limited to the work group keeps the partition and moves the longest run of whole packets to the post-work group. |
| BdRing.FromHwRxKeepsIff | myos/drivers/emacps/xemacps_bdring.c:794-863 | Whatever the descriptors hold the scan keeps the partition if and only if the work group is empty or the limit does not exceed it: the code itself does not bound the limit. |
| BdRing.ScanIsLongest | myos/drivers/emacps/xemacps_bdring.c:819-845 | The counting of descriptors and of the unfinished packet computes the largest k within the limit whose first k descriptors are new and whose k-th ends a packet. |
| BdRing.WholeIsFree | myos/drivers/emacps/xemacps_bdring.c:197-275 | The control fields that creation computes make the whole region the free group. |
| BdRing.BdRing.LastBd | myos/drivers/emacps/xemacps_bdring.c:251-256 | The walk ends at the address of the last descriptor. |
| BdRing.BdRing.Create | myos/drivers/emacps/xemacps_bdring.c:197-275 | Succeeds exactly for an alignment that is a power of two of at least 64 kept by both addresses, a nonzero count, and a region that does not wrap; then all descriptors are cleared and free. |
| BdRing.BdRing.BdAlloc | myos/drivers/emacps/xemacps_bdring.c:421-437 | The call is the specified operation and keeps the partition; it returns the old free head. |
| BdRing.BdRing.BdUnAlloc | myos/drivers/emacps/xemacps_bdring.c:501-520 | The call is the specified operation and keeps the partition. |
| BdRing.BdRing.BdToHw | myos/drivers/emacps/xemacps_bdring.c:549-578 | The call is the specified operation and keeps the partition; its loop ends where one seek would. |
| BdRing.BdRing.Scan | myos/drivers/emacps/xemacps_bdring.c:819-845 | The loop returns the longest run of whole packets within the limit. |
| BdRing.BdRing.BdFromHwRx | myos/drivers/emacps/xemacps_bdring.c:794-863 | The call is the specified operation, for every limit and every content of the descriptors, and returns the old head of the work group; the ring stays in order if it took no more than the work group has. |
| BdRing.BdRing.BdFree | myos/drivers/emacps/xemacps_bdring.c:886-906 | The call is the specified operation and keeps the partition. |
| BdRing.RunKeepsPartition | myos/drivers/emacps/xemacps_bdring.c:421-906 | After any sequence of operations every descriptor is in exactly one of the four groups, and each group starts where the one before it ends. |
| Lists.InitListHead | myos/include/os/list.h:61-65 | Makes a ring without members. |
| Lists.ListAddBetween | myos/include/os/list.h:67-74 | Links a node between two nodes, keeping their other links. |
| Lists.ListDelBetween | myos/include/os/list.h:76-80 | Joins two nodes, keeping their other links. |
| Lists.ListDel | myos/include/os/list.h:81-88 | Joins the neighbours and clears the links of the node; on a node whose links are cleared it changes nothing. |
| Lists.ListAdd | myos/include/os/list.h:90-93 | A ring of S becomes a ring of x followed by S; other nodes are untouched. |
| Lists.ListAddTail | myos/include/os/list.h:95-99 | A ring of S becomes a ring of S followed by x; other nodes are untouched. |
| Lists.RingDel | myos/include/os/list.h:76-88 | A ring of S becomes a ring of S without its i-th member, in order; only that node and its neighbours are touched. |
| Lists.ListMove | myos/include/os/list.h:101-105 | A member of one ring becomes the first of another; both stay rings. |
| Lists.ListEmpty | myos/include/os/list.h:107-110 | True exactly for a ring without members. |
| Queues.Queues.AddTail | myos/include/os/list.h:95-99 | Among all kernel queues at heap level: one queue gains the process at its end, every other queue is a ring of what it was. |
| Queues.Queues.Del | myos/include/os/list.h:81-88 | One queue loses the process, every other queue is a ring of what it was, and the node is ready for another queue. |
| Queues.Queues.DelLoose | myos/include/os/list.h:81-88 | list_del of a process on no queue changes no queue. |
| Queues.Queues.Init | myos/include/os/list.h:61-65 | A queue head is initialised; the queues are as before. |
| Queues.Queues.First | myos/include/os/list.h:51-56 | list_entry of the first node is the first process of the queue. |
| KernelState.MoveReadyPlaced | myos/kernel/sched/sched.c:151-166 | Waking a blocked process keeps every process in exactly one place. |
| KernelState.ParkPlaced | myos/kernel/sched/sched.c:136-149 | Moving the running process of a core to the end of a queue does. |
| KernelState.DispatchPlaced | myos/kernel/sched/sched.c:103-117 | A free core taking the first ready process does. |
| KernelState.DropPlaced | myos/kernel/sched/sched.c:286-289 | Taking a process that is not running off its queue for good does. |
| KernelInv.ScheduleKeeps | myos/kernel/sched/sched.c:86-134 | do_scheduler on either core keeps the kernel invariant: one place for every process, unique process ids, initialised queues. |
| KernelInv.SleepKeeps | myos/kernel/sched/sched.c:136-149 | do_sleep keeps it. |
| KernelInv.TimerCheckKeeps | myos/kernel/sched/sched.c:151-166 | timer_check keeps it. |
| KernelInv.WaitPidKeeps | myos/kernel/sched/sched.c:383-407 | do_waitpid keeps it. |
| KernelInv.ExitKeeps | myos/kernel/sched/sched.c:341-380 | do_exit keeps it, although it clears the process id while the process still runs. |
| KernelInv.KillKeeps | myos/kernel/sched/sched.c:261-338 | do_kill of any process not running on the other core keeps it, with all the locks and waiters it lets go. |
| KernelInv.ExecKeeps | myos/kernel/sched/sched.c:427-494 | do_exec keeps it: a fresh PCB on no queue, its wait list not in use before. |
| KernelEffects.WakeAllMoves | myos/kernel/sched/sched.c:307-315 | All waiters become ready, behind those that were, in the order they came, and nothing else changes. |
| KernelEffects.ScheduleMoves | myos/kernel/sched/sched.c:96-117 | The running process lines up last and the core goes to the head of the line. |
| KernelEffects.BlockOnMoves | myos/kernel/sched/sched.c:142-148 | The process goes to the end of its queue and the core to the head of the ready line. |
| KernelEffects.TimerCheckMoves | myos/kernel/sched/sched.c:151-166 | Exactly the sleepers whose deadline has passed move to the end of the ready queue, in order; the others stay, in order. |
| KernelRuns.ApplyKeeps | myos/kernel/sched/sched.c:86-494 | Every stretch of kernel code between two points where the lock is free keeps the kernel invariant. |
| KernelRuns.ReachablePlaced | myos/kernel/sched/sched.c:86-494 | In every state any events reach from boot a process is running exactly when it is on one core, ready exactly when on the ready queue, blocked exactly when on one other queue; no queue holds a process twice. |
| KernelFair.StepAhead | myos/kernel/sched/sched.c:86-134 | No event moves a ready process back, and every reschedule on either core dispatches it or moves it up. |
| KernelFair.BoundedWait | myos/kernel/sched/sched.c:86-134 | With n processes before it a ready process that is not killed gets a core within n+1 reschedules, whatever else blocks, wakes, exits or is killed. |
| KernelFair.RoundRobin | myos/kernel/sched/sched.c:86-134 | The same by position: the j-th ready process has run by the (j+1)-th reschedule. |
| KernelLocks.SemDownKeeps | myos/kernel/locking/lock.c:142-153 | do_sem_down keeps the kernel invariant. |
| KernelLocks.SemUpKeeps | myos/kernel/locking/lock.c:128-139 | do_sem_up keeps it. |
| KernelLocks.AcquireKeeps | myos/kernel/locking/lock.c:43-79 | Acquiring a mutex keeps it, with the lock recorded before it is got. |
| KernelLocks.ReleaseKeeps | myos/kernel/locking/lock.c:81-107 | Releasing a mutex keeps it, with the last recorded lock forgotten. |
| KernelLocks.BarrierWaitKeeps | myos/kernel/locking/lock.c:180-198 | do_barrier_wait keeps it. |
| KernelLocks.SendKeeps | myos/kernel/locking/lock.c:250-275 | do_mbox_send keeps it, blocked or not. |
| KernelLocks.RecvKeeps | myos/kernel/locking/lock.c:278-307 | do_mbox_recv keeps it, blocked or not. |
| KernelSync.ActsOn | myos/kernel/locking/lock.c:43-153 | Count and waiters of a semaphore change only by its own downs and ups, and by those exactly as defined. |
| KernelSync.SemRunSafe | myos/kernel/locking/lock.c:114-153 | Over every run without kill or destroy the count is never negative and nobody waits while it is positive. |
| KernelSync.SemRunBalances | myos/kernel/locking/lock.c:114-153 | Completed downs, hand-offs included, plus the count equal the count at the start plus the ups. |
| KernelSync.SemRunFifo | myos/kernel/locking/lock.c:114-153 | Those let through, in order, followed by those still waiting are those who waited at first followed by those who came, in order. |
| KernelSync.LockRun | myos/kernel/locking/lock.c:43-107 | Holders and count of a lock used in pairs make its initial value, and no holder waits for it. |
| KernelSync.MutualExclusion | myos/kernel/locking/lock.c:30-107 | A lock initialised to 1 and used in pairs never has two holders, over every run without kill or destroy. |
| KernelSync.BarrierActs | myos/kernel/locking/lock.c:180-198 | One arrival either waits or lets all waiters go in order and restores the count. |
| KernelSync.BarrierRun | myos/kernel/locking/lock.c:172-198 | Count plus waiters stay the barrier's size, and a place is always left. |
| KernelSync.BarrierCounts | myos/kernel/locking/lock.c:172-198 | After a arrivals at a barrier for n, it has let everybody go a/n times and a mod n processes wait. |
| KernelSync.DestroyMoves | myos/kernel/locking/lock.c:157-168 | do_sem_destroy lines all waiters up behind the ready processes, in order, and gives the semaphore free. |
| KernelMail.WakeupStep | myos/kernel/locking/lock.c:250-307 | Every event, kills included, keeps: whoever waits to receive wants more than there is, whoever waits to send would not fit, and at most 64 bytes are held. |
| KernelMail.NobodySleepsInVain | myos/kernel/locking/lock.c:250-307 | Every run keeps it: no wakeup is lost. |
| KernelMail.ReachableWakeup | myos/kernel/locking/lock.c:250-307 | From boot on, in every reachable state, whoever waits at a mailbox wants more bytes than it holds or would not fit. |
| KernelMail.StreamStep | myos/kernel/locking/lock.c:259-305 | What was in the mailbox and what an event sends is what it hands out followed by what remains. |
| KernelMail.MailboxIsStream | myos/kernel/locking/lock.c:250-307 | Over every interleaving all bytes sent, message after message, are all bytes received followed by what the mailbox holds. |
| KernelSleep.OnlyActor | myos/kernel/sched/sched.c:86-494 | No event changes the mode of a process, nor anything but the status of one whose own call it is not. |
| KernelSleep.SleepEnds | myos/kernel/sched/sched.c:151-166 | The first look at the clock at or after its deadline makes a sleeper ready, behind those that were. |
| KernelSleep.SleepsUntilDue | myos/kernel/sched/sched.c:136-166 | do_sleep(t) at tick now: over every run in which nobody kills the caller it stays blocked while the clock is looked at only before now + t time bases, in 64 bits; the first look from then on makes it ready, behind those that were ready. |
| KernelHeld.RecordIsStack | myos/kernel/locking/lock.c:43-107 | Over every run a process has on record what its own acquires and releases leave on a stack, whatever others do. |
| KernelHeld.ReleaseForgetsIff | myos/kernel/locking/lock.c:81-107 | When no lock is recorded twice, a release takes the lock it lets go off the record if and only if that was the last one recorded. |
| KernelHeld.KillGivesUp | myos/kernel/sched/sched.c:286-318 | do_kill gives up the locks on record and no others: one recorded once goes to its first waiter or becomes free, every other semaphore keeps its count and its waiters but for the victim. |
| KernelHeld.NestedLocks | myos/kernel/locking/lock.c:43-107 | Acquire a, acquire b, release b, with anything of others in between, and be killed: of the two exactly a is given up. |
| KernelBegin.WaitPidResult | myos/kernel/sched/sched.c:383-407 | do_waitpid returns 1 if and only if some process has the id and that is neither 0 nor 1; otherwise it changes nothing. |
| KernelBegin.KillResult | myos/kernel/sched/sched.c:261-338 | do_kill returns 1 under just that condition, and the process has ended then; otherwise it changes nothing. |
| KernelBegin.ExecBegins | myos/kernel/sched/sched.c:436-477 | A new process is the last in the ready line, with the given mode, no locks and an id that no other process has and that finds it. |
| KernelBegin.ModeDecides | myos/kernel/sched/sched.c:341-494 | Whatever happens in between, a process becomes a zombie when it exits if and only if it was made to. |
| KernelBegin.SemFromInit | myos/kernel/locking/lock.c:114-153 | From initialisation with val on, over every run without kill or destroy: downs that completed and the count make val and the ups, and waiters are served in order. |
| KernelBegin.SemInUse | myos/kernel/locking/lock.c:114-168 | A semaphore once initialised cannot be initialised again until it is destroyed, over every run, and can then. |
| KernelBegin.OpenBegins | myos/kernel/locking/lock.c:205-234 | Opening a mailbox makes it empty with both counts at 0 and changes no other. |
| KernelBegin.StreamFromOpen | myos/kernel/locking/lock.c:205-307 | From opening on, all that is received, in order, is the front of all that was sent. |
| KernelBegin.CountsBlocked | myos/kernel/locking/lock.c:250-307 | The counts that the mailbox calls return say how often a sender and a receiver had to wait since it was opened. |
| KernelWait.ExitMoves | myos/kernel/sched/sched.c:341-380 | do_exit lines its waiters up behind the ready processes, first come first, ends the process as its mode says and dispatches the next. |
| KernelWait.ReleaseOneMoves | myos/kernel/sched/sched.c:291-304 | Each recorded lock goes to its first waiter or gets count 1; every other queue is as before. |
| KernelWait.KillMoves | myos/kernel/sched/sched.c:261-338 | The victim has ended and stands on no queue, everybody who waited for it is awake, and no other wait list changes but for the victim. |
| KernelWait.LivesStep | myos/kernel/sched/sched.c:86-494 | An event ends exactly the process that exits or is killed: everybody else stays alive or stays dead. |
| KernelWait.WaitsStep | myos/kernel/sched/sched.c:86-494 | While a process waits for another, an event that ends the other wakes it and takes it off the wait list; any other event leaves it there. |
| KernelWait.WaitPidWaits | myos/kernel/sched/sched.c:383-407 | do_waitpid does not look at the status: the caller joins the wait list of the process it finds, alive or ended. |
| KernelWait.WaitEnds | myos/kernel/sched/sched.c:86-494 | Over every run that spares the waiter and kills no dead process again, a waiter leaves the wait list if and only if the process was alive at first and has ended since. |
| KernelWait.WaitPidReturns | myos/kernel/sched/sched.c:383-407 | do_waitpid keeps its promise exactly for live processes: over every such run the caller is let go if and only if the process was alive at the call and has ended since. |
| KernelWait.NeverWoken | myos/kernel/sched/sched.c:383-407 | Over every such run, who waits for a process that has already ended is never woken. |
| KernelWait.WaitInVain | myos/kernel/sched/sched.c:261-407 | From boot: the shell makes a process, kills it and waits for it, and waits for an ended process. |
| Kernel.Kernel.DoScheduler | myos/kernel/sched/sched.c:86-134 | The code on heap lists is the specified step. |
| Kernel.Kernel.CheckTimers | myos/kernel/sched/sched.c:151-166 | The call is the specified timer_check and keeps the kernel invariant. |
| Kernel.Kernel.CheckAll | myos/kernel/sched/sched.c:151-166 | The walk that moves nodes as it passes them is the specified loop from the first sleeper on. |
| Kernel.Kernel.DoSleep | myos/kernel/sched/sched.c:136-149 | The code is the specified step; its list_del of the running process changes nothing. |
| Kernel.Kernel.DoWaitPid | myos/kernel/sched/sched.c:383-407 | The code is the specified step and result. |
| Kernel.Kernel.WakeWaiters | myos/kernel/sched/sched.c:352-360 | The loop that only takes off blocked processes ends and wakes them all, because all waiters are blocked. |
| Kernel.Kernel.DoExit | myos/kernel/sched/sched.c:341-380 | The code is the specified step. |
| Kernel.Kernel.ReleaseLocks | myos/kernel/sched/sched.c:291-304 | The loop over recorded locks hands each to its first waiter or sets its count to 1. |
| Kernel.Kernel.KillOne | myos/kernel/sched/sched.c:286-318 | The body of do_kill is the specified one, its waiter loop ends. |
| Kernel.Kernel.DoKill | myos/kernel/sched/sched.c:261-338 | The code is the specified step and result. |
| Kernel.Kernel.DoExec | myos/kernel/sched/sched.c:436-477 | The code is the specified step and returns the new process id. |
| Kernel.Kernel.DoSemInit | myos/kernel/locking/lock.c:114-126 | The code is the specified step. |
| Kernel.Kernel.DoSemUp | myos/kernel/locking/lock.c:128-139 | The code is the specified step. |
| Kernel.Kernel.DoSemDown | myos/kernel/locking/lock.c:142-153 | The code is the specified step. |
| Kernel.Kernel.DoAcquire | myos/kernel/locking/lock.c:43-79 | The code is the specified step. |
| Kernel.Kernel.DoRelease | myos/kernel/locking/lock.c:81-107 | The code is the specified step. |
| Kernel.Kernel.DoSemDestroy | myos/kernel/locking/lock.c:157-168 | The loop wakes every waiter, in order. |
| Kernel.Kernel.DoBarrierWait | myos/kernel/locking/lock.c:180-198 | The code, with its loop that counts up while it wakes, is the specified step. |
| Kernel.Kernel.PutBytes | myos/kernel/locking/lock.c:260-263 | The copy loop appends the message to the bytes of that mailbox and changes no other. |
| Kernel.Kernel.ShiftDown | myos/kernel/locking/lock.c:291-295 | The shift in place drops the first bytes of that mailbox and changes no other. |
| Kernel.Kernel.DoSend | myos/kernel/locking/lock.c:250-275 | The code is the specified step; when it returns it returns the count of senders that have been blocked. |
| Kernel.Kernel.DoRecv | myos/kernel/locking/lock.c:278-307 | The code is the specified step; when it returns, the oldest bytes are in the caller's buffer, the rest of that is unchanged, and the count of blocked receivers is returned. |
| VmMemory.KvaRoundTrip | myos/arch/riscv/include/pgtable.h:103-113 | The 64-bit conversions between physical and kernel addresses undo each other. |
| VmMemory.AttributeBits | myos/arch/riscv/include/pgtable.h:144-148 | Setting attributes sets exactly those and leaves every other bit and the page number. |
| VmMemory.ClearedBits | myos/kernel/irq/irq.c:109-109 | Clearing the valid bit leaves every other bit and the page number; setting it again restores a valid entry. |
| VmMemory.PageNoSplits | myos/kernel/mm/mm.c:88-91 | The three 9-bit indices are the digits of the 27-bit page number. |
| VmMemory.OneName | myos/kernel/mm/mm.c:93-142 | Two index paths that end in the same table entry are the same: tables are trees. |
| VmMemory.NextFrameFree | myos/kernel/mm/mm.c:25-44 | The frame allocPage takes is in no table, no free list and is no directory: no frame is handed out twice while live. |
| VmMemory.AllocKeeps | myos/kernel/mm/mm.c:25-44 | allocPage returns a zeroed frame and changes no table entry and no page in use. |
| VmMemory.FillKeeps | myos/kernel/mm/mm.c:97-152 | Setting one entry to a fresh table, a fresh page, a device page or other attributes keeps the tables trees and every other entry. |
| VmMap.CheckAdIs | myos/kernel/mm/mm.c:165-187 | check_ad finds the leaf entry of va exactly when that is valid at all levels. |
| VmMap.EnsureKeeps | myos/kernel/mm/mm.c:97-137 | Making a missing table keeps every other entry and every page. |
| VmMap.MapPageMaps | myos/kernel/mm/mm.c:84-156 | alloc_page_helper returns 0 exactly when va was mapped, then changing nothing; otherwise va is mapped to a fresh zeroed page, all other leaf entries of all processes and the contents of all pages in use are as before. |
| VmMap.MapThenLookup | myos/kernel/mm/mm.c:84-187 | Afterwards check_ad finds that page at va, and at every other page number of every process what it found before. |
| VmMap.FreeAllKeeps | myos/kernel/mm/mm.c:46-53 | Giving back frames that nothing live reaches keeps the invariant. |
| VmMap.ExitGarbage | myos/kernel/sched/sched.c:371-376 | When a process ends, no other process reaches any of its pages, so they may be given back. |
| VmFrames.TakenInOrder | myos/kernel/mm/mm.c:25-53 | The frames handed out next are those given back, longest waiting first, and then those never used, upwards. |
| VmFrames.GivenBackFirst | myos/kernel/mm/mm.c:25-53 | Frames given back are handed out again in the order they came, behind those that waited before and ahead of any frame never used. |
| VmFrames.TakenOnce | myos/kernel/mm/mm.c:25-53 | No frame is handed out twice, and none that is in use. |
| VmIo.IoStepMaps | myos/kernel/mm/ioremap.c:18-77 | One turn of ioremap maps exactly its page. |
| VmIo.IoMapMaps | myos/kernel/mm/ioremap.c:9-81 | For a range anywhere in the I/O space: page k is mapped to device page k, every other leaf entry and every page in use is as before, and no frames are needed but for the tables, of both levels, that the range reaches and its first page lacks. |
| VmIo.IoMapLookup | myos/kernel/mm/ioremap.c:9-81 | The walk finds device page k at page k of a range anywhere in the I/O space. |
| VmIo.IoRemapEnds | myos/kernel/mm/ioremap.c:18-76 | The loop of ioremap ends if and only if the size is a multiple of the page size, and then after as many turns as there are pages: for any other size no number of turns brings the unsigned size to 0. |
| VmIo.IoTurnsMap | myos/kernel/mm/ioremap.c:18-76 | After those turns memory is the specified mapping of the whole range. |
| VmDevices.CleanLeadsOn | myos/arch/riscv/kernel/boot.c:55-74 | At boot no table entry of the kernel directory outside the shared slot is a page, so that the walk goes on through those that ioremap makes. |
| VmDevices.DeviceReached | myos/kernel/mm/ioremap.c:18-77 | After ioremap the hardware walk from the kernel directory ends, for page k, at device page k: readable, writable, executable, accessed and dirty, and closed to user code. |
| Vm.Memory.ClearFrame | myos/kernel/mm/mm.c:31-41 | The loop over 512 words zeroes the whole page. |
| Vm.Memory.DoAllocPage | myos/kernel/mm/mm.c:25-44 | The code is the specified allocation and returns the kernel address of the frame. |
| Vm.Memory.DoFreePage | myos/kernel/mm/mm.c:46-53 | Appends the frame to the free list. |
| Vm.Memory.DoCheckAd | myos/kernel/mm/mm.c:165-187 | The walk is the specified one and never leaves the tables. |
| Vm.Memory.TableAt | myos/kernel/mm/mm.c:97-137 | One level of the walk makes a table when there is none and goes to it. |
| Vm.Memory.AllocPageHelper | myos/kernel/mm/mm.c:84-156 | The code is the specified mapping and result. |
| Vm.Memory.IoRemap | myos/kernel/mm/ioremap.c:9-81 | The code is the specified mapping; it returns the old base, or 0 for size 0, and moves the base on by the size. |
| VmPaging.SectorsRoundTrip | myos/kernel/irq/irq.c:26-41 | Eight sectors written from a page read back as the page. |
| VmPaging.VictimIsFirst | myos/kernel/irq/irq.c:85-118 | do_swap never looks past the first page after the two stacks: that page goes, or none does. |
| VmPaging.SwapOutKeeps | myos/kernel/irq/irq.c:101-112 | Swapping a page out keeps the list, the counter, the disjoint slots and every page's contents. |
| VmPaging.SwapInKeeps | myos/kernel/irq/irq.c:121-143 | Swapping a page in keeps them; the page is last on the list and holds what it held. |
| VmPaging.AddPageKeeps | myos/kernel/irq/irq.c:283-290 | A new page is mapped, zeroed and last on the list; nothing else changes. |
| VmPaging.SwappedInStays | myos/kernel/irq/irq.c:270-278 | The eviction after a swap-in never takes the page just brought in. |
| VmPaging.FaultKeeps | myos/kernel/irq/irq.c:260-327 | Each handled fault keeps the paging invariant, leaves the faulting page mapped and every page's contents as they were; a page seen first is zero. Only a page seen first needs free frames. |
| VmRuns.PagingIsTransparent | myos/kernel/irq/irq.c:85-327 | Over any run of faults and stores of a process in order, such as do_exec leaves (VmExec.ExecKeeps), a page holds what it held with the stores to it applied, however often it went to disk. |
| VmRuns.PagingState | myos/kernel/irq/irq.c:85-327 | In every state of a run the counter is two more than the resident pages, a page is mapped exactly when resident, swapped pages own disjoint runs of eight sectors below the next free one. |
| VmLimit.FaultCount | myos/kernel/irq/irq.c:260-327 | How many pages a handled fault leaves in memory, in every case: it evicts one if the count reaches four and the page at the front of the list is in memory, and none otherwise. |
| VmLimit.LimitIff | myos/kernel/irq/irq.c:260-327 | A process keeps to the limit of four pages, its two stacks counted, in every state of a run if and only if no fault of the run comes on an unmapped page when it has four and the front of its list is on disk. |
| VmLimit.NewPagesPileUp | myos/kernel/irq/irq.c:260-327 | The limit fails without bound: n new pages in a row after the two stacks, n at least 3, leave the first on disk and all others in memory. |
| VmPager.Process.Swap | myos/kernel/irq/irq.c:85-118 | The list walk is the specified do_swap. |
| VmPager.Process.Unswap | myos/kernel/irq/irq.c:121-143 | The list walk is the specified do_unswap. |
| VmPager.Process.HandleLoadPageFault | myos/kernel/irq/irq.c:260-293 | The handler is the specified step; on a mapped page it sets the accessed bit and changes nothing else. |
| VmPager.Process.HandleStorePageFault | myos/kernel/irq/irq.c:295-327 | The handler is the specified step; on a mapped page it sets the accessed and dirty bits and changes nothing else. |
| VmBoot.KernelSlot | myos/arch/riscv/kernel/boot.c:55-74 | All kernel addresses that setup_vm maps lie in the one top-level slot 257. |
| VmBoot.BootInv | myos/arch/riscv/kernel/boot.c:55-74 | At boot, with the kernel's directory filled in that slot alone and no frame handed out, the memory invariant holds. |
| VmBoot.NewRootKeeps | myos/kernel/sched/sched.c:452-455 | A new page directory is a fresh frame with the kernel's entries: it belongs to nobody else, maps nothing of its own yet, the tables stay trees, and every other directory and page is as before. |
| VmExec.MapApart | myos/kernel/mm/mm.c:84-156 | alloc_page_helper changes memory for its own directory alone: every entry of every other one, and the page it leads to, is as before. |
| VmExec.WithStacksIs | myos/kernel/sched/sched.c:452-458 | After both stacks are mapped they are there and zeroed, and the new directory maps nothing else of its own. |
| VmExec.ExecKeeps | myos/kernel/sched/sched.c:436-494 | do_exec leaves a process whose list of pages is in order and whose directory is nobody else's, and every other process as it was. |
| VmFlat.FaultSees | myos/kernel/irq/irq.c:260-327 | A page fault changes nothing a process sees, swapped or never swapped, but for a zeroed page where there was none. |
| VmFlat.ApplySees | myos/kernel/irq/irq.c:85-327 | Each fault or store of a process is a step of flat memory, whatever goes to disk or comes back on the way. |
| VmFlat.ApplyPrivate | myos/kernel/irq/irq.c:85-327 | A step of one process changes memory for its own directory alone, and the disk only from the next free slot on. |
| VmFlat.UndisturbedKeeps | myos/kernel/irq/irq.c:85-327 | What one process does leaves the list of another in order, with every page as it was. |
| VmSystem.ListGarbage | myos/kernel/sched/sched.c:371-376 | The pages on the list of a process are different pages of memory that nobody else reaches. |
| VmSystem.ExitKeeps | myos/kernel/sched/sched.c:371-376 | Giving back every page on the list of a process that ends keeps all others in order and puts exactly those frames on the free list, in the order of the list. |
| VmSystem.ExecSees | myos/kernel/sched/sched.c:436-494 | A process just made sees its program's pages, the two stacks with the contents they were given, and no other page. |
| VmSystem.ApplyKeeps | myos/kernel/sched/sched.c:371-494 | Every event of every process, do_exec and exit included, keeps the whole system in order, and disturbs no other process. |
| VmSystem.NoFrameTwice | myos/kernel/mm/mm.c:25-53 | In every state reached from boot the frame handed out next is in use nowhere and waits on no free list, and no page of memory is mapped by two addresses of any processes, is a directory, or is free. |
| VmSystem.PagingReachable | myos/kernel/irq/irq.c:85-327 | In every state reached from boot, for every process: the counter is two more than its resident pages, a page is mapped exactly when resident, and the swapped pages of all processes own disjoint runs of eight sectors below the next free one. |
| VmSystem.MemoryIsPrivate | myos/kernel/irq/irq.c:85-327 | Over any run of any number of processes, paging to one disk, each process sees flat memory that its own faults and stores alone change. |
| VmSystem.ProcessSees | myos/kernel/sched/sched.c:436-494 | From boot: a process made by do_exec after any run sees its program, its two stacks with their first contents, and zeros elsewhere once touched, changed by its own stores alone, until it ends. |
| VmSystem.FirstProcess | myos/arch/riscv/kernel/boot.c:55-74 | The starting state exists, and a first process can be made in it. |
| VmShared.ExecShares | myos/kernel/sched/sched.c:452-458 | A new process has the shared directory entries of the kernel, and no other directory gets others. |
| VmShared.ApplyShares | myos/kernel/sched/sched.c:371-494 | Every event of every process leaves all directories with the same shared entries. |
| VmShared.KernelSeen | myos/kernel/sched/sched.c:452-455 | In every state reached from boot every process translates every kernel address as the kernel directory does, in software and in hardware, by the entry that boot left. |
| VmRights.MapPageGrants | myos/kernel/mm/mm.c:84-156 | alloc_page_helper bit by bit: a new leaf is readable, writable, executable, neither accessed nor dirty, and open to user code if and only if the mode is 1; a new table is valid and no leaf; no other entry changes. |
| VmRights.MappedFault | myos/kernel/irq/irq.c:260-327 | A fault on a mapped page adds just the attributes of the fault to its entry, keeps its page and every byte, and changes nothing if they were set. |
| VmRights.FaultMarks | myos/kernel/irq/irq.c:260-327 | The same for the two events: accessed after a load fault, accessed and dirty after a store fault. |
| VmRights.SecondFaultNothing | myos/kernel/irq/irq.c:85-327 | Once a fault on a mapped page has been handled, the same fault on it changes nothing whenever the page is mapped again, whatever happens in between. |
| VmRights.ExecRights | myos/kernel/sched/sched.c:436-494 | do_exec gives every page of the program and the user stack to user code, and the kernel stack not. |
| VmRights.RunRights | myos/kernel/irq/irq.c:85-327 | Every run of every process keeps these rights, through swapping out and in. |
| VmRights.HwWalkIs | myos/kernel/mm/mm.c:165-187 | With such tables the hardware walk ends at the leaf entry that check_ad finds, exactly when that is valid. |
| VmRights.UserMayIff | myos/kernel/irq/irq.c:85-327 | In every state reached from boot user code gets through to an address of its process if and only if the page is mapped, is not the kernel stack, and has been accessed, and for a store is dirty. |
| VmRights.ProcessGetsOn | myos/kernel/irq/irq.c:260-327 | In every state reached from boot two faults of one kind in a row let the process get on at that address. |
| Vm.Memory.NewDirectory | myos/kernel/sched/sched.c:452-455 | The code is the specified new directory. |
| VmPager.Process.constructor | myos/kernel/sched/sched.c:436-494 | The memory side of do_exec as it is coded, from the new directory to the two listed stacks with what is put on them, is the specified one and leaves the process in order. |
| VmPager.Process.ReleasePages | myos/kernel/sched/sched.c:371-376 | The loop that empties the list gives back exactly its pages and keeps the memory invariant. |
| VmElf.RefusedIff | myos/include/os/elf.h:125-157 | load_elf refuses exactly the files under four bytes and those that begin with 0, 1, 2, 3. |
| VmElf.LoadJobKeeps | myos/include/os/elf.h:169-193 | Loading one page maps and fills it and keeps every other page. |
| VmElf.LoadJobsKeeps | myos/include/os/elf.h:163-198 | Every page loaded stays mapped and filled whatever is loaded after it. |
| VmElf.ImageIsExact | myos/include/os/elf.h:140-201 | Reading p_vaddr+o through the resulting page table gives the file's byte for o < p_filesz and 0 from there to the end of the last page. |
| VmElf.FillPage | myos/include/os/elf.h:169-193 | Copy and zero fill leave exactly the page image. |
| VmElf.LoadSegment | myos/include/os/elf.h:166-195 | The inner loop loads all pages of a segment. |
| VmElf.LoadElf | myos/include/os/elf.h:140-201 | The code is the specified loading and returns the entry point, or 0 and no change for a refused file. |
| VmElfFile.NumberOfBytes | myos/include/os/elf.h:58-118 | Reading the little-endian bytes of a number that fits gives it back. |
| VmElfFile.ReadsHeader | myos/include/os/elf.h:58-74 | From a file header laid out field by field the loader reads e_entry, e_phoff, e_phentsize and e_phnum. |
| VmElfFile.ReadsProgram | myos/include/os/elf.h:108-118 | From a program header laid out so it reads p_type, p_offset, p_vaddr, p_filesz and p_memsz. |
| VmElfFile.ElfFileIs | myos/include/os/elf.h:58-118 | For every header and list of program headers there is such a file. |
| VmElfFile.OnlyThere | myos/include/os/elf.h:163-198 | A page in which no byte of a loadable segment stands is mapped, or not, as before, and holds what it held. |
| VmElfFile.LoadFile | myos/include/os/elf.h:140-201 | load_elf of a file laid out with given records returns the e_entry of the record and puts byte o of each loadable segment at its p_vaddr + o: the byte of the file at p_offset + o, or 0 from p_filesz to p_memsz; no other page of the directory changes. |
| Printer.NumberOfText | myos/tiny_libc/atol.c:9-26 | Reading the printed digits from the front, behind any number of zeros, gives the value back. |
| Printer.DecimalRoundTrip | myos/tiny_libc/atol.c:1-27 | atol of what mini_itoa prints in decimal, with any padding and either signedness, is the value if and only if that is not negative. |
| Printer.HexRoundTrip | myos/tiny_libc/atol.c:1-27 | atol of "0x" and what mini_itoa prints in hexadecimal is the value, in either letter case. |
| Printer.PrintedAsRead | myos/tiny_libc/printf.c:49-91 | Decimal digits without needless zeros, read by atol, are printed by mini_itoa as they were. |
| Printer.TextMeans | myos/tiny_libc/printf.c:65-75 | In every radix the text of a value that is not negative means that value, in digits of the letter case asked for, and is as short as the padding lets it be. |
| Printer.TextBelowZero | myos/tiny_libc/printf.c:61-80 | A negative value is a sign before the text of its opposite; the least long, and any negative value printed unsigned, is one character, of code 48 less its last digit, behind zeros. |
| Printer.ForeignGivesZero | myos/tiny_libc/atol.c:9-26 | A character that is no digit, behind 0x no hexadecimal digit, makes atol return 0. |
| Printer.ReverseInPlace | myos/tiny_libc/printf.c:83-88 | The in-place loop reverses the first len characters and touches no other. |
| Printer.PutDigits | myos/tiny_libc/printf.c:65-72 | The digit loop writes the digits, lowest first. |
| Printer.MiniItoa | myos/tiny_libc/printf.c:49-91 | The buffer holds the specified text and a terminator and is otherwise unchanged; a radix over 16 returns 0 and changes nothing. |
| Printer.AtolOf | myos/tiny_libc/atol.c:1-27 | The loop is the specified value, 0 at the first character that is no digit. |

## Left out

- do_rmdir: its loop looks names up in the parent directory while it overwrites the buffer it goes through.
- do_ls, do_cat, do_statfs and do_fclose: reading and printing only. find_dir's global depth, which nothing reads, and its shifting of the caller's path.
- Disk full, inode table full and full descriptor and process tables: the code then stores a 0 pointer or has no result; they are preconditions here.
- Holes: reading a byte that was never allocated, and removing a file whose size reaches a table it does not have.
- Bytes from 40960 + 2 * 2^22 on, and the inode's fields for higher levels and times, which the write and read paths do not use.
- FileSystem.FileSys.ReadHead: the bytes beyond the requested ones that an unaligned short read behind the direct region copies are only bounded to the end of their sector.
- FsCalls.FindPath: a path that looks a name up in a regular file, or has a name or a rest that does not fit the two buffers, is excluded: the code then takes the bytes of the file, or of other variables, for names.
- FsCalls.DoFopen: paths as for FsCalls.FindPath; one that is not found has an undefined result in the code, here it is an outcome of its own.
- FsCalls.DoLn: source paths as for FsCalls.FindPath.
- FsCalls.DoCd: likewise.
- FsCalls.AllocInode: numbers from 512 on have no sector for their inode; a new name requires a free number below that.
- BdRingFromHwTx, BdRingClone, BdRingCheck, BdRingPtrReset, and the transmit and receive registers.
- Byte order and caching of descriptors: a descriptor is its two words.
- Mutual exclusion across do_kill: it gives up every recorded lock, also those only waited for. do_kill of a process running on the other core, and of one thread of a process.
- Runs of a barrier with a killed waiter, and of a mailbox that is closed.
- Semaphore handle hashing and the search by name in do_mbox_open: a free index is given.
- do_spawn, threads, find_next, do_unblock, priorities and the shell's own exit: they use PCB fields that are never initialised or are not called.
- Kernel.Kernel.DoExit: the loop that gives the pages back is VmPager.Process.ReleasePages, not part of this method.
- Kernel.Kernel.DoKill: likewise.
- Kernel.Kernel.DoExec: the directory, the stacks and the program's pages are the constructor of VmPager.Process, not part of this method; file matching is not modelled.
- VmSystem.ExecSees: the arguments and first registers that do_exec puts on the two stacks are any two pages of bytes here; how they are laid out is not modelled.
- VmIo.IoMapMaps: a range that ends at the last byte of the address space, so that the next base would be 0.
- ioremap during runs of processes: main does not call it, and the runs of VmSystem have no event for it.
- kmalloc, share_pgtable and shared memory pages; the packing of an entry into one 64-bit word.
- VmElf.LoadElf: requires a whole file with page-aligned segments that share no page; for others the code writes through address 0 or past the file.
- Printer: mini_vsnprintf's format loop, and radix 0 or 1, for which the digit loop divides by zero or does not end.
- SBI calls, registers, fences, context switch and screen output.
