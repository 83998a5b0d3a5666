# Proofs about the xv6 kernel in c/os-master

This project models the parts of the xv6 kernel and user library in `c/os-master` that carry
whole-run guarantees, and proves those guarantees in Dafny 4.11:

- the redo log and the buffer cache under it: a crash at any disk write, also during recovery, leaves
  whole transactions; log and cache together behave like a flat array of blocks, for the machine and for the
  code that runs on it;
- file writes and truncations over that log, end to end, with any number of processes in operations: after a
  crash at any disk write and a completed recovery the disk is a sound file system, with every block accounted
  for, whose files are those after a prefix of the calls. The prefix is exactly that of the header writes; it
  includes every call made by the last moment when the log was idle with nobody in an operation;
- the inode layer: every block has one owner and the bitmap says so; a file is a sequence of bytes
  that a write splices; one write chunk fits its log reservation; a directory is a finite map;
- the Kernighan and Ritchie allocator (section 8.7 of The C Programming Language, 2nd edition) on its
  memory of headers;
- pipes, sleep and wakeup, step by step under two locks, with counters that wrap at 2^32;
- fork, exit, wait and kill over the process table, with the scans of exit and wait taken one slot at
  a time while fork writes to the table without the lock;
- second-chance page replacement, the shell's parser and the matcher of grep.

Where the code updates fields in place or loops, the model does: classes for the cache, the log, the
file system, the heap, a pipe, the process table and the parser, arrays where the code has arrays, and
loops with invariants. Each such method is tied to a function or relation on values, and the theorems are
about those. Interleavings and crashes are runs of a state machine whose steps are those functions.

| file | about |
|---|---|
| `Disk.dfy`, `Options.dfy` | blocks, bytes and little-endian words; optional values |
| `LogMachine.dfy`, `LogRuns.dfy`, `LogAdmission.dfy` | the log as a state machine: one step, whole runs, and whom begin_op lets in |
| `Bio.dfy`, `Log.dfy` | buffer cache and log as code over that machine |
| `FlatDisk.dfy` | programs on cache and log: any sequence of reads, writes and operations |
| `FsLayout.dfy`, `FsSpec.dfy` | bytes of bitmap and inodes; block ownership and file contents |
| `FileSystem.dfy`, `FileIO.dfy`, `FileWrite.dfy` | balloc to itrunc; readi and writei with the log budget; fileread and filewrite |
| `LogGroups.dfy` | group commit seen from the operations: which of them a crash keeps |
| `FsRuns.dfy`, `CrashSafe.dfy` | runs of writes and truncations, and the disk by itself; their crash safety down to single disk writes |
| `AloneRuns.dfy` | the same for one process alone, whose calls each end in a commit |
| `Scattered.dfy` | disks on which an operation uses up or exceeds its reservation |
| `Mkfs.dfy` | the image that such runs start from |
| `Directory.dfy`, `DirOps.dfy`, `Path.dfy` | directory entries as a map; dirlookup and dirlink; skipelem |
| `FreeList.dfy`, `Umalloc.dfy` | the list of free blocks; malloc and free |
| `Pipe.dfy`, `PipeRuns.dfy`, `PipeCalls.dfy` | the ring; processes that read, write and close; what each call comes to |
| `Proc.dfy`, `ProcRuns.dfy`, `ProcCalls.dfy` | the table; processes that fork, exit and wait; sleep, wakeup and kill |
| `SecondChance.dfy` | removeSCFIFO |
| `ShellSyntax.dfy`, `ShellGrammar.dfy`, `Shell.dfy` | the shell's parser on tokens and its printer; the grammar it decides; the parser with its cursor |
| `Grep.dfy` | the regular expression matcher |

`dafny verify dfyconfig.toml` checks everything.

Places where the code does not do what a reader might expect are stated as exact conditions:

- log_write refuses when `log.lh.n` has reached the smaller of LOGSIZE and `log.size - 1`. So the reservation
  made by begin_op covers every write within it exactly when the log region has more than LOGSIZE blocks (more
  than MAXOPBLOCKS for a single process); mkfs makes it LOGSIZE (`LogRuns.GuardNeedsBiggerLog`).
- The refusal comes before absorption. With two processes or more, a write of a block that is already in the
  log can panic at every log size, when all operations in progress have used up their reservations; so a bigger
  log does not rule out the panic (`LogRuns.AbsorbedWritesPanic`, `LogRuns.PanicsWhenFull`).
- begin_op counts each operation in progress as though it had logged nothing yet, while the entries count as well.
  So it can put a process to sleep that would fit, exactly under the condition in `LogAdmission.RefusedThoughSafe`;
  knowing only the header and the number of operations it refuses no more than it must
  (`LogAdmission.RefusesExactly`).
- kill does not look at the state of the slot it finds, and unused slots have pid 0. A slot marked that way stays
  marked, and the next process in it is born killed (`ProcCalls.BornKilled`, `ProcCalls.KilledExactly`).
- pipewrite returns at once when its process was killed and the pipe is full, without waking readers of
  the bytes it has put in. A run loses a wakeup somewhere if and only if it contains such an exit while a reader
  is asleep or about to be (`PipeRuns.LostExactlyThere`, `PipeRuns.DirtyExitStrands`).
- A file call that has returned can be lost by a crash: end_op commits only when nobody else is in an operation
  (`LogGroups.ReturnedIsLost`). Nothing that was logged is lost if and only if the header in memory is empty or
  being installed (`LogGroups.NothingToLose`), as it is whenever the log is idle with nobody in an operation
  (`LogGroups.SettledNothingToLose`); so a process that is alone never loses a returned call
  (`AloneRuns.SurvivesAlone`).
- itrunc logs one block more than there are bitmap blocks with bits of the file, so it keeps to its reservation
  if and only if these are fewer than MAXOPBLOCKS (`FsRuns.TruncBudget`); on a large disk it can exceed it
  (`Scattered.TruncationExceeds`).
- removeSCFIFO reads `pages[-1]` if and only if the queue is not full, all its pages have the accessed bit set and
  no two share an entry (`SecondChance.RemoveScfifo`, `SecondChance.AllReferencedMeans`).
- malloc computes units in 32-bit arithmetic; the block is big enough and sbrk is asked for what is
  recorded exactly for requests up to 0x7FFFFFF0 bytes (`Umalloc.RequestExact`).
- dirlink keeps 16 bits of the inode number; a number whose low 16 bits are 0 leaves the name unbound
  (`DirOps.Dirlink`).

## Model

| member | source | states |
|---|---|---|
| LogMachine.HeadRoundTrip | c/os-master/log.c:85-113 | reading a header block that write_head wrote gives back the count and the entries, whatever the block held before |
| LogMachine.ReplayIsLastWrite | c/os-master/log.c:8-15 | replaying a transaction leaves in each block the last value it logged for it, and all other blocks alone |
| LogMachine.InstallKeepsDisk | c/os-master/log.c:69-83 | copying one logged block home, in commit or recovery, keeps the platter recoverable: header unchanged, that home block current, all others current or still in the log |
| LogMachine.PutHeaderKeeps | c/os-master/log.c:192-202 | the header write alone turns the open transaction into a committed one; log copies, pinned buffers and home blocks agree across it |
| LogMachine.StepKeeps | c/os-master/log.c:69-233 | every step of begin_op, log_write, end_op, commit, a crash and recovery keeps the invariant of disk, header and pinned buffers, however many blocks the operations log |
| LogMachine.StepKeepsSpace | c/os-master/log.c:125-233 | every step of operations within MAXOPBLOCKS blocks keeps entries plus unused reservations within LOGSIZE |
| LogRuns.HistoryIsTheEvents | c/os-master/log.c:192-233 | the committed transactions are exactly the groups of log_writes whose header write is among the events |
| LogRuns.CrashAtomicity | c/os-master/log.c:69-122 | for every run cut anywhere, whatever its operations log, and every recovery, itself cut any number of times, a completed recovery leaves each home block as the committed prefix of whole transactions has it |
| LogRuns.RecoveryCompletes | c/os-master/log.c:115-122 | from every crashed state recovery can run to its end |
| LogRuns.FlatMap | c/os-master/log.c:176-233 | in every run, while the system is up, reading a block gives the last contents logged for it, and before the header write the block on disk is still the committed one |
| LogRuns.OperationIsWhole | c/os-master/log.c:125-174 | in every run no header is written while an operation is in progress, so all its writes belong to one transaction |
| LogRuns.Reservation | c/os-master/log.c:125-174 | in every interleaving entries plus unused reservations fit LOGSIZE, entries are distinct, commit runs with nobody in an operation and no log_write, and end_op never panics |
| LogRuns.SleepersHaveReason | c/os-master/log.c:125-174 | in every interleaving, a process that begin_op has put to sleep and that no end_op has woken since would be put to sleep again, like every other |
| LogRuns.EndExactly | c/os-master/log.c:145-174 | in every reachable state end_op by a process in an operation succeeds, starts a commit exactly when nobody else is in one, and writes nothing for an empty log |
| LogAdmission.BeginExactly | c/os-master/log.c:125-142 | while the system is up begin_op lets a process in exactly when no commit is in progress and the entries, plus MAXOPBLOCKS for each operation in progress and for its own, fit LOGSIZE |
| LogAdmission.OutstandingIsCount | c/os-master/log.c:41-43 | the counter of operations in progress is the number of processes in one |
| LogAdmission.OverflowExactly | c/os-master/log.c:132-134 | in an idle log of more than LOGSIZE blocks, some continuation within budget ends in the panic of a write within its reservation if and only if entries plus unused reservations exceed LOGSIZE |
| LogAdmission.RefusesExactly | c/os-master/log.c:128-134 | begin_op refuses exactly during a commit, and when in some state with the same header and the same processes in operations, all reservations intact, letting one more in would make such a continuation possible |
| LogAdmission.RefusedThoughSafe | c/os-master/log.c:132-134 | it refuses although no continuation overflows if and only if the others have used enough of their reservations for one more to fit; if they have used nothing it refuses exactly what can overflow |
| LogAdmission.RefusedThoughSafeReached | c/os-master/log.c:132-134 | a run with three or more processes in which that happens |
| LogAdmission.ManyAtOnce | c/os-master/log.c:125-142 | from boot, LOGSIZE/MAXOPBLOCKS operations can be in progress at once |
| LogAdmission.NoMoreAtOnce | c/os-master/log.c:125-142 | and in no run are there more |
| LogRuns.FullLogPanics | c/os-master/log.c:213-233 | with any two or more processes some run within budget fills the log, and then every log_write panics, one of an absorbed block too, and within a reservation exactly when the log has at most LOGSIZE blocks |
| LogRuns.PanicsWhenFull | c/os-master/log.c:213-227 | in every run within budget, a write that an operation may make panics if and only if the header is full, else succeeds, and in a log of more than LOGSIZE blocks only when no reservation is left and the block is in the log |
| LogRuns.GuardNeedsBiggerLog | c/os-master/log.c:213-220 | for any number of processes, writes within a reservation never panic if and only if log.size is greater than LOGSIZE, or greater than MAXOPBLOCKS when there is one process |
| LogRuns.AbsorbedWritesPanic | c/os-master/log.c:213-227 | counting absorbed writes, operations within budget never panic if and only if there is one process and log.size is greater than MAXOPBLOCKS + 1 |
| Log.Log.BeginOp | c/os-master/log.c:125-142 | one turn of begin_op is the machine's Begin step, or sleeps with nothing changed exactly when a commit is in progress or the space guard fails |
| Log.Log.FindEntry | c/os-master/log.c:223-227 | absorption: the entry of the block if it is logged, else the first free one |
| Log.Log.LogWrite | c/os-master/log.c:213-233 | log_write is the machine's LogWrite step, and panics, changing nothing, exactly when that step does |
| Log.Log.WriteLog | c/os-master/log.c:176-190 | the loop performs one CopyToLog step a turn, for all entries |
| Log.Log.InstallTrans | c/os-master/log.c:69-83 | the loop performs one install step a turn, for all entries, in commit and in recovery |
| Log.Log.EncodeHead | c/os-master/log.c:101-113 | the loop of write_head builds the header block of the in-memory entries |
| Log.Log.DecodeHead | c/os-master/log.c:85-97 | the loop of read_head restores the in-memory entries |
| Log.Log.Commit | c/os-master/log.c:192-202 | commit is the run copy, header, install, erase; a panic in bget cuts it short, which is no worse than a crash |
| Log.Log.RecoverFromLog | c/os-master/log.c:115-122 | recover_from_log is the machine's recovery run from the header found on disk |
| Log.Log.EndOp | c/os-master/log.c:145-174 | end_op is the End step and, for the last operation out, commit and reopening |
| FlatDisk.Kernel.DoAll | c/os-master/log.c:125-233 | any sequence of begin_op, bread, bread-change-log_write-brelse and end_op on the cache and the log: each read gives the block of a flat array that only the writes change, a write takes effect exactly inside an operation of its process, and begin_op succeeds exactly when the distinct blocks written since nobody was last inside, plus the reservations of those inside and its own, fit LOGSIZE |
| FlatDisk.StartUp | c/os-master/log.c:53-66 | a kernel that comes up on the disk of any crashed state and completes recover_from_log shows the blocks of the committed transactions |
| Bio.InsertAtHead | c/os-master/bio.c:46-55 | the pointer writes of binit and brelse put the buffer in front of the doubly linked ring and keep it a ring |
| Bio.Unlink | c/os-master/bio.c:130-134 | the two pointer writes of brelse take one buffer out of the ring |
| Bio.Bcache.constructor | c/os-master/bio.c:38-56 | binit links every buffer once, unused and clean |
| Bio.Bcache.Find | c/os-master/bio.c:68-76 | the first scan of bget finds the block if and only if some buffer holds it |
| Bio.Bcache.FindVictim | c/os-master/bio.c:78-91 | the second scan finds, among clean unreferenced buffers, the one released longest ago, or there is none |
| Bio.Bcache.Bget | c/os-master/bio.c:61-93 | hit: one more reference; miss: that oldest buffer is given to the block; no block of a real device is ever held twice, and pinned buffers are never recycled |
| Bio.Bcache.Bread | c/os-master/bio.c:96-107 | the locked buffer holds the last contents logged for the block, from the pinned buffer or from disk; there is none exactly when the block is not cached and every buffer is referenced or dirty |
| Bio.Bcache.Bwrite | c/os-master/bio.c:109-116 | the contents reach the disk and the block is no longer pinned |
| Bio.Bcache.Brelse | c/os-master/bio.c:120-141 | one reference less; when it was the last the buffer moves to the front, so the list stays ordered by release time |
| FsLayout.WriteBitBits | c/os-master/fs.c:68-69 | setting or clearing one bitmap bit changes that bit of the disk's bitmap and no other |
| FsLayout.WriteInoInos | c/os-master/fs.c:221-237 | writing one disk inode changes that inode and no other in the block |
| FsSpec.StoreEntryKeeps | c/os-master/fs.c:389-396 | filling an empty entry of the indirect block with a fresh block keeps ownership, bitmap and inodes |
| FsSpec.DataWriteBytes | c/os-master/fs.c:482-512 | overwriting a data block changes the bytes of its one owner in that block and no other byte of any file |
| FileSystem.FileSystem.Balloc | c/os-master/fs.c:56-78 | the lowest free block is marked and zeroed, every file's bytes are kept; the panic exactly when all bits are set |
| FileSystem.FileSystem.Bfree | c/os-master/fs.c:81-96 | the bit of a block taken from its owner is set, so "freeing free block" is unreachable, and is cleared |
| FileSystem.FileSystem.Bmap | c/os-master/fs.c:373-401 | the block of a file block number, allocated if there was none; all blocks keep one owner, no file's bytes change, nothing changes if it was mapped, and at most the needed bitmap blocks are logged; the balloc panic exactly when fewer blocks are free than it has to allocate, the indirect block included, and then no block is left |
| FileSystem.FileSystem.Iupdate | c/os-master/fs.c:221-237 | the disk inode becomes the in-memory one and nothing else changes |
| FileSystem.FileSystem.Itrunc | c/os-master/fs.c:408-436 | exactly the inode's blocks become free, the inode is empty on disk and in memory, every other file keeps its contents, and what is logged is the bitmap blocks of those blocks and the inode block |
| FileIO.Readi | c/os-master/fs.c:453-477 | the bytes of the file in the range, cut at its end; nothing is allocated or changed; -1 exactly for an unusable offset or a range that wraps |
| FileIO.WrittenStep | c/os-master/fs.c:498-504 | one turn of writei's loop extends the part of the source that is in place and keeps all other bytes of all files |
| FileIO.ResizeSplice | c/os-master/fs.c:507-510 | with the source in place and the size set, the file is the old one spliced at the offset |
| FileIO.Writei | c/os-master/fs.c:482-512 | -1 and no change exactly for an unusable offset or range; else the source spliced in, other files as before, disk inode equal to the one in memory; a chunk logs at most MAXOPBLOCKS blocks; the balloc panic exactly when fewer blocks are free than the range has empty slots, the indirect block included |
| FileIO.EnoughFree | c/os-master/fs.c:482-512 | a free block for each file block of the range, and one more, is enough for a write to succeed |
| FileIO.InsideNeedsNothing | c/os-master/fs.c:490-493 | a write inside the file needs no free block |
| FileIO.BudgetEnd | c/os-master/file.c:126-135 | at most CHUNK bytes at any alignment log at most MAXOPBLOCKS blocks: data, bitmap, indirect and inode blocks |
| Scattered.WriteReaches | c/os-master/file.c:126-135 | on a tight disk a write of CHUNK bytes succeeds and logs exactly MAXOPBLOCKS blocks: 4 data, 4 bitmap, indirect and inode block |
| Scattered.TightDisk | c/os-master/file.c:126-135 | such disks exist: sound, with just four free blocks, each under a bitmap block of its own |
| FileIO.FirstBlockThere | c/os-master/fs.c:490-493 | a write that starts inside a block finds that block allocated, which is what makes the budget fit |
| FileWrite.WriteThenRead | c/os-master/fs.c:453-512 | reading the range of a successful write gives the bytes written |
| FileWrite.Fits | c/os-master/file.c:135-152 | filewrite gets everything written exactly when offset and length stay within the file limit |
| FileWrite.FitsMost | c/os-master/file.c:126-145 | when not all bytes fit, those that get through are whole chunks, and the next chunk does not fit behind them |
| FileWrite.Filewrite | c/os-master/file.c:117-156 | whole chunks are spliced in at the moving file offset, as many as fit; the result is the length exactly when all fitted, and "short filewrite" cannot happen; it succeeds exactly when enough blocks are free for what its chunks can write |
| FileWrite.Fileread | c/os-master/file.c:96-113 | the bytes from the file offset on, which moves behind them |
| FsRuns.Load | c/os-master/fs.c:288-313 | the inode that ilock reads from its disk block is the current one |
| FsRuns.RestIsSound | c/os-master/fs.c:56-96 | between calls the disk by itself has every file in its inodes and blocks, and the bits set are exactly the metadata blocks and the blocks inodes refer to, each from one place |
| FsRuns.Perform | c/os-master/file.c:139-145 | one call, begin_op to end_op, a write or a truncation: the files change by exactly its effect, the disk inodes are up to date, no block stays marked without an owner, and its log_writes take the old blocks to the new ones, a write within MAXOPBLOCKS blocks; it fails exactly if it is a write for which too few blocks are free |
| FsRuns.TruncBudget | c/os-master/fs.c:408-436 | a truncation logs the bitmap blocks of the file and one inode block, so at most MAXOPBLOCKS blocks if and only if those bitmap blocks are fewer than MAXOPBLOCKS |
| Scattered.TruncationExceeds | c/os-master/fs.c:408-436 | a sound disk with a file in twelve bitmap blocks, whose truncation logs more than MAXOPBLOCKS blocks |
| FsRuns.PerformAll | c/os-master/fs.c:373-512 | over every run of writes and truncations the file system is an array of byte sequences, after each call the disk by itself is sound with every block owned once, and the blocks are those before the call with its log_writes replayed; the run breaks off exactly at the first call for which too few blocks are free |
| FsRuns.ChunksSplice | c/os-master/file.c:135-152 | the chunks of a filewrite are a run of such calls, and together splice in as many bytes as fit |
| LogGroups.CommitsGroups | c/os-master/log.c:145-202 | in every run of any number of processes whose operations log one after the other, the header writes commit whole operations only, the first so many, and the others are still open |
| LogGroups.NothingToLose | c/os-master/log.c:145-202 | in every run, a crash loses nothing logged if and only if the header in memory is empty or being installed |
| LogGroups.SettledNothingToLose | c/os-master/log.c:145-174 | when the log is idle with nobody in an operation, everything logged is committed |
| LogGroups.ReturnedIsLost | c/os-master/log.c:154-162 | with two processes, a run after which a call has returned and the log is idle, yet a crash brings the old block back |
| CrashSafe.KeptCalls | c/os-master/log.c:192-202 | the calls a crash keeps are those whose operations the header writes made durable, among them all made when the log last settled |
| AloneRuns.OpLeads | c/os-master/log.c:125-233 | with one process, the log takes the events of every operation that leaves room in it to their end without a panic and then has its writes as the last committed transaction |
| AloneRuns.SurvivesAlone | c/os-master/log.c:145-202 | with one process, a crash after any disk write of a run of calls keeps every call that had returned |
| CrashSafe.AgreeAtRest | c/os-master/fs.h:12-15 | a disk that agrees behind the log region is the same file system with the same files |
| CrashSafe.WritesSurviveCrashes | c/os-master/log.c:69-202 | for any number of processes and every run in which the calls' writes come one call after the other, cut by a crash anywhere, a panic included, and every recovery, itself cut any number of times: once recovery completes, the disk by itself is sound, every set bit accounted for, and its files are those after exactly the calls that the header writes made durable, a prefix that includes all made when the log last settled |
| Mkfs.MarkUsed | c/os-master/mkfs.c:237-251 | the loop of mkfs's balloc sets exactly the first bits of the bitmap block |
| Mkfs.FormattedAtRest | c/os-master/mkfs.c:107-114 | an image of zero blocks, but for super block and such a bitmap, is a sound file system in which all files are empty: the state all runs start from |
| Mkfs.Format | c/os-master/mkfs.c:93-114 | mkfs without files writes such an image with an empty log, and stops exactly when the metadata does not fit in one bitmap block |
| Mkfs.FormatAndWrite | c/os-master/mkfs.c:93-114 | every run of writes and truncations on that image meets the conditions of WritesSurviveCrashes |
| Directory.SameName | c/os-master/fs.c:517-521 | namecmp tells names apart exactly by their first DIRSIZ bytes |
| Directory.DirentName | c/os-master/fs.c:572-573 | the entry dirlink builds carries the truncated name |
| Directory.LinkMap | c/os-master/fs.c:552-578 | writing an entry with a new name into a free slot binds that name in the map and no other |
| Directory.ClearKeeps | c/os-master/sysfile.c:218-220 | zeroing a live entry unbinds its name and no other, and names stay distinct |
| DirOps.Dirlookup | c/os-master/fs.c:525-549 | the first live entry with that truncated name, or none; the directory is only read and the read panic is unreachable |
| DirOps.LookupInMap | c/os-master/fs.c:525-549 | dirlookup agrees with the finite map of the directory |
| DirOps.Dirlink | c/os-master/fs.c:552-579 | -1 and no change exactly when the name is bound; else the entry goes to the first empty slot, or behind the last one if there is none, and the directory is the map with the name bound to the stored inode number, names distinct, all other files untouched; it fails exactly if it has to grow and cannot |
| DirOps.Unbind | c/os-master/sysfile.c:206-220 | the map without the name, all other files untouched; it cannot fail |
| DirOps.PerformAll | c/os-master/fs.c:525-579 | after any sequence of links and unlinks names are distinct and the directory is the map those calls describe |
| Path.SkipElem | c/os-master/fs.c:596-619 | nothing exactly when no component is left; else the first component, truncated, and a rest without leading slash, empty exactly after the last component |
| Path.AllElements | c/os-master/fs.c:625-656 | repeated skipelem yields exactly the non-empty components, each truncated to DIRSIZ |
| FreeList.InsertCanonical | c/os-master/umalloc.c:24-44 | putting a freed block into the list, merged with its neighbours, keeps it ordered with no two blocks touching |
| FreeList.InsertCovers | c/os-master/umalloc.c:33-42 | the units on the list are the old ones and those of the freed block |
| FreeList.FreesCommute | c/os-master/umalloc.c:24-44 | freeing two blocks in either order gives the same list |
| FreeList.TakeTail | c/os-master/umalloc.c:76-83 | the tail of the block is handed out, the rest stays in its place, and a block that is used up leaves the list |
| Umalloc.StopsBelow | c/os-master/umalloc.c:30-32 | the circular scan of free stops exactly at the last block below the freed one |
| Umalloc.Heap.FindBelow | c/os-master/umalloc.c:30-32 | the scan ends, wherever freep stands, at that block |
| Umalloc.Heap.Free | c/os-master/umalloc.c:24-44 | the list stays circular, ordered and coalesced; free plus live units equal all units from sbrk; no other live block's memory is written; freep stands at the block below the one freed |
| Umalloc.Heap.Morecore | c/os-master/umalloc.c:46-61 | 0 and no change when sbrk fails; else the region joins the list, also when it merges into the block freep names |
| Umalloc.Heap.Malloc | c/os-master/umalloc.c:63-90 | morecore is called once if no free block is big enough and otherwise not; 0 exactly when that call fails; else the first fit after freep becomes a live block, all others untouched; freep then stands at the block before it |
| Umalloc.Heap.Use | c/os-master/umalloc.c:8-20 | a program that writes inside its own blocks cannot break the list |
| Umalloc.RequestExact | c/os-master/umalloc.c:46-69 | the 32-bit unit count holds the request and sbrk is asked for what is recorded if and only if the request is at most 0x7FFFFFF0 bytes |
| PipeRing.Occupancy | c/os-master/pipe.c:84-109 | however often the counters wrapped, they tell empty and full apart and their difference is the number of bytes waiting |
| PipeRing.PutHolds | c/os-master/pipe.c:92-93 | a byte put in where there is room lands behind all others and overwrites none |
| PipeRing.TakeHolds | c/os-master/pipe.c:113-116 | the byte taken out is the oldest |
| PipeRing.Pipe.CopyIn | c/os-master/pipe.c:83-94 | the loop appends the bytes in order until all are in or the pipe is full |
| PipeRing.Pipe.CopyOut | c/os-master/pipe.c:112-117 | the loop returns the oldest bytes in order, as many as asked for or as there are |
| PipeRuns.NextKeeps | c/os-master/pipe.c:59-121 | every step of pipewrite, piperead, pipeclose, sleep, wakeup and kill keeps locks, ends, byte order and the debts to sleepers |
| PipeRuns.FirstInFirstOut | c/os-master/pipe.c:78-121 | in every interleaving the bytes read are a prefix of the bytes written, at most 512 wait, and each reader got a contiguous piece |
| PipeRuns.LosesExactlyThere | c/os-master/pipe.c:85-89 | a step from a state with no wakeup lost loses one if and only if it is the killed exit with bytes unannounced while a reader is asleep or about to be |
| PipeRuns.LostExactlyThere | c/os-master/pipe.c:59-121 | a run has a state with a lost wakeup if and only if it contains such an exit |
| PipeRuns.NoLostWakeup | c/os-master/proc.c:499-556 | in runs without such an exit, with the pipe lock free, a process asleep on nread means empty and writable, one asleep on nwrite means full and readable, and never both |
| PipeRuns.FreedUnused | c/os-master/pipe.c:59-75 | the pipe's page is freed only when nobody is in a call on it or can start one |
| PipeRuns.DirtyExitStrands | c/os-master/pipe.c:85-89 | after such an exit some steps leave every reader that was asleep or about to be asleep on a full pipe that nobody holds |
| PipeRuns.KilledExitLosesWakeup | c/os-master/pipe.c:85-89 | from any fresh pipe with two processes some run ends with a reader asleep on a full pipe |
| PipeCalls.NextCalls | c/os-master/pipe.c:59-121 | every step keeps what a call knows when it stops copying, sleeps or returns, and that the page goes with the last close |
| PipeCalls.CallsSoFar | c/os-master/pipe.c:78-121 | in every interleaving and at every moment, the steps of a pipewrite have put in exactly the first bytes of its buffer, and those of a piperead have taken exactly what it holds |
| PipeCalls.OnlyByCalls | c/os-master/pipe.c:78-121 | no other step changes the bytes in the pipe |
| PipeCalls.ReaderLeaves | c/os-master/pipe.c:101-121 | in every interleaving piperead returns the number of bytes it took, which is `n` unless the ring was empty then; 0 only for `n` = 0 or with the write end closed; and -1 only killed, with nothing to read and the write end open |
| PipeCalls.WriterLeaves | c/os-master/pipe.c:78-98 | pipewrite returns the length exactly when it has put in all bytes, else -1 with the ring full and the process killed or the read end closed |
| PipeCalls.CopyInRuns | c/os-master/pipe.c:83-94 | as many steps of a writer as there is room for put its next bytes in, in order |
| PipeCalls.CopyOutRuns | c/os-master/pipe.c:112-117 | as many steps of a reader as it wants and there are bytes take the oldest bytes, in order |
| PipeCalls.WriteHeld | c/os-master/pipe.c:83-94 | CopyIn's loop is the run of those steps up to the one that wakes or leaves |
| PipeCalls.ReadHeld | c/os-master/pipe.c:112-118 | CopyOut's loop is the run of those steps up to the one that wakes the writers |
| PipeCalls.KilledDoesNotSleep | c/os-master/pipe.c:85-110 | a killed process past the acquire does not go to sleep in its call, whatever the others do |
| PipeCalls.SleepsForAReason | c/os-master/pipe.c:84-110 | a reader sleeps only with nothing read, an empty ring and an open write end, a writer only with bytes left, a full ring and an open read end |
| PipeCalls.WakesExactly | c/os-master/proc.c:540-556 | wakeup by writers and by the close of the write end makes exactly the sleeping readers runnable, that by readers and the close of the read end the sleeping writers |
| PipeCalls.StepsExactly | c/os-master/pipe.c:59-121 | a process in a call can go on exactly when it is not asleep and the lock it needs is free |
| PipeCalls.SomebodyMoves | c/os-master/pipe.c:59-121 | no deadlock: in every interleaving, while anybody is in a call and not asleep, somebody can take a step |
| PipeCalls.FreedExactly | c/os-master/pipe.c:70-75 | with the lock free the pipe's page is freed if and only if both ends are closed |
| ProcTable.Table.Wakeup1 | c/os-master/proc.c:538-547 | exactly the processes asleep on the channel become runnable |
| ProcTable.Table.Kill | c/os-master/proc.c:561-579 | the first slot with the pid is marked, made runnable if it slept, and otherwise as it was, and no other slot changes; -1 and no change exactly when there is none |
| ProcTable.Table.AllocSlot | c/os-master/proc.c:83-95 | the first unused slot becomes an embryo with a new pid |
| ProcTable.Table.ExitLocked | c/os-master/proc.c:320-336 | slot by slot: the process is a zombie, each child has init as its parent, those asleep in wait are awake exactly if they are the parent, or init and some child was a zombie, and nothing else changes |
| ProcTable.Table.WaitScan | c/os-master/proc.c:357-378 | the first zombie child is reaped, its slot unused with pid 0, no parent and no mark of kill; or there is none and havekids says whether there is a child |
| ProcRuns.ExitRuns | c/os-master/proc.c:320-341 | the steps of an undisturbed exit end with the lock free and every slot as ExitLocked's contract has it |
| ProcRuns.DoKeeps | c/os-master/proc.c:212-579 | every step of fork, exit, wait, sleep, wakeup, kill and the scheduler, with or without the lock, keeps the invariant of the table |
| ProcRuns.LiveParents | c/os-master/proc.c:293-344 | in every reachable state each process but init, zombies included, has a parent that is alive and no zombie |
| ProcRuns.NoLostExit | c/os-master/proc.c:318-388 | in every reachable state no process asleep in wait has a zombie child |
| ProcRuns.RootedAtInit | c/os-master/proc.c:212-344 | following parents from any process leads to init |
| ProcRuns.ScanIsExact | c/os-master/proc.c:353-385 | when wait decides to return -1 or sleep it knows exactly whether it has children, and none is a zombie |
| ProcRuns.ZombieIsReapable | c/os-master/proc.c:348-388 | a parent on a CPU that calls wait reaps a zombie child without sleeping and changes nothing else |
| ProcRuns.PidsDistinct | c/os-master/proc.c:90-92 | a pid names at most one slot |
| ProcCalls.EnabledExactly | c/os-master/proc.c:212-477 | in every reachable state a process can go on exactly when it is on a CPU and has, or can get, the lock it needs, and be scheduled exactly when it is runnable and the lock is free |
| ProcCalls.ForkRuns | c/os-master/proc.c:212-290 | an undisturbed fork turns the first unused slot into a runnable child with the next pid, and changes no other slot |
| ProcCalls.NapAndWakeup | c/os-master/proc.c:499-556 | sleep puts the caller to sleep on its channel; wakeup makes exactly those asleep there runnable |
| ProcCalls.SleepsUntilWoken | c/os-master/proc.c:499-556 | in every interleaving who sleeps on a channel stays asleep on it until a wakeup on that channel or kill |
| ProcCalls.KillFinds | c/os-master/proc.c:561-579 | kill strikes a slot exactly if one has the pid |
| ProcCalls.KillEffect | c/os-master/proc.c:561-579 | after kill the process is marked and not asleep, it is on a CPU or can be scheduled, and nothing else has changed |
| ProcCalls.KilledExactly | c/os-master/proc.c:348-388 | in every run a slot is marked killed exactly if kill has struck it since it was last reaped |
| ProcCalls.KilledIsAwake | c/os-master/proc.c:380-388 | in every reachable state nobody who is killed is asleep in wait |
| ProcCalls.KilledWaitReturns | c/os-master/proc.c:380-388 | a process killed while it sleeps in wait, once scheduled, comes to the end of its scan and returns |
| ProcCalls.BornKilled | c/os-master/proc.c:561-579 | kill(0) marks an unused slot, and the process that fork puts there is born killed: such a run from boot |
| SecondChance.PassedOver | c/os-master/proc.c:641-654 | after the pass has gone over referenced pages the textbook loop is at the rotated queue with the same bits |
| SecondChance.FirstIdle | c/os-master/proc.c:665-679 | at the first page not referenced, victim, order and bits are those of the textbook loop |
| SecondChance.AllBusy | c/os-master/proc.c:655-663 | when all were referenced the head is evicted with all bits clear, as the textbook loop does |
| SecondChance.UpdateQueue | c/os-master/proc.c:623-630 | the entries behind the place move up and -1 follows |
| SecondChance.RemoveScfifo | c/os-master/proc.c:632-680 | victim, remaining order and accessed bits equal those of the textbook loop, whether or not pages share a page table entry; the page behind the last one is read exactly when the queue is not full and the pass finds every page referenced |
| SecondChance.AllReferencedMeans | c/os-master/proc.c:641-654 | the pass finds every page referenced if and only if all bits are set and no two pages share an entry |
| ShellSyntax.LexRender | c/os-master/sh.c:280-323 | text printed from legal tokens is read back as the same tokens |
| ShellSyntax.PrintedExec | c/os-master/sh.c:430-461 | a printed command, or block, with its redirections is parsed back at parseexec's level |
| ShellSyntax.PrintedPipe | c/os-master/sh.c:376-387 | the same at parsepipe's level |
| ShellSyntax.PrintedLine | c/os-master/sh.c:359-374 | the same at parseline's level, with '&' and ';' |
| ShellSyntax.RoundTrip | c/os-master/sh.c:342-461 | printing any tree of legal words and at most 9 arguments, with parentheses where precedence needs them, and parsing the text gives the same tree |
| ShellSyntax.ParserImage | c/os-master/sh.c:342-461 | the trees the parser can return are exactly those |
| ShellGrammar.ParsesExactly | c/os-master/sh.c:342-461 | for every sequence of tokens the parser answers a tree if and only if the grammar derives the tokens with that tree: redirections before, between and after the arguments, with the last outermost, `>` and `>>` both writing |
| ShellGrammar.FailsExactly | c/os-master/sh.c:342-461 | for every sequence of tokens it fails with an error if and only if the tokens start with something derivable and then show the cause of that error |
| ShellGrammar.LexesExactly | c/os-master/sh.c:280-323 | a line is cut into these tokens if and only if it is their spellings with blanks around them, at least one wherever two would run together |
| Shell.Parser.PeekAt | c/os-master/sh.c:325-335 | blanks are skipped and the answer is about the next token |
| Shell.Parser.GetToken | c/os-master/sh.c:280-323 | the next token is taken, with the exact place of a word; the cursor moves |
| Shell.Parser.ParseRedirections | c/os-master/sh.c:389-412 | the loop computes the grammar's redirections from the tokens left |
| Shell.Parser.ParseArguments | c/os-master/sh.c:446-457 | the argument loop computes the grammar's arguments, and fails as it fails |
| Shell.Parser.ParseExecCmd | c/os-master/sh.c:430-461 | parseexec computes the grammar's simple command or block |
| Shell.Parser.ParseBlockCmd | c/os-master/sh.c:414-428 | parseblock computes the grammar's block |
| Shell.Parser.ParsePipeCmd | c/os-master/sh.c:376-387 | parsepipe computes the grammar's pipe |
| Shell.Parser.ParseLineCmd | c/os-master/sh.c:359-374 | parseline computes the grammar's line; the four procedures end because the cursor moves |
| Shell.Nulterminate | c/os-master/sh.c:463-508 | a NUL is written where a word ends and nowhere else |
| Shell.TokensAreStrings | c/os-master/sh.c:463-508 | after nulterminate each argument and file name, read as a C string, is exactly its token |
| Shell.ParseCmd | c/os-master/sh.c:342-357 | parsecmd ends on every line; it answers a tree, read through its pointers, that the grammar derives from tokens the line spells, or an error that those tokens show |
| Grep.HereOne | c/os-master/grep.c:93-94 | an ordinary character takes one character of the text and the rest of the pattern goes on |
| Grep.HereMany | c/os-master/grep.c:89-90 | `c*` takes any number of fitting characters and the rest of the pattern goes on |
| Grep.MatchHere | c/os-master/grep.c:85-96 | true exactly when a prefix of the text, all of it before a final '$', is in the pattern's language |
| Grep.MatchStar | c/os-master/grep.c:99-106 | true exactly when some number of fitting characters can be followed by a match of the rest |
| Grep.Match | c/os-master/grep.c:72-82 | true exactly when the text has a substring in the language of the pattern, tied to the start by '^' and to the end by '$' |

## Left out

- Exhaustion: "balloc: out of blocks" has its exact condition throughout; "bget: no buffers" has it in `Bio.Bcache.Bread`, and is only a possible result of the calls above it.
- FileIO.Writei: devices (T_DEV) and the kernel's copy from user memory are not modelled; the source bytes are a parameter.
- Umalloc.Heap.Malloc: requests above 0x7FFFFFF0 bytes are outside its contract, because there sbrk is asked for something else than morecore records; above 0xFFFFFFF8 the 32-bit unit count is wrong too. `Umalloc.RequestExact` gives the exact limit.
- PipeRuns.NoLostWakeup: runs in which a killed writer leaves a full pipe after putting bytes in, while a reader is asleep or about to be, are outside it, because exactly those lose a wakeup (`PipeRuns.LostExactlyThere`).
- ProcRuns.PidsDistinct: pids are unbounded numbers; the wrap of `nextpid` at 2^31 is not modelled.
- Several processes inside the buffer cache at once: the methods of `Log` run with no other process holding a buffer; waiting for a locked buffer is not modelled there, and the interleaving of operations is modelled by the log machine.
- CrashSafe.WritesSurviveCrashes: the log_writes of the calls come one call after the other, while their operations may overlap; calls whose writes interleave are covered block by block by `LogRuns.CrashAtomicity` and `LogRuns.OperationIsWhole`, not at the level of file contents. Directory changes are not calls of their own there: the one write that dirlink or unlink makes is a `Write` of the directory's inode.
- AloneRuns.SurvivesAlone: requires that no call fills the log, because it also shows that the run comes to its end; runs that panic are covered by `CrashSafe.WritesSurviveCrashes`.
- Bio.Bcache.Bread: a block that another process holds locked makes the source wait; that wait is not modelled, so the block is required to be unlocked.
- Log.Log.WriteLog: requires that no process holds a buffer; the source waits for one that is held.
- Log.Log.InstallTrans: requires that no process holds a buffer, as WriteLog does.
- Log.Log.Commit: requires that no process holds a buffer, as WriteLog does.
- Log.Log.EndOp: requires that no process holds a buffer, as WriteLog does.
- Log.Log.DecodeHead: a count above LOGSIZE in the header block is outside its contract, because the source's loop then runs past the end of the header's array; no reachable disk has one (`LogMachine.DiskInv`).
- FileSystem.FileSystem.Iupdate: type, device numbers and link count are not stored; the block layer leaves those words of the disk inode as they are.
- DirOps.Unbind: only the directory entry; the checks for ".", ".." and non-empty directories and the link count are not modelled.
- Mkfs.Format: the root directory and the files that mkfs copies into the image are not written.
- Inode cache (iget, iput, and the locking in ilock), ialloc, link counts and namex beyond taking paths apart.
- Copy-on-write, page reference counts, paging to the swap file, NFUA, LAPA and AQ replacement.
- runcmd, getcmd and main of the shell; the read loop of grep; all other user programs.
- exec, traps, virtual memory, drivers, boot code and assembly.
- string.c: strncmp, strncpy and memmove are sequence functions.
- The C++ programs, the chat client and the other coursework outside `c/os-master`.
