# Jix in Dafny

Jix is a small message-passing kernel for one x86 processor: xv6-style paging and file system, with a
memory manager (MM) and a file system (FS) that are kernel processes serving requests by synchronous
messages. This project models its logic and proves what the parts keep between them, over every input and
every run.

| Part | Modules |
|---|---|
| Synchronous messages and the wait-chain walk | `ProcTable`, `WaitGraph`, `Ipc`, `Rendezvous` |
| Users, MM and FS as one transition system | `Protocol`, `ProtocolInv`, `ProtocolWorld`, `ServerProtocol`, `InitExit`, `Answers`, `Changes` |
| Page tables and physical pages | `Paging`, `Vm`, `AddressSpace`, `CopySpace`, `GrowSpace`, `PagePool` |
| Blocks, inodes, file contents | `BlockMap`, `FileData`, `InodeMap`, `ReadWrite`, `Truncate`, `Inode` |
| Directories, links, create, unlink | `Directory`, `DirOps`, `Links`, `LinkOps`, `Unlink`, `Create` |
| The image maker | `MkfsLayout`, `MkfsPlan`, `MkfsBytes`, `MkfsImage`, `MkfsSound`, `Mkfs` |
| The user-space allocator | `FreeBlocks`, `Malloc`, `Heap` |
| Scheduler, block cache, open files, pipes | `Sched`, `Cache`, `BufferCache`, `FileTable`, `Descriptors`, `Pipes`, `PipeRuns` |
| grep's matcher, the number printer | `Kmp`, `Numbers` |
| Machine words | `Words` |

What the source updates in place is a class or an array here (`Ipc.Kernel`, `Vm.Machine`,
`Inode.FileSystem`, `Heap.Heap`, `Sched.Scheduler`, `BufferCache.BlockCache`, `Descriptors.OpenFiles`,
`Pipes.Pipe`, the image of `Mkfs`), with methods that take the source's branches; the properties of whole
runs are proved over the functions and step relations that those methods' contracts are stated with.
`panic` is an out-parameter of a method, or a flag of the protocol's state, and the contracts say exactly
when it is raised. 32-bit arithmetic wraps where the source's does.

Two variants of recvmsg occur. `AsWritten` is the code; in `Intended` a receiver that takes a
"go to sleep" reply from a blocked sender sleeps itself, as it does when the reply is delivered by sendmsg.
`Ipc.Kernel.RecvMsg` is the code. `ServerProtocol.DeadlockFreedom`, `NoLostWakeup`, `StepKeeps`,
`ReapedStays` and the modules `Answers` and `Changes` are about `Intended`; `AsWrittenExactly`, `AsWrittenRuns`, `AsWrittenGetsLost` and
`LostExactly` say exactly when and how the code departs from it. `Rendezvous.RendezvousSafety` holds of both.

## Properties that are false of the code

Each has an input that shows it and, where one is stated, the exact condition for the code to be right.

- Receiving a "go to sleep" reply from a server that is blocked in its send (`kernel/msg.c:204-207`) puts
  the server to sleep on what the caller should sleep on: `ServerProtocol.AsWrittenGetsLost` gives a run from
  boot, `AsWrittenExactly` says that a step keeps the invariant exactly when it does not take that branch.
  `LostExactly` says for which servers that is the end: it sleeps through every continuation if and only if
  the channel is not the terminal's (MM in a wait, FS on an empty or a full pipe); FS asleep on the terminal
  goes on at the next key.
- That every process has a live parent, with init at the top, ends when init exits (`bin/init.c:22`, for
  which `mm/proc.c:97-119` has no guard): `InitExit.InitExitOrphans` is the run, and
  `ServerProtocol.ParentsLiveExactly` says that it holds if and only if init is alive or has no children.
- setupkvm does not give back the pages it has taken when it runs out (`mm/vm.c:85-87`), nor copyuvm
  (`mm/proc.c:71-73`) and allocuvm (`mm/exec.c:119-126`) the page that found no table: `PagePool.SetupLosesAll`
  and `ForkLosesOne` are inputs, and `LostExactly` tells the pages that a call loses by the state before it
  (`LostBy`): all that were free if they are fewer than the 65 of a new space, the last free one if a user
  page comes to need a table with none left (`CopyLoses`, `GrowLoses`), and otherwise none.
- The matcher of grep does not always find an occurrence that is there (`bin/grep.c:19`):
  `Kmp.MissesOccurrence` is an input, `Kmp.FindsLeftmost` the exact class of patterns it serves.
- allocuvm does not look at what mappages returns (`mm/exec.c:124`), so it may report success with the
  last page not mapped: `GrowSpace.GrantsNothing` is an input, and `GrowSpace.Allocuvm` says when
  (`LastTableMissing`).
- readi and writei check the sum of offset and length after it has wrapped at 2^32 (`fs/inode.c:284`,
  `fs/inode.c:306`): `Inode.ReadWraps` and `Inode.WriteWraps` are inputs, and the contracts of
  `Inode.FileSystem.Readi` and `Writei` say when they panic for it.
- malloc of a size near 2^32, or of one whose chunk takes the break past 2^32, returns memory that is too
  small or not there (`lib/malloc.c:52`, `lib/malloc.c:67`): `Malloc.UnsoundLoses` for every size that is
  not `Sound`, `Heap.Heap.Malloc` for every size that is.
- A cache miss may take a buffer that its caller still holds (`fs/cache.c:41`): `BufferCache.TwoMisses` is an
  input, and `BufferCache.BlockCache.Bget` gives a held buffer to another sector if and only if not `Safe`:
  the sector is not cached and the last buffer of the ring is held.
- do_pipe with a single descriptor left keeps it reserved for good, because the error path clears the
  descriptor of FS itself (`fs/do_fs.c:264-265`): `Descriptors.PipeTakesTheLast` is an input, and
  `Descriptors.OpenFiles.DoPipe` says exactly when.
- A directory removed while it is a process's current directory still names its parent; if the parent is
  removed next, its inode is freed though a live directory names it (`fs/do_fs.c:204-212`):
  `Unlink.RemoveAboveCwd` is that run, and `RmdirDone` in the contract of `Unlink.DoUnlink` says exactly
  which removals leave the links in order.
- mkfs over an old image leaves old words in indirect blocks (the full clear of `tool/mkfs.c:47` is
  commented out), and one of its stores goes through a pointer that has already moved
  (`tool/mkfs.c:83`), into file data or into the root directory once there are enough files:
  `Mkfs.OldWordsSpoil`, `StraySpoilsFile`, `StraySpoilsName` are inputs, `MkfsSound.Exactly` and
  `Mkfs.MakeFs` the exact condition (`Unspoiled`).

## Model

| member | source | states |
|---|---|---|
| `WaitGraph.WalkIsExact` | kernel/msg.c:127-134 | adding an edge from the caller to its destination closes a cycle of waits exactly when the chain from the destination meets a process that waits for the caller |
| `WaitGraph.RemovalKeepsAcyclic` | kernel/msg.c:136-151 | waking processes never closes a cycle |
| `Ipc.FirstOffer` | kernel/msg.c:182-185 | the first table entry that is SENDING to the receiver, all before it are not |
| `Ipc.SenderOf` | kernel/msg.c:181-190 | a sender is taken exactly when one offers, and from the source asked for |
| `Ipc.Kernel.constructor` | kernel/proc.c:114-140 | a table without wait cycles is a valid kernel state |
| `Ipc.Kernel.SendWouldDeadlock` | kernel/msg.c:127-134 | the loop ends, and finds a process exactly when sending would close a cycle |
| `Ipc.Kernel.RecvWouldDeadlock` | kernel/msg.c:171-178 | the same for a receive from one source; a receive from anyone never finds one |
| `Ipc.Kernel.SendMsg` | kernel/msg.c:120-161 | the table and the outcome (panicked, delivered, blocked) are those of the atomic step, and the wait chains stay acyclic |
| `Ipc.Kernel.RecvMsg` | kernel/msg.c:164-214 | the same for a receive, as written |
| `Ipc.SendKeepsEdges` | kernel/msg.c:120-161 | a send in any state without cycles leaves none |
| `Ipc.RecvKeepsEdges` | kernel/msg.c:164-214 | a receive leaves none, in either variant |
| `Rendezvous.SendConserves` | kernel/msg.c:136-157 | for each letter, sent minus copied minus held by blocked senders does not change in a send |
| `Rendezvous.RecvConserves` | kernel/msg.c:192-212 | nor in a receive |
| `Rendezvous.SendMissesNone` | kernel/msg.c:136-157 | no process becomes SENDING to one that waits for it |
| `Rendezvous.RecvMissesNone` | kernel/msg.c:181-212 | no process starts to wait for one that is SENDING to it |
| `Rendezvous.RendezvousSafety` | kernel/msg.c:120-214 | over every run of sends, receives and wakeups, in both variants: the edges stay acyclic, nobody offers a message to a process that waits for it, and every letter sent was copied to one receiver or is still held by its sender |
| `Protocol.FirstUnused` | kernel/proc.c:14-20 | the first free table entry, or none is free |
| `Protocol.FirstZombie` | mm/proc.c:139-142 | the first dead child of the caller, or it has none |
| `ProtocolInv.CallsStep` | fs/main.c:37-113 | every action of users, MM and FS (with `mm/main.c:18-52`, `mm/proc.c:11-162`), the exit of any process with init's among them, keeps the invariant of the calls: who waits for whom, whose request each server holds, and no panic (Intended) |
| `ServerProtocol.StepKeeps` | mm/main.c:18-52 | every action keeps the whole invariant, with the process forest and the sleepers (Intended) |
| `ServerProtocol.RunKeeps` | fs/main.c:37-113 | so does every run |
| `ServerProtocol.RunnableMoves` | kernel/msg.c:120-214 | a RUNNABLE user or server always has a next move |
| `ServerProtocol.DeadlockFreedom` | kernel/msg.c:120-214 | after every run from boot of the Intended variant, of users that call MM or FS (`lib/fs.c`, `lib/mm.c`), MM (`mm/main.c:13-53`, with its calls to FS in `mm/proc.c:84-131`) and FS (`fs/main.c:27-114`): nothing has panicked, and some process can run, or FS awaits the disk, or every user sleeps, is dead or is not there |
| `ServerProtocol.NoLostWakeup` | fs/pipe.c:47-110 | after every such run: who sleeps on a pipe's read end finds it empty with the write end open, who sleeps on the write end finds it full with the read end open (also `fs/main.c:107-112`, `kernel/proc.c:205-211`), and who sleeps in wait has no dead child, or MM is about to wake it (`mm/proc.c:116-119`, `mm/proc.c:133-152`) |
| `ServerProtocol.OtherwiseAgree` | kernel/msg.c:204-210 | the two variants differ in no other branch |
| `ServerProtocol.OnlyUsersTake` | kernel/msg.c:204-207 | in a good state only a user's receive can take it |
| `ServerProtocol.SleepingServer` | kernel/msg.c:204-207 | it puts the answering server to sleep, and breaks the invariant |
| `ServerProtocol.AsWrittenExactly` | kernel/msg.c:204-207 | from a good state, a step of the code as written leads to a good state if and only if it does not take a "go to sleep" message from a blocked sender |
| `ServerProtocol.AsWrittenRuns` | kernel/msg.c:164-214 | runs of the code that never do so are runs of the Intended variant, with all its properties |
| `ServerProtocol.LostForever` | kernel/proc.c:205-211 | MM asleep on a process, or FS asleep on a pipe, is woken by no action of anyone, in either variant |
| `ServerProtocol.LostExactly` | kernel/msg.c:204-207 | from a good state, a server put to sleep by that branch sleeps through every continuation if and only if it was not on the terminal's channel |
| `ServerProtocol.AsWrittenGetsLost` | kernel/msg.c:204-207 | a run of six actions from boot, in which init waits for a child it does not have, loses MM for every continuation |
| `ServerProtocol.ReplyAnswersRequest` | lib/fs.c:33-56 | a user about to return holds the answer to its own last request, from the server it asked; "go to sleep" only for calls that are repeated |
| `ServerProtocol.ReapedStays` | mm/proc.c:154-161 | over every run, what one wait returned no other returns differently |
| `ServerProtocol.DescendsFromInit` | mm/proc.c:106-114 | every process that is not being made or taken down descends from init, alive or dead, through live ancestors |
| `ServerProtocol.ParentsLiveExactly` | mm/proc.c:97-119 | all parents are alive if and only if init is, or has no children |
| `ServerProtocol.InitLives` | mm/proc.c:97-119 | init is alive as long as it has not asked for its exit |
| `InitExit.InitExitOrphans` | bin/init.c:20-23 | when init exits while both servers listen, a child of its keeps it for a parent, dead, and the invariant holds all the same |
| `ServerProtocol.ChainsEnd` | kernel/msg.c:127-134 | in every state of the protocol both walks end |
| `Answers.RequestCarries` | lib/mm.c:28-60 | what a process asks for is what it puts in its call |
| `Changes.ServesWhatWasAsked` | kernel/msg.c:192-202 | over every run: the message a server works on is its client's last request, unchanged |
| `Answers.DealsRun` | mm/proc.c:11-162 | over every run: who is dead has asked for its exit and carries that code; the child MM tells FS of is the process made last, with the caller for a parent; FS is asked about the right two; and an answer to fork or wait that MM is about to give is right |
| `Answers.ExitCodeKept` | mm/proc.c:115-116 | over every run: a dead process has asked for its exit and carries the code it asked with |
| `Answers.WaitReapsOnce` | mm/proc.c:134-162 | wait answers with the pid of a dead child of its caller that no wait has returned before and the code which that child gave to exit, or the caller has none |
| `Answers.FsToldOf` | mm/proc.c:85-94 | over every run: when FS serves a fork for MM it is told of the parent first and of the child second, the process made last, which has its parent's priority and counter; when it serves an exit, of the process that asked for it |
| `Answers.AnswerMadeUp` | kernel/msg.c:136-157 | over every run: the answer a process holds when its call returns is, word for word, one that the server it asked had made up for that very request |
| `Answers.ForkReturnsChild` | mm/proc.c:46 | over every run: fork returns -1, or the pid of the process that was made last when the answer was made up, a child of the caller |
| `Answers.WaitReturnsChild` | mm/proc.c:132-162 | over every run: wait returns the pid and the exit code of a dead child of the caller, which is free by then; or -1, asked not to sleep, or the request to sleep, and there was no dead child |
| `Answers.PipeReadAnswer` | fs/pipe.c:87-110 | FS answers a read of a pipe with the number of bytes that leave it, or puts the caller to sleep exactly when it is empty with a writer |
| `Answers.PipeWriteAnswer` | fs/pipe.c:62-84 | the same for a write: the bytes that go in, -1 without a reader, sleep exactly when the pipe is full |
| `Changes.FamilyStep` | mm/proc.c:11-162 | every action changes parents, pids and lives in no other way than this: a new child gets the caller for a parent, the children of one that exits get init, one that asked for exit dies with its code, fork takes the first free entry with the next pid, wait and a failing fork free theirs |
| `Changes.WakesExactly` | kernel/proc.c:205-211 | a sleeping process is woken by an action exactly when that signals its channel, and nothing else happens to it |
| `Vm.Machine.constructor` | mm/vm.c:187-189 | before kallocinit no page is free |
| `Vm.Machine.Kallocinit` | mm/vm.c:187-192 | every page from newend up to PHYSTOP becomes free, each once |
| `Vm.Machine.Kalloc1` | mm/vm.c:162-171 | the first free page, or 0 exactly when there is none |
| `Vm.Machine.Kfree1` | mm/vm.c:133-145 | the page is free again, no other page changes |
| `Vm.Machine.Walkpgdir` | mm/vm.c:13-29 | the table there is, or a new zeroed one from the free list, or failure with nothing changed |
| `Vm.Machine.Mappages` | mm/vm.c:32-53 | exactly the covered pages get their new entry, none else changes, also when the range ends at 2^32; success, no memory and "remap" each exactly when |
| `AddressSpace.Freevm` | mm/vm.c:195-215 | exactly the pages the space owns become free, each once |
| `AddressSpace.SpaceApart` | mm/vm.c:195-215 | the directory and the tables of a space in order are distinct pages, and none of them is free |
| `AddressSpace.KernelMapping` | mm/vm.c:56-66 | KBASE + x is mapped to x below PHYSTOP, device space to itself, nothing else; text with permissions 0x001, all else 0x003, so nothing for user mode |
| `AddressSpace.Setupkvm` | mm/vm.c:72-89 | it succeeds if and only if 65 pages are free, and takes just those (one directory, 56 tables below PHYSTOP, 8 for devices); the new space has that mapping and owns distinct pages; "remap" does not occur; no entry from KBASE on is for user mode; a failure leaves no page free and touches no other |
| `CopySpace.Copyuvm` | mm/proc.c:50-82 | it succeeds if and only if `CopyNeeds` pages are free: 65, one for each user page and one for each table that has one; then it takes just those, and the child maps exactly the parent's user pages, with equal bytes, on pages of its own, for user mode, and nothing from KBASE on is; the parent's mapping and memory do not change, on failure either; on failure the free list is used up (fewer than 65), or all is given back but the page that found no table, `LostPage`, which depends on the state before alone |
| `CopySpace.FreeRestores` | mm/vm.c:195-215 | a space built from the free list and freed gives back the same set of free pages |
| `GrowSpace.Allocuvm` | mm/exec.c:108-128 | panic "remap" exactly when a page of the range is mapped and there are pages enough to come to it; else which pages are mapped, zeroed and owned, how far it comes without memory, and what it returns: success if and only if all pages are there or only the last one has no table |
| `GrowSpace.GrantsNothing` | mm/exec.c:119-128 | with one page free, a page asked for where there is no table is granted and not mapped |
| `GrowSpace.GrantsAll` | mm/exec.c:108-128 | with pages enough every page with a byte of the range is mapped, zeroed, and can be used from user mode, nothing else changes, and the result is the end rounded up to a page |
| `PagePool.StepKeeps` | mm/vm.c:127-215 | taking, giving, building, copying, growing and freeing, successful or not, keep each managed page in one place at most: free list, one space, kernel use; and what is then nowhere is what `LostBy` says |
| `PagePool.LostExactly` | mm/exec.c:119-126 | the pages lost by a call are exactly those told by the state before it: by setupkvm all that were free, if they were fewer than 65; by copyuvm those, or the last free one when it is the first page of a table (`mm/vm.c:85-87`, `mm/proc.c:71-73`); by allocuvm the last free one when a page comes to need a table with none left |
| `PagePool.SetupLosesAll` | mm/vm.c:85-87 | with fewer than 65 free pages all of them are lost |
| `PagePool.ForkLosesOne` | mm/proc.c:67-73 | copying a process of one page with 66 free pages needs 67 and loses one |
| `PagePool.EnoughLosesNothing` | mm/vm.c:72-89 | a call for which there are pages enough loses none |
| `PagePool.PagesConserved` | mm/vm.c:187-215 | over every run from kallocinit each page is in one place at most, and none is lost if and only if no call was made in a state in which it loses some |
| `PagePool.ConservedWithEnough` | mm/vm.c:187-215 | over every run in which there are pages for whatever is asked, every page is in exactly one place |
| `PagePool.Pages.constructor` | mm/vm.c:187-192 | kallocinit establishes the partition, with every page free |
| `PagePool.Pages.TakePage` | kernel/proc.c:25-28 | a page for a kernel stack or a pipe moves from the free list to kernel use |
| `PagePool.Pages.GivePage` | mm/proc.c:154 | and back |
| `PagePool.Pages.SetUp` | mm/vm.c:72-89 | setupkvm is a step of the pool, successful exactly with 65 free pages |
| `PagePool.Pages.CopySpaceOf` | mm/proc.c:50-82 | copyuvm is a step of the pool, successful exactly with `CopyNeeds` free pages |
| `PagePool.Pages.GrowBy` | mm/exec.c:108-128 | allocuvm is a step of the pool, refused for a range that ends above KBASE, with "remap" exactly when |
| `PagePool.Pages.Drop` | mm/vm.c:195-215 | freevm is a step of the pool |
| `PagePool.Pages.CopyThenDrop` | mm/proc.c:50-82 | with `CopyNeeds` free pages, and only then, copyuvm succeeds; followed by freevm it restores the free set, the other spaces and the pages in use |
| `BlockMap.ExactlyOne` | fs/inode.c:34-80 | under the invariant a block is in one slot of one inode at most, and is then marked used |
| `Inode.FileSystem.Balloc` | fs/inode.c:36-61 | the first free block, zeroed and marked; panic exactly when there is none |
| `Inode.FileSystem.Bfree` | fs/inode.c:65-80 | exactly one bit is cleared; panic exactly when it was clear |
| `Inode.FileSystem.Bmap` | fs/inode.c:200-227 | the block of the file at that place, mapped now if it was not, nothing else changes; panic exactly when the place is too far or the blocks run out |
| `Inode.FileSystem.Iupdate` | fs/inode.c:156-171 | the inode on disk becomes the one in core |
| `Inode.FileSystem.Writei` | fs/inode.c:298-322 | the file is the old one with the bytes spliced in, the size grows exactly when needed, every other file and inode stays, the blocks used are counted; -1 and panic exactly when |
| `Inode.FileSystem.Readi` | fs/inode.c:274-294 | the clipped slice of the file, and no block is allocated; -1 and panic exactly when |
| `Inode.WriteWraps` | fs/inode.c:304-307 | 2^32 - 1 bytes to be written from the second byte of a file on are not refused: panic |
| `Inode.ReadWraps` | fs/inode.c:282-285 | 2^32 - 1 bytes asked for from there are not clipped: panic |
| `Inode.FileSystem.Itrunc` | fs/inode.c:233-259 | the file becomes empty, exactly its blocks become free ("freeing free block" does not occur), other files stay |
| `Inode.FileSystem.Iput` | fs/inode.c:186-195 | the last reference to an inode without links frees it and its blocks; any other leaves all files alone |
| `Inode.FileSystem.Iget` | fs/inode.c:87-124 | one entry per inode, in agreement with the disk; panic exactly when the table is full without it |
| `Inode.FileSystem.Ialloc` | fs/inode.c:129-152 | the first free inode, blank; panic exactly when there is none or no entry for it |
| `ReadWrite.WriteDone` | fs/inode.c:308-321 | a loop that has gone through all blocks has spliced the bytes in |
| `Truncate.FreedExactly` | fs/inode.c:236-257 | the blocks that are free afterwards are those that were, and those the file owned |
| `Directory.StrncpyKey` | fs/inode.c:384-389 | a name copied by strncpy is the same name to strncmp |
| `Directory.DirPut` | fs/inode.c:364-391 | a name put in a free entry is added to the directory's map, and live names stay distinct |
| `Directory.DirClear` | fs/do_fs.c:200-203 | an entry cleared takes exactly its name out of the map |
| `DirOps.Dirlookup` | fs/inode.c:336-360 | the inode of that name and the place of its entry, or none exactly when the map does not have it; panic exactly when the inode table is full without it |
| `DirOps.Dirlink` | fs/inode.c:364-391 | a new name is added to the map, one that is there is refused; other files stay; panic exactly when the name is there and its inode finds no entry in core, or the entry needs more blocks than are free or a larger file than can be (`LinkPanics`) |
| `LinkOps.LookupName` | fs/inode.c:336-360 | dirlookup keeps the links in order |
| `LinkOps.NameIn` | fs/do_fs.c:143-151 | the part of link in the directory: the name is in, or refused with nothing changed, and panic exactly when; the reference to the directory is given back |
| `LinkOps.DoLink` | fs/do_fs.c:127-159 | the name is added and the link count goes up by one, or nothing changes; links stay in order; panic exactly when dirlink panics; linked or refused, the references to the inode and to the directory are given back, and no other reference moves |
| `LinkOps.IsDirEmpty` | fs/do_fs.c:163-175 | true exactly when no entry beyond the first two is in use |
| `LinkOps.UnlinkFile` | fs/do_fs.c:200-214 | of a file: the name leaves the map, the count goes down, the inode is freed exactly when it was the last link and reference; other files stay and links stay in order |
| `Unlink.UnlinkDir` | fs/do_fs.c:195-214 | of a directory: refused exactly when not empty; else its name leaves the parent's map, parent and child lose a link, what is freed, what stays, and links stay in order if and only if no live directory names a freed or unlinked inode |
| `Unlink.DoUnlink` | fs/do_fs.c:178-219 | panic and refusal exactly when; else the same for a file or a directory, with the references given back; for files no count ever falls below the number of names, after any unlink |
| `Unlink.RemoveAboveCwd` | fs/do_fs.c:204-212 | two removals, of a process's current directory and then of its parent, after which a live directory names a freed inode |
| `Create.NewInode` | fs/inode.c:493-494 | a fresh inode has no name yet; panic exactly when no inode or no entry in core is free |
| `Create.MakeDir` | fs/inode.c:500-506 | a new directory gets its two entries, the parent one more link; panic exactly when no block is free |
| `Create.ICreate` | fs/inode.c:476-513 | an existing file is returned, an existing name of any other kind refused, a new name is added with its inode, and links stay in order; panic exactly when inodes or entries in core have run out, or blocks for the new directory or the name (`CreatePanics`); the reference to the directory is given back, and the inode returned has one more |
| `Mkfs.MakeRoot` | tool/mkfs.c:53-61 | inode 0 is taken, the root directory has its blocks |
| `Mkfs.AddFile` | tool/mkfs.c:82-103 | the blocks of one file, which bytes are written, which are left from the old image |
| `Mkfs.Stray` | tool/mkfs.c:83 | where the store through the moved pointer lands |
| `Mkfs.AddFiles` | tool/mkfs.c:73-112 | all files one after the other; gives up exactly when one is too long |
| `Mkfs.MakeTty` | tool/mkfs.c:114-122 | the terminal's inode is filled in, the rest of the plan stays |
| `Mkfs.InodesMade` | tool/mkfs.c:53-122 | the plan's inodes: 0 is taken, the root is a directory of 20 bytes an entry, the files are files of their sizes, the terminal is device 1, 0, each with one link, and the others are blank |
| `Mkfs.MakeFs` | tool/mkfs.c:44-129 | over any old image: the new one has every file, every name and sound blocks if and only if no old word is left in an indirect block and no stray store harms what is read; then blocks and links are in order, each file reads back, and the root directory has the names ".", "..", those of the files and "tty", and no others; in any case type, links, device numbers and size of every inode, and the bitmap has exactly the blocks in use |
| `MkfsSound.Exactly` | tool/mkfs.c:83-103 | the same of the bytes: reading the image back gives the files, the names and disjoint blocks if and only if nothing that is read was spoiled |
| `Mkfs.RootLinks` | tool/mkfs.c:63-68 | a root directory that reads right has its links in order |
| `Mkfs.FewFilesFine` | tool/mkfs.c:47-48 | over a zeroed image the condition holds as long as no stray store leaves the metadata |
| `Mkfs.OldWordsSpoil` | tool/mkfs.c:47-48 | over an image of 0xff it fails for one file with an indirect block |
| `Mkfs.StraySpoilsFile` | tool/mkfs.c:83 | with 47 files of one block it fails, whatever was there before |
| `Mkfs.StraySpoilsName` | tool/mkfs.c:83 | with 39 files and a name of 16 letters it fails |
| `FreeBlocks.CanonicalUnique` | lib/malloc.c:28-41 | an ordered list of blocks that do not touch is determined by the units it covers |
| `FreeBlocks.InsertCanonical` | lib/malloc.c:31-40 | a block joined with those it touches leaves the list ordered, with no two that touch |
| `FreeBlocks.InsertCovers` | lib/malloc.c:31-40 | exactly its units become free |
| `FreeBlocks.CarveCovers` | lib/malloc.c:73-82 | exactly the units handed out stop being free |
| `Malloc.StopsAtPlace` | lib/malloc.c:28-30 | the search of free stops exactly at the block's place in the circular list |
| `Malloc.FreeUndoesMalloc` | lib/malloc.c:22-88 | a block cut off and put back leaves the same list |
| `Malloc.UnsoundLoses` | lib/malloc.c:45-67 | every size that is not Sound gets a block too small, or units that sbrk did not add |
| `Malloc.BreakGrows` | mm/proc.c:165-176 | what sbrk grants is there, when nothing wraps |
| `Heap.Heap.Free` | lib/malloc.c:23-42 | the search ends; the block is back on the list, joined with its neighbours, and free and allocated blocks still divide all units from sbrk |
| `Heap.Heap.Morecore` | lib/malloc.c:45-59 | the chunk from sbrk is on the list, or nothing changed exactly when sbrk refused |
| `Heap.Heap.Malloc` | lib/malloc.c:62-88 | the search ends; the first block that fits from freep on, cut at its end; the result is fresh, of the size asked for, and apart from all live blocks; NULL exactly when nothing fits and sbrk refuses |
| `Heap.Allocate` | lib/malloc.c:45-88 | what a caller gets: just the units that the bytes and a header need, apart from all that is in use or free; NULL exactly when no free block has as many and sbrk cannot add them, or 4096 units if these are more; what sbrk added ends on the next page boundary |
| `Heap.MallocThenFree` | lib/malloc.c:22-88 | together they restore the list and the blocks handed out |
| `Sched.Scheduler.Schedule` | kernel/proc.c:46-81 | it ends within two scans; when some process can run and all that can have a counter below 2, every process gets its priority for a counter, and otherwise no counter changes; then the first RUNNABLE process of the largest counter runs, the idle task only if no other can |
| `Sched.PickedMeans` | kernel/proc.c:50-72 | the relation that the runs are stated with says no more and no less than that |
| `Sched.NeverEnds` | kernel/proc.c:51-72 | and otherwise a scan and a refill lead back to the same situation |
| `Sched.Scheduler.Timer` | kernel/trap.c:71-77 | one tick off the counter of who runs, idle excepted |
| `Sched.StepOk` | kernel/proc.c:46-81 | no event takes a counter below zero: a tick, sleep, a reschedule of whoever runs (`kernel/msg.c:207`), a wakeup, MM stopping a process (`mm/proc.c:102`), a fork |
| `Sched.PickExists` | kernel/proc.c:50-72 | schedule always finds somebody to run |
| `Sched.StepExists` | kernel/proc.c:46-81 | in a good state every event that may happen has a state to go to |
| `Sched.RunOk` | kernel/proc.c:46-81 | so over every run |
| `Sched.BoundedWaiting` | kernel/proc.c:55-72 | a process that stays RUNNABLE with time left waits no more ticks than the others have left, at most the sum of their priority - 1 |
| `Sched.NoStarvation` | kernel/proc.c:55-72 | one that has used up its time waits that much more at most |
| `Cache.FrontLinked` | fs/cache.c:70-78 | the pointer moves of brelse put the buffer in front and keep the ring |
| `BufferCache.BlockCache.constructor` | fs/cache.c:13-25 | binit links all buffers, each once |
| `BufferCache.BlockCache.Bget` | fs/cache.c:31-46 | the buffer that has the sector, or the last of the ring, renamed; a held buffer is renamed if and only if the sector is not cached and the last of the ring is held |
| `BufferCache.BlockCache.Iderw` | fs/ide.c:91-113 | a dirty buffer is written, one without contents is read |
| `BufferCache.BlockCache.Bread` | fs/cache.c:50-58 | the data last written to the sector; keys stay unique; on a miss the victim is the least recently released |
| `BufferCache.BlockCache.Bwrite` | fs/cache.c:62-66 | the sector gets the buffer's data |
| `BufferCache.BlockCache.Brelse` | fs/cache.c:70-78 | the buffer becomes the most recently released |
| `BufferCache.Oldest` | fs/cache.c:41-45 | the tail of the ring is the buffer released first |
| `BufferCache.TwoMisses` | fs/cache.c:41-45 | two misses without a release: the second takes the first one's buffer |
| `FileTable.EndOpenIff` | fs/file.c:32-46 | an end of a pipe is open exactly as long as some descriptor of some process has it |
| `FileTable.CloseOk` | fs/file.c:32-46 | closing a descriptor keeps every file's count equal to the descriptors that hold it |
| `FileTable.DupOk` | fs/file.c:23-29 | so does another descriptor |
| `FileTable.PipeOk` | fs/pipe.c:6-44 | and a new pipe |
| `Descriptors.OpenFiles.FileAlloc` | fs/file.c:9-19 | the first unused file |
| `Descriptors.OpenFiles.FdAlloc` | fs/do_fs.c:8-17 | the first free descriptor, reserved |
| `Descriptors.OpenFiles.FileClose` | fs/file.c:32-46 | the last reference takes the file and its end of the pipe |
| `Descriptors.OpenFiles.DoOpen` | fs/do_fs.c:74-90 | a file and a descriptor, or neither, exactly when one is missing |
| `Descriptors.OpenFiles.DoClose` | fs/do_fs.c:93-100 | the descriptor is free, its file loses a reference; -1 exactly for a bad descriptor |
| `Descriptors.OpenFiles.DoDup` | fs/do_fs.c:224-233 | the first free descriptor gets the same file |
| `Descriptors.OpenFiles.DoPipe` | fs/do_fs.c:253-274 | two descriptors for the two ends exactly when there is a page, two files and two descriptors; with one descriptor only, that one stays reserved |
| `Descriptors.PipeTakesTheLast` | fs/do_fs.c:253-274 | a process with one descriptor left that asks for a pipe gets none, and has no descriptor left |
| `Descriptors.OpenFiles.DoFsFork` | fs/do_fs.c:306-314 | the child has every descriptor of the parent, and the counts are right |
| `Descriptors.OpenFiles.DoFsExit` | fs/do_fs.c:317-331 | the process's descriptors are closed, and nobody else's |
| `Pipes.Pipe.Write` | fs/pipe.c:62-84 | the accepted bytes are appended to the ring's contents; how many, and when it sleeps |
| `Pipes.Pipe.Read` | fs/pipe.c:87-110 | the bytes returned are the front of the contents; how many, and when it sleeps or reports the end |
| `Pipes.Pipe.Close` | fs/pipe.c:47-58 | the end is shut, the contents stay, the page goes with the second end |
| `Pipes.FirstInFirstOut` | fs/pipe.c:62-110 | over every run, bytes put in equal bytes taken out followed by the contents |
| `Pipes.NothingAfterShut` | fs/pipe.c:47-58 | after the write end is shut nothing goes in |
| `PipeRuns.EndOfFile` | fs/pipe.c:87-110 | over every run of pipe, open, dup, fork, close, exit, read and write (`fs/file.c:23-46`, `fs/do_fs.c:93-100`, `fs/do_fs.c:224-331`): a read of n > 0 bytes returns 0 exactly when no descriptor of any process can write to the pipe and all that was written has been read |
| `PipeRuns.WriterIff` | fs/pipe.c:47-58 | writeopen is exactly whether some descriptor can write |
| `Kmp.KmpPp` | bin/grep.c:9-24 | every entry is a border of its prefix, and the only -1 is at the pattern's end |
| `Kmp.KmpMatch` | bin/grep.c:27-46 | with such a table the search ends, and what it returns is an occurrence |
| `Kmp.SearchExactly` | bin/grep.c:27-46 | with any such table: the leftmost occurrence in every text, NULL iff there is none, if and only if no jump passes over a border the text may go on from |
| `Kmp.LongestNeverSkips` | bin/grep.c:27-46 | a table of longest borders is one of those |
| `Kmp.FindsLeftmost` | bin/grep.c:9-46 | the same for kmp_pp's own table, as a condition on the pattern |
| `Kmp.LongestIffNothingHidden` | bin/grep.c:16-20 | the patterns for which kmp_pp finds all longest borders |
| `Kmp.HidesYetFinds` | bin/grep.c:16-20 | a pattern for which it does not, and the search is right all the same |
| `Kmp.MissesOccurrence` | bin/grep.c:19 | a pattern and a text where the only occurrence is missed |
| `Numbers.EvalDigits` | lib/vsprintf.c:62-66 | the digits stand for the number, in any base |
| `Numbers.EvalStep` | lib/vsprintf.c:62-66 | a digit more multiplies the value by the base and adds the digit |
| `Numbers.CharsReadBack` | lib/vsprintf.c:62-66 | the characters of the digits, in capitals or small letters, stand for just those digits |
| `Numbers.DigitsStandForValue` | lib/vsprintf.c:52-90 | with any flags, what is printed is blanks, sign, prefix, zeros and digits, blanks: the sign is "-" of a negative signed number, else "+" or " " if asked for; the prefix 0x, 0X or 0 if asked for in base 16 or 8; zeros and digits evaluate back to the number or its absolute value, without a leading zero among the digits; zeros for the precision or, with ZEROPAD and not LEFT, for the size; blanks on the left or on the right for the size |
| `Numbers.FieldLength` | lib/vsprintf.c:57-90 | the output has max(size, sign + prefix + max(precision, digits)) characters |
| `Numbers.PutDigits` | lib/vsprintf.c:62-66 | tmp holds the digits, the last one first, and is never overrun |
| `Numbers.Number` | lib/vsprintf.c:40-92 | the field printed, for every value, base, size, precision and flags; nothing for a base out of range |
| `Numbers.SkipAtoi` | lib/vsprintf.c:18-25 | the value of the leading digits as an int holds it, and what follows them |
| `Numbers.AtoiUndoesNumber` | lib/vsprintf.c:18-25 | skip_atoi reads back what number prints plainly in base 10 |

## Left out

Whole parts:

- exec (`mm/exec.c:15-104`): loading and the argument stack; its reply bypasses the message protocol.
- Boot code, assembly, descriptor and interrupt tables, port I/O, the screen and the keyboard maps.
- The terminal's input ring and terminals in fileread and filewrite; a sleeper on it is in the protocol, but nothing is claimed of its wakeup, which races with the keyboard interrupt.
- Walking a path (namex): link, unlink and create start from the directory that nameiparent returns and from the last name. That directory has a link, or it is also held as a current directory.
- `lib/stdio.c`, `lib/string.c`, the shell and the other programs.
- The copies of data between address spaces (mcopyin, mcopyout): letters carry values. The answer 0 that fork puts into the child's own memory (`mm/proc.c:34-37`) is not modelled.

Messages and servers:

- ServerProtocol.DeadlockFreedom: is of the Intended receive, because the code's own puts a server to sleep for good; AsWrittenExactly and AsWrittenRuns say for which steps and runs the code has the property. exec is not among the calls.
- ServerProtocol.NoLostWakeup: is of the Intended receive as well; a sleeper on the terminal is not spoken of.
- ServerProtocol.StepKeeps: is of the Intended receive, as are ServerProtocol.RunKeeps, ProtocolInv.CallsStep and all of Answers and Changes; AsWrittenExactly says for which steps of the code it holds.
- ServerProtocol.ReapedStays: is of the Intended receive; process numbers do not wrap.
- ANY in the receive walk (`kernel/msg.c:172` indexes entry -1) is the end of the chain.
- A `cli`..`sti` region is one step, and so is one store that another process can see.

Pages:

- Pages are values and the free list is a sequence, in the order in which the source links them; kfree1 is one step, though its last store comes after `sti`.
- Vm.Machine.Kfree1: of a page that is not free already; the source, which does not check, would link it a second time.
- enter_alloc and the boot page tables are not modelled; newend is given.

Files:

- The bitmap is a sequence of bits and an inode a record; their byte layout is not modelled, except where mkfs writes past it. There is one device, and blocks are read and written without the cache.
- Inode.FileSystem.Writei: of files and directories, not of devices; so is Readi.
- Link counts do not wrap at 16 bits.
- Unlink.RemoveAboveCwd: starts from a directory that a process is in, below one that nothing else holds; the chdir and the two creations before it are not part of the run.
- Unlink.DoUnlink: that names do not outnumber links is kept for files; a directory's count is not compared with its names, because the code does not keep them equal.
- Create.ICreate: the inode references of a failing open are not counted.
- Mkfs.MakeFs: the image is a whole number of blocks, the inodes, the root directory's direct blocks and the data fit in it, and the files can be opened and mapped; taking the last part of a path is left out. Names must differ for the links to be in order, as two equal names would be two entries.
- Descriptors.OpenFiles.DoDup: of an open descriptor, as the source does not check it.
- Descriptors.OpenFiles.DoFsFork: without the current directory, as is DoFsExit.
- The wakeups of a pipe are in Pipes and in the protocol, not in Descriptors.
- BufferCache.BlockCache.Bread: on a miss the least recently released buffer must not be held, as the source needs and does not check.
- BufferCache.BlockCache.Brelse: of a buffer that has been written if it was changed.
- BufferCache.BlockCache.Iderw: without the queue of requests and disk errors.

The rest:

- Heap.Heap.Morecore: of a chunk that does not take the break past 2^32; UnsoundLoses is about the others.
- Heap.Heap.Malloc: of Sound sizes, with sbrk called by the allocator only; whether pages are free is a parameter. The break can grow up to KBASE; in a process the two stack pages below it (`mm/exec.c:52`) make allocuvm panic before that, in the state that `GrowSpace.Allocuvm` names.
- The address of the allocator's base block is below all others.
- Sched.BoundedWaiting: of runs in which no process is forked, as is NoStarvation, for each new process brings its own time; priorities are at least 2, as the source gives them. The context switch is left out.
- Sched.Scheduler.Schedule: counters are naturals, so the source's comparison of u32 and int does not come in.
- Kmp.KmpPp: of a nonempty pattern shorter than the table, which is still zero as in grep's one call.
- Numbers.Number: size and precision are unbounded integers; the parsing of formats is left out.
