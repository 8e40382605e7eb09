# Verified models of the pager, the file server, the thread library and the disk scheduler

This project models four components of an operating systems course repository in Dafny and proves what they are for.
Each component has a value-level model (states and transitions), proofs about every run of it, and, where the source
updates its data in place, classes whose methods are proved equal to the transitions.

**The pager (Project3)** keeps five structures in agreement: the physical table, the clock queue, the queue of free
frames, the map from backing ids to frames, and the map from backing ids to the virtual pages that share them, together
with every page table entry. `PagerModel` has the state, the transitions and the invariant; `PagerProofs` and
`PagerArenaProofs` prove that every transition keeps it; `PagerRuns` has the operations as a process sees them and the
first main result: in every run of create, switch, map, fault, load, store and destroy, the pager is a flat map from
backing identity and offset to bytes. `PagerReference` is a pager without frames, tables and entries: arenas with their
swap accounting, and one write-back cache kept by a clock. `PagerRefines` has the second main result: every run of the
pager is a run of that one, with the same blocks in memory, the same clock order, the same disk and the same outcomes.
`PagerLimits` has two runs in which the pager does less than one might expect. `Pager` is the imperative pager;
`FileIds` is the order its maps rely on.

**The file server (Project4)** is a directory tree on disk, an in-memory queue of free blocks, and hand-over-hand
reader/writer locks. `FsModel` says when a disk spells out a tree and what abstract tree of named nodes it shows;
`FsCommits` treats every kind of disk write; `FsThreads` is a step machine for any number of handlers, in which every
lock operation, every use of the free queue and every disk write is a step of its own. `FsInvariant`, `FsSteps`,
`FsWalkSteps`, `FsTargetSteps`, `FsCommitSteps`, `FsDataSteps` and `FsDeleteSteps` prove its invariant. `FsRuns`
concludes that every interleaving, stopped anywhere, leaves a well-formed disk that shows the initial tree after the
committed requests were carried out one at a time; `FsGuarantees`, `FsProgress` and `FsRefusals` give block ownership,
what a lock protects, freedom from deadlock, termination, and why requests fail; `FsAnswers` concludes that what a
finished handler reports is true of its run. `FsSentinel` is a run in which a create overlooks unused entries.
`FsRestart` is the scan that rebuilds the free queue. `FsWrites` lists the disk writes of a handler that runs alone;
`FsSolo` and `FileServer` are the handlers running one at a time, in place, with the disk after every write.

**The thread library (Project2)** is a single-CPU scheduler with a FIFO ready queue, mutexes handed directly to the
first waiter, Mesa condition variables, and join. `ThreadModel` has one transition per library call; `ThreadReference`
says for each call which threads go from which line to which. `ThreadProofs` and `ThreadRuns` prove the invariant and
the properties of all runs, `ThreadLines` that the transitions do to every line what the reference says,
`ThreadFairness` follows the waiting lines of mutexes and condition variables through runs, and `ThreadLibrary` has the
processor, the mutex and the condition variable as objects.

**The disk scheduler (Project1)** is a monitor with requesters and one server that serves the nearest request of a
queue as full as it can get. `SchedulerModel` has the two critical sections, `SchedulerProofs` the invariant, progress,
termination, and the exact condition under which the server comes to its end, `SchedulerHistory` the exact set of logs
that runs can print, and `Scheduler` the monitor in place.

## Assumptions

- Pager: at least two physical pages; a fault is raised only when the entry forbids the access; writing to the disk
  succeeds, while reading a block of a file may fail and then leaves arbitrary bytes in the frame; different file names
  mean different files. The kernel creates only pids without an arena and switches only to processes that exist.
- File server: the initial disk is a tree without sharing, with unique names per directory and no directory block
  without entries. The locks are correct reader/writer locks; nothing is assumed about which waiter gets one, only that
  a lock nobody holds is given to one of those who want it.
- Thread library: one CPU, so a call with interrupts off is atomic; a control block expires when its thread finishes.
- Disk scheduler: the monitor's lock and condition variables behave as documented; tracks are 0 to 999.

## Where the code does not do what one might expect

- `vm_create` takes the parent's swap pages off what may be reserved but gives the child an empty arena, so exact
  conservation of reservations holds only while no parent owns swap pages (`PagerArenaProofs.CreateKeeps`,
  `PagerRuns.DoKeeps`); `PagerLimits.ForkLosesReservations` is a run in which a page is refused beside a free block.
- `vm_switch` does nothing if the pid is the last one switched to, even after that process exited; it makes the pid
  current exactly otherwise (`PagerRuns.SwitchKeeps`); `PagerLimits.SwitchForgets` is a run in which a new process with
  the pid of an exited one stays uninstalled.
- A create overlooks unused entries in a directory block whose number is 125, because that number also stands for "none
  found"; it reuses an entry exactly if one outside that block is unused (`FsRefusals.ReusesAnEntry`).
  `FsSentinel.RefusedBesideUnusedEntries` is a run in which an allowed create is refused beside seven unused entries.
  The tree stays correct either way.
- The server of the disk scheduler never ends if there is no requester, if the queue has no room, or if some file is
  empty, and can end otherwise (`SchedulerProofs.EndsExactlyIf`).

## Model

| member | source | states |
|---|---|---|
| PagerArenaProofs.InitialInv | Project3/my_vm_pager.cpp:31-47 | the state after initialisation satisfies the invariant over frames, maps, entries, swap blocks and memory |
| PagerProofs.ClockEviction | Project3/my_utils.cpp:3-39 | eviction stops at the first unreferenced frame in queue order, or at the head after a full turn; exactly the passed frames lose their bit, the rest of the queue is a rotation; the victim alone leaves memory, and is written back exactly if dirty |
| PagerProofs.GetFreeKeeps | Project3/my_utils.cpp:3-39 | freeing a frame, by eviction and write-back if needed, keeps the invariant, every arena and the whole flat memory |
| PagerProofs.FillKeeps | Project3/my_utils.cpp:41-76 | paging in, or copying the pinned zero page on a write, keeps the invariant and the flat memory; the first free frame joins the clock queue at the back, referenced, and dirty exactly for a write |
| PagerProofs.TouchKeeps | Project3/my_utils.cpp:78-89 | a fault on a page in memory sets the referenced bit, the dirty bit exactly for a write, and gives all sharers the same entry, so bits stay a function of the frame's state |
| PagerArenaProofs.PokeKeeps | Project3/my_vm_pager.cpp:75-121 | a permitted store lands in a dirty frame and changes one byte of the flat memory |
| PagerArenaProofs.MapSwapKeeps | Project3/my_vm_pager.cpp:163-186 | a new private page gets a block nobody owns and reads zero; no other content changes |
| PagerArenaProofs.MapFileKeeps | Project3/my_vm_pager.cpp:217-244 | a new file page shows the block as all its sharers do, resident or not |
| PagerArenaProofs.DropPageKeeps | Project3/my_vm_pager.cpp:129-149 | cleaning up one page of an exiting process keeps the invariant and all other contents |
| PagerArenaProofs.ExitKeeps | Project3/my_vm_pager.cpp:126-155 | an exit adds exactly the process's swap blocks to the free ones and as many reservations, keeps every other content, and leaves each resident file block in its frame |
| PagerArenaProofs.CreateKeeps | Project3/my_vm_pager.cpp:49-63 | a create fails exactly if the parent owns more private pages than may be reserved; otherwise the child has an empty arena, that many reservations are gone, every other arena, the current process and all contents stay |
| PagerRuns.FaultKeeps | Project3/my_vm_pager.cpp:75-124 | a fault keeps the invariant and the flat memory; it fails exactly for an unmapped page or an unreadable block |
| PagerRuns.AccessKeeps | Project3/my_vm_pager.cpp:75-124 | one fault is enough: afterwards the entry permits the access |
| PagerRuns.LoadKeeps | Project3/my_vm_pager.cpp:75-124 | a load returns the byte of the flat memory and changes nothing observable |
| PagerRuns.StoreKeeps | Project3/my_vm_pager.cpp:75-124 | a store changes exactly one byte of the flat memory, seen through every mapping of the block |
| PagerRuns.ScanKeeps | Project3/my_vm_pager.cpp:189-215 | reading a file name out of the arena, faulting as it goes, finds the zero-terminated name the flat memory shows, exactly if the name ends inside the arena and the pages up to its end can be brought in one after the other |
| PagerRuns.PagesInBounds | Project3/my_vm_pager.cpp:189-215 | bringing in a stretch of pages succeeds if every file page of it is readable, and fails if one that is not resident at the start is not readable |
| PagerRuns.MapPrivatelyKeeps | Project3/my_vm_pager.cpp:157-186 | mapping a private page succeeds exactly if the arena has room and a block may be reserved; then the page comes last, takes the first free block and reads zero; otherwise nothing changes |
| PagerRuns.MapNamedKeeps | Project3/my_vm_pager.cpp:187-246 | mapping a named file keeps the flat memory and succeeds exactly if the arena has room and the name can be read |
| PagerRuns.SwitchKeeps | Project3/my_vm_pager.cpp:65-73 | a switch makes the pid current if and only if it is not the last pid switched to or that one's arena is still current; no arena, content or block changes |
| PagerRuns.DoKeeps | Project3/my_vm_pager.cpp:49-246 | every operation keeps the invariant and has exactly its event's effect on contents and reservations |
| PagerRuns.FlatMemory | Project3/my_vm_pager.cpp:75-246 | after any run every live block holds at every offset the byte last put there, zero if never written |
| PagerRuns.LoadsSeeTheLastStore | Project3/my_vm_pager.cpp:75-246 | every load of every run returns the byte last stored through any mapping of the same block |
| PagerRefines.GetFreeIs | Project3/my_utils.cpp:3-39 | the loop over the clock queue makes room as the reference cache does |
| PagerRefines.AccessIs | Project3/my_vm_pager.cpp:75-124 | every access is a reference to the block behind the page, and fails exactly if the reference does |
| PagerRefines.NameIs | Project3/my_vm_pager.cpp:189-215 | reading a name is a reference for each of its bytes |
| PagerRefines.ExitIs | Project3/my_vm_pager.cpp:126-155 | an exit takes exactly the private blocks of the process out of the cache, keeps the clock order of the others, and returns its blocks and reservations |
| PagerRefines.ExitFrees | Project3/my_vm_pager.cpp:129-149 | the frames an exit frees go to the back of the free queue in the order of the pages |
| PagerRefines.StepRefines | Project3/my_vm_pager.cpp:49-246 | every operation in every state is that of the reference: which blocks are in memory, in which order the clock comes to them, what is dirty, what is on disk, who maps what, and the outcome |
| PagerRefines.RunsRefine | Project3/my_vm_pager.cpp:31-246 | every run from the start is a run of the reference with the same outcomes |
| PagerReference.FrontGoes | Project3/my_utils.cpp:3-39 | if the blocks at the front were not referenced, or all were, the block that came in first is the one that goes, to the disk exactly if dirty |
| PagerReference.FirstInFirstOut | Project3/my_utils.cpp:3-76 | blocks read once each leave memory in the order they came in: it always holds the last ones read |
| PagerLimits.SwitchForgets | Project3/my_vm_pager.cpp:65-73 | a run: create, switch, exit, create and switch with the same pid end with that process in the tables and nobody current |
| PagerLimits.ForkLosesReservations | Project3/my_vm_pager.cpp:49-63 | a run: a process with one private page forks, and one block more is free than may be reserved; with two blocks in all the next private page is refused beside a free one |
| FileIds.IdsTotal | Project3/my_utils.h:44-58 | the key order is strict, and neither id is before the other exactly if they are equal |
| FileIds.IdsTransitive | Project3/my_utils.h:44-58 | the key order is transitive, across swap and file ids |
| FileIds.NamesTotal | Project3/my_utils.h:50-51 | file names are totally ordered |
| Pager.Pager.constructor | Project3/my_vm_pager.cpp:31-47 | sets up the initial state |
| Pager.Pager.GetFreePhysicalPage | Project3/my_utils.cpp:3-39 | the clock loop terminates and does what the eviction transition says |
| Pager.Pager.SetPhysicalPage | Project3/my_utils.cpp:41-76 | fills the first free frame from the disk or from the zero page; fails exactly on an unreadable block |
| Pager.Pager.SetPeer | Project3/my_utils.cpp:78-89 | after the loop every sharer has the frame and the bits of the faulting page, and no other entry changed |
| Pager.Pager.VmFault | Project3/my_vm_pager.cpp:75-124 | the imperative fault is the fault transition |
| Pager.Pager.Access | Project3/my_vm_pager.cpp:75-124 | the fault, if the entry forbids the access, is the access transition |
| Pager.Pager.Read | Project3/my_vm_pager.cpp:75-124 | a load with at most one fault is the load transition |
| Pager.Pager.Write | Project3/my_vm_pager.cpp:75-124 | a store with at most one fault is the store transition |
| Pager.Pager.VmCreate | Project3/my_vm_pager.cpp:49-63 | the imperative create is the create transition |
| Pager.Pager.VmSwitch | Project3/my_vm_pager.cpp:65-73 | the imperative switch is the switch transition |
| Pager.Pager.VmMapPrivate | Project3/my_vm_pager.cpp:157-186 | returns the address right behind the arena exactly if that has room and a block may be reserved, otherwise nothing |
| Pager.Pager.VmMapFile | Project3/my_vm_pager.cpp:157-246 | returns the address of the new file page, or nothing when the arena is full or the name cannot be read |
| Pager.Pager.VmDestroy | Project3/my_vm_pager.cpp:126-155 | the cleaning loop leaves exactly what the exit transition says |
| FsModel.LookupIsKid | Project4/file_server.cpp:124-154 | on a well-formed disk the nested scan finds exactly the child of that name |
| FsModel.ResolveIsFollow | Project4/file_server.cpp:89-122 | walking the disk name by name is following the children of the tree |
| FsModel.OnePath | Project4/file_server.cpp:89-122 | no inode is reached by two paths |
| FsModel.PathTo | Project4/file_server.cpp:89-122 | every live inode is reached by a path |
| FsModel.ReachedIsUse | Project4/file_server.cpp:11-59 | the blocks the tree reaches are exactly those owned by live inodes |
| FsCommits.LooseWrite | Project4/file_server.cpp:254-255 | a write to a block no inode owns keeps the disk well formed and the tree unchanged |
| FsCommits.HangInSlotCommits | Project4/file_server.cpp:241-255 | writing the entry commits a create: one well-formed disk to another that differs at the new path only |
| FsCommits.HangInBlockCommits | Project4/file_server.cpp:225-260 | writing the parent's inode commits a create that added a directory block |
| FsCommits.CutInSlotCommits | Project4/file_server.cpp:309-331 | writing the directory block commits a delete: exactly that path disappears |
| FsCommits.CutBlockCommits | Project4/file_server.cpp:318-328 | writing the parent's inode without an emptied block commits a delete, and no empty block remains |
| FsCommits.OverwrittenCommits | Project4/file_server.cpp:463-464 | writing a data block commits a write inside a file |
| FsCommits.AppendedCommits | Project4/file_server.cpp:447-467 | writing the inode commits a write behind the end of a file |
| FsInvariant.InitialInv | Project4/file_server.cpp:61-68 | a freshly started server satisfies the concurrent invariant |
| FsInvariant.PcStable | Project4/file_server.cpp:89-122 | what a handler relies on survives any change that satisfies the frame `Stable` of another handler's locks; `ReuseStays`, `GrowStays`, `PutStays`, `AppendStays`, `CutStays`, `WriteStable` and `HandOverStable` prove that frame for each kind of step |
| FsTargetSteps.FreeSlotFromWorks | Project4/file_server.cpp:133-151 | the scan returns the first entry that can be filled in, and none only if there is none |
| FsWalkSteps.WalkKeeps | Project4/file_server.cpp:89-122 | every step of the walk, of the hand-over of locks and of giving up keeps the invariant |
| FsCommitSteps.ReuseCommits | Project4/file_server.cpp:241-255 | the last write of a create that reuses an entry keeps the invariant and has the effect of the request |
| FsCommitSteps.GrowCommits | Project4/file_server.cpp:225-260 | the last write of a create that adds a block keeps the invariant and has the effect of the request |
| FsDataSteps.PutCommits | Project4/file_server.cpp:463-464 | overwriting keeps the invariant and has the effect of the request |
| FsDataSteps.AppendCommits | Project4/file_server.cpp:447-467 | appending keeps the invariant and has the effect of the request |
| FsDeleteSteps.CutCommits | Project4/file_server.cpp:301-333 | the one write of a delete keeps the invariant and has the effect of the request; afterwards the handler alone holds exactly the unlinked blocks, none of which is in the free queue |
| FsTargetSteps.CreateAtKeeps | Project4/file_server.cpp:202-221 | the checks of a create lead to a position whose facts hold |
| FsTargetSteps.DeleteAtKeeps | Project4/file_server.cpp:291-299 | the checks of a delete lead to the child it will lock |
| FsTargetSteps.DataAtKeeps | Project4/file_server.cpp:375-380 | the checks of a read or write lead to the block it will use |
| FsTargetSteps.FreeEntriesKeeps | Project4/file_server.cpp:326-327 | the emptied directory block, by then the handler's own and no inode's, goes to the back of the free queue; the disk stays |
| FsRuns.StepKeeps | Project4/file_server.cpp:89-473 | every step of every handler keeps the invariant, and either leaves the tree alone or is the one step that carries the request out, as if alone |
| FsRuns.Linearizable | Project4/file_server.cpp:163-473 | at every moment of every interleaving, so wherever a crash stops it, the disk is well formed and shows the initial tree after the committed requests, one at a time |
| FsRuns.LogOnce | Project4/file_server.cpp:163-473 | no request takes effect twice, and exactly the committed ones did |
| FsRuns.OrderDetermines | Project4/file_server.cpp:163-473 | the order of commits determines the tree |
| FsRuns.ReadAnswers | Project4/file_server.cpp:369-383 | the reading step succeeds exactly if the tree shows an own file with that block, and takes its contents as the answer |
| FsAnswers.AnswersWereTrue | Project4/file_server.cpp:348-388 | in every run, what a finished read reports was in that block of an own file at some moment of the run |
| FsAnswers.FailuresWereJustified | Project4/file_server.cpp:163-473 | in every run, a request that failed was refused at some moment at which the tree did not allow it or space had run out |
| FsAnswers.ReportsAreTrue | Project4/file_server.cpp:163-473 | in every run, a handler finished with success has taken effect once or answered truly, and one finished with failure never takes effect and had a reason |
| FsGuarantees.BlockOwners | Project4/file_server.cpp:156-342 | in every reachable state each block is reached from the root, or once in the free queue, or held by exactly one handler |
| FsGuarantees.FreedWereUnlinked | Project4/file_server.cpp:318-342 | a block joins the free queue only out of the hands of the handler that steps, when the tree no longer reaches it: after the write that unlinked it |
| FsGuarantees.QueueInOrder | Project4/file_server.cpp:156-161 | every step of every handler uses the free queue first in, first out |
| FsGuarantees.LocksProtect | Project4/file_server.cpp:97-121 | while a handler holds a lock on an inode, no other step changes it or its blocks or takes it off its path |
| FsGuarantees.FinishedHoldsNothing | Project4/file_server.cpp:188-201 | a finished handler holds no lock and no block, and succeeded exactly if it committed |
| FsGuarantees.AllReturned | Project4/file_server.cpp:334-342 | when all handlers are done, the free queue is exactly the unreached blocks and all locks are open |
| FsProgress.OnlyLocksBlock | Project4/file_server.cpp:97-121 | a handler waits for nothing but a lock that is taken |
| FsProgress.WaitsExactlyIf | Project4/file_server.cpp:97-121 | a handler waits exactly if it wants a lock that is taken alone, or wants one alone that is taken: readers never wait for readers |
| FsProgress.WaitsBelow | Project4/file_server.cpp:97-121 | a waiting handler holds at most the lock of the directory right above the inode it waits for |
| FsProgress.DeadlockFree | Project4/file_server.cpp:97-121 | in every reachable state with an unfinished handler some handler can step without needing a lock that anybody holds |
| FsProgress.RunsEnd | Project4/file_server.cpp:89-473 | no run takes more steps than a bound computed from its start |
| FsProgress.StuckMeansDone | Project4/file_server.cpp:89-473 | a run that cannot go on has finished every handler and returned every lock and block |
| FsRefusals.RefusalsAreJustified | Project4/file_server.cpp:163-473 | a request fails only at a moment at which the tree does not allow it or space has run out |
| FsRefusals.ReusesAnEntry | Project4/file_server.cpp:133-149 | an allowed create fills in the first entry that is unused and outside block 125, and adds a block exactly if there is none |
| FsWrites.LeftoverIs | Project4/file_server.cpp:142-149 | an added block gets its entry where the last unused entry of the directory was, or first |
| FsSentinel.SentinelWellFormed | Project4/file_server.cpp:133-154 | a disk whose root has one entry, in block 125, spells out a tree |
| FsSentinel.OverlooksEntries | Project4/file_server.cpp:133-154 | on that disk the scan overlooks seven unused entries |
| FsSentinel.RefusedBesideUnusedEntries | Project4/file_server.cpp:202-230 | a run from a fresh server on that disk: with one block left for it, an allowed create wants a new directory block and is refused beside seven unused entries |
| FsRestart.AllSeen | Project4/file_server.cpp:22-55 | when the queue is empty the traversal has come to every inode of the tree |
| FsRestart.InitFreeBlocks | Project4/file_server.cpp:11-59 | the scan terminates and queues, in ascending order, exactly the blocks the tree does not reach |
| FsRestart.RestartAgrees | Project4/file_server.cpp:11-59 | after any finished run a rescan yields the live free set |
| FsRestart.RestartReclaims | Project4/file_server.cpp:11-59 | after a crash at any moment a rescan yields the free blocks and what the handlers held |
| FsSolo.FillCommits | Project4/file_server.cpp:241-255 | a create in an unused entry, run alone: both disks it writes are sound, and the second has its effect |
| FsSolo.LinkCommits | Project4/file_server.cpp:225-260 | a create with a new directory block, run alone: all three disks are sound, and the last has its effect |
| FsSolo.ExtendCommits | Project4/file_server.cpp:447-467 | an append, run alone: both disks are sound, and the second has its effect |
| FsSolo.RemoveCommits | Project4/file_server.cpp:301-342 | a delete, run alone, has its effect and frees exactly the unlinked blocks |
| FileServer.FileServer.constructor | Project4/file_server.cpp:61-68 | a server started on a well-formed disk has exactly the unreached blocks in its queue |
| FileServer.FileServer.CheckExistance | Project4/file_server.cpp:124-154 | the nested loops report the position of the name, or the first entry to fill in, with its block's entries |
| FileServer.FileServer.TraverseDir | Project4/file_server.cpp:89-122 | arrives at the inode of the path, or the request is not allowed |
| FileServer.FileServer.HandleCreate | Project4/file_server.cpp:163-265 | succeeds exactly if allowed and there is room, with exactly the effect of the request, the writes of `FsWrites.CreateWrites` in order, and blocks from the front of the queue; otherwise the disk stays and the block taken goes to the back; every write is atomic |
| FileServer.FileServer.HandleDelete | Project4/file_server.cpp:267-346 | succeeds exactly if allowed, with exactly the effect of the request, the one write of `FsWrites.DeleteWrites`, and the unlinked blocks queued in order; every write is atomic |
| FileServer.FileServer.HandleReadblock | Project4/file_server.cpp:348-388 | succeeds exactly if allowed and answers with the block the tree shows |
| FileServer.FileServer.HandleWriteblock | Project4/file_server.cpp:390-473 | succeeds exactly if allowed and there is room, with exactly the effect of the request, the writes of `FsWrites.DataWrites` in order, and a block from the front of the queue; every write is atomic |
| FileServer.FileServer.ShiftDown | Project4/file_server.cpp:320-324 | the in-place shift removes exactly one block number |
| ThreadProofs.SwapKeeps | Project2/thread_lib.cpp:154-170 | a switch after the running thread was parked settles the machine again |
| ThreadProofs.ReleaseKeeps | Project2/mutex.cpp:44-54 | a release hands the mutex to the first waiter or frees it, and keeps the invariant |
| ThreadProofs.BroadcastKeeps | Project2/cv.cpp:67-77 | a broadcast empties the queue into the ready queue and keeps the invariant |
| ThreadProofs.ForgetKeeps | Project2/thread_lib.cpp:42-62 | the end of a thread whose joiners were woken keeps the invariant |
| ThreadRuns.BootInv | Project2/thread_lib.cpp:85-123 | the machine boots into the invariant, with one thread, running, and every mutex free |
| ThreadRuns.CallKeeps | Project2/thread_lib.cpp:34-198 | every call of every thread keeps the invariant |
| ThreadRuns.RunsKeep | Project2/thread_lib.cpp:85-123 | the invariant holds in every run |
| ThreadRuns.MutualExclusion | Project2/mutex.cpp:17-62 | at most one thread is between its return from `lock` or `wait` and its next release, it is the recorded owner, a free mutex has no waiters, and a taken one has an owner there or ready to go there |
| ThreadRuns.OnePlace | Project2/thread_lib.cpp:154-198 | every unfinished thread is in exactly one place, exactly once |
| ThreadRuns.StoppedMeansBlocked | Project2/thread_lib.cpp:109-122 | the machine stops only when all unfinished threads are blocked |
| ThreadRuns.LockTakesOrWaits | Project2/mutex.cpp:17-32 | a lock of a free mutex returns as its owner; of a taken one it waits last in line off the CPU |
| ThreadRuns.UnlockGivesUp | Project2/mutex.cpp:39-62 | after its owner's `unlock` a mutex is free if nobody waited, and the first waiter's, ready, otherwise; by anybody else nothing changes |
| ThreadFairness.LineMoves | Project2/mutex.cpp:39-62 | while threads wait for a mutex, its owner's `unlock` or `wait` makes the first in line the owner and ready; every other call, by anyone, leaves owner and line alone but for arrivals at the end |
| ThreadFairness.MutexMovesUp | Project2/mutex.cpp:39-62 | in every run a thread behind k others in the line of a mutex is behind k - n of them after n releases |
| ThreadFairness.MutexTurnComes | Project2/mutex.cpp:39-62 | in every run with more than k releases it is the owner, ready or running, right after the (k+1)-th |
| ThreadRuns.WaitGivesUp | Project2/cv.cpp:14-38 | a wait queues the owner, gives up the mutex and the CPU; by a thread that does not own it, nothing changes |
| ThreadFairness.WaiterMovesUp | Project2/cv.cpp:55-77 | in every run a thread behind k others in the line of a condition variable is behind k - n of them after n wake-ups |
| ThreadFairness.WaiterTurnComes | Project2/cv.cpp:55-77 | in every run with more than k wake-ups some call of the run wakes it: a signal that finds it first in line, or a broadcast |
| ThreadFairness.OnlyWokenLeave | Project2/cv.cpp:55-77 | a thread that a run takes off a condition variable was signalled in it as the first in line, or broadcast to |
| ThreadRuns.HandOffInOrder | Project2/mutex.cpp:39-62 | a mutex passes along its queue in order; nobody overtakes |
| ThreadRuns.OnlySignalsWake | Project2/cv.cpp:55-77 | a thread leaves a condition variable's queue only by a signal as the first in line, or by a broadcast |
| ThreadRuns.ReturnsAsOwner | Project2/cv.cpp:14-53 | a thread that comes out of `wait`, or of a `lock` it waited in, owns the mutex |
| ThreadRuns.OnlyOwnerReleases | Project2/mutex.cpp:39-62 | a thread gives a mutex up only by its own `unlock` or `wait` |
| ThreadRuns.JoinersWokenByFinish | Project2/thread_lib.cpp:42-47 | a joiner becomes ready exactly when its target finishes |
| ThreadRuns.CallQueues | Project2/thread_lib.cpp:154-170 | every call adds to the ready queue exactly those it makes ready, in order, and a dispatch takes its front |
| ThreadRuns.TurnComes | Project2/thread_lib.cpp:154-184 | a ready thread behind k others is the one picked by the (k+1)-th dispatch, in every run |
| ThreadRuns.YieldGoesLast | Project2/thread_lib.cpp:172-184 | a `yield` runs the first ready thread and puts the caller behind all ready ones; with nobody ready it changes nothing |
| ThreadRuns.YieldComesBack | Project2/thread_lib.cpp:172-184 | in every run a thread that yielded to k others does not run before, and does run as, the k-th one dispatched after the switch |
| ThreadRuns.JoinParks | Project2/thread_lib.cpp:186-198 | a `join` on an unfinished thread queues the caller on it, off the CPU; on a finished one it changes nothing |
| ThreadRuns.JoinWaits | Project2/thread_lib.cpp:186-198 | in every run a thread that joined an unfinished one runs again only when that one has finished |
| ThreadLines.CallLines | Project2/thread_lib.cpp:34-198 | every call sends exactly the threads of its moves, in order, to the ends of their lines, leaves the order of all others, and dispatches the first ready thread exactly if that leaves the CPU empty |
| ThreadLines.CallOwners | Project2/mutex.cpp:17-62 | who is between taking and releasing which mutex after a call, and where every thread goes on, both ways |
| ThreadLines.OwnerInside | Project2/mutex.cpp:34-37 | the running thread passes the ownership check of exactly the mutexes that it has taken and not released |
| ThreadLines.ComesBackAsOwner | Project2/cv.cpp:40-52 | in every run a thread that waits for a mutex, in `lock` or in `wait`, goes on in its program only as its owner |
| ThreadLines.WaitComesBack | Project2/cv.cpp:14-53 | in every run a `wait` returns only with the mutex it was called with |
| ThreadLibrary.Processor.constructor | Project2/thread_lib.cpp:85-123 | boots with one thread running |
| ThreadLibrary.Processor.SwapHelper | Project2/thread_lib.cpp:154-170 | the switch as a transition of the processor |
| ThreadLibrary.Processor.Yield | Project2/thread_lib.cpp:172-184 | the yield transition, which `ThreadRuns.YieldGoesLast` describes |
| ThreadLibrary.Processor.Join | Project2/thread_lib.cpp:186-198 | the join transition, which `ThreadRuns.JoinParks` describes |
| ThreadLibrary.Processor.Create | Project2/thread_lib.cpp:125-146 | the create transition |
| ThreadLibrary.Processor.Finish | Project2/thread_lib.cpp:34-63 | the draining loop and the final switch are the finish transition |
| ThreadLibrary.Mutex.CheckOwnership | Project2/mutex.cpp:34-37 | true exactly for the running owner of a taken mutex |
| ThreadLibrary.Mutex.Acquire | Project2/mutex.cpp:17-32 | the lock transition |
| ThreadLibrary.Mutex.Unlock | Project2/mutex.cpp:39-62 | throws exactly for a thread that is not the owner; otherwise gives the mutex up as `ThreadRuns.UnlockGivesUp` says |
| ThreadLibrary.Cv.Wait | Project2/cv.cpp:14-38 | the first half of wait; throws exactly for a thread that does not own the mutex |
| ThreadLibrary.Cv.Reacquire | Project2/cv.cpp:40-52 | the second half of wait |
| ThreadLibrary.Cv.Signal | Project2/cv.cpp:55-65 | the signal transition |
| ThreadLibrary.Cv.Broadcast | Project2/cv.cpp:67-77 | the loop wakes all waiters in order |
| SchedulerModel.Nearest | Project1/scheduler.cpp:44-54 | the first request of minimal distance to the head |
| SchedulerProofs.InitialInv | Project1/scheduler.cpp:118-146 | the start satisfies the invariant |
| SchedulerProofs.StepKeeps | Project1/scheduler.cpp:33-116 | every critical section keeps: full flag exact, count of active requesters exact, one queued request each, no lost wake-up |
| SchedulerProofs.Progress | Project1/scheduler.cpp:39-97 | until the server is done, some awake thread has a false wait condition |
| SchedulerProofs.StepShortens | Project1/scheduler.cpp:55-113 | each submit and each serve brings twice the unsubmitted requests plus the queue length down by one |
| SchedulerProofs.RunsEnd | Project1/scheduler.cpp:33-116 | no run is longer than its measure |
| SchedulerProofs.ServesNearestOfFull | Project1/scheduler.cpp:39-58 | the server serves the nearest request, and only when the queue is as full as it can get |
| SchedulerHistory.LogsAreSchedules | Project1/scheduler.cpp:33-116 | what any interleaving, stopped anywhere, has printed is exactly what the rule allows: requests in file order while there is room, and then the nearest of the outstanding ones, the earliest of equals, from where the last service left the head |
| SchedulerHistory.SleepsAndWakes | Project1/scheduler.cpp:39-113 | a thread goes to sleep exactly on a true wait condition and changes nothing else then; a submit wakes the server, a service all requesters |
| SchedulerProofs.StuckMeansServed | Project1/scheduler.cpp:33-116 | every run that cannot go on has served each request exactly once, each requester's in file order |
| SchedulerProofs.Completion | Project1/scheduler.cpp:33-116 | from every reachable state the end can be reached |
| SchedulerProofs.EndsExactlyIf | Project1/scheduler.cpp:33-146 | the server can come to its end if and only if there are requesters, the queue has room and no file is empty |
| Scheduler.Monitor.constructor | Project1/scheduler.cpp:118-146 | sets up the start |
| Scheduler.Monitor.FindTarget | Project1/scheduler.cpp:44-54 | the loop finds the first nearest request |
| Scheduler.Monitor.ServerSection | Project1/scheduler.cpp:35-73 | the server's critical section is the server's step |
| Scheduler.Monitor.RequesterSection | Project1/scheduler.cpp:91-114 | a requester's critical section is the requester's step |

## Left out

- Sockets, request headers, path splitting, number checks, port setup: the file server starts from a user name, a list
  of names, a type, a block index and the data.
- Raw bytes of disk blocks: blocks are typed, the unused tail of an inode's block array and the names left in unused
  entries are not kept, and strings have no length limits.
- Disk reads as steps of their own: a read happens in the step that uses it; `FsGuarantees.LocksProtect` says why a lock
  held keeps what was read from changing.
- Locks in the class `FileServer`: it runs one handler at a time; the locks are those of the step machine.
- Fairness of the locks: which waiter gets one next is left open, so no bound on one handler's waiting is claimed.
- Page tables, virtual pages and control blocks as heap objects: they are values named by numbers, so aliasing of
  pointers is not modelled.
- The packing of frame numbers into 20 bits, addresses below the arena, and termination of names by anything but a zero
  byte inside the arena.
- Forks that copy a non-empty arena, because the code gives the child an empty one.
- Stacks, contexts, interrupt flags, multiple CPUs and failing allocation in the thread library.
- The order in which a condition variable of the disk scheduler wakes threads, and what the threads do between their
  critical sections.
- Test programs, prebuilt file systems and build files.
