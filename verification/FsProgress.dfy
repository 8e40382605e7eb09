/** No deadlock, and no endless work: some unfinished handler can always step, and every step brings one handler
    closer to its end. */
module FsProgress {
  import opened Common
  import opened FsModel
  import opened FsCommits
  import opened FsThreads
  import opened FsInvariant
  import opened FsWalkSteps
  import opened FsCommitSteps
  import opened FsDataSteps
  import opened FsDeleteSteps
  import opened FsTargetSteps
  import opened FsRuns
  import opened FsGuarantees

  // ---------------------------------------------------------------- waiting

  /** The inode whose lock a handler is about to take. */
  function Wants(th: Thread): Option<nat> {
    match th.pc
    case LockRoot => Some(0)
    case LockNext(_, _, next) => Some(next)
    case LockTarget(_, target) => Some(target)
    case LockChild(_, child, _, _, _, _) => Some(child)
    case _ => None
  }

  ghost predicate Locked(s: State, i: nat) {
    i in s.excl || exists t :: Hold(t, i) in s.shared
  }

  /** A handler that wants no lock can step. */
  lemma WalksOn(s: State, t: int)
    requires Inv(s) && t in s.threads && Walking(s.threads[t].pc) && Wants(s.threads[t]).None?
    ensures StepWalk(s, t).Some?
  {
    Facts(s, t);
    hide Inv, LinksOk, EntriesOk, KidsOk, InodesOk, HeldOk, Lookup;
  }

  lemma CreatesOn(s: State, t: int)
    requires Inv(s) && t in s.threads && s.threads[t].req.CreateReq? && !Walking(s.threads[t].pc)
    requires !s.threads[t].pc.Finished?
    ensures StepCreate(s, t).Some?
  {
    CreatePlace(s, t);
    hide Inv, StepCreate;
    match s.threads[t].pc
    case AtTarget(_) => CreateAtKeeps(s, t);
    case Refuse(_) => RefuseStep(s, t);
    case NeedEntries(_, _) => NeedKeeps(s, t);
    case ReuseInode(_, _, _, _) => CreateWriteKeeps(s, t);
    case ReuseEntry(_, _, _, _) => ReuseCommits(s, t);
    case GrowInode(_, _, _) => CreateWriteKeeps(s, t);
    case GrowEntries(_, _, _) => CreateWriteKeeps(s, t);
    case GrowParent(_, _, _) => GrowCommits(s, t);
    case _ =>
  }

  lemma CreatePlace(s: State, t: int)
    requires Inv(s) && t in s.threads && s.threads[t].req.CreateReq? && !Walking(s.threads[t].pc)
    requires !s.threads[t].pc.Finished?
    ensures var pc := s.threads[t].pc;
      || pc.AtTarget? || pc.Refuse? || pc.NeedEntries? || pc.ReuseInode? || pc.ReuseEntry?
      || pc.GrowInode? || pc.GrowEntries? || pc.GrowParent?
  {
    hide WellFormed, FreeOk, PrivateOk, LocksOk, Arrived;
  }

  lemma DeletesOn(s: State, t: int)
    requires Inv(s) && t in s.threads && s.threads[t].req.DeleteReq? && !Walking(s.threads[t].pc)
    requires !s.threads[t].pc.Finished? && Wants(s.threads[t]).None?
    ensures StepDelete(s, t).Some?
  {
    DeletePlace(s, t);
    var pc := s.threads[t].pc;
    if pc.AtTarget? {
      DeleteAtKeeps(s, t);
    } else if pc.FreeEntries? {
      FreeEntriesKeeps(s, t);
    } else if pc.AtChild? && MayDelete(s.fs.d, s.threads[t].req.user, pc.child) {
      CutCommits(s, t);
    }
    hide Inv;
  }

  lemma DeletePlace(s: State, t: int)
    requires Inv(s) && t in s.threads && s.threads[t].req.DeleteReq? && !Walking(s.threads[t].pc)
    requires !s.threads[t].pc.Finished?
    ensures var pc := s.threads[t].pc;
      pc.AtTarget? || pc.LockChild? || pc.AtChild? || pc.FreeEntries? || pc.UnlockChild?
  {
    hide WellFormed, FreeOk, PrivateOk, LocksOk, Arrived;
  }

  lemma DataOn(s: State, t: int)
    requires Inv(s) && t in s.threads && (s.threads[t].req.ReadReq? || s.threads[t].req.WriteReq?)
    requires !Walking(s.threads[t].pc)
    requires !s.threads[t].pc.Finished?
    ensures StepData(s, t).Some?
  {
    DataPlace(s, t);
    hide Inv, StepData;
    match s.threads[t].pc
    case AtTarget(_) => DataAtKeeps(s, t);
    case NeedData(_, _) => NeedDataKeeps(s, t);
    case PutData(_, _) => PutCommits(s, t);
    case GrowData(_, _) => DataWriteKeeps(s, t);
    case GrowFile(_, _) => AppendCommits(s, t);
    case _ =>
  }

  lemma DataPlace(s: State, t: int)
    requires Inv(s) && t in s.threads && (s.threads[t].req.ReadReq? || s.threads[t].req.WriteReq?)
    requires !Walking(s.threads[t].pc)
    requires !s.threads[t].pc.Finished?
    ensures var pc := s.threads[t].pc; pc.AtTarget? || pc.NeedData? || pc.PutData? || pc.GrowData? || pc.GrowFile?
  {
    hide WellFormed, FreeOk, PrivateOk, LocksOk, Arrived;
  }

  lemma WaitsForLock(s: State, t: int)
    requires Inv(s) && t in s.threads && !s.threads[t].pc.Finished? && Next(s, t).None? && Wants(s.threads[t]).Some?
    ensures Locked(s, Wants(s.threads[t]).value)
  {
    if s.threads[t].pc.LockChild? { DeleteWants(s, t); }
    hide Inv, Lookup;
  }

  lemma DeleteWants(s: State, t: int)
    requires Inv(s) && t in s.threads && s.threads[t].pc.LockChild?
    ensures s.threads[t].req.DeleteReq?
  {
    hide WellFormed, FreeOk, PrivateOk, LocksOk, Arrived;
  }

  /** The only thing a handler ever waits for is a lock that another step has taken. */
  lemma OnlyLocksBlock(s: State, t: int)
    requires Inv(s) && t in s.threads && !s.threads[t].pc.Finished? && Next(s, t).None?
    ensures Wants(s.threads[t]).Some? && Locked(s, Wants(s.threads[t]).value)
  {
    hide Inv, StepWalk, StepCreate, StepDelete, StepData, Locked;
    if Wants(s.threads[t]).None? {
      if Walking(s.threads[t].pc) { WalksOn(s, t); }
      else if s.threads[t].req.CreateReq? { CreatesOn(s, t); }
      else if s.threads[t].req.DeleteReq? { DeletesOn(s, t); }
      else { DataOn(s, t); }
    } else {
      WaitsForLock(s, t);
    }
  }

  /** The lock is wanted together with others, by the walk and by reads. */
  predicate WantsShared(th: Thread) {
    th.pc.LockRoot? || th.pc.LockNext? || (th.pc.LockTarget? && th.req.ReadReq?)
  }

  /** Somebody holds the lock in a way that `th` cannot share. */
  ghost predicate KeepsOut(s: State, th: Thread, i: nat) {
    if WantsShared(th) then i in s.excl else Locked(s, i)
  }

  /** A handler waits exactly if it wants a lock that is taken alone, or wants one alone that is taken: readers never
      wait for readers. */
  lemma WaitsExactlyIf(s: State, t: int)
    requires Inv(s) && t in s.threads && !s.threads[t].pc.Finished?
    ensures Next(s, t).None? <==>
      Wants(s.threads[t]).Some? && KeepsOut(s, s.threads[t], Wants(s.threads[t]).value)
  {
    if Next(s, t).None? { OnlyLocksBlock(s, t); }
    if s.threads[t].pc.LockChild? { DeleteWants(s, t); }
    hide Inv, Lookup, StepCreate, StepData;
  }

  // ---------------------------------------------------------------- no deadlock

  function Holding(th: Thread): set<nat> {
    SharedBy(th) + ExclBy(th)
  }

  /** A handler that waits holds at most the lock of the directory right above the inode it waits for. */
  lemma WaitsBelow(s: State, t: int)
    requires Inv(s) && t in s.threads && Wants(s.threads[t]).Some?
    ensures var w := Wants(s.threads[t]).value;
      && w in s.fs.link
      && (forall i :: i in Holding(s.threads[t]) ==> i in s.fs.link && s.fs.link[w].depth == s.fs.link[i].depth + 1)
  {
    Facts(s, t);
    var f := s.fs;
    var th := s.threads[t];
    hide Inv, EntriesOk, InodesOk, HeldOk, Arrived, On, Passed, Follow;
    var w := Wants(th).value;
    if w != 0 {
      WantsKid(f, th);
      assert Hangs(f, w);
    }
    hide LinksOk;
    if th.pc.LockChild? { ChildIsNotRoot(f, th); }
  }

  lemma WantsKid(f: Fs, th: Thread)
    requires KidsOk(f) && PcOk(f, th) && Wants(th).Some? && Wants(th).value != 0
    ensures Wants(th).value in f.link && forall i :: i in Holding(th) ==> f.link[Wants(th).value].parent == i
  {
    hide Arrived, On, Passed;
  }

  lemma ChildIsNotRoot(f: Fs, th: Thread)
    requires KidsOk(f) && PcOk(f, th) && th.pc.LockChild?
    ensures th.pc.child != 0
  {
    hide Arrived;
  }

  lemma {:induction false} DepthBound(f: Fs, live: set<nat>) returns (bound: nat)
    requires live <= f.link.Keys
    ensures forall i :: i in live ==> f.link[i].depth <= bound
  {
    if live == {} {
      bound := 0;
    } else {
      var i :| i in live;
      var rest := DepthBound(f, live - {i});
      bound := if f.link[i].depth > rest then f.link[i].depth else rest;
    }
  }

  /** How far a waiting handler is above the deepest inode. */
  ghost function Room(s: State, t: int, bound: nat): int
    requires t in s.threads
  {
    var w := Wants(s.threads[t]);
    if w.Some? && w.value in s.fs.link then bound - s.fs.link[w.value].depth else bound + 1
  }

  lemma SomeHolder(s: State, i: nat) returns (u: int)
    requires Inv(s) && Locked(s, i)
    ensures u in s.threads && i in Holding(s.threads[u]) && !s.threads[u].pc.Finished?
  {
    assert LocksOk(s.excl, s.shared, s.threads);
    hide Inv;
    if i in s.excl {
      u := s.excl[i];
    } else {
      u :| Hold(u, i) in s.shared;
      assert i in SharedBy(s.threads[u]);
    }
  }

  /** The handler can step, and if it is about to take a lock, nobody holds that lock in any way. */
  ghost predicate Free(s: State, t: int)
    requires t in s.threads
  {
    Next(s, t).Some? && (Wants(s.threads[t]).Some? ==> !Locked(s, Wants(s.threads[t]).value))
  }

  lemma FreeOrWaiting(s: State, t: int)
    requires Inv(s) && t in s.threads && !s.threads[t].pc.Finished?
    ensures Free(s, t) || (Wants(s.threads[t]).Some? && Locked(s, Wants(s.threads[t]).value))
  {
    hide Inv, Next, Locked, Wants;
    if Next(s, t).None? { OnlyLocksBlock(s, t); }
  }

  /** From any unfinished handler, following who holds the lock it waits for leads to one that can step: each hop goes
      one directory down. */
  lemma {:induction false} Unblocked(s: State, t: int, bound: nat) returns (u: int)
    requires Inv(s) && t in s.threads && !s.threads[t].pc.Finished?
    requires forall i :: i in s.fs.link ==> s.fs.link[i].depth <= bound
    ensures u in s.threads && Free(s, u)
    decreases Room(s, t, bound)
  {
    hide Inv, Next, Locked, Holding, Wants, Free;
    FreeOrWaiting(s, t);
    if Free(s, t) {
      u := t;
    } else {
      WaitsBelow(s, t);
      var v := SomeHolder(s, Wants(s.threads[t]).value);
      FreeOrWaiting(s, v);
      if Free(s, v) {
        u := v;
      } else {
        WaitsBelow(s, v);
        u := Unblocked(s, v, bound);
      }
    }
  }

  /** In every reachable state in which some handler is not done, some handler can step without waiting for anybody,
      whichever way the locks choose between those who wait. */
  lemma DeadlockFree(s: State)
    requires Inv(s) && !AllFinished(s)
    ensures exists u :: u in s.threads && Free(s, u)
  {
    hide Inv, Free;
    var t :| t in s.threads && !s.threads[t].pc.Finished?;
    var bound := DepthBound(s.fs, s.fs.link.Keys);
    var u := Unblocked(s, t, bound);
  }

  // ---------------------------------------------------------------- every run comes to its end

  /** A bound on the steps a handler still takes. */
  function StepsLeft(th: Thread): nat {
    var l := |Walk(th.req)|;
    match th.pc
    case Start => 4 * l + 17
    case LockRoot => 4 * l + 16
    case Search(_, n) => if n < l then 4 * (l - n) + 12 else 0
    case LockNext(_, n, _) => if n < l then 4 * (l - n) + 11 else 0
    case DropPrevious(_, n, _) => if n < l then 4 * (l - n) + 10 else 0
    case CheckDir(_, n) => if n < l then 4 * (l - n) + 13 else 0
    case Abort(_) => 2
    case GiveBack => 1
    case LockTarget(_, _) => 14
    case DropParent(_, _) => 13
    case AtTarget(_) => 12
    case Refuse(_) => 3
    case NeedEntries(_, _) => 11
    case ReuseInode(_, _, _, _) => 11
    case ReuseEntry(_, _, _, _) => 10
    case GrowInode(_, _, _) => 10
    case GrowEntries(_, _, _) => 9
    case GrowParent(_, _, _) => 8
    case LockChild(_, _, _, _, _, _) => 11
    case AtChild(_, _, _, _, _, _) => 10
    case FreeEntries(_, _) => 9
    case UnlockChild(_, _, _) => 8
    case NeedData(_, _) => 11
    case PutData(_, _) => 11
    case GrowData(_, _) => 10
    case GrowFile(_, _) => 9
    case Unlock(_, _, _) => 2
    case FreeAll => 1
    case Finished(_, _) => 0
  }

  lemma WalkShortens(s: State, t: int)
    requires t in s.threads && Walking(s.threads[t].pc) && StepWalk(s, t).Some? && t in StepWalk(s, t).value.threads
    requires s.threads[t].pc.DropPrevious? ==> s.threads[t].pc.n + 1 < |Walk(s.threads[t].req)|
    requires s.threads[t].pc.CheckDir? || s.threads[t].pc.LockNext? ==> s.threads[t].pc.n < |Walk(s.threads[t].req)|
    ensures StepsLeft(StepWalk(s, t).value.threads[t]) < StepsLeft(s.threads[t])
  {
    hide Walk, Lookup, Freed, CanShare, CanOwn, IsDir;
  }

  lemma CreateShortens(s: State, t: int)
    requires t in s.threads && s.threads[t].req.CreateReq? && StepCreate(s, t).Some?
    requires t in StepCreate(s, t).value.threads
    ensures StepsLeft(StepCreate(s, t).value.threads[t]) < StepsLeft(s.threads[t])
  {
    hide StepCreate, StepsLeft;
    NoCreateStep(s, t);
    var pc := s.threads[t].pc;
    if pc.ReuseEntry? || pc.GrowParent? {
      CreateUnlocks(s, t);
      assert StepsLeft(StepCreate(s, t).value.threads[t]) == 2 by { UnlockLeft(StepCreate(s, t).value.threads[t]); }
      CommitLeft(s.threads[t]);
    } else if pc.ReuseInode? || pc.GrowInode? || pc.GrowEntries? {
      CreateWriteShortens(s, t);
    } else {
      CreateCheckShortens(s, t);
    }
  }

  lemma UnlockLeft(th: Thread)
    requires th.pc.Unlock?
    ensures StepsLeft(th) == 2
  {
  }

  lemma CommitLeft(th: Thread)
    requires th.pc.ReuseEntry? || th.pc.GrowParent?
    ensures StepsLeft(th) > 2
  {
  }

  lemma CreateWriteShortens(s: State, t: int)
    requires t in s.threads && s.threads[t].req.CreateReq? && StepCreate(s, t).Some?
    requires t in StepCreate(s, t).value.threads
    requires s.threads[t].pc.ReuseInode? || s.threads[t].pc.GrowInode? || s.threads[t].pc.GrowEntries?
    ensures StepsLeft(StepCreate(s, t).value.threads[t]) < StepsLeft(s.threads[t])
  {
    hide Walk, Lookup, FreeSlotFrom, LeftoverIndex, SlotsOf, OneSlot, Blocks, IsDir, Freed;
  }

  lemma CreateCheckShortens(s: State, t: int)
    requires t in s.threads && s.threads[t].req.CreateReq? && StepCreate(s, t).Some?
    requires t in StepCreate(s, t).value.threads
    requires s.threads[t].pc.AtTarget? || s.threads[t].pc.Refuse? || s.threads[t].pc.NeedEntries?
    ensures StepsLeft(StepCreate(s, t).value.threads[t]) < StepsLeft(s.threads[t])
  {
    hide Walk, Lookup, FreeSlotFrom, LeftoverIndex, SlotsOf, OneSlot, Blocks, IsDir, Freed;
  }

  lemma CreateUnlocks(s: State, t: int)
    requires t in s.threads && s.threads[t].req.CreateReq? && StepCreate(s, t).Some?
    requires t in StepCreate(s, t).value.threads
    requires s.threads[t].pc.ReuseEntry? || s.threads[t].pc.GrowParent?
    ensures StepCreate(s, t).value.threads[t].pc.Unlock?
  {
    hide HangInSlot, HangInBlock, IsEntries, Blocks;
  }

  lemma DeleteShortens(s: State, t: int)
    requires t in s.threads && s.threads[t].req.DeleteReq? && StepDelete(s, t).Some?
    requires t in StepDelete(s, t).value.threads
    ensures StepsLeft(StepDelete(s, t).value.threads[t]) < StepsLeft(s.threads[t])
  {
    hide Walk, FindFrom, SlotsOf, CutUse, CutLink, SlotAt, AllUnused, Blocks, Freed, CanOwn, IsDir;
  }

  lemma DataShortens(s: State, t: int)
    requires t in s.threads && (s.threads[t].req.ReadReq? || s.threads[t].req.WriteReq?) && StepData(s, t).Some?
    requires t in StepData(s, t).value.threads
    ensures StepsLeft(StepData(s, t).value.threads[t]) < StepsLeft(s.threads[t])
  {
    hide Walk, Appended, Contents, Blocks, IsFile;
  }

  lemma WalkPlace(s: State, t: int)
    requires Inv(s) && t in s.threads
    ensures s.threads[t].pc.DropPrevious? || s.threads[t].pc.LockNext? ==>
      s.threads[t].pc.n + 1 < |Walk(s.threads[t].req)|
    ensures s.threads[t].pc.CheckDir? ==> s.threads[t].pc.n < |Walk(s.threads[t].req)|
  {
    hide WellFormed, FreeOk, PrivateOk, LocksOk, Arrived;
  }

  /** Every step of a handler leaves it fewer steps to take. */
  lemma StepShortens(s: State, t: int)
    requires Inv(s) && t in s.threads && Next(s, t).Some?
    ensures t in Next(s, t).value.threads && StepsLeft(Next(s, t).value.threads[t]) < StepsLeft(s.threads[t])
  {
    StepKeeps(s, t);
    WalkPlace(s, t);
    assert Moved1(s, t, Next(s, t).value);
    hide Inv, StepWalk, StepCreate, StepDelete, StepData, StepsLeft, Quiet, Commits, Walk;
    if Walking(s.threads[t].pc) { WalkShortens(s, t); }
    else if s.threads[t].req.CreateReq? { CreateShortens(s, t); }
    else if s.threads[t].req.DeleteReq? { DeleteShortens(s, t); }
    else { DataShortens(s, t); }
  }

  ghost function Work(threads: map<int, Thread>, ts: set<int>): nat
    requires ts <= threads.Keys
  {
    if exists t :: t in ts then
      var t :| t in ts;
      StepsLeft(threads[t]) + Work(threads, ts - {t})
    else 0
  }

  lemma {:induction false} WorkSplits(threads: map<int, Thread>, ts: set<int>, t: int)
    requires ts <= threads.Keys && t in ts
    ensures Work(threads, ts) == StepsLeft(threads[t]) + Work(threads, ts - {t})
  {
    hide StepsLeft;
    var u :| u in ts && Work(threads, ts) == StepsLeft(threads[u]) + Work(threads, ts - {u});
    if u != t {
      WorkSplits(threads, ts - {u}, t);
      WorkSplits(threads, ts - {t}, u);
      assert ts - {u} - {t} == ts - {t} - {u};
    }
  }

  lemma {:induction false} WorkSame(threads: map<int, Thread>, threads': map<int, Thread>, ts: set<int>)
    requires ts <= threads.Keys && ts <= threads'.Keys && forall t :: t in ts ==> threads'[t] == threads[t]
    ensures Work(threads', ts) == Work(threads, ts)
  {
    hide StepsLeft;
    if exists t :: t in ts {
      var t :| t in ts;
      WorkSplits(threads, ts, t);
      WorkSplits(threads', ts, t);
      WorkSame(threads, threads', ts - {t});
    }
  }

  lemma StepLessWork(s: State, t: int)
    requires Inv(s) && t in s.threads && Next(s, t).Some?
    ensures Inv(Step(s, t)) && Work(Step(s, t).threads, Step(s, t).threads.Keys) < Work(s.threads, s.threads.Keys)
  {
    StepKeeps(s, t);
    StepShortens(s, t);
    hide Inv, Next, StepsLeft, Quiet, Commits;
    var n := Step(s, t);
    WorkSplits(s.threads, s.threads.Keys, t);
    WorkSplits(n.threads, n.threads.Keys, t);
    WorkSame(s.threads, n.threads, s.threads.Keys - {t});
  }

  /** Whenever `sched` names a handler, that handler can step. */
  ghost predicate Enabled(s: State, sched: seq<int>)
    decreases |sched|
  {
    sched == [] || (sched[0] in s.threads && Next(s, sched[0]).Some? && Enabled(Step(s, sched[0]), sched[1..]))
  }

  /** No run takes more steps than the work at its start. */
  lemma {:induction false} RunsEnd(s: State, sched: seq<int>)
    requires Inv(s) && Enabled(s, sched)
    ensures |sched| <= Work(s.threads, s.threads.Keys)
    decreases |sched|
  {
    hide Inv, Step, Work, Next;
    if sched != [] {
      StepLessWork(s, sched[0]);
      RunsEnd(Step(s, sched[0]), sched[1..]);
    }
  }

  /** A run that cannot go on has carried every handler to its end, and returned every lock and every block. */
  lemma StuckMeansDone(s: State)
    requires Inv(s) && forall t :: t in s.threads ==> Next(s, t).None?
    ensures AllFinished(s) && s.excl == map[] && s.shared == {}
    ensures forall b :: 0 < b < FS_DISKSIZE ==> (b in s.free <==> !Reached(s.fs.d, b))
  {
    hide Inv, Next, Reached;
    if !AllFinished(s) { DeadlockFree(s); }
    AllReturned(s);
  }
}
