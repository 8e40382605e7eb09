/** What the locks and the free queue guarantee in every reachable state: who owns each block, what a lock protects,
    and that the handlers never block each other for good. */
module FsGuarantees {
  import opened Common
  import opened FsModel
  import opened FsCommits
  import opened FsThreads
  import opened FsInvariant
  import opened FsSteps
  import opened FsWalkSteps
  import opened FsCommitSteps
  import opened FsDataSteps
  import opened FsDeleteSteps
  import opened FsRuns

  // ---------------------------------------------------------------- blocks

  /** Each block but the root is reached from the root, or in the free queue once, or in the hands of one handler. */
  lemma BlockOwners(s: State, b: nat)
    requires Inv(s) && 0 < b < FS_DISKSIZE
    ensures Reached(s.fs.d, b) <==> b !in s.free && forall t :: t in s.threads ==> b !in s.threads[t].held
    ensures forall t :: t in s.threads && b in s.threads[t].held ==> b !in s.free
    ensures forall t, u ::
      t in s.threads && u in s.threads && b in s.threads[t].held && b in s.threads[u].held ==> t == u
    ensures NoDup(s.free) && (b in s.free ==> b < FS_DISKSIZE)
    ensures forall t :: t in s.threads ==> NoDup(s.threads[t].held)
  {
    ReachedIsUse(s.fs, b);
    assert |s.fs.use| == FS_DISKSIZE;
    assert PrivateOk(s.fs, s.threads) && FreeOk(s.fs, s.free);
    hide WellFormed, LocksOk, ThreadsOk, Reached, Inv;
    forall t | t in s.threads ensures HeldOk(s.fs, t, s.threads[t].held) {
    }
  }

  /** The free queue is first in, first out: a handler takes its front, to the end of what it holds, or puts the first
      blocks that it holds at its back, in order. */
  ghost predicate Fifo(s: State, t: int, n: State) {
    && t in s.threads && t in n.threads
    && var (held, left) := (s.threads[t].held, n.threads[t].held);
    || n.free == s.free
    || (s.free != [] && n.free == s.free[1..] && left == held + [s.free[0]])
    || (|left| <= |held| && n.free == s.free + held[..|held| - |left|] && left == held[|held| - |left|..])
  }

  lemma GivesInOrder(s: State, t: int, k: nat, pc: Pc)
    requires t in s.threads && k <= |s.threads[t].held|
    ensures Fifo(s, t, Go(Give(s, t, k), t, pc))
  {
    var (held, n) := (s.threads[t].held, Go(Give(s, t, k), t, pc));
    assert n.free == s.free + held[..k] && n.threads[t].held == held[k..];
  }

  lemma WalkFifo(s: State, t: int)
    requires t in s.threads && Walking(s.threads[t].pc) && StepWalk(s, t).Some?
    ensures Fifo(s, t, StepWalk(s, t).value)
  {
    if s.threads[t].pc.GiveBack? { GivesInOrder(s, t, |s.threads[t].held|, Finished(false, "")); }
    if s.threads[t].pc.FreeAll? { GivesInOrder(s, t, |s.threads[t].held|, Finished(true, "")); }
    hide Lookup, Walk, Freed, CanShare, CanOwn, IsDir;
  }

  lemma CreateFifo(s: State, t: int)
    requires t in s.threads && s.threads[t].req.CreateReq? && StepCreate(s, t).Some?
    ensures Fifo(s, t, StepCreate(s, t).value)
  {
    if s.threads[t].pc.Refuse? || s.threads[t].pc.NeedEntries? {
      GivesInOrder(s, t, |s.threads[t].held|, Unlock(s.threads[t].pc.target, false, ""));
    }
    hide Lookup, FreeSlotFrom, LeftoverIndex, SlotsOf, HangInSlot, HangInBlock, IsEntries, OneSlot, Blocks, IsDir,
      Freed;
  }

  lemma DeleteFifo(s: State, t: int)
    requires t in s.threads && s.threads[t].req.DeleteReq? && StepDelete(s, t).Some?
    ensures Fifo(s, t, StepDelete(s, t).value)
  {
    var pc := s.threads[t].pc;
    if pc.FreeEntries? && s.threads[t].held != [] { GivesInOrder(s, t, 1, UnlockChild(pc.target, pc.child, true)); }
    hide FindFrom, SlotsOf, CutUse, CutLink, SlotAt, AllUnused, Blocks, Freed;
  }

  lemma DataFifo(s: State, t: int)
    requires t in s.threads && (s.threads[t].req.ReadReq? || s.threads[t].req.WriteReq?) && StepData(s, t).Some?
    ensures Fifo(s, t, StepData(s, t).value)
  {
    hide Appended, Contents;
  }

  /** Every step of every handler uses the free queue first in, first out. */
  lemma QueueInOrder(s: State, t: int)
    requires t in s.threads && Next(s, t).Some?
    ensures Fifo(s, t, Next(s, t).value)
  {
    hide StepWalk, StepCreate, StepDelete, StepData, Fifo;
    if Walking(s.threads[t].pc) {
      WalkFifo(s, t);
    } else if s.threads[t].req.CreateReq? {
      CreateFifo(s, t);
    } else if s.threads[t].req.DeleteReq? {
      DeleteFifo(s, t);
    } else {
      DataFifo(s, t);
    }
  }

  /** A block joins the free queue only out of the hands of the handler that steps, when the tree does not reach it any
      more: in a delete, after the write that unlinked it. */
  lemma FreedWereUnlinked(s: State, t: int, b: nat)
    requires Inv(s) && t in s.threads && Next(s, t).Some? && b in Next(s, t).value.free && b !in s.free
    ensures b in s.threads[t].held && !Reached(s.fs.d, b) && !Reached(Next(s, t).value.fs.d, b)
  {
    var n := Next(s, t).value;
    StepKeeps(s, t);
    QueueInOrder(s, t);
    hide Next, Inv, Reached, Quiet, Commits, Moved1;
    HeldBlock(s, t, b);
    BlockOwners(s, b);
    BlockOwners(n, b);
  }

  lemma HeldBlock(s: State, t: int, b: nat)
    requires Inv(s) && t in s.threads && b in s.threads[t].held
    ensures 0 < b < FS_DISKSIZE
  {
    assert HeldOk(s.fs, t, s.threads[t].held) && |s.fs.use| == FS_DISKSIZE;
    hide Inv;
  }

  /** A handler that is done holds no lock and no block. */
  lemma FinishedHoldsNothing(s: State, t: int)
    requires Inv(s) && t in s.threads && s.threads[t].pc.Finished?
    ensures s.threads[t].held == []
    ensures forall i :: Hold(t, i) !in s.shared
    ensures forall i :: i in s.excl ==> s.excl[i] != t
    ensures s.threads[t].committed <==> s.threads[t].pc.ok && !s.threads[t].req.ReadReq?
  {
    Facts(s, t);
    hide WellFormed, FreeOk, PrivateOk, ThreadsOk, HeldOk, LinksOk, EntriesOk, KidsOk, InodesOk;
  }

  ghost predicate AllFinished(s: State) {
    forall t :: t in s.threads ==> s.threads[t].pc.Finished?
  }

  /** Once all handlers are done, the free queue holds exactly the blocks that the tree does not reach, and all locks
      are open. */
  lemma AllReturned(s: State)
    requires Inv(s) && AllFinished(s)
    ensures forall b :: 0 < b < FS_DISKSIZE ==> (b in s.free <==> !Reached(s.fs.d, b))
    ensures s.excl == map[] && s.shared == {}
  {
    assert LocksOk(s.excl, s.shared, s.threads);
    hide Inv, Reached;
    forall t | t in s.threads
      ensures s.threads[t].held == [] && (forall i :: Hold(t, i) !in s.shared)
      ensures forall i :: i in s.excl ==> s.excl[i] != t
    {
      FinishedHoldsNothing(s, t);
    }
    assert forall i :: i !in s.excl;
    assert forall h :: h in s.shared ==> h == Hold(h.thread, h.ino);
    forall b | 0 < b < FS_DISKSIZE ensures b in s.free <==> !Reached(s.fs.d, b) {
      BlockOwners(s, b);
    }
  }

  // ---------------------------------------------------------------- what a lock protects

  /** Inodes outside `mine` are the same in `g`, with all their blocks and all their paths. */
  ghost predicate Preserves(f: Fs, g: Fs, mine: set<nat>) {
    && (forall y :: y in f.link && y !in mine ==> y in g.link && Untouched(f, g, y))
    && (forall q :: Follow(f.kid, q).Some? && Follow(f.kid, q).value !in mine ==> Follow(g.kid, q) == Follow(f.kid, q))
  }

  lemma StablePreserves(f: Fs, g: Fs, t: int, mine: set<nat>, gone: nat, own: set<nat>)
    requires Stable(f, g, t, mine, gone) && mine <= own
    ensures Preserves(f, g, own)
  {
  }

  lemma UsePreserves(f: Fs, g: Fs, own: set<nat>)
    requires InodesOk(f) && g.(use := f.use) == f
    ensures Preserves(f, g, own)
  {
  }

  lemma WritePreserves(f: Fs, t: int, b: nat, x: Block, own: set<nat>)
    requires InodesOk(f) && b < |f.use| && f.use[b] == Private(t)
    ensures Preserves(f, f.(d := f.d[b := x]), own)
  {
    WriteStable(f, t, b, x);
    hide Stable, InodesOk;
    StablePreserves(f, f.(d := f.d[b := x]), t, {}, 0, own);
  }

  lemma CreatePreserves(s: State, t: int)
    requires Inv(s) && t in s.threads && s.threads[t].req.CreateReq? && StepCreate(s, t).Some?
    ensures Preserves(s.fs, StepCreate(s, t).value.fs, ExclBy(s.threads[t]))
  {
    var th := s.threads[t];
    CreateMoved(s, t);
    NoCreateStep(s, t);
    if th.pc.ReuseEntry? {
      ReuseFacts(s, t);
      ReuseStep(s, t);
      assert WellFormed(s.fs);
      hide Inv, StepCreate, Stable, WellFormed, Preserves;
      ReuseStays(s.fs, t, th);
      StablePreserves(s.fs, Reused(s.fs, th), t, {th.pc.target}, 0, ExclBy(th));
    } else if th.pc.GrowParent? {
      GrowFacts(s, t);
      GrowStep(s, t);
      assert WellFormed(s.fs);
      hide Inv, StepCreate, Stable, WellFormed, Preserves;
      GrowStays(s.fs, t, th);
      StablePreserves(s.fs, Grown(s.fs, th), t, {th.pc.target}, 0, ExclBy(th));
    } else if th.pc.ReuseInode? || th.pc.GrowInode? || th.pc.GrowEntries? {
      Facts(s, t);
      hide Inv, Preserves, PcOk, LinksOk, EntriesOk, KidsOk;
      assert th.held[0] in th.held;
      if th.pc.GrowEntries? {
        assert th.held[1] in th.held;
        WritePreserves(s.fs, t, th.held[1], Entries(OneSlot(th.pc.j, Used(th.req.name, th.held[0]))), ExclBy(th));
      } else {
        WritePreserves(s.fs, t, th.held[0], Inode(th.req.kind, th.req.user, []), ExclBy(th));
      }
    } else {
      Facts(s, t);
      CreateReserves(s, t);
      hide Inv, StepCreate, Preserves, PcOk, LinksOk, EntriesOk, KidsOk, InodesOk, ExclBy, HeldOk;
      UsePreserves(s.fs, StepCreate(s, t).value.fs, ExclBy(th));
    }
  }

  lemma DeletePreserves(s: State, t: int)
    requires Inv(s) && t in s.threads && s.threads[t].req.DeleteReq? && StepDelete(s, t).Some?
    ensures Preserves(s.fs, StepDelete(s, t).value.fs, ExclBy(s.threads[t]))
  {
    var th := s.threads[t];
    DeleteMoved(s, t);
    if th.pc.AtChild? && MayDelete(s.fs.d, th.req.user, th.pc.child) {
      CutFacts(s, t);
      CutStep(s, t);
      assert WellFormed(s.fs);
      hide Inv, StepDelete, Stable, WellFormed, Preserves;
      CutStays(s.fs, t, th);
      StablePreserves(s.fs, CutOut(s.fs, t, th), t, {th.pc.target, th.pc.child}, th.pc.child, ExclBy(th));
    } else {
      Facts(s, t);
      hide Inv, StepDelete, Preserves, PcOk, LinksOk, EntriesOk, KidsOk, InodesOk, ExclBy, HeldOk;
      UsePreserves(s.fs, StepDelete(s, t).value.fs, ExclBy(th));
    }
  }

  lemma DataPreserves(s: State, t: int)
    requires Inv(s) && t in s.threads && (s.threads[t].req.ReadReq? || s.threads[t].req.WriteReq?)
    requires StepData(s, t).Some?
    ensures Preserves(s.fs, StepData(s, t).value.fs, ExclBy(s.threads[t]))
  {
    var th := s.threads[t];
    DataMoved(s, t);
    NoDataStep(s, t);
    if th.pc.PutData? {
      PutFacts(s, t);
      PutStep(s, t);
      assert WellFormed(s.fs);
      hide Inv, StepData, Stable, WellFormed, Preserves;
      PutStays(s.fs, t, th);
      StablePreserves(s.fs, Put(s.fs, th), t, {th.pc.target}, 0, ExclBy(th));
    } else if th.pc.GrowFile? {
      AppendFacts(s, t);
      AppendStep(s, t);
      assert WellFormed(s.fs);
      hide Inv, StepData, Stable, WellFormed, Preserves;
      AppendStays(s.fs, t, th);
      StablePreserves(s.fs, Append(s.fs, th), t, {th.pc.target}, 0, ExclBy(th));
    } else if th.pc.GrowData? {
      Facts(s, t);
      hide Inv, Preserves, PcOk, LinksOk, EntriesOk, KidsOk;
      assert th.held[0] in th.held;
      WritePreserves(s.fs, t, th.held[0], Data(th.req.bytes), ExclBy(th));
    } else {
      Facts(s, t);
      hide Inv, StepData, Preserves, PcOk, LinksOk, EntriesOk, KidsOk, InodesOk, ExclBy, HeldOk;
      UsePreserves(s.fs, StepData(s, t).value.fs, ExclBy(th));
    }
  }

  lemma StepPreserves(s: State, t: int)
    requires Inv(s) && t in s.threads && Next(s, t).Some?
    ensures Preserves(s.fs, Next(s, t).value.fs, ExclBy(s.threads[t]))
  {
    hide StepWalk, StepCreate, StepDelete, StepData, Preserves;
    if Walking(s.threads[t].pc) {
      Facts(s, t);
      hide Inv, InodesOk, PcOk, LinksOk, EntriesOk, KidsOk, HeldOk;
      WalkMoved(s, t);
      UsePreserves(s.fs, StepWalk(s, t).value.fs, ExclBy(s.threads[t]));
    } else {
      hide Inv;
      if s.threads[t].req.CreateReq? {
        CreatePreserves(s, t);
      } else if s.threads[t].req.DeleteReq? {
        DeletePreserves(s, t);
      } else {
        DataPreserves(s, t);
      }
    }
  }

  /** While a handler holds a lock on an inode, no step of another one changes that inode or its blocks, or takes it or
      a directory above it away from its path. */
  lemma LocksProtect(s: State, t: int, u: int, i: nat, path: seq<string>)
    requires Inv(s) && t in s.threads && u in s.threads && t != u && Next(s, t).Some?
    requires i in SharedBy(s.threads[u]) + ExclBy(s.threads[u]) && Resolve(s.fs.d, path) == Some(i)
    ensures var (d, e) := (s.fs.d, Next(s, t).value.fs.d);
      && Resolve(e, path) == Some(i) && i < |d| && i < |e| && e[i] == d[i]
      && (forall k :: 0 <= k < |Blocks(d, i)| ==>
        var b := Blocks(d, i)[k]; b < |d| && b < |e| && e[b] == d[b])
  {
    var n := Next(s, t).value;
    StepKeeps(s, t);
    StepPreserves(s, t);
    LinksOf(s);
    LinksOf(n);
    LocksApart(s, t, u, i);
    hide Inv, Next, WellFormed, Quiet, Commits, SharedBy, ExclBy, Preserves, Resolve;
    PathStays(s.fs, n.fs, ExclBy(s.threads[t]), i, path);
  }

  lemma PathStays(f: Fs, g: Fs, mine: set<nat>, i: nat, path: seq<string>)
    requires LinksOk(f) && EntriesOk(f) && KidsOk(f) && LinksOk(g) && EntriesOk(g) && KidsOk(g)
    requires Preserves(f, g, mine) && i !in mine && Resolve(f.d, path) == Some(i)
    ensures Resolve(g.d, path) == Some(i) && Untouched(f, g, i)
  {
    hide LinksOk, EntriesOk, KidsOk, Resolve, Follow, Blocks;
    ResolveIsFollow(f, path);
    ResolveIsFollow(g, path);
  }

  /** What one handler has locked, another one has not locked alone. */
  lemma LocksApart(s: State, t: int, u: int, i: nat)
    requires Inv(s) && t in s.threads && u in s.threads && t != u && i in SharedBy(s.threads[u]) + ExclBy(s.threads[u])
    ensures i !in ExclBy(s.threads[t])
  {
    hide SharedBy, ExclBy, WellFormed, FreeOk, PrivateOk, ThreadsOk;
    if i in SharedBy(s.threads[u]) {
      assert Hold(u, i) in s.shared;
    } else {
      assert s.excl[i] == u;
    }
  }

  lemma LinksOf(s: State)
    requires Inv(s)
    ensures LinksOk(s.fs) && EntriesOk(s.fs) && KidsOk(s.fs)
  {
  }
}
