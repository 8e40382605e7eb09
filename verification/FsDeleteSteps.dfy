/** The two commits of a delete. */
module FsDeleteSteps {
  import opened Common
  import opened FsModel
  import opened FsCommits
  import opened FsThreads
  import opened FsInvariant
  import opened FsSteps
  import opened FsWalkSteps
  import opened FsCommitSteps

  /** The child is the user's, and is a file or an empty directory. */
  predicate MayDelete(d: Disk, user: string, x: nat) {
    !(x >= |d| || !d[x].Inode? || d[x].owner != user || (d[x].kind == DirKind && |d[x].blocks| > 0))
  }

  /** What a delete knows when it is about to cut the child. */
  ghost predicate CutReady(f: Fs, th: Thread) {
    && th.pc.AtChild? && th.req.DeleteReq? && th.held == [] && !th.committed
    && var (i, x, k, j) := (th.pc.target, th.pc.child, th.pc.k, th.pc.j);
    && MayDelete(f.d, th.req.user, x) && Removable(f, x) && x != i
    && f.link[x].parent == i && f.link[x].name == th.req.name && f.link[x].k == k && f.link[x].j == j
    && i in f.link && i < |f.d| && IsDir(f.d, i) && f.d[i] == th.pc.inode && j < FS_DIRENTRIES
    && k < |Blocks(f.d, i)| && IsEntries(f.d, Blocks(f.d, i)[k]) && f.d[Blocks(f.d, i)[k]].slots == th.pc.slots
    && Key(i, th.req.name) in f.kid && f.kid[Key(i, th.req.name)] == x
    && Arrived(f, th.req, i) && OwnedDir(f, th.req, i)
  }

  lemma ChildFacts(f: Fs, th: Thread)
    requires LinksOk(f) && EntriesOk(f) && KidsOk(f) && th.pc.AtChild? && th.held == [] && !th.committed
    requires Doomed(f, th.req, th.pc.target, th.pc.child, th.pc.k, th.pc.j, th.pc.slots, th.pc.inode)
    requires Arrived(f, th.req, th.pc.target) && MayDelete(f.d, th.req.user, th.pc.child)
    ensures CutReady(f, th)
  {
    KidDiffers(f, Key(th.pc.target, th.req.name));
    assert Hangs(f, th.pc.child);
    assert SlotAt(f.d, th.pc.target, th.pc.k, th.pc.j) == Used(th.req.name, th.pc.child);
    hide LinksOk, KidsOk;
  }

  lemma CutFacts(s: State, t: int)
    requires Inv(s) && t in s.threads && s.threads[t].pc.AtChild?
    requires MayDelete(s.fs.d, s.threads[t].req.user, s.threads[t].pc.child)
    ensures CutReady(s.fs, s.threads[t])
  {
    Facts(s, t);
    hide Inv, WellFormed, FreeOk, PrivateOk, LocksOk, ThreadsOk, HeldOk, InodesOk, LinksOk, EntriesOk, KidsOk,
      MayDelete, CutReady;
    ChildFacts(s.fs, s.threads[t]);
  }

  /** No entry but the child's is left in its directory block. */
  ghost predicate Last(f: Fs, x: nat)
    requires x in f.link
  {
    forall n: nat :: n != f.link[x].j ==> SlotAt(f.d, f.link[x].parent, f.link[x].k, n) == Unused
  }

  lemma LastIsAllUnused(f: Fs, th: Thread)
    requires CutReady(f, th)
    ensures |th.pc.slots| == FS_DIRENTRIES && AllUnused(th.pc.slots[th.pc.j := Unused]) == Last(f, th.pc.child)
  {
    assert th.pc.child in f.link;
    hide Arrived, OwnedDir, Removable, MayDelete;
    var left := th.pc.slots[th.pc.j := Unused];
    forall n | 0 <= n < FS_DIRENTRIES && n != th.pc.j
      ensures left[n] == SlotAt(f.d, f.link[th.pc.child].parent, f.link[th.pc.child].k, n)
    {
    }
    if AllUnused(left) {
      forall n: nat | n != f.link[th.pc.child].j
        ensures SlotAt(f.d, f.link[th.pc.child].parent, f.link[th.pc.child].k, n) == Unused
      {
        if n < FS_DIRENTRIES { assert left[n].Unused?; }
      }
    }
  }

  ghost function CutOut(f: Fs, t: int, th: Thread): Fs
    requires CutReady(f, th)
  {
    if Last(f, th.pc.child) then CutBlock(f, th.pc.child, t) else CutInSlot(f, th.pc.child, t)
  }

  /** The blocks that a delete unlinks. */
  ghost function Unlinked(f: Fs, th: Thread): seq<nat>
    requires CutReady(f, th)
  {
    (if Last(f, th.pc.child) then [Blocks(f.d, th.pc.target)[th.pc.k]] else [])
    + Blocks(f.d, th.pc.child) + [th.pc.child]
  }

  ghost function AfterCut(f: Fs, th: Thread): Pc
    requires CutReady(f, th)
  {
    if Last(f, th.pc.child) then FreeEntries(th.pc.target, th.pc.child)
    else UnlockChild(th.pc.target, th.pc.child, true)
  }

  lemma CutStep(s: State, t: int)
    requires t in s.threads && CutReady(s.fs, s.threads[t])
    ensures var th := s.threads[t];
      StepDelete(s, t) == Some(Commit(s, t, CutOut(s.fs, t, th), Unlinked(s.fs, th), AfterCut(s.fs, th)))
  {
    LastIsAllUnused(s.fs, s.threads[t]);
    hide Arrived, OwnedDir, Last, AllUnused, SlotAt, CutLink, CutUse;
    assert [] + Blocks(s.fs.d, s.threads[t].pc.child) == Blocks(s.fs.d, s.threads[t].pc.child);
  }

  // ---------------------------------------------------------------- what the commit does to the tree

  lemma ChildPath(f: Fs, th: Thread)
    requires KidsOk(f) && LinksOk(f) && EntriesOk(f) && InodesOk(f) && CutReady(f, th)
    ensures Follow(f.kid, Walk(th.req) + [th.req.name]) == Some(th.pc.child)
    ensures forall n :: View(f.d, Walk(th.req) + [th.req.name, n]) == None
  {
    RemovableFacts(f, th.pc.child);
    var p := Walk(th.req) + [th.req.name];
    MayWalkHere(f, th.req, th.pc.target);
    assert p[..|p| - 1] == Walk(th.req);
    forall n ensures View(f.d, Walk(th.req) + [th.req.name, n]) == None {
      var q := Walk(th.req) + [th.req.name, n];
      assert q[..|q| - 1] == p;
      ResolveIsFollow(f, q);
      assert Key(th.pc.child, n) !in f.kid;
    }
  }

  lemma CutTree(f: Fs, t: int, th: Thread)
    requires WellFormed(f) && CutReady(f, th) && Follow(f.kid, Walk(th.req) + [th.req.name]) == Some(th.pc.child)
    ensures WellFormed(CutOut(f, t, th))
    ensures OnlyAt(f.d, CutOut(f, t, th).d, Walk(th.req) + [th.req.name], None)
    ensures View(f.d, Walk(th.req) + [th.req.name]) == NodeOf(f.d, th.pc.child)
  {
    hide InodesOk, UseOk, LinksOk, EntriesOk, KidsOk, NoEmptyBlocks, Arrived, OwnedDir, OnlyAt, View, NodeOf;
    if Last(f, th.pc.child) {
      hide SlotAt;
      CutBlockCommits(f, th.pc.child, t, Walk(th.req) + [th.req.name]);
    } else {
      var l := f.link[th.pc.child];
      var n: nat :| n != l.j && SlotAt(f.d, l.parent, l.k, n) != Unused;
      assert n < FS_DIRENTRIES && SlotAt(f.d, f.link[th.pc.child].parent, f.link[th.pc.child].k, n).Used?;
      hide SlotAt, Last;
      CutInSlotCommits(f, th.pc.child, t, Walk(th.req) + [th.req.name]);
    }
  }

  lemma CutEffect(f: Fs, t: int, th: Thread)
    requires WellFormed(f) && CutReady(f, th)
    ensures WellFormed(CutOut(f, t, th)) && Effect(th.req, f.d, CutOut(f, t, th).d)
  {
    MayWalkHere(f, th.req, th.pc.target);
    OwnedView(f, th.req, th.pc.target);
    ChildPath(f, th);
    hide WellFormed, OnlyAt, MayWalk, MayChange, View, Arrived, CutOut, Follow;
    CutTree(f, t, th);
  }

  // ---------------------------------------------------------------- what the commit does to the other handlers

  lemma CutElsewhere(f: Fs, x: nat, t: int)
    requires InodesOk(f) && LinksOk(f) && EntriesOk(f) && Removable(f, x)
    ensures f.link[x].k < |Blocks(f.d, f.link[x].parent)| && f.link[x].j < FS_DIRENTRIES
    ensures IsEntries(f.d, Blocks(f.d, f.link[x].parent)[f.link[x].k])
    ensures var g := CutInSlot(f, x, t);
      && Elsewhere(f, g, f.link[x].parent, x) && OthersKept(f, g, t)
      && (forall y :: y in f.link && y != x ==> SameHead(f, g, y))
  {
    RemovableFacts(f, x);
    hide LinksOk, EntriesOk;
  }

  lemma CutBlockElsewhere(f: Fs, x: nat, t: int)
    requires InodesOk(f) && LinksOk(f) && EntriesOk(f) && Removable(f, x)
    ensures f.link[x].k < |Blocks(f.d, f.link[x].parent)|
    ensures var g := CutBlock(f, x, t);
      && Elsewhere(f, g, f.link[x].parent, x) && OthersKept(f, g, t)
      && (forall y :: y in f.link && y != x ==> SameHead(f, g, y))
  {
    RemovableFacts(f, x);
    assert f.use[f.link[x].parent] == IsInode;
    hide LinksOk, EntriesOk;
  }

  lemma CutStays(f: Fs, t: int, th: Thread)
    requires WellFormed(f) && CutReady(f, th)
    ensures Stable(f, CutOut(f, t, th), t, {th.pc.target, th.pc.child}, th.pc.child)
    ensures Arrived(CutOut(f, t, th), th.req, th.pc.target)
  {
    var x := th.pc.child;
    hide Arrived, OwnedDir, InodesOk, LinksOk, EntriesOk, KidsOk, UseOk, NoEmptyBlocks, SlotAt, Cut, CutBlock,
      CutInSlot, Elsewhere, OthersKept, SameHead, Stable;
    if Last(f, x) {
      CutBlockShape(f, x, t);
      CutBlockElsewhere(f, x, t);
      CutStable(f, CutBlock(f, x, t), t, x, true);
    } else {
      CutInSlotShape(f, x, t);
      CutElsewhere(f, x, t);
      CutStable(f, CutInSlot(f, x, t), t, x, false);
    }
    ArrivedStable(f, CutOut(f, t, th), t, {th.pc.target, x}, x, th.req, th.pc.target);
  }

  // ---------------------------------------------------------------- who owns the blocks after the commit

  ghost predicate Freeable(f: Fs, x: nat, whole: bool, b: nat)
    requires x in f.link
  {
    && 0 < b < |f.use|
    && (|| b == x || (f.use[b].BlockOf? && f.use[b].ino == x)
        || (whole && f.use[b] == BlockOf(f.link[x].parent, f.link[x].k)))
  }

  lemma CutOwners(f: Fs, e: Fs, x: nat, whole: bool, free: seq<nat>, threads: map<int, Thread>, t: int, th: Thread)
    requires FreeOk(f, free) && PrivateOk(f, threads) && t in threads && threads[t].held == [] && x in f.link
    requires x < |f.use| && f.use[x] == IsInode && |f.use| > 0 && f.use[0] == IsInode && x != 0
    requires e.use == CutUse(f, x, whole, t) && |e.d| == |f.d| == |f.use|
    requires NoDup(th.held) && forall b :: b in th.held <==> Freeable(f, x, whole, b)
    ensures FreeOk(e, free) && PrivateOk(e, threads[t := th])
  {
    assert HeldOk(f, t, threads[t].held);
    forall u | u in threads && u != t ensures HeldOk(e, u, threads[u].held) {
      assert HeldOk(f, u, threads[u].held);
    }
    assert HeldOk(e, t, th.held);
  }

  lemma UnlinkedIs(f: Fs, th: Thread)
    requires InodesOk(f) && UseOk(f) && 0 in f.link && CutReady(f, th)
    ensures NoDup(Unlinked(f, th))
    ensures forall b :: b in Unlinked(f, th) <==> Freeable(f, th.pc.child, Last(f, th.pc.child), b)
  {
    hide Arrived, OwnedDir, Last, IsEntries, IsDir;
    var x := th.pc.child;
    var bs := Blocks(f.d, x);
    var db := Blocks(f.d, th.pc.target)[th.pc.k];
    assert f.use[db] == BlockOf(th.pc.target, th.pc.k) && f.use[x] == IsInode && f.use[0] == IsInode;
    forall b: nat ensures b in Unlinked(f, th) <==> Freeable(f, x, Last(f, x), b) {
      if b in bs {
        var m :| 0 <= m < |bs| && bs[m] == b;
        assert f.use[b] == BlockOf(x, m);
      }
    }
    forall m, n | 0 <= m < n < |bs| ensures bs[m] != bs[n] {
      assert f.use[bs[m]] == BlockOf(x, m) && f.use[bs[n]] == BlockOf(x, n);
    }
    assert forall m :: 0 <= m < |bs| ==> f.use[bs[m]] == BlockOf(x, m);
  }

  lemma CutAllOwners(s: State, t: int, th: Thread)
    requires Inv(s) && t in s.threads && CutReady(s.fs, s.threads[t]) && th.held == Unlinked(s.fs, s.threads[t])
    ensures FreeOk(CutOut(s.fs, t, s.threads[t]), s.free)
    ensures PrivateOk(CutOut(s.fs, t, s.threads[t]), s.threads[t := th])
  {
    var f := s.fs;
    var x := s.threads[t].pc.child;
    assert InodesOk(f) && UseOk(f) && FreeOk(f, s.free) && PrivateOk(f, s.threads) && 0 in f.link;
    assert f.use[x] == IsInode && f.use[0] == IsInode && |f.d| == |f.use|;
    hide Inv, FreeOk, PrivateOk, Unlinked, Freeable, CutUse, CutLink, Last, Arrived, OwnedDir;
    UnlinkedIs(f, s.threads[t]);
    hide InodesOk, UseOk;
    var e := CutOut(f, t, s.threads[t]);
    assert e.use == CutUse(f, x, Last(f, x), t) && |e.d| == |f.d|;
    hide CutOut;
    CutOwners(f, e, x, Last(f, x), s.free, s.threads, t, th);
  }

  lemma CutMoves(f: Fs, e: Fs, th: Thread)
    requires CutReady(f, th) && Arrived(e, th.req, th.pc.target)
    ensures var th' := th.(pc := AfterCut(f, th), held := Unlinked(f, th), committed := true);
      PcOk(e, th') && SharedBy(th') == SharedBy(th) && ExclBy(th') == ExclBy(th)
    ensures {th.pc.target, th.pc.child} <= ExclBy(th)
  {
    hide Arrived, OwnedDir, Last;
  }

  /** The one write of a delete: afterwards the handler alone owns the unlinked blocks, and none of them is free yet. */
  lemma CutCommits(s: State, t: int)
    requires Inv(s) && t in s.threads && s.threads[t].pc.AtChild?
    requires MayDelete(s.fs.d, s.threads[t].req.user, s.threads[t].pc.child)
    ensures s.threads[t].req.DeleteReq? && StepDelete(s, t).Some? && CutReady(s.fs, s.threads[t])
    ensures var n := StepDelete(s, t).value;
      && Inv(n) && Effect(s.threads[t].req, s.fs.d, n.fs.d)
      && n.free == s.free && t in n.threads && n.threads[t].held == Unlinked(s.fs, s.threads[t])
      && HeldOk(n.fs, t, Unlinked(s.fs, s.threads[t])) && forall b :: b in Unlinked(s.fs, s.threads[t]) ==> b !in s.free
  {
    CutFacts(s, t);
    assert WellFormed(s.fs);
    var th := s.threads[t];
    var e := CutOut(s.fs, t, th);
    hide Inv, WellFormed, FreeOk, PrivateOk, LocksOk, ThreadsOk, Stable, Arrived, StepDelete, Effect, CutOut, PcOk,
      MineOf, Unlinked, AfterCut, SharedBy, ExclBy;
    CutStep(s, t);
    CutEffect(s.fs, t, th);
    CutStays(s.fs, t, th);
    CutAllOwners(s, t, th.(pc := AfterCut(s.fs, th), held := Unlinked(s.fs, th), committed := true));
    CutMoves(s.fs, e, th);
    MineAre(s, t, {th.pc.target, th.pc.child});
    assert CutReady(s.fs, th);
    hide CutReady;
    CommitFrame(s, t, e, Unlinked(s.fs, th), AfterCut(s.fs, th), {th.pc.target, th.pc.child}, th.pc.child);
    HeldNotFree(StepDelete(s, t).value, t);
  }

  lemma HeldNotFree(s: State, t: int)
    requires Inv(s) && t in s.threads
    ensures HeldOk(s.fs, t, s.threads[t].held) && forall b :: b in s.threads[t].held ==> b !in s.free
  {
    assert HeldOk(s.fs, t, s.threads[t].held) && FreeOk(s.fs, s.free);
    hide Inv;
  }
}
