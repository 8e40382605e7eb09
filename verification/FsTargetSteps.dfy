/** The steps at the target that commit nothing: checks, reservations, and writes to blocks that no inode owns yet. */
module FsTargetSteps {
  import opened Common
  import opened FsModel
  import opened FsThreads
  import opened FsInvariant
  import opened FsSteps
  import opened FsWalkSteps
  import opened FsDeleteSteps

  // ---------------------------------------------------------------- the scan for an unused entry

  predicate Before(k: nat, j: nat, m: nat, n: nat) {
    k < m || (k == m && j < n)
  }

  /** The scan returns the first entry that can be filled in, and none only if there is none. */
  lemma {:induction false} FreeSlotFromWorks(d: Disk, i: nat, k: nat, j: nat)
    requires j <= FS_DIRENTRIES
    ensures FreeSlotFrom(d, i, k, j).Some? ==>
      var (m, n) := FreeSlotFrom(d, i, k, j).value;
      && Reusable(d, i, m, n) && !Before(m, n, k, j)
      && forall k', j' :: Reusable(d, i, k', j') && !Before(k', j', k, j) ==> !Before(k', j', m, n)
    ensures FreeSlotFrom(d, i, k, j).None? ==> forall m, n :: Reusable(d, i, m, n) ==> Before(m, n, k, j)
    decreases |Blocks(d, i)| - k, FS_DIRENTRIES - j
  {
    hide SlotAt, Blocks;
    if k < |Blocks(d, i)| {
      if j == FS_DIRENTRIES {
        FreeSlotFromWorks(d, i, k + 1, 0);
      } else if !Reusable(d, i, k, j) {
        FreeSlotFromWorks(d, i, k, j + 1);
      }
    }
  }

  lemma {:induction false} LeftoverBound(d: Disk, i: nat, k: nat, j: nat, so: nat)
    requires j <= FS_DIRENTRIES && so < FS_DIRENTRIES
    ensures LeftoverIndex(d, i, k, j, so) < FS_DIRENTRIES
    decreases |Blocks(d, i)| - k, FS_DIRENTRIES - j
  {
    hide SlotAt, Blocks;
    if k < |Blocks(d, i)| {
      if j == FS_DIRENTRIES {
        LeftoverBound(d, i, k + 1, 0, so);
      } else {
        LeftoverBound(d, i, k, j + 1, if SlotAt(d, i, k, j).Unused? then j else so);
      }
    }
  }

  // ---------------------------------------------------------------- create

  lemma CreateFindsSlot(f: Fs, i: nat)
    requires InodesOk(f) && i in f.link && IsDir(f.d, i) && FreeSlotFrom(f.d, i, 0, 0).Some?
    ensures var (k, j) := FreeSlotFrom(f.d, i, 0, 0).value; EntryBuffer(f, i, k, j, SlotsOf(f.d, i, k), Unused)
  {
    FreeSlotFromWorks(f.d, i, 0, 0);
    hide FreeSlotFrom;
  }

  lemma GiveUpMoves(f: Fs, th: Thread)
    requires PcOk(f, th) && th.pc.AtTarget?
    ensures if th.req.CreateReq? then Moves(f, th, Refuse(th.pc.target))
      else Moves(f, th, Unlock(th.pc.target, false, ""))
  {
    hide Arrived;
  }

  lemma SlotMoves(f: Fs, th: Thread, k: nat, j: nat, slots: seq<Slot>)
    requires PcOk(f, th) && th.pc.AtTarget? && NewName(f, th.req, th.pc.target)
    requires EntryBuffer(f, th.pc.target, k, j, slots, Unused)
    ensures Moves(f, th, ReuseInode(th.pc.target, k, j, slots))
  {
    assert th.req.CreateReq?;
    hide Arrived, NewName, EntryBuffer;
  }

  lemma BlockMoves(f: Fs, th: Thread, j: nat)
    requires PcOk(f, th) && th.pc.AtTarget? && NewName(f, th.req, th.pc.target) && j < FS_DIRENTRIES
    requires Packed(f, th.pc.target)
    ensures Moves(f, th, NeedEntries(th.pc.target, j))
  {
    assert th.req.CreateReq?;
    hide Arrived, NewName, Packed;
  }

  lemma ArrivedAtTarget(f: Fs, th: Thread)
    requires PcOk(f, th) && th.pc.AtTarget?
    ensures th.pc.target in f.link && Arrived(f, th.req, th.pc.target)
  {
  }

  lemma CreateAtMoves(f: Fs, th: Thread)
    requires InodesOk(f) && LinksOk(f) && EntriesOk(f) && KidsOk(f)
    requires PcOk(f, th) && th.pc.AtTarget? && th.req.CreateReq?
    ensures var (i, r) := (th.pc.target, th.req);
      var at := FreeSlotFrom(f.d, i, 0, 0);
      if !IsDir(f.d, i) || (f.d[i].owner != r.user && f.d[i].owner != "") || Lookup(f.d, i, r.name).Some? then
        Moves(f, th, Refuse(i))
      else if at.Some? then Moves(f, th, ReuseInode(i, at.value.0, at.value.1, SlotsOf(f.d, i, at.value.0)))
      else Moves(f, th, NeedEntries(i, LeftoverIndex(f.d, i, 0, 0, 0)))
  {
    var i := th.pc.target;
    ArrivedAtTarget(f, th);
    hide PcOk, Moves, InodesOk, LinksOk, EntriesOk, KidsOk, Arrived, Lookup, FreeSlotFrom, LeftoverIndex, EntryBuffer;
    LookupIsKid(f, i, th.req.name);
    GiveUpMoves(f, th);
    if OwnedDir(f, th.req, i) && Lookup(f.d, i, th.req.name).None? {
      var at := FreeSlotFrom(f.d, i, 0, 0);
      if at.Some? {
        CreateFindsSlot(f, i);
        SlotMoves(f, th, at.value.0, at.value.1, SlotsOf(f.d, i, at.value.0));
      } else {
        LeftoverBound(f.d, i, 0, 0, 0);
        FreeSlotFromWorks(f.d, i, 0, 0);
        BlockMoves(f, th, LeftoverIndex(f.d, i, 0, 0, 0));
      }
    }
  }

  lemma CreateAtKeeps(s: State, t: int)
    requires Inv(s) && t in s.threads && s.threads[t].pc.AtTarget? && s.threads[t].req.CreateReq?
    ensures StepCreate(s, t).Some? && Inv(StepCreate(s, t).value)
  {
    Facts(s, t);
    hide Inv, PcOk, SharedBy, ExclBy, LinksOk, EntriesOk, KidsOk, InodesOk, HeldOk, Lookup, FreeSlotFrom,
      LeftoverIndex, SlotsOf;
    CreateAtMoves(s.fs, s.threads[t]);
    PcFrame(s, t, StepCreate(s, t).value.threads[t].pc);
  }

  lemma RefuseMoves(f: Fs, th: Thread, use: seq<Use>)
    requires PcOk(f, th) && (th.pc.Refuse? || th.pc.NeedEntries?) && th.req.CreateReq?
    ensures var th' := th.(held := th.held[|th.held|..], pc := Unlock(th.pc.target, false, ""));
      PcOk(f.(use := use), th') && SharedBy(th') == SharedBy(th) && ExclBy(th') == ExclBy(th)
  {
  }

  lemma RefuseKeeps(s: State, t: int)
    requires Inv(s) && t in s.threads && (s.threads[t].pc.Refuse? || s.threads[t].pc.NeedEntries?)
    requires s.threads[t].req.CreateReq?
    ensures Inv(Go(Give(s, t, |s.threads[t].held|), t, Unlock(s.threads[t].pc.target, false, "")))
  {
    Facts(s, t);
    hide Inv, PcOk, SharedBy, ExclBy, LinksOk, EntriesOk, KidsOk, InodesOk, HeldOk;
    RefuseMoves(s.fs, s.threads[t], Freed(s.fs.use, s.threads[t].held[..|s.threads[t].held|]));
    GiveFrame(s, t, |s.threads[t].held|, Unlock(s.threads[t].pc.target, false, ""));
  }

  lemma NeedMoves(f: Fs, th: Thread, use: seq<Use>, b: nat)
    requires PcOk(f, th) && th.pc.NeedEntries? && th.req.CreateReq?
    requires |Blocks(f.d, th.pc.target)| < FS_MAXFILEBLOCKS && th.pc.target < |f.d|
    ensures var th' := th.(held := th.held + [b], pc := GrowInode(th.pc.target, th.pc.j, f.d[th.pc.target]));
      PcOk(f.(use := use), th') && SharedBy(th') == SharedBy(th) && ExclBy(th') == ExclBy(th)
  {
  }

  lemma NeedKeeps(s: State, t: int)
    requires Inv(s) && t in s.threads && s.threads[t].pc.NeedEntries? && s.threads[t].req.CreateReq?
    ensures StepCreate(s, t).Some? && Inv(StepCreate(s, t).value)
  {
    var i := s.threads[t].pc.target;
    if s.free == [] || |Blocks(s.fs.d, i)| + 1 > FS_MAXFILEBLOCKS || i >= |s.fs.d| {
      RefuseKeeps(s, t);
      hide Inv;
    } else {
      Facts(s, t);
      hide Inv, PcOk, SharedBy, ExclBy, LinksOk, EntriesOk, KidsOk, InodesOk, HeldOk;
      if s.free[0] < |s.fs.use| { NeedMoves(s.fs, s.threads[t], s.fs.use[s.free[0] := Private(t)], s.free[0]); }
      NeedMoves(s.fs, s.threads[t], s.fs.use, s.free[0]);
      TakeFrame(s, t, GrowInode(i, s.threads[t].pc.j, s.fs.d[i]));
    }
  }

  /** After a write to a loose block of its own, a handler can rely on what it relied on. */
  lemma WriteKeepsFacts(f: Fs, t: int, th: Thread, b: nat, x: Block)
    requires InodesOk(f) && b < |f.use| && f.use[b] == Private(t) && AtTargetPc(th.pc)
    requires Arrived(f, th.req, th.pc.target)
    ensures var g := f.(d := f.d[b := x]);
      var i := th.pc.target;
      && Arrived(g, th.req, i)
      && (NewName(f, th.req, i) ==> NewName(g, th.req, i))
      && (forall inode :: OwnedFile(f, th.req, i, inode) ==> OwnedFile(g, th.req, i, inode))
      && (forall k, j, slots, s :: EntryBuffer(f, i, k, j, slots, s) ==> EntryBuffer(g, i, k, j, slots, s))
      && (forall j, inode :: Growing(f, th, i, j, inode) ==> Growing(g, th, i, j, inode))
  {
    WriteStable(f, t, b, x);
    var g := f.(d := f.d[b := x]);
    hide InodesOk, Stable, OwnedFile, NewName, Growing, EntryBuffer, OwnedDir, Doomed, Untouched;
    ArrivedStable(f, g, t, {}, 0, th.req, th.pc.target);
    DirStable(f, g, t, {}, 0, th, th.pc.target);
  }

  lemma ReuseWriteMoves(f: Fs, t: int, th: Thread)
    requires InodesOk(f) && HeldOk(f, t, th.held) && PcOk(f, th) && th.req.CreateReq? && th.pc.ReuseInode?
    ensures th.held != [] && th.held[0] < |f.d|
    ensures Moves(f.(d := f.d[th.held[0] := Inode(th.req.kind, th.req.user, [])]), th,
      ReuseEntry(th.pc.target, th.pc.k, th.pc.j, th.pc.slots))
  {
    assert Waiting(th) && th.held[0] in th.held;
    assert Arrived(f, th.req, th.pc.target) && NewName(f, th.req, th.pc.target);
    assert EntryBuffer(f, th.pc.target, th.pc.k, th.pc.j, th.pc.slots, Unused);
    var g := f.(d := f.d[th.held[0] := Inode(th.req.kind, th.req.user, [])]);
    hide PcOk, InodesOk, Arrived, NewName, EntryBuffer, Growing, OwnedFile;
    WriteKeepsFacts(f, t, th, th.held[0], Inode(th.req.kind, th.req.user, []));
    EntryReadyMoves(g, th);
  }

  lemma EntryReadyMoves(g: Fs, th: Thread)
    requires Waiting(th) && th.req.CreateReq? && th.pc.ReuseInode? && InodeReady(g, th)
    requires Arrived(g, th.req, th.pc.target) && NewName(g, th.req, th.pc.target)
    requires EntryBuffer(g, th.pc.target, th.pc.k, th.pc.j, th.pc.slots, Unused)
    ensures Moves(g, th, ReuseEntry(th.pc.target, th.pc.k, th.pc.j, th.pc.slots))
  {
    hide Arrived, NewName, EntryBuffer;
  }

  lemma GrowWriteMoves(f: Fs, t: int, th: Thread)
    requires InodesOk(f) && HeldOk(f, t, th.held) && PcOk(f, th) && th.req.CreateReq? && th.pc.GrowInode?
    ensures |th.held| == 2 && th.held[0] < |f.d|
    ensures Moves(f.(d := f.d[th.held[0] := Inode(th.req.kind, th.req.user, [])]), th,
      GrowEntries(th.pc.target, th.pc.j, th.pc.inode))
  {
    assert |th.held| == 2 && th.held[0] in th.held && !th.committed;
    assert Arrived(f, th.req, th.pc.target) && NewName(f, th.req, th.pc.target);
    assert Growing(f, th, th.pc.target, th.pc.j, th.pc.inode);
    var g := f.(d := f.d[th.held[0] := Inode(th.req.kind, th.req.user, [])]);
    hide PcOk, InodesOk, Arrived, NewName, EntryBuffer, Growing, OwnedFile;
    WriteKeepsFacts(f, t, th, th.held[0], Inode(th.req.kind, th.req.user, []));
    InodeReadyMoves(g, th);
  }

  lemma InodeReadyMoves(g: Fs, th: Thread)
    requires !th.committed && th.req.CreateReq? && th.pc.GrowInode? && InodeReady(g, th)
    requires Arrived(g, th.req, th.pc.target) && NewName(g, th.req, th.pc.target)
    requires Growing(g, th, th.pc.target, th.pc.j, th.pc.inode)
    ensures Moves(g, th, GrowEntries(th.pc.target, th.pc.j, th.pc.inode))
  {
    hide Arrived, NewName;
  }

  lemma EntriesWriteMoves(f: Fs, t: int, th: Thread)
    requires InodesOk(f) && HeldOk(f, t, th.held) && PcOk(f, th) && th.req.CreateReq? && th.pc.GrowEntries?
    ensures |th.held| == 2 && th.held[1] < |f.d|
    ensures Moves(f.(d := f.d[th.held[1] := Entries(OneSlot(th.pc.j, Used(th.req.name, th.held[0])))]), th,
      GrowParent(th.pc.target, th.pc.j, th.pc.inode))
  {
    assert th.held[0] in th.held && th.held[1] in th.held && th.held[0] != th.held[1];
    WriteKeepsFacts(f, t, th, th.held[1], Entries(OneSlot(th.pc.j, Used(th.req.name, th.held[0]))));
    hide InodesOk, HeldOk, Arrived, NewName, EntryBuffer, Growing;
  }

  lemma CreateWriteKeeps(s: State, t: int)
    requires Inv(s) && t in s.threads && s.threads[t].req.CreateReq?
    requires s.threads[t].pc.ReuseInode? || s.threads[t].pc.GrowInode? || s.threads[t].pc.GrowEntries?
    ensures StepCreate(s, t).Some? && Inv(StepCreate(s, t).value) && SameView(s.fs.d, StepCreate(s, t).value.fs.d)
  {
    Facts(s, t);
    var th := s.threads[t];
    hide Inv, SharedBy, ExclBy, LinksOk, EntriesOk, KidsOk, InodesOk, HeldOk, SameView, Arrived, NewName, EntryBuffer,
      Growing;
    if th.pc.GrowEntries? {
      EntriesWriteMoves(s.fs, t, th);
      hide PcOk;
      WriteFrame(s, t, th.held[1], Entries(OneSlot(th.pc.j, Used(th.req.name, th.held[0]))),
        GrowParent(th.pc.target, th.pc.j, th.pc.inode));
    } else if th.pc.ReuseInode? {
      ReuseWriteMoves(s.fs, t, th);
      hide PcOk;
      WriteFrame(s, t, th.held[0], Inode(th.req.kind, th.req.user, []),
        ReuseEntry(th.pc.target, th.pc.k, th.pc.j, th.pc.slots));
    } else {
      GrowWriteMoves(s.fs, t, th);
      hide PcOk;
      WriteFrame(s, t, th.held[0], Inode(th.req.kind, th.req.user, []),
        GrowEntries(th.pc.target, th.pc.j, th.pc.inode));
    }
  }

  // ---------------------------------------------------------------- delete

  lemma DeleteAtMoves(f: Fs, th: Thread)
    requires InodesOk(f) && LinksOk(f) && EntriesOk(f) && KidsOk(f)
    requires PcOk(f, th) && th.pc.AtTarget? && th.req.DeleteReq?
    ensures var (i, r) := (th.pc.target, th.req);
      var at := FindFrom(f.d, i, r.name, 0, 0);
      if !IsDir(f.d, i) || (f.d[i].owner != r.user && f.d[i].owner != "") then Moves(f, th, Unlock(i, false, ""))
      else if at.None? || SlotAt(f.d, i, at.value.0, at.value.1).Unused? then Moves(f, th, Unlock(i, false, ""))
      else
        var (k, j) := at.value;
        Moves(f, th, LockChild(i, SlotAt(f.d, i, k, j).ino, k, j, SlotsOf(f.d, i, k), f.d[i]))
  {
    var i := th.pc.target;
    ArrivedAtTarget(f, th);
    hide PcOk, Moves, LinksOk, EntriesOk, KidsOk, Arrived, Lookup, FindFrom, InodesOk, SlotsOf, SlotAt, Doomed;
    GiveUpMoves(f, th);
    DeleteFinds(f, th.req, i);
    var at := FindFrom(f.d, i, th.req.name, 0, 0);
    if OwnedDir(f, th.req, i) && at.Some? && SlotAt(f.d, i, at.value.0, at.value.1).Used? {
      DoomedMoves(f, th, SlotAt(f.d, i, at.value.0, at.value.1).ino, at.value.0, at.value.1,
        SlotsOf(f.d, i, at.value.0), f.d[i]);
    }
  }

  lemma DoomedMoves(f: Fs, th: Thread, x: nat, k: nat, j: nat, slots: seq<Slot>, inode: Block)
    requires PcOk(f, th) && th.pc.AtTarget? && Doomed(f, th.req, th.pc.target, x, k, j, slots, inode)
    ensures Moves(f, th, LockChild(th.pc.target, x, k, j, slots, inode))
  {
    assert th.req.DeleteReq?;
    hide Arrived, Doomed;
  }

  lemma DeleteFinds(f: Fs, r: Request, i: nat)
    requires InodesOk(f) && LinksOk(f) && EntriesOk(f) && KidsOk(f) && r.DeleteReq? && i in f.link
    ensures var at := FindFrom(f.d, i, r.name, 0, 0);
      at.Some? && OwnedDir(f, r, i) ==>
        var (k, j) := at.value;
        var x := if SlotAt(f.d, i, k, j).Used? then SlotAt(f.d, i, k, j).ino else 0;
        Doomed(f, r, i, x, k, j, SlotsOf(f.d, i, k), f.d[i])
  {
    LookupIsKid(f, i, r.name);
    if Key(i, r.name) in f.kid { assert Hangs(f, f.kid[Key(i, r.name)]); }
    hide LinksOk, EntriesOk, KidsOk, Lookup, FindFrom;
  }

  lemma DeleteAtKeeps(s: State, t: int)
    requires Inv(s) && t in s.threads && s.threads[t].pc.AtTarget? && s.threads[t].req.DeleteReq?
    ensures StepDelete(s, t).Some? && Inv(StepDelete(s, t).value)
  {
    Facts(s, t);
    hide Inv, PcOk, SharedBy, ExclBy, LinksOk, EntriesOk, KidsOk, InodesOk, HeldOk, FindFrom, SlotsOf, SlotAt;
    DeleteAtMoves(s.fs, s.threads[t]);
    PcFrame(s, t, StepDelete(s, t).value.threads[t].pc);
  }

  lemma LockChildMoves(f: Fs, th: Thread)
    requires PcOk(f, th) && th.pc.LockChild?
    ensures th.req.DeleteReq?
    ensures Owns(f, th, AtChild(th.pc.target, th.pc.child, th.pc.k, th.pc.j, th.pc.slots, th.pc.inode), th.pc.child)
  {
    hide Arrived;
  }

  lemma AtChildMoves(f: Fs, th: Thread)
    requires LinksOk(f) && KidsOk(f) && PcOk(f, th) && th.pc.AtChild?
    ensures Moves(f, th, UnlockChild(th.pc.target, th.pc.child, false))
  {
    KidDiffers(f, Key(th.pc.target, th.req.name));
    hide Arrived, LinksOk, KidsOk;
  }

  lemma UnlockChildMoves(f: Fs, th: Thread)
    requires PcOk(f, th) && th.pc.UnlockChild?
    ensures Disowns(f, th, Unlock(th.pc.target, th.pc.ok, ""), th.pc.child)
  {
    hide Arrived;
  }

  lemma ChildKeeps(s: State, t: int)
    requires Inv(s) && t in s.threads && s.threads[t].req.DeleteReq? && StepDelete(s, t).Some?
    requires s.threads[t].pc.LockChild? || s.threads[t].pc.UnlockChild?
      || (s.threads[t].pc.AtChild? && !MayDelete(s.fs.d, s.threads[t].req.user, s.threads[t].pc.child))
    ensures Inv(StepDelete(s, t).value)
  {
    Facts(s, t);
    hide Inv, PcOk, SharedBy, ExclBy, LinksOk, EntriesOk, KidsOk, InodesOk, HeldOk;
    var th := s.threads[t];
    if th.pc.LockChild? {
      LockChildMoves(s.fs, th);
      AddExclFrame(s, t, th.pc.child, AtChild(th.pc.target, th.pc.child, th.pc.k, th.pc.j, th.pc.slots, th.pc.inode));
    } else if th.pc.AtChild? {
      AtChildMoves(s.fs, th);
      PcFrame(s, t, UnlockChild(th.pc.target, th.pc.child, false));
    } else {
      UnlockChildMoves(s.fs, th);
      DropExclFrame(s, t, th.pc.child, Unlock(th.pc.target, th.pc.ok, ""));
    }
  }

  lemma FreeEntriesMoves(f: Fs, th: Thread, use: seq<Use>)
    requires PcOk(f, th) && th.pc.FreeEntries?
    ensures th.req.DeleteReq? && |th.held| > 1
    ensures var th' := th.(held := th.held[1..], pc := UnlockChild(th.pc.target, th.pc.child, true));
      PcOk(f.(use := use), th') && SharedBy(th') == SharedBy(th) && ExclBy(th') == ExclBy(th)
  {
  }

  lemma FreeEntriesGives(s: State, t: int)
    requires t in s.threads && s.threads[t].req.DeleteReq? && s.threads[t].pc.FreeEntries? && s.threads[t].held != []
    ensures var th := s.threads[t];
      var n := Go(Give(s, t, 1), t, UnlockChild(th.pc.target, th.pc.child, true));
      && StepDelete(s, t) == Some(n) && n.free == s.free + [th.held[0]] && n.fs.d == s.fs.d
      && t in n.threads && n.threads[t].held == th.held[1..]
  {
    hide Freed;
    assert s.threads[t].held[..1] == [s.threads[t].held[0]];
  }

  lemma FirstHeld(f: Fs, t: int, held: seq<nat>)
    requires HeldOk(f, t, held) && held != []
    ensures held[0] < |f.use| && f.use[held[0]] == Private(t)
  {
    assert held[0] in held;
  }

  /** The emptied directory block joins the free queue; the disk does not change any more, and the block was the
      handler's alone, so no inode's. */
  lemma FreeEntriesKeeps(s: State, t: int)
    requires Inv(s) && t in s.threads && s.threads[t].pc.FreeEntries?
    ensures s.threads[t].req.DeleteReq? && StepDelete(s, t).Some? && Inv(StepDelete(s, t).value)
    ensures var (held, n) := (s.threads[t].held, StepDelete(s, t).value);
      && held != [] && held[0] < |s.fs.use| && s.fs.use[held[0]] == Private(t)
      && n.free == s.free + [held[0]] && n.fs.d == s.fs.d && t in n.threads && n.threads[t].held == held[1..]
  {
    Facts(s, t);
    hide Inv, PcOk, SharedBy, ExclBy, LinksOk, EntriesOk, KidsOk, InodesOk, HeldOk, StepDelete, Freed;
    FreeEntriesMoves(s.fs, s.threads[t], s.fs.use);
    FreeEntriesMoves(s.fs, s.threads[t], Freed(s.fs.use, s.threads[t].held[..1]));
    FreeEntriesGives(s, t);
    FirstHeld(s.fs, t, s.threads[t].held);
    hide Give, Go;
    GiveFrame(s, t, 1, UnlockChild(s.threads[t].pc.target, s.threads[t].pc.child, true));
  }

  // ---------------------------------------------------------------- read and write

  lemma DataAtMoves(f: Fs, th: Thread)
    requires PcOk(f, th) && th.pc.AtTarget? && (th.req.ReadReq? || th.req.WriteReq?)
    ensures var (i, r) := (th.pc.target, th.req);
      if || !IsFile(f.d, i) || f.d[i].owner != r.user || r.k > |Blocks(f.d, i)|
         || (r.ReadReq? && r.k == |Blocks(f.d, i)|) then
        Moves(f, th, Unlock(i, false, ""))
      else if r.ReadReq? then Moves(f, th, Unlock(i, true, Contents(f.d, i)[r.k]))
      else if r.k == |Blocks(f.d, i)| then Moves(f, th, NeedData(i, f.d[i]))
      else Moves(f, th, PutData(i, f.d[i]))
  {
    hide Arrived;
  }

  lemma DataAtKeeps(s: State, t: int)
    requires Inv(s) && t in s.threads && s.threads[t].pc.AtTarget?
    requires s.threads[t].req.ReadReq? || s.threads[t].req.WriteReq?
    ensures StepData(s, t).Some? && Inv(StepData(s, t).value)
  {
    Facts(s, t);
    hide Inv, PcOk, SharedBy, ExclBy, LinksOk, EntriesOk, KidsOk, InodesOk, HeldOk;
    DataAtMoves(s.fs, s.threads[t]);
    PcFrame(s, t, StepData(s, t).value.threads[t].pc);
  }

  lemma NeedDataMoves(f: Fs, th: Thread, use: seq<Use>, b: nat)
    requires PcOk(f, th) && th.pc.NeedData?
    ensures th.req.WriteReq? && Moves(f, th, Unlock(th.pc.target, false, ""))
    ensures var th' := th.(held := th.held + [b], pc := GrowData(th.pc.target, th.pc.inode));
      PcOk(f.(use := use), th') && SharedBy(th') == SharedBy(th) && ExclBy(th') == ExclBy(th)
  {
  }

  lemma NeedDataKeeps(s: State, t: int)
    requires Inv(s) && t in s.threads && s.threads[t].pc.NeedData?
    ensures s.threads[t].req.WriteReq? && StepData(s, t).Some? && Inv(StepData(s, t).value)
  {
    Facts(s, t);
    hide Inv, PcOk, SharedBy, ExclBy, LinksOk, EntriesOk, KidsOk, InodesOk, HeldOk;
    var pc := s.threads[t].pc;
    NeedDataMoves(s.fs, s.threads[t], s.fs.use, 0);
    if s.free == [] || |Blocks(s.fs.d, pc.target)| == FS_MAXFILEBLOCKS {
      PcFrame(s, t, Unlock(pc.target, false, ""));
    } else {
      NeedDataMoves(s.fs, s.threads[t], s.fs.use, s.free[0]);
      if s.free[0] < |s.fs.use| { NeedDataMoves(s.fs, s.threads[t], s.fs.use[s.free[0] := Private(t)], s.free[0]); }
      TakeFrame(s, t, GrowData(pc.target, pc.inode));
    }
  }

  lemma DataWriteMoves(f: Fs, t: int, th: Thread)
    requires InodesOk(f) && HeldOk(f, t, th.held) && PcOk(f, th) && th.pc.GrowData?
    ensures th.req.WriteReq? && th.held != [] && th.held[0] < |f.d|
    ensures Moves(f.(d := f.d[th.held[0] := Data(th.req.bytes)]), th, GrowFile(th.pc.target, th.pc.inode))
  {
    assert th.held[0] in th.held;
    assert OwnedFile(f, th.req, th.pc.target, th.pc.inode);
    WriteKeepsFacts(f, t, th, th.held[0], Data(th.req.bytes));
    hide InodesOk, HeldOk, Arrived, OwnedFile;
  }

  lemma DataWriteKeeps(s: State, t: int)
    requires Inv(s) && t in s.threads && s.threads[t].pc.GrowData?
    ensures s.threads[t].req.WriteReq? && StepData(s, t).Some?
    ensures Inv(StepData(s, t).value) && SameView(s.fs.d, StepData(s, t).value.fs.d)
  {
    Facts(s, t);
    var th := s.threads[t];
    hide Inv, SharedBy, ExclBy, LinksOk, EntriesOk, KidsOk, InodesOk, HeldOk, SameView, PcOk;
    DataWriteMoves(s.fs, t, th);
    WriteFrame(s, t, th.held[0], Data(th.req.bytes), GrowFile(th.pc.target, th.pc.inode));
  }
}
