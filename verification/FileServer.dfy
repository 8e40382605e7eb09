/** The handlers of the file server as they run when no other handler is active: they read and write the disk and the
    free queue in place.  The locks are those of FsThreads. */
module FileServer {
  import opened Common
  import opened FsModel
  import opened FsCommits
  import opened FsThreads
  import opened FsInvariant
  import opened FsSteps
  import opened FsCommitSteps
  import opened FsDeleteSteps
  import opened FsTargetSteps
  import opened FsRefusals
  import opened FsRestart
  import opened FsRuns
  import opened FsSolo
  import opened FsWrites

  /** What `check_existance` reports; `block` is a position in the directory if the name was found, else the number of
      a directory block or NO_BLOCK. */
  datatype Target = Target(ino: nat, valid: bool, block: nat, index: nat, entries: seq<Slot>)

  /** The report of the scan for `name` in directory `i`. */
  ghost predicate Reports(d: Disk, i: nat, name: string, r: Target) {
    var at := FindFrom(d, i, name, 0, 0);
    && r.valid == at.Some?
    && (at.Some? && SlotAt(d, i, at.value.0, at.value.1).Used? ==>
      r.ino == SlotAt(d, i, at.value.0, at.value.1).ino && r.block == at.value.0 && r.index == at.value.1)
  }

  /** And the entries that go with it: those of the block with the name, or with the first entry to fill in. */
  ghost predicate ReportsEntries(d: Disk, i: nat, name: string, r: Target) {
    var at := FindFrom(d, i, name, 0, 0);
    var free := FreeSlotFrom(d, i, 0, 0);
    if at.Some? then r.entries == SlotsOf(d, i, at.value.0) else FreeReport(d, i, free, r)
  }

  ghost predicate FreeReport(d: Disk, i: nat, free: Option<(nat, nat)>, r: Target) {
    if free.Some? then
      && free.value.0 < |Blocks(d, i)| && r.block == Blocks(d, i)[free.value.0] != NO_BLOCK && r.index == free.value.1
      && r.entries == SlotsOf(d, i, free.value.0)
    else r.block == NO_BLOCK && r.index == LeftoverIndex(d, i, 0, 0, 0) && |r.entries| == FS_DIRENTRIES
  }

  /** What the scan has found before it reads entry (k, j). */
  ghost predicate Scanning(d: Disk, i: nat, name: string, k: nat, j: nat, r: Target)
    requires j <= FS_DIRENTRIES
  {
    && FindFrom(d, i, name, 0, 0) == FindFrom(d, i, name, k, j)
    && |r.entries| == FS_DIRENTRIES
    && if r.block == NO_BLOCK then
      && FreeSlotFrom(d, i, 0, 0) == FreeSlotFrom(d, i, k, j)
      && LeftoverIndex(d, i, 0, 0, 0) == LeftoverIndex(d, i, k, j, r.index)
      else FreeSlotFrom(d, i, 0, 0).Some? && FreeReport(d, i, FreeSlotFrom(d, i, 0, 0), r)
  }

  /** A create needs a block for its inode, and an entry to fill in or a block for one. */
  ghost predicate CreateRoom(d: Disk, free: seq<nat>, dir: seq<string>) {
    var i := Resolve(d, dir);
    && |free| >= 1
    && (i.Some? ==>
      (exists k, j :: Reusable(d, i.value, k, j)) || (|free| >= 2 && |Blocks(d, i.value)| < FS_MAXFILEBLOCKS))
  }

  /** Every write since `from` left a disk that a restart can take up, and that shows the tree before or the one after.
      */
  ghost predicate Atomic(writes: seq<Disk>, from: nat, before: Disk, after: Disk) {
    forall k :: from <= k < |writes| ==> Sound(writes[k]) && (SameView(before, writes[k]) || SameView(writes[k], after))
  }

  /** The disks and the free blocks that a write leaves. */
  ghost predicate WritesData(r: Request, d: Disk, i: nat, free: seq<nat>, before: seq<Disk>, after: seq<Disk>,
                             left: seq<nat>)
    requires r.WriteReq?
  {
    && after == before + Disks(d, DataWrites(d, r, i, free))
    && left == if r.k < |Blocks(d, i)| || free == [] then free else free[1..]
  }

  /** The disks and the free blocks that a create leaves. */
  ghost predicate WritesEntry(r: Request, d: Disk, i: nat, free: seq<nat>, before: seq<Disk>, after: seq<Disk>,
                              left: seq<nat>)
    requires r.CreateReq?
  {
    && after == before + Disks(d, CreateWrites(d, r, i, free))
    && var used := if FreeSlotFrom(d, i, 0, 0).Some? then 1 else 2;
    used <= |free| && left == free[used..]
  }

  /** The disk and the free blocks that a delete leaves. */
  ghost predicate WritesCut(r: Request, d: Disk, i: nat, free: seq<nat>, before: seq<Disk>, after: seq<Disk>,
                            left: seq<nat>)
    requires r.DeleteReq?
  {
    && after == before + Disks(d, DeleteWrites(d, r, i))
    && Lookup(d, i, r.name).Some? && left == free + DeleteFrees(d, r, i, Lookup(d, i, r.name).value)
  }

  class FileServer {
    const disk: array<Block>
    var freeBlocks: seq<nat>
    /** The tree that the disk spells out. */
    ghost var tree: Fs
    /** The disk after each write since the start. */
    ghost var writes: seq<Disk>

    ghost predicate Valid()
      reads this, disk
    {
      disk.Length == FS_DISKSIZE && tree.d == disk[..] && Settled(tree, freeBlocks)
    }

    /** Starts on a disk that spells out tree `f`. */
    constructor (initial: array<Block>, ghost f: Fs)
      requires initial.Length == FS_DISKSIZE && WellFormed(f) && f.d == initial[..]
      ensures Valid() && disk == initial && disk[..] == f.d && Ascending(freeBlocks)
    {
      disk := initial;
      freeBlocks := [];
      new;
      freeBlocks := InitFreeBlocks(initial[..], f);
      tree := Rescanned(f, freeBlocks);
    }

    method CheckExistance(i: nat, name: string, outputEntries: bool) returns (r: Target)
      requires i < disk.Length && disk[i].Inode?
      requires forall k :: 0 <= k < |disk[i].blocks| ==> IsEntries(disk[..], disk[i].blocks[k])
      ensures Reports(disk[..], i, name, r)
      ensures outputEntries ==> ReportsEntries(disk[..], i, name, r)
    {
      ghost var d := disk[..];
      var inode := disk[i];
      assert Blocks(d, i) == inode.blocks;
      r := Target(0, false, NO_BLOCK, 0, seq(FS_DIRENTRIES, _ => Unused));
      for k: nat := 0 to |inode.blocks|
        invariant outputEntries ==> Scanning(d, i, name, k, 0, r)
        invariant FindFrom(d, i, name, 0, 0) == FindFrom(d, i, name, k, 0)
        invariant !r.valid
      {
        var block := inode.blocks[k];
        assert IsEntries(d, block);
        var entries := disk[block].slots;
        for j: nat := 0 to FS_DIRENTRIES
          invariant outputEntries ==> Scanning(d, i, name, k, j, r)
          invariant FindFrom(d, i, name, 0, 0) == FindFrom(d, i, name, k, j)
          invariant !r.valid
        {
          var entry := entries[j];
          assert entry == SlotAt(d, i, k, j);
          if entry.Used? && entry.name == name {
            r := r.(ino := entry.ino, valid := true, block := k, index := j);
            if outputEntries { r := r.(entries := entries); }
            return;
          } else if outputEntries && entry.Unused? && r.block == NO_BLOCK {
            r := r.(block := block, index := j, entries := entries);
          }
        }
      }
    }

    /** Walks from the root along `names`; `r` is the request whose way they are. */
    method TraverseDir(user: string, names: seq<string>, ghost r: Request) returns (target: nat, valid: bool)
      requires disk.Length == FS_DISKSIZE && tree.d == disk[..] && WellFormed(tree) && Walk(r) == names
      requires r.user == user
      ensures valid ==> Arrived(tree, r, target)
      ensures !valid ==> !Allowed(r, disk[..])
    {
      TreeOf(tree);
      hide WellFormed, LinksOk, EntriesOk, KidsOk, InodesOk, Allowed, Reports, Arrived, Trees;
      var dir: nat := 0;
      assert names[..0] == [];
      for n: nat := 0 to |names|
        invariant (names != [] ==> n < |names|) && (n == 0 ==> dir == 0)
        invariant dir < disk.Length && On(tree, names, n, dir) && IsDir(disk[..], dir) && Passed(tree, user, names, n)
      {
        DirInode(tree, dir);
        var found := CheckExistance(dir, names[n], false);
        Looked(tree, dir, names[n], found);
        if !found.valid {
          NoWay(tree, r, dir, n);
          return found.ino, false;
        }
        OneFurther(tree, names, n, dir);
        if n + 1 == |names| {
          HasArrived(tree, r, found.ino);
          return found.ino, true;
        }
        dir := found.ino;
        if disk[dir].owner != user || disk[dir].kind != DirKind {
          NotMine(tree, r, dir, n + 1);
          return dir, false;
        }
        PassedOne(tree, user, names, n, dir);
      }
      HasArrived(tree, r, 0);
      return 0, true;
    }

    method WriteBlock(b: nat, x: Block)
      requires b < disk.Length
      modifies disk, this`writes
      ensures disk[..] == old(disk[..])[b := x] && writes == old(writes) + [disk[..]]
    {
      disk[b] := x;
      writes := writes + [disk[..]];
    }

    /** Answers exactly the allowed reads, with the block the tree shows. */
    method HandleReadblock(user: string, path: seq<string>, k: nat) returns (ok: bool, data: string)
      requires Valid()
      ensures ok <==> Allowed(ReadReq(user, path, k), disk[..])
      ensures ok ==> data == View(disk[..], path).value.contents[k]
    {
      ok, data := false, "";
      ghost var r := ReadReq(user, path, k);
      if k >= FS_MAXFILEBLOCKS { return; }
      var target, valid := TraverseDir(user, path, r);
      if !valid { return; }
      TreeOf(tree);
      AtInode(tree, r, target);
      hide Valid, Settled, WellFormed, Allowed, Arrived, LinksOk, EntriesOk, KidsOk, InodesOk, Trees, View;
      var inode := disk[target];
      if inode.owner != user || inode.kind != FileKind || k >= |inode.blocks| {
        DataRefused(tree, r, target);
        return;
      }
      ReadAllowed(tree, r, target);
      return true, disk[inode.blocks[k]].bytes;
    }

    /** Carries out exactly the writes that are allowed and for which there is space. */
    method HandleWriteblock(user: string, path: seq<string>, k: nat, bytes: string) returns (ok: bool)
      requires Valid()
      modifies this, disk
      ensures Valid()
      ensures ok <==>
        && Allowed(WriteReq(user, path, k, bytes), old(disk[..]))
        && (old(freeBlocks) != [] || k < |View(old(disk[..]), path).value.contents|)
      ensures ok ==> Effect(WriteReq(user, path, k, bytes), old(disk[..]), disk[..])
      ensures ok ==> Resolve(old(disk[..]), path).Some? && WritesData(WriteReq(user, path, k, bytes), old(disk[..]),
        Resolve(old(disk[..]), path).value, old(freeBlocks), old(writes), writes, freeBlocks)
      ensures !ok ==>
        disk[..] == old(disk[..]) && freeBlocks == old(freeBlocks) && tree == old(tree) && writes == old(writes)
      ensures old(writes) <= writes && Atomic(writes, |old(writes)|, old(disk[..]), disk[..])
    {
      ok := false;
      ghost var r := WriteReq(user, path, k, bytes);
      if k >= FS_MAXFILEBLOCKS { return; }
      var target, valid := TraverseDir(user, path, r);
      if !valid { return; }
      TreeOf(tree);
      AtInode(tree, r, target);
      ResolvesTo(tree, r, target);
      hide Settled, WellFormed, Allowed, Arrived, LinksOk, EntriesOk, KidsOk, InodesOk, Trees, View, Effect, SameView,
        Sound, DataWrites, Disks;
      var inode := disk[target];
      if inode.owner != user || inode.kind != FileKind || k > |inode.blocks| {
        DataRefused(tree, r, target);
        return;
      }
      WriteAllowed(tree, r, target);
      if k == |inode.blocks| {
        if freeBlocks == [] || |inode.blocks| == FS_MAXFILEBLOCKS { return; }
        WriteBehindEnd(target, bytes, r);
      } else {
        WriteInside(target, k, bytes, r);
      }
      ok := true;
    }

    method WriteBehindEnd(target: nat, bytes: string, ghost r: Request)
      requires Valid() && freeBlocks != [] && target in tree.link && target < disk.Length && disk[target].Inode?
      requires r.WriteReq? && r.bytes == bytes && Arrived(tree, r, target) && OwnedFile(tree, r, target, disk[target])
      requires r.k == |Blocks(tree.d, target)|
      modifies this, disk
      ensures Valid() && Effect(r, old(disk[..]), disk[..])
      ensures Atomic(writes, |old(writes)|, old(disk[..]), disk[..])
      ensures writes == old(writes) + Disks(old(disk[..]), DataWrites(old(disk[..]), r, target, old(freeBlocks)))
      ensures freeBlocks == old(freeBlocks)[1..]
    {
      hide Settled, Arrived, Effect, SameView, Sound, OwnedFile;
      ghost var d := disk[..];
      ExtendCommits(tree, freeBlocks, r, target);
      SettledSound(Extended(tree, r, target, freeBlocks[0]), freeBlocks[1..]);
      var inode := disk[target];
      var block := freeBlocks[0];
      tree := Extended(tree, r, target, block);
      freeBlocks := freeBlocks[1..];
      inode := inode.(blocks := inode.blocks + [block]);
      TwoDisks(d, Write(block, Data(bytes)), Write(target, inode));
      WriteBlock(block, Data(bytes));
      WriteBlock(target, inode);
      SameDisk(disk[..]);
    }

    method WriteInside(target: nat, k: nat, bytes: string, ghost r: Request)
      requires Valid() && target in tree.link && target < disk.Length && disk[target].Inode?
      requires r.WriteReq? && r.bytes == bytes && Arrived(tree, r, target) && OwnedFile(tree, r, target, disk[target])
      requires k == r.k < |Blocks(tree.d, target)|
      modifies this, disk
      ensures Valid() && Effect(r, old(disk[..]), disk[..])
      ensures Atomic(writes, |old(writes)|, old(disk[..]), disk[..])
      ensures writes == old(writes) + Disks(old(disk[..]), DataWrites(old(disk[..]), r, target, old(freeBlocks)))
      ensures freeBlocks == old(freeBlocks)
    {
      hide Settled, Arrived, Effect, SameView, Sound, OwnedFile;
      ghost var d := disk[..];
      OverwriteCommits(tree, freeBlocks, r, target);
      SettledSound(Overwritten(tree, target, r.k, bytes), freeBlocks);
      var inode := disk[target];
      tree := Overwritten(tree, target, r.k, bytes);
      OneDisk(d, Write(inode.blocks[k], Data(bytes)));
      WriteBlock(inode.blocks[k], Data(bytes));
      SameDisk(disk[..]);
    }

    method ReturnEmptyBlock(block: nat)
      modifies `freeBlocks
      ensures freeBlocks == old(freeBlocks) + [block]
    {
      freeBlocks := freeBlocks + [block];
    }

    /** Carries out exactly the creates that are allowed and for which there is space. */
    method HandleCreate(user: string, dir: seq<string>, name: string, kind: Kind) returns (ok: bool)
      requires Valid()
      modifies this, disk
      ensures Valid()
      ensures ok <==>
        && Allowed(CreateReq(user, dir, name, kind), old(disk[..]))
        && CreateRoom(old(disk[..]), old(freeBlocks), dir)
      ensures ok ==> Effect(CreateReq(user, dir, name, kind), old(disk[..]), disk[..])
      ensures ok ==> Resolve(old(disk[..]), dir).Some? && WritesEntry(CreateReq(user, dir, name, kind), old(disk[..]),
        Resolve(old(disk[..]), dir).value, old(freeBlocks), old(writes), writes, freeBlocks)
      ensures !ok ==> disk[..] == old(disk[..]) && tree == old(tree) && writes == old(writes)
      ensures !ok ==>
        freeBlocks == if old(freeBlocks) == [] then [] else old(freeBlocks)[1..] + [old(freeBlocks)[0]]
      ensures old(writes) <= writes && Atomic(writes, |old(writes)|, old(disk[..]), disk[..])
    {
      ok := false;
      var r := CreateReq(user, dir, name, kind);
      if freeBlocks == [] { return; }
      var newInode := freeBlocks[0];
      freeBlocks := freeBlocks[1..];
      assert old(freeBlocks) == [newInode] + freeBlocks;
      assert WellFormed(tree);
      hide Settled, WellFormed, Allowed, Arrived, Effect, Atomic, CreateRoom, WritesEntry;
      var target, valid := TraverseDir(user, dir, r);
      if valid {
        TreeOf(tree);
        ResolvesTo(tree, r, target);
        hide LinksOk, EntriesOk, KidsOk, InodesOk, Trees;
        ok := CreateIn(target, newInode, r);
      }
      if !ok {
        Rotated(tree, newInode, freeBlocks);
        ReturnEmptyBlock(newInode);
      }
    }

    /** The rest of a create at the directory with inode `target`, with `newInode` reserved. */
    method CreateIn(target: nat, newInode: nat, r: Request) returns (ok: bool)
      requires disk.Length == FS_DISKSIZE && tree.d == disk[..] && Settled(tree, [newInode] + freeBlocks)
      requires r.CreateReq? && Arrived(tree, r, target)
      modifies this, disk
      ensures ok <==> Allowed(r, old(disk[..])) && CreateRoom(old(disk[..]), [newInode] + old(freeBlocks), r.dir)
      ensures ok ==> tree.d == disk[..] && Settled(tree, freeBlocks) && Effect(r, old(disk[..]), disk[..])
      ensures ok ==>
        WritesEntry(r, old(disk[..]), target, [newInode] + old(freeBlocks), old(writes), writes, freeBlocks)
      ensures !ok ==>
        disk[..] == old(disk[..]) && tree == old(tree) && freeBlocks == old(freeBlocks) && writes == old(writes)
      ensures old(writes) <= writes && Atomic(writes, |old(writes)|, old(disk[..]), disk[..])
    {
      ok := false;
      ghost var (free, d, w) := ([newInode] + freeBlocks, disk[..], writes);
      assert free[1..] == freeBlocks && (freeBlocks != [] ==> free[2..] == freeBlocks[1..]);
      assert WellFormed(tree);
      TreeOf(tree);
      AtInode(tree, r, target);
      hide Settled, WellFormed, Allowed, Arrived, Effect, CreateRoom, LinksOk, EntriesOk, KidsOk, InodesOk, Trees,
        SameView, Sound, Reports, ReportsEntries, WritesEntry, FreeReport, FoundSlot;
      var parent := disk[target];
      if (parent.owner != r.user && parent.owner != "") || parent.kind != DirKind {
        CreateRefused(tree, r, target);
        return;
      }
      var info := CheckExistance(target, r.name, true);
      Looked(tree, target, r.name, info);
      if info.valid {
        CreateRefused(tree, r, target);
        return;
      }
      CreateAllowed(tree, r, target);
      FreeSlotReported(tree, r, target, info, free);
      if info.block == NO_BLOCK {
        if freeBlocks == [] || |parent.blocks| + 1 > FS_MAXFILEBLOCKS { return; }
        AddEntries(target, info.index, newInode, r);
        AddsEntries(d, r, target, free, info, w);
      } else {
        FillEntry(target, info.block, info.index, info.entries, newInode, r);
        FillsEntry(d, r, target, free, info, w);
      }
      ok := true;
    }

    /** Writes the new inode, then the directory block in which entry `index` names it. */
    method FillEntry(target: nat, block: nat, index: nat, entries: seq<Slot>, newInode: nat, r: Request)
      requires disk.Length == FS_DISKSIZE && tree.d == disk[..] && Settled(tree, [newInode] + freeBlocks)
      requires r.CreateReq? && Arrived(tree, r, target) && NewName(tree, r, target) && target in tree.link
      requires FoundSlot(tree, target, block, index, entries)
      modifies this, disk
      ensures tree.d == disk[..] && Settled(tree, freeBlocks) && Effect(r, old(disk[..]), disk[..])
      ensures newInode < |old(disk[..])| && block < |old(disk[..])| && index < |entries|
      ensures freeBlocks == old(freeBlocks)
      ensures var d := old(disk[..])[newInode := NewInode(r)];
        writes == old(writes) + [d, d[block := Entries(entries[index := Used(r.name, newInode)])]]
      ensures old(writes) <= writes && Atomic(writes, |old(writes)|, old(disk[..]), disk[..])
    {
      hide Settled, Arrived, Effect, SameView, Sound, NewName, FoundSlot;
      ghost var after := FillsFound(tree, [newInode] + freeBlocks, r, target, block, index, entries);
      assert ([newInode] + freeBlocks)[1..] == freeBlocks;
      tree := after;
      WriteBlock(newInode, Inode(r.kind, r.user, []));
      WriteBlock(block, Entries(entries[index := Used(r.name, newInode)]));
      SameDisk(disk[..]);
    }

    /** Writes the new inode, a new directory block that names it at entry `index`, and then the directory's inode. */
    method AddEntries(target: nat, index: nat, newInode: nat, r: Request)
      requires disk.Length == FS_DISKSIZE && tree.d == disk[..] && Settled(tree, [newInode] + freeBlocks)
      requires freeBlocks != []
      requires r.CreateReq? && Arrived(tree, r, target) && NewName(tree, r, target) && target in tree.link
      requires |Blocks(tree.d, target)| < FS_MAXFILEBLOCKS && index < FS_DIRENTRIES
      modifies this, disk
      ensures tree.d == disk[..] && Settled(tree, freeBlocks) && Effect(r, old(disk[..]), disk[..])
      ensures target < |old(disk[..])| && old(disk[..])[target].Inode? && newInode < |old(disk[..])|
      ensures old(freeBlocks)[0] < |old(disk[..])| && freeBlocks == old(freeBlocks)[1..]
      ensures var (d, b, parent) := (old(disk[..])[newInode := NewInode(r)], old(freeBlocks)[0], old(disk[..])[target]);
        var e := d[b := Entries(OneSlot(index, Used(r.name, newInode)))];
        writes == old(writes) + [d, e, e[target := parent.(blocks := parent.blocks + [b])]]
      ensures old(writes) <= writes && Atomic(writes, |old(writes)|, old(disk[..]), disk[..])
    {
      ghost var free := [newInode] + freeBlocks;
      hide Settled, Arrived, Effect, SameView, Sound, NewName, Blocks;
      LinkCommits(tree, free, r, target, index);
      assert free[2..] == freeBlocks[1..] && free[1] == freeBlocks[0];
      SettledSound(Linked(tree, r, target, index, newInode, free[1]), freeBlocks[1..]);
      var parent := disk[target];
      var dirBlock := freeBlocks[0];
      freeBlocks := freeBlocks[1..];
      parent := parent.(blocks := parent.blocks + [dirBlock]);
      tree := Linked(tree, r, target, index, newInode, dirBlock);
      hide Linked;
      WriteBlock(newInode, Inode(r.kind, r.user, []));
      WriteBlock(dirBlock, Entries(OneSlot(index, Used(r.name, newInode))));
      WriteBlock(target, parent);
      SameDisk(disk[..]);
    }

    /** Carries out exactly the deletes that are allowed. */
    method HandleDelete(user: string, dir: seq<string>, name: string) returns (ok: bool)
      requires Valid()
      modifies this, disk
      ensures Valid()
      ensures ok <==> Allowed(DeleteReq(user, dir, name), old(disk[..]))
      ensures ok ==> Effect(DeleteReq(user, dir, name), old(disk[..]), disk[..])
      ensures ok ==> Resolve(old(disk[..]), dir).Some? && WritesCut(DeleteReq(user, dir, name), old(disk[..]),
        Resolve(old(disk[..]), dir).value, old(freeBlocks), old(writes), writes, freeBlocks)
      ensures !ok ==>
        disk[..] == old(disk[..]) && tree == old(tree) && freeBlocks == old(freeBlocks) && writes == old(writes)
      ensures old(writes) <= writes && Atomic(writes, |old(writes)|, old(disk[..]), disk[..])
    {
      ok := false;
      var r := DeleteReq(user, dir, name);
      assert WellFormed(tree);
      var target, valid := TraverseDir(user, dir, r);
      if !valid { return; }
      TreeOf(tree);
      AtInode(tree, r, target);
      ResolvesTo(tree, r, target);
      hide Settled, WellFormed, Allowed, Arrived, Effect, LinksOk, EntriesOk, KidsOk, InodesOk, Trees, Reports,
        ReportsEntries, Atomic, WritesCut;
      var parent := disk[target];
      if (parent.owner != user && parent.owner != "") || parent.kind != DirKind {
        DeleteRefused(tree, r, target);
        return;
      }
      var info := CheckExistance(target, name, true);
      Looked(tree, target, name, info);
      if !info.valid {
        DeleteRefused(tree, r, target);
        return;
      }
      NamedEntries(tree, target, name, info);
      var child := disk[info.ino];
      if child.owner != user || (child.kind == DirKind && |child.blocks| > 0) {
        RefusesChild(tree, r, target, info.ino, freeBlocks);
        return;
      }
      CutChild(target, info, r);
      ok := true;
    }

    /** Clears the entry of the child, drops its directory block if that was the last entry, and then frees the blocks.
        */
    method CutChild(target: nat, info: Target, r: Request)
      requires Valid() && target in tree.link && r.DeleteReq? && Arrived(tree, r, target) && OwnedDir(tree, r, target)
      requires Key(target, r.name) in tree.kid && tree.kid[Key(target, r.name)] == info.ino && info.ino in tree.link
      requires info.block == tree.link[info.ino].k && info.index == tree.link[info.ino].j
      requires info.entries == SlotsOf(tree.d, target, info.block) && MayDelete(tree.d, r.user, info.ino)
      modifies this, disk
      ensures Valid() && Allowed(r, old(disk[..])) && Effect(r, old(disk[..]), disk[..])
      ensures WritesCut(r, old(disk[..]), target, old(freeBlocks), old(writes), writes, freeBlocks)
      ensures old(writes) <= writes && Atomic(writes, |old(writes)|, old(disk[..]), disk[..])
    {
      ghost var (free, w) := (freeBlocks, writes);
      hide Settled, Arrived, Effect, SameView, Sound, OwnedDir, SlotsOf, AllUnused, Allowed, MayDelete, WritesCut;
      CutsEntry(tree, r, target, info, free, w);
      tree := Removes(tree, freeBlocks, r, target, info.ino, info.entries);
      var child := disk[info.ino];
      ghost var first :=
        if AllUnused(info.entries[info.index := Unused]) then [disk[target].blocks[info.block]] else [];
      LeaveEntries(target, info.block, info.entries[info.index := Unused]);
      FreeAllOf(child.blocks, info.ino);
      assert freeBlocks == free + first + child.blocks + [info.ino] == free + (first + child.blocks + [info.ino]);
      SameDisk(disk[..]);
    }

    /** Writes the entries left in block `k` of a directory, or takes the block out of it and frees it if there are
        none. */
    method LeaveEntries(target: nat, k: nat, entries: seq<Slot>)
      requires target < disk.Length && disk[target].Inode? && k < |disk[target].blocks|
      requires disk[target].blocks[k] < disk.Length
      modifies disk, `writes, `freeBlocks
      ensures var (d, bs) := (old(disk[..]), old(disk[target].blocks));
        && disk[..] == (if AllUnused(entries) then d[target := d[target].(blocks := bs[..k] + bs[k + 1..])]
                        else d[bs[k] := Entries(entries)])
        && freeBlocks == old(freeBlocks) + (if AllUnused(entries) then [bs[k]] else [])
      ensures writes == old(writes) + [disk[..]]
    {
      var parent := disk[target];
      var currBlock := parent.blocks[k];
      var isEmpty := NoneUsed(entries);
      if isEmpty {
        var blocks := ShiftDown(parent.blocks, k);
        WriteBlock(target, parent.(blocks := blocks));
        freeBlocks := freeBlocks + [currBlock];
      } else {
        WriteBlock(currBlock, Entries(entries));
      }
    }

    /** Puts the blocks of a deleted file in the queue, and then its inode. */
    method FreeAllOf(blocks: seq<nat>, ino: nat)
      modifies `freeBlocks
      ensures freeBlocks == old(freeBlocks) + blocks + [ino]
    {
      for i := 0 to |blocks|
        invariant freeBlocks == old(freeBlocks) + blocks[..i]
      {
        freeBlocks := freeBlocks + [blocks[i]];
      }
      freeBlocks := freeBlocks + [ino];
    }

    static method NoneUsed(entries: seq<Slot>) returns (isEmpty: bool)
      ensures isEmpty == AllUnused(entries)
    {
      isEmpty := true;
      for i := 0 to |entries|
        invariant isEmpty && AllUnused(entries[..i])
      {
        if entries[i].Used? {
          isEmpty := false;
          break;
        }
      }
    }

    /** Moves the blocks behind position `k` one down, in place, and forgets the last. */
    static method ShiftDown(blocks0: seq<nat>, k: nat) returns (blocks: seq<nat>)
      requires k < |blocks0|
      ensures blocks == blocks0[..k] + blocks0[k + 1..]
    {
      blocks := blocks0;
      for i := k to |blocks0| - 1
        invariant |blocks| == |blocks0|
        invariant forall n :: 0 <= n < |blocks| ==> blocks[n] == blocks0[if k <= n < i then n + 1 else n]
      {
        blocks := blocks[i := blocks[i + 1]];
      }
      blocks := blocks[..|blocks| - 1];
    }
  }

  lemma ResolvesTo(f: Fs, r: Request, i: nat)
    requires Trees(f) && Arrived(f, r, i)
    ensures Resolve(f.d, Walk(r)) == Some(i)
  {
    assert Walk(r)[..|Walk(r)|] == Walk(r);
    ResolveIsFollow(f, Walk(r));
    hide LinksOk, EntriesOk, KidsOk, Passed, Follow, Resolve;
  }

  /** What `AddEntries` writes. */
  lemma AddsEntries(d: Disk, r: Request, i: nat, free: seq<nat>, info: Target, before: seq<Disk>)
    requires r.CreateReq? && |free| >= 2 && FreeReport(d, i, FreeSlotFrom(d, i, 0, 0), info) && info.block == NO_BLOCK
    requires free[0] < |d| && free[1] < |d| && i < |d| && d[i].Inode?
    ensures var (c, b) := (d[free[0] := NewInode(r)], free[1]);
      var e := c[b := Entries(OneSlot(info.index, Used(r.name, free[0])))];
      WritesEntry(r, d, i, free, before, before + [c, e, e[i := d[i].(blocks := d[i].blocks + [b])]], free[2..])
  {
    ThreeDisks(d, Write(free[0], NewInode(r)), Write(free[1], Entries(OneSlot(info.index, Used(r.name, free[0])))),
      Write(i, d[i].(blocks := d[i].blocks + [free[1]])));
    hide FreeSlotFrom, LeftoverIndex, Disks;
  }

  /** What `FillEntry` writes. */
  lemma FillsEntry(d: Disk, r: Request, i: nat, free: seq<nat>, info: Target, before: seq<Disk>)
    requires r.CreateReq? && free != [] && FreeReport(d, i, FreeSlotFrom(d, i, 0, 0), info) && info.block != NO_BLOCK
    requires free[0] < |d| && info.block < |d| && info.index < |info.entries|
    ensures var c := d[free[0] := NewInode(r)];
      WritesEntry(r, d, i, free, before,
        before + [c, c[info.block := Entries(info.entries[info.index := Used(r.name, free[0])])]], free[1..])
  {
    TwoDisks(d, Write(free[0], NewInode(r)),
      Write(info.block, Entries(info.entries[info.index := Used(r.name, free[0])])));
    hide FreeSlotFrom, LeftoverIndex, Disks;
  }

  /** What `CutChild` writes and frees. */
  lemma CutsEntry(f: Fs, r: Request, i: nat, info: Target, free: seq<nat>, before: seq<Disk>)
    requires Settled(f, free) && r.DeleteReq? && i in f.link && info.ino in f.link && OwnedDir(f, r, i)
    requires Key(i, r.name) in f.kid && f.kid[Key(i, r.name)] == info.ino
    requires info.block == f.link[info.ino].k && info.index == f.link[info.ino].j
    requires info.entries == SlotsOf(f.d, i, info.block)
    ensures i < |f.d| && f.d[i].Inode? && info.block < |f.d[i].blocks| && f.d[i].blocks[info.block] < |f.d|
    ensures info.index < |info.entries| && info.ino < |f.d| && f.d[info.ino].Inode?
    ensures var (bs, left) := (f.d[i].blocks, info.entries[info.index := Unused]);
      var last := AllUnused(left);
      var d := if last then f.d[i := f.d[i].(blocks := bs[..info.block] + bs[info.block + 1..])]
               else f.d[bs[info.block] := Entries(left)];
      WritesCut(r, f.d, i, free, before, before + [d],
        free + ((if last then [bs[info.block]] else []) + f.d[info.ino].blocks + [info.ino]))
  {
    LookupIsKid(f, i, r.name);
    CutPlace(f, r, i, info);
    var (bs, left) := (f.d[i].blocks, info.entries[info.index := Unused]);
    hide WellFormed, LinksOk, EntriesOk, KidsOk, InodesOk, FindFrom, Lookup, SlotsOf, AllUnused;
    OneDisk(f.d, if AllUnused(left) then Write(i, f.d[i].(blocks := bs[..info.block] + bs[info.block + 1..]))
                 else Write(bs[info.block], Entries(left)));
    hide Disks;
  }

  lemma CutPlace(f: Fs, r: Request, i: nat, info: Target)
    requires WellFormed(f) && r.DeleteReq? && i in f.link && info.ino in f.link && IsDir(f.d, i)
    requires Key(i, r.name) in f.kid && f.kid[Key(i, r.name)] == info.ino
    requires info.block == f.link[info.ino].k && info.index == f.link[info.ino].j
    requires info.entries == SlotsOf(f.d, i, info.block)
    ensures i < |f.d| && f.d[i].Inode? && Blocks(f.d, i) == f.d[i].blocks && info.block < |f.d[i].blocks|
    ensures f.d[i].blocks[info.block] < |f.d| && info.index < |info.entries|
    ensures info.ino < |f.d| && f.d[info.ino].Inode? && Blocks(f.d, info.ino) == f.d[info.ino].blocks
  {
    assert Hangs(f, info.ino);
    assert SlotAt(f.d, i, info.block, info.index).Used?;
  }

  lemma NamedEntries(f: Fs, i: nat, name: string, r: Target)
    requires LinksOk(f) && EntriesOk(f) && KidsOk(f) && InodesOk(f) && i in f.link && Reports(f.d, i, name, r)
    requires ReportsEntries(f.d, i, name, r) && r.valid
    ensures r.entries == SlotsOf(f.d, i, r.block)
  {
    Looked(f, i, name, r);
    LookupIsKid(f, i, name);
    hide FindFrom, SlotsOf;
  }

  lemma RefusesChild(f: Fs, r: Request, i: nat, x: nat, free: seq<nat>)
    requires Settled(f, free) && Arrived(f, r, i) && r.DeleteReq?
    requires Key(i, r.name) in f.kid && f.kid[Key(i, r.name)] == x && !MayDelete(f.d, r.user, x)
    ensures !Allowed(r, f.d)
  {
    TreeOf(f);
    assert NoEmptyBlocks(f);
    hide Settled, WellFormed, LinksOk, EntriesOk, KidsOk, InodesOk, NoEmptyBlocks, Trees, Arrived, MayDelete, Allowed;
    ChildRefused(f, r, i, x);
  }

  lemma Removes(f: Fs, free: seq<nat>, r: Request, i: nat, x: nat, entries: seq<Slot>) returns (e: Fs)
    requires Settled(f, free) && Arrived(f, r, i) && OwnedDir(f, r, i) && r.DeleteReq? && i in f.link && x in f.link
    requires Key(i, r.name) in f.kid && f.kid[Key(i, r.name)] == x && MayDelete(f.d, r.user, x)
    requires entries == SlotsOf(f.d, i, f.link[x].k)
    ensures i < |f.d| && x < |f.d| && f.d[i].Inode? && f.d[x].Inode? && |entries| == FS_DIRENTRIES
    ensures f.link[x].j < FS_DIRENTRIES
    ensures f.link[x].k < |f.d[i].blocks| && f.d[i].blocks[f.link[x].k] < |f.d|
    ensures var (k, j) := (f.link[x].k, f.link[x].j);
      var left := entries[j := Unused];
      var bs := f.d[i].blocks;
      && e.d == (if AllUnused(left) then f.d[i := f.d[i].(blocks := bs[..k] + bs[k + 1..])]
        else f.d[bs[k] := Entries(left)])
      && Settled(e, free + (if AllUnused(left) then [bs[k]] else []) + f.d[x].blocks + [x])
    ensures Sound(e.d) && Effect(r, f.d, e.d) && Allowed(r, f.d)
  {
    hide *;
    RemoveCommits(f, free, r, i, x);
    var th := Cutting(f, r, i, x);
    CuttingIs(f, r, i, x);
    RemovesShape(f, th);
    e := Removed(f, th);
    SettledSound(e, free + Unlinked(f, th));
    EffectAllowed(r, f.d, e.d);
    var (k, j) := (f.link[x].k, f.link[x].j);
    var first := if AllUnused(entries[j := Unused]) then [f.d[i].blocks[k]] else [];
    assert free + (first + f.d[x].blocks + [x]) == free + first + f.d[x].blocks + [x];
  }

  lemma CuttingIs(f: Fs, r: Request, i: nat, x: nat)
    requires x in f.link && i < |f.d|
    ensures var th := Cutting(f, r, i, x);
      && th.pc.AtChild? && th.pc.target == i && th.pc.child == x && th.pc.k == f.link[x].k && th.pc.j == f.link[x].j
      && th.pc.slots == SlotsOf(f.d, i, f.link[x].k)
  {
  }

  lemma RemovesShape(f: Fs, th: Thread)
    requires CutReady(f, th)
    ensures var (i, x, k, j) := (th.pc.target, th.pc.child, th.pc.k, th.pc.j);
      && i < |f.d| && x < |f.d| && f.d[i].Inode? && f.d[x].Inode? && |th.pc.slots| == FS_DIRENTRIES && j < FS_DIRENTRIES
      && k < |f.d[i].blocks| && f.d[i].blocks[k] < |f.d|
      && var left := th.pc.slots[j := Unused];
      && var bs := f.d[i].blocks;
      && Removed(f, th).d == (if AllUnused(left) then f.d[i := f.d[i].(blocks := bs[..k] + bs[k + 1..])]
        else f.d[bs[k] := Entries(left)])
      && Unlinked(f, th) == (if AllUnused(left) then [bs[k]] else []) + f.d[x].blocks + [x]
  {
    RemoveDisk(f, th);
    hide Arrived, OwnedDir, AllUnused, SlotAt, MayDelete, Removed, Unlinked;
    assert [] + f.d[th.pc.child].blocks == f.d[th.pc.child].blocks;
  }

  lemma EffectAllowed(r: Request, d: Disk, e: Disk)
    requires Effect(r, d, e)
    ensures Allowed(r, d)
  {
  }

  /** `block` is a block of directory `i`, and `entries` are its entries, of which number `index` is unused. */
  ghost predicate FoundSlot(f: Fs, i: nat, block: nat, index: nat, entries: seq<Slot>) {
    exists k: nat :: k < |Blocks(f.d, i)| && Blocks(f.d, i)[k] == block
      && EntryBuffer(f, i, k, index, entries, Unused) && entries == SlotsOf(f.d, i, k)
  }

  lemma FillsFound(f: Fs, free: seq<nat>, r: Request, i: nat, block: nat, index: nat,
                   entries: seq<Slot>) returns (e: Fs)
    requires Settled(f, free) && free != [] && r.CreateReq? && Arrived(f, r, i) && NewName(f, r, i) && i in f.link
    requires FoundSlot(f, i, block, index, entries)
    ensures free[0] < |f.d| && block < |f.d| && index < |entries|
    ensures Sound(f.d[free[0] := NewInode(r)]) && SameView(f.d, f.d[free[0] := NewInode(r)])
    ensures e.d == f.d[free[0] := NewInode(r)][block := Entries(entries[index := Used(r.name, free[0])])]
    ensures Settled(e, free[1..]) && Sound(e.d) && Effect(r, f.d, e.d)
  {
    var k: nat :| k < |Blocks(f.d, i)| && Blocks(f.d, i)[k] == block
      && EntryBuffer(f, i, k, index, entries, Unused) && entries == SlotsOf(f.d, i, k);
    assert index < |entries| && block < |f.d|;
    hide Settled, Arrived, Effect, SameView, Sound, NewName, EntryBuffer, FoundSlot, SlotsOf, Blocks;
    FillCommits(f, free, r, i, k, index);
    e := Filled(f, r, i, k, index, free[0]);
    hide Filled;
    SettledSound(e, free[1..]);
  }

  lemma CreateAllowed(f: Fs, r: Request, i: nat)
    requires Trees(f) && InodesOk(f) && Arrived(f, r, i) && r.CreateReq? && IsDir(f.d, i)
    requires (f.d[i].owner == r.user || f.d[i].owner == "") && Key(i, r.name) !in f.kid
    ensures Allowed(r, f.d) && NewName(f, r, i)
  {
    MayWalkHere(f, r, i);
    KidView(f, r, i, r.name);
    hide Trees, InodesOk, LinksOk, EntriesOk, KidsOk, Arrived, View, Follow, MayWalk;
  }

  lemma RoomHere(f: Fs, r: Request, i: nat, free: seq<nat>)
    requires Trees(f) && Arrived(f, r, i) && r.CreateReq?
    ensures CreateRoom(f.d, free, r.dir) <==>
      |free| >= 1 && ((exists k, j :: Reusable(f.d, i, k, j)) || (|free| >= 2 && |Blocks(f.d, i)| < FS_MAXFILEBLOCKS))
  {
    assert Walk(r)[..|Walk(r)|] == Walk(r);
    ResolveIsFollow(f, Walk(r));
    hide Trees, LinksOk, EntriesOk, KidsOk, Passed, Follow, Resolve, Reusable, Blocks;
  }

  /** What the scan reports about the place for a new entry. */
  lemma FreeSlotReported(f: Fs, r: Request, i: nat, info: Target, free: seq<nat>)
    requires Trees(f) && InodesOk(f) && Arrived(f, r, i) && NewName(f, r, i) && |free| >= 1
    requires ReportsEntries(f.d, i, r.name, info) && Reports(f.d, i, r.name, info) && !info.valid
    ensures FreeReport(f.d, i, FreeSlotFrom(f.d, i, 0, 0), info)
    ensures info.block != NO_BLOCK ==>
      FoundSlot(f, i, info.block, info.index, info.entries) && CreateRoom(f.d, free, r.dir)
    ensures info.block == NO_BLOCK ==> info.index < FS_DIRENTRIES
    ensures info.block == NO_BLOCK ==>
      (CreateRoom(f.d, free, r.dir) <==> |free| >= 2 && |Blocks(f.d, i)| < FS_MAXFILEBLOCKS)
  {
    RoomHere(f, r, i, free);
    FreeSlotFromWorks(f.d, i, 0, 0);
    LeftoverBound(f.d, i, 0, 0, 0);
    hide CreateRoom, Trees, Arrived, LeftoverIndex, FreeSlotFrom, FindFrom, LinksOk, EntriesOk, KidsOk;
    if FreeSlotFrom(f.d, i, 0, 0).Some? {
      assert i in f.link by { OnLink(f, r, i); }
      CreateFindsSlot(f, i);
      var at := FreeSlotFrom(f.d, i, 0, 0).value;
      hide Reusable, EntryBuffer, InodesOk, NewName;
      assert EntryBuffer(f, i, at.0, at.1, SlotsOf(f.d, i, at.0), Unused);
    }
  }

  lemma OnLink(f: Fs, r: Request, i: nat)
    requires Arrived(f, r, i)
    ensures i in f.link
  {
  }

  // ---------------------------------------------------------------- what the walk relies on

  lemma TreeOf(f: Fs)
    requires WellFormed(f)
    ensures LinksOk(f) && EntriesOk(f) && KidsOk(f) && InodesOk(f) && 0 in f.link && IsDir(f.d, 0)
    ensures Trees(f) && |f.d| == |f.use| == FS_DISKSIZE
  {
  }

  lemma DirInode(f: Fs, i: nat)
    requires InodesOk(f) && i in f.link && IsDir(f.d, i)
    ensures i < |f.d| && f.d[i].Inode? && Blocks(f.d, i) == f.d[i].blocks
    ensures forall k :: 0 <= k < |f.d[i].blocks| ==> IsEntries(f.d, f.d[i].blocks[k])
  {
    assert forall k :: 0 <= k < |Blocks(f.d, i)| ==> IsEntries(f.d, Blocks(f.d, i)[k]);
  }

  lemma Looked(f: Fs, i: nat, name: string, r: Target)
    requires LinksOk(f) && EntriesOk(f) && KidsOk(f) && InodesOk(f) && i in f.link && Reports(f.d, i, name, r)
    ensures r.valid == Lookup(f.d, i, name).Some? == (Key(i, name) in f.kid)
    ensures r.valid ==> r.ino == f.kid[Key(i, name)] && r.ino in f.link && r.ino < |f.d| && f.d[r.ino].Inode?
    ensures r.valid ==> r.block == f.link[r.ino].k && r.index == f.link[r.ino].j
  {
    LookupIsKid(f, i, name);
    if Key(i, name) in f.kid {
      assert Hangs(f, f.kid[Key(i, name)]);
    }
    hide FindFrom;
  }

  lemma OneFurther(f: Fs, p: seq<string>, n: nat, cur: nat)
    requires On(f, p, n, cur) && n < |p| && KidsOk(f) && Key(cur, p[n]) in f.kid
    ensures On(f, p, n + 1, f.kid[Key(cur, p[n])])
  {
    assert p[..n + 1][..n] == p[..n];
  }

  lemma PassedOne(f: Fs, user: string, p: seq<string>, n: nat, y: nat)
    requires Passed(f, user, p, n) && n < |p| && On(f, p, n + 1, y) && IsDir(f.d, y) && f.d[y].owner == user
    ensures Passed(f, user, p, n + 1)
  {
    assert OwnDir(f, user, p[..n + 1]);
    hide OwnDir;
  }

  lemma HasArrived(f: Fs, r: Request, i: nat)
    requires On(f, Walk(r), |Walk(r)|, i) && Passed(f, r.user, Walk(r), |Walk(r)| - 1)
    ensures Arrived(f, r, i)
  {
  }

  lemma SettledSound(f: Fs, free: seq<nat>)
    requires Settled(f, free)
    ensures Sound(f.d)
  {
  }

  lemma AtInode(f: Fs, r: Request, i: nat)
    requires InodesOk(f) && Arrived(f, r, i)
    ensures i in f.link && i < |f.d| && f.d[i].Inode? && Blocks(f.d, i) == f.d[i].blocks
    ensures |f.d[i].blocks| <= FS_MAXFILEBLOCKS
    ensures forall k :: 0 <= k < |f.d[i].blocks| ==> f.d[i].blocks[k] < |f.d|
    ensures IsFile(f.d, i) ==> forall k :: 0 <= k < |f.d[i].blocks| ==> f.d[f.d[i].blocks[k]].Data?
    ensures IsDir(f.d, i) ==> forall k :: 0 <= k < |f.d[i].blocks| ==> IsEntries(f.d, f.d[i].blocks[k])
  {
    assert forall k :: 0 <= k < |Blocks(f.d, i)| ==> Blocks(f.d, i)[k] < FS_DISKSIZE;
  }

  lemma FileView(f: Fs, r: Request, i: nat)
    requires Trees(f) && InodesOk(f) && Arrived(f, r, i) && (r.ReadReq? || r.WriteReq?) && IsFile(f.d, i)
    ensures View(f.d, r.path) == Some(FileNode(f.d[i].owner, Contents(f.d, i))) && MayWalk(f.d, r)
    ensures |Contents(f.d, i)| == |Blocks(f.d, i)|
  {
    MayWalkHere(f, r, i);
    hide View, Trees, InodesOk, LinksOk, EntriesOk, KidsOk, Arrived, MayWalk, Follow;
  }

  lemma ReadAllowed(f: Fs, r: Request, i: nat)
    requires Trees(f) && InodesOk(f) && Arrived(f, r, i) && r.ReadReq? && IsFile(f.d, i) && f.d[i].owner == r.user
    requires r.k < |Blocks(f.d, i)| && r.k < FS_MAXFILEBLOCKS
    ensures Allowed(r, f.d)
    ensures Blocks(f.d, i)[r.k] < |f.d| && f.d[Blocks(f.d, i)[r.k]].Data?
    ensures View(f.d, r.path).value.contents[r.k] == f.d[Blocks(f.d, i)[r.k]].bytes
  {
    FileView(f, r, i);
    AtInode(f, r, i);
    hide View, Trees, InodesOk, LinksOk, EntriesOk, KidsOk, Arrived, MayWalk, Follow;
  }

  lemma WriteAllowed(f: Fs, r: Request, i: nat)
    requires Trees(f) && InodesOk(f) && Arrived(f, r, i) && r.WriteReq? && IsFile(f.d, i) && f.d[i].owner == r.user
    requires r.k <= |Blocks(f.d, i)| && r.k < FS_MAXFILEBLOCKS
    ensures Allowed(r, f.d) && i < |f.d| && OwnedFile(f, r, i, f.d[i])
    ensures |View(f.d, r.path).value.contents| == |Blocks(f.d, i)|
  {
    FileView(f, r, i);
    hide View, Trees, InodesOk, LinksOk, EntriesOk, KidsOk, Arrived, MayWalk, Follow, Contents;
  }

  lemma Rotated(f: Fs, b: nat, free: seq<nat>)
    requires Settled(f, [b] + free)
    ensures Settled(f, free + [b])
    ensures forall x :: x in free + [b] <==> x in [b] + free
  {
    hide WellFormed;
    var all := [b] + free;
    assert NoDup(all) && all[0] == b && forall k :: 0 <= k < |free| ==> all[k + 1] == free[k];
    forall x ensures x in free + [b] <==> x in all {
    }
    forall i, j | 0 <= i < j < |free + [b]| ensures (free + [b])[i] != (free + [b])[j] {
      assert all[i + 1] == (free + [b])[i];
      assert all[if j < |free| then j + 1 else 0] == (free + [b])[j];
    }
  }

  /** A well-formed disk and a scan of it make a settled file server. */
  lemma Rescanned(f: Fs, free: seq<nat>) returns (g: Fs)
    requires WellFormed(f) && Ascending(free) && forall b :: b in free <==> 0 < b < FS_DISKSIZE && !Reached(f.d, b)
    ensures g.d == f.d && Settled(g, free)
  {
    assert |f.use| == FS_DISKSIZE && f.use[0] == IsInode;
    forall b: nat | b < FS_DISKSIZE ensures Loose(f, b) <==> b in free {
      ReachedIsUse(f, b);
    }
    g := f.(use := Freed(f.use, free));
    hide WellFormed, Reached;
    HandOver(f, g.use);
  }
}
