/** The writes of the file server: each one either goes to a block no inode owns and changes nothing, or commits one
    request, turning one well-formed disk into another that differs at exactly one path. */
module FsCommits {
  import opened Common
  import opened FsModel

  ghost predicate Loose(f: Fs, b: nat) {
    b < |f.use| && (f.use[b].Free? || f.use[b].Private?)
  }

  // ---------------------------------------------------------------- writes that are not visible

  /** A block that belongs to no inode can be written at any time: the tree stays the same. */
  lemma LooseWrite(f: Fs, b: nat, x: Block)
    requires WellFormed(f) && Loose(f, b)
    ensures WellFormed(f.(d := f.d[b := x]))
    ensures forall i, k, j :: i in f.link ==> SlotAt(f.d[b := x], i, k, j) == SlotAt(f.d, i, k, j)
    ensures forall i :: i in f.link ==> f.d[b := x][i] == f.d[i] && NodeOf(f.d[b := x], i) == NodeOf(f.d, i)
    ensures SameView(f.d, f.d[b := x])
  {
    var g := f.(d := f.d[b := x]);
    LooseWriteBlocks(f, b, x);
    hide InodesOk, Contents, SlotAt;
    LooseWriteTree(f, g);
    assert UseOk(g);
    assert KidsOk(g);
    hide LinksOk, EntriesOk, KidsOk, NoEmptyBlocks;
    SameKids(f, g);
  }

  lemma LooseWriteTree(f: Fs, g: Fs)
    requires LinksOk(f) && EntriesOk(f) && NoEmptyBlocks(f) && g == f.(d := g.d) && |g.d| == |f.d|
    requires forall i, k, j :: i in f.link ==> SlotAt(g.d, i, k, j) == SlotAt(f.d, i, k, j)
    requires forall i :: i in f.link ==> i < |g.d| && g.d[i] == f.d[i]
    ensures LinksOk(g) && EntriesOk(g) && NoEmptyBlocks(g)
  {
    hide SlotAt;
    forall i, k | i in g.link && IsDir(g.d, i) && 0 <= k < |Blocks(g.d, i)|
      ensures SomeUsed(g.d, i, k)
    {
      assert SomeUsed(f.d, i, k);
      var j :| 0 <= j < FS_DIRENTRIES && SlotAt(f.d, i, k, j).Used?;
      assert SlotAt(g.d, i, k, j).Used?;
    }
    forall i | i in g.link && i != 0 ensures Hangs(g, i) {
      assert Hangs(f, i);
    }
  }

  lemma LooseWriteBlocks(f: Fs, b: nat, x: Block)
    requires InodesOk(f) && Loose(f, b)
    ensures var g := f.(d := f.d[b := x]);
      && InodesOk(g)
      && (forall i, k, j :: i in f.link ==> SlotAt(g.d, i, k, j) == SlotAt(f.d, i, k, j))
      && (forall i :: i in f.link ==> g.d[i] == f.d[i] && Contents(g.d, i) == Contents(f.d, i))
  {
    LooseWriteInodes(f, b, x);
    forall i, k, j | i in f.link ensures SlotAt(f.d[b := x], i, k, j) == SlotAt(f.d, i, k, j) {
      LooseWriteAt(f, b, x, i);
    }
    forall i | i in f.link ensures f.d[b := x][i] == f.d[i] && Contents(f.d[b := x], i) == Contents(f.d, i) {
      LooseWriteAt(f, b, x, i);
    }
    hide InodesOk, SlotAt, Contents;
  }

  lemma LooseWriteInodes(f: Fs, b: nat, x: Block)
    requires InodesOk(f) && Loose(f, b)
    ensures InodesOk(f.(d := f.d[b := x]))
  {
    var g := f.(d := f.d[b := x]);
    forall i, k | i in g.link && 0 <= k < |Blocks(g.d, i)|
      ensures var e := Blocks(g.d, i)[k];
        e < FS_DISKSIZE && g.use[e] == BlockOf(i, k) && if IsDir(g.d, i) then IsEntries(g.d, e) else g.d[e].Data?
    {
      assert g.d[i] == f.d[i] && Blocks(g.d, i) == Blocks(f.d, i) && IsDir(g.d, i) == IsDir(f.d, i);
      assert f.use[Blocks(f.d, i)[k]] == BlockOf(i, k);
      assert g.d[Blocks(f.d, i)[k]] == f.d[Blocks(f.d, i)[k]];
    }
  }

  /** The loose block is neither the inode nor one of its blocks. */
  lemma LooseWriteAt(f: Fs, b: nat, x: Block, i: nat)
    requires InodesOk(f) && Loose(f, b) && i in f.link
    ensures f.d[b := x][i] == f.d[i] && Contents(f.d[b := x], i) == Contents(f.d, i)
    ensures forall k, j :: SlotAt(f.d[b := x], i, k, j) == SlotAt(f.d, i, k, j)
  {
    assert forall k :: 0 <= k < |Blocks(f.d, i)| ==> Blocks(f.d, i)[k] != b;
  }

  /** Two disks with the same children and the same nodes show the same tree. */
  lemma SameKids(f: Fs, g: Fs)
    requires LinksOk(f) && EntriesOk(f) && KidsOk(f) && LinksOk(g) && EntriesOk(g) && KidsOk(g)
    requires f.kid == g.kid
    requires forall i :: i in f.link ==> NodeOf(g.d, i) == NodeOf(f.d, i)
    ensures SameView(f.d, g.d)
  {
    forall path ensures View(g.d, path) == View(f.d, path) {
      ResolveIsFollow(f, path);
      ResolveIsFollow(g, path);
    }
  }

  // ---------------------------------------------------------------- create

  /** `g` is `f` with inode `x` hung under `name` at entry (k, j) of directory `i`. */
  ghost predicate Hung(f: Fs, g: Fs, i: nat, k: nat, j: nat, name: string, x: nat) {
    && i in f.link && x !in f.link && x != 0 && IsDir(f.d, i) && Key(i, name) !in f.kid
    && g.link == f.link[x := Link(i, name, k, j, f.link[i].depth + 1)]
    && g.kid == f.kid[Key(i, name) := x]
    && SlotAt(f.d, i, k, j) == Unused && SlotAt(g.d, i, k, j) == Used(name, x)
    && (forall c: nat, m: nat, n: nat :: c in f.link && !(c == i && m == k && n == j) ==>
      SlotAt(g.d, c, m, n) == SlotAt(f.d, c, m, n))
    && (forall m: nat, n: nat :: SlotAt(g.d, x, m, n) == Unused)
    && (forall c :: c in f.link ==> IsDir(g.d, c) == IsDir(f.d, c))
  }

  lemma HungTree(f: Fs, g: Fs, i: nat, k: nat, j: nat, name: string, x: nat)
    requires LinksOk(f) && EntriesOk(f) && KidsOk(f) && Hung(f, g, i, k, j, name, x)
    ensures LinksOk(g) && EntriesOk(g) && KidsOk(g)
  {
    HungLinks(f, g, i, k, j, name, x);
    HungEntries(f, g, i, k, j, name, x);
    hide SlotAt, IsDir;
  }

  lemma HungLinks(f: Fs, g: Fs, i: nat, k: nat, j: nat, name: string, x: nat)
    requires LinksOk(f) && Hung(f, g, i, k, j, name, x)
    ensures LinksOk(g)
  {
    hide SlotAt, IsDir;
    forall c | c in g.link && c != 0 ensures Hangs(g, c) {
      if c != x { assert Hangs(f, c); }
    }
  }

  lemma HungEntries(f: Fs, g: Fs, i: nat, k: nat, j: nat, name: string, x: nat)
    requires EntriesOk(f) && Hung(f, g, i, k, j, name, x)
    ensures EntriesOk(g)
  {
    hide SlotAt, IsDir;
  }

  /** Adding one child to a tree changes what the paths to that child resolve to. */
  lemma {:induction false} FollowGrown(kid: map<Key, nat>, i: nat, name: string, x: nat, q: seq<string>)
    requires Key(i, name) !in kid && x != 0 && x != i
    requires forall key :: key in kid ==> key.dir != x && kid[key] != x
    ensures Follow(kid[Key(i, name) := x], q) == if LeadsTo(kid, i, name, q) then Some(x) else Follow(kid, q)
    ensures LeadsTo(kid, i, name, q) ==> Follow(kid, q) == None
    ensures Follow(kid, q) != Some(x)
  {
    if q != [] {
      FollowGrown(kid, i, name, x, q[..|q| - 1]);
    }
  }

  /** Path `q` ends with `name` in the directory with inode `i`. */
  ghost predicate LeadsTo(kid: map<Key, nat>, i: nat, name: string, q: seq<string>) {
    q != [] && Follow(kid, q[..|q| - 1]) == Some(i) && q[|q| - 1] == name
  }

  lemma LeadsOnce(f: Fs, i: nat, name: string, p: seq<string>, q: seq<string>)
    requires KidsOk(f) && Follow(f.kid, p) == Some(i)
    ensures LeadsTo(f.kid, i, name, q) <==> q == p + [name]
  {
    assert (p + [name])[..|p|] == p;
    if LeadsTo(f.kid, i, name, q) {
      OnePath(f, q[..|q| - 1], p);
      assert q == q[..|q| - 1] + [name];
    }
  }

  lemma KidParent(f: Fs, key: Key)
    requires LinksOk(f) && KidsOk(f) && key in f.kid
    ensures key.dir in f.link && f.kid[key] in f.link
  {
    assert Hangs(f, f.kid[key]);
  }

  /** The new path shows the new node; every other path shows what it showed. */
  lemma HungView(f: Fs, g: Fs, i: nat, k: nat, j: nat, name: string, x: nat, p: seq<string>)
    requires LinksOk(f) && EntriesOk(f) && KidsOk(f) && Hung(f, g, i, k, j, name, x) && Follow(f.kid, p) == Some(i)
    requires forall c :: c in f.link ==> NodeOf(g.d, c) == NodeOf(f.d, c)
    ensures OnlyAt(f.d, g.d, p + [name], NodeOf(g.d, x)) && View(f.d, p + [name]) == None
  {
    HungTree(f, g, i, k, j, name, x);
    forall key | key in f.kid ensures key.dir != x && f.kid[key] != x {
      KidParent(f, key);
    }
    assert x != i && g.kid == f.kid[Key(i, name) := x];
    forall c | c in f.link ensures c in g.link {
    }
    hide LinksOk, EntriesOk, KidsOk, View, Hung;
    forall q ensures View(g.d, q) == if q == p + [name] then NodeOf(g.d, x) else View(f.d, q) {
      HungViewAt(f, g, i, name, x, p, q);
    }
    HungViewAt(f, g, i, name, x, p, p + [name]);
  }

  lemma HungViewAt(f: Fs, g: Fs, i: nat, name: string, x: nat, p: seq<string>, q: seq<string>)
    requires LinksOk(f) && EntriesOk(f) && KidsOk(f) && LinksOk(g) && EntriesOk(g) && KidsOk(g)
    requires Key(i, name) !in f.kid && g.kid == f.kid[Key(i, name) := x] && x != 0 && x != i
    requires Follow(f.kid, p) == Some(i)
    requires forall key :: key in f.kid ==> key.dir != x && f.kid[key] != x
    requires forall c :: c in f.link ==> NodeOf(g.d, c) == NodeOf(f.d, c)
    ensures View(g.d, q) == if q == p + [name] then NodeOf(g.d, x) else View(f.d, q)
    ensures q == p + [name] ==> View(f.d, q) == None
  {
    ResolveIsFollow(f, q);
    ResolveIsFollow(g, q);
    FollowGrown(f.kid, i, name, x, q);
    LeadsOnce(f, i, name, p, q);
    hide LinksOk, EntriesOk, KidsOk, LeadsTo, Follow, Resolve, NodeOf;
  }

  /** The commit of a create that reuses an entry: one write of a directory block. */
  ghost function HangInSlot(f: Fs, i: nat, k: nat, j: nat, name: string, x: nat): Fs
    requires i in f.link && k < |Blocks(f.d, i)| && IsEntries(f.d, Blocks(f.d, i)[k]) && j < FS_DIRENTRIES
    requires x < |f.use|
  {
    var b := Blocks(f.d, i)[k];
    f.(d := f.d[b := Entries(f.d[b].slots[j := Used(name, x)])],
       link := f.link[x := Link(i, name, k, j, f.link[i].depth + 1)],
       kid := f.kid[Key(i, name) := x], use := f.use[x := IsInode])
  }

  /** An inode that is ready to be hung: loose, and without blocks. */
  ghost predicate Fresh(f: Fs, x: nat) {
    Loose(f, x) && x < |f.d| && f.d[x].Inode? && f.d[x].blocks == []
  }

  lemma HangInSlotShape(f: Fs, i: nat, k: nat, j: nat, name: string, x: nat)
    requires InodesOk(f) && i in f.link && IsDir(f.d, i) && k < |Blocks(f.d, i)| && j < FS_DIRENTRIES
    requires SlotAt(f.d, i, k, j) == Unused && Key(i, name) !in f.kid && Fresh(f, x) && x != 0
    ensures IsEntries(f.d, Blocks(f.d, i)[k])
    ensures Hung(f, HangInSlot(f, i, k, j, name, x), i, k, j, name, x)
  {
    var b := Blocks(f.d, i)[k];
    assert f.use[b] == BlockOf(i, k);
    var g := HangInSlot(f, i, k, j, name, x);
    assert SlotAt(g.d, i, k, j) == Used(name, x);
    assert forall m: nat, n: nat :: SlotAt(g.d, x, m, n) == Unused;
    assert forall c :: c in f.link ==> IsDir(g.d, c) == IsDir(f.d, c);
    forall c: nat, m: nat, n: nat | c in f.link && !(c == i && m == k && n == j)
      ensures SlotAt(g.d, c, m, n) == SlotAt(f.d, c, m, n)
    {
      HangInSlotElse(f, i, k, j, name, x, c, m, n);
    }
    hide SlotAt, IsDir, InodesOk, Blocks, IsEntries;
  }

  lemma HangInSlotElse(f: Fs, i: nat, k: nat, j: nat, name: string, x: nat, c: nat, m: nat, n: nat)
    requires InodesOk(f) && i in f.link && k < |Blocks(f.d, i)| && j < FS_DIRENTRIES
    requires IsEntries(f.d, Blocks(f.d, i)[k])
    requires x < |f.use| && c in f.link && !(c == i && m == k && n == j)
    ensures SlotAt(HangInSlot(f, i, k, j, name, x).d, c, m, n) == SlotAt(f.d, c, m, n)
  {
    assert f.use[Blocks(f.d, i)[k]] == BlockOf(i, k);
    if m < |Blocks(f.d, c)| { assert f.use[Blocks(f.d, c)[m]] == BlockOf(c, m); }
  }

  lemma HangInSlotInodes(f: Fs, i: nat, k: nat, j: nat, name: string, x: nat)
    requires InodesOk(f) && i in f.link && IsDir(f.d, i) && k < |Blocks(f.d, i)| && j < FS_DIRENTRIES
    requires IsEntries(f.d, Blocks(f.d, i)[k]) && Fresh(f, x)
    ensures InodesOk(HangInSlot(f, i, k, j, name, x))
    ensures forall c :: c in f.link ==> Blocks(HangInSlot(f, i, k, j, name, x).d, c) == Blocks(f.d, c)
    ensures Blocks(HangInSlot(f, i, k, j, name, x).d, x) == []
  {
    assert f.use[Blocks(f.d, i)[k]] == BlockOf(i, k);
  }

  lemma HangInSlotUse(f: Fs, i: nat, k: nat, j: nat, name: string, x: nat)
    requires UseOk(f) && i in f.link && k < |Blocks(f.d, i)| && j < FS_DIRENTRIES
    requires IsEntries(f.d, Blocks(f.d, i)[k]) && Fresh(f, x)
    requires forall c :: c in f.link ==> Blocks(HangInSlot(f, i, k, j, name, x).d, c) == Blocks(f.d, c)
    ensures UseOk(HangInSlot(f, i, k, j, name, x))
  {
    hide Blocks, IsEntries;
  }

  lemma HangInSlotNodes(f: Fs, i: nat, k: nat, j: nat, name: string, x: nat, c: nat)
    requires InodesOk(f) && i in f.link && IsDir(f.d, i) && k < |Blocks(f.d, i)| && j < FS_DIRENTRIES
    requires IsEntries(f.d, Blocks(f.d, i)[k]) && Fresh(f, x) && c in f.link
    ensures NodeOf(HangInSlot(f, i, k, j, name, x).d, c) == NodeOf(f.d, c)
  {
    var b := Blocks(f.d, i)[k];
    assert f.use[b] == BlockOf(i, k);
    var g := HangInSlot(f, i, k, j, name, x);
    assert g.d[c] == f.d[c];
    if IsFile(f.d, c) {
      assert forall m :: 0 <= m < |Blocks(f.d, c)| ==> Blocks(f.d, c)[m] != b;
      assert Contents(g.d, c) == Contents(f.d, c);
    }
  }

  lemma HungFull(f: Fs, g: Fs, i: nat, k: nat, j: nat, name: string, x: nat)
    requires NoEmptyBlocks(f) && Hung(f, g, i, k, j, name, x) && j < FS_DIRENTRIES
    requires forall c :: c in f.link && c != i ==> |Blocks(g.d, c)| == |Blocks(f.d, c)|
    requires |Blocks(g.d, i)| <= |Blocks(f.d, i)| || (k == |Blocks(f.d, i)| && |Blocks(g.d, i)| == k + 1)
    requires Blocks(g.d, x) == []
    ensures NoEmptyBlocks(g)
  {
    hide SlotAt, Blocks, IsDir;
    forall c, m | c in g.link && IsDir(g.d, c) && 0 <= m < |Blocks(g.d, c)|
      ensures SomeUsed(g.d, c, m)
    {
      if c == i && m == k {
        assert SlotAt(g.d, i, k, j).Used?;
      } else {
        assert m < |Blocks(f.d, c)|;
        assert SomeUsed(f.d, c, m);
        var n :| 0 <= n < FS_DIRENTRIES && SlotAt(f.d, c, m, n).Used?;
        assert SlotAt(g.d, c, m, n).Used?;
      }
    }
  }

  lemma NodeOfFresh(d: Disk, e: Disk, x: nat)
    requires x < |d| == |e| && d[x] == e[x] && d[x].Inode? && d[x].blocks == []
    ensures NodeOf(d, x) == NodeOf(e, x)
  {
    assert Contents(d, x) == [] == Contents(e, x);
  }

  /** Reusing an unused entry commits a create in one write. */
  lemma HangInSlotCommits(f: Fs, i: nat, k: nat, j: nat, name: string, x: nat, p: seq<string>)
    requires WellFormed(f) && i in f.link && IsDir(f.d, i) && k < |Blocks(f.d, i)| && j < FS_DIRENTRIES
    requires SlotAt(f.d, i, k, j) == Unused && Key(i, name) !in f.kid && Fresh(f, x) && x != 0
    requires Follow(f.kid, p) == Some(i)
    ensures IsEntries(f.d, Blocks(f.d, i)[k])
    ensures var g := HangInSlot(f, i, k, j, name, x);
      && WellFormed(g) && OnlyAt(f.d, g.d, p + [name], NodeOf(f.d, x)) && View(f.d, p + [name]) == None
  {
    HangInSlotShape(f, i, k, j, name, x);
    HangInSlotInodes(f, i, k, j, name, x);
    HangInSlotUse(f, i, k, j, name, x);
    forall c | c in f.link ensures NodeOf(HangInSlot(f, i, k, j, name, x).d, c) == NodeOf(f.d, c) {
      HangInSlotNodes(f, i, k, j, name, x, c);
    }
    var g := HangInSlot(f, i, k, j, name, x);
    assert NodeOf(g.d, x) == NodeOf(f.d, x) by {
      assert f.use[Blocks(f.d, i)[k]] == BlockOf(i, k);
      NodeOfFresh(f.d, g.d, x);
    }
    hide InodesOk, UseOk, LinksOk, EntriesOk, KidsOk, NoEmptyBlocks, Hung, OnlyAt, NodeOf, HangInSlot;
    HungFull(f, g, i, k, j, name, x);
    HungTree(f, g, i, k, j, name, x);
    HungView(f, g, i, k, j, name, x, p);
  }

  /** The commit of a create that needs a new directory block `b`, already written: one write of the parent inode. */
  ghost function HangInBlock(f: Fs, i: nat, b: nat, j: nat, name: string, x: nat): Fs
    requires i in f.link && i < |f.d| && f.d[i].Inode? && x < |f.use| && b < |f.use|
  {
    var n := |f.d[i].blocks|;
    f.(d := f.d[i := f.d[i].(blocks := f.d[i].blocks + [b])],
       link := f.link[x := Link(i, name, n, j, f.link[i].depth + 1)],
       kid := f.kid[Key(i, name) := x], use := f.use[x := IsInode][b := BlockOf(i, n)])
  }

  /** A directory block holding exactly one entry. */
  ghost predicate OneEntry(d: Disk, b: nat, j: nat, s: Slot) {
    && IsEntries(d, b) && j < FS_DIRENTRIES && d[b].slots[j] == s
    && (forall n :: 0 <= n < FS_DIRENTRIES && n != j ==> d[b].slots[n] == Unused)
  }

  lemma HangInBlockInodes(f: Fs, i: nat, b: nat, j: nat, name: string, x: nat)
    requires InodesOk(f) && i in f.link && IsDir(f.d, i) && |Blocks(f.d, i)| < FS_MAXFILEBLOCKS
    requires Fresh(f, x) && Loose(f, b) && b != x && b != 0 && OneEntry(f.d, b, j, Used(name, x))
    ensures var g := HangInBlock(f, i, b, j, name, x);
      && InodesOk(g)
      && (forall c :: c in f.link && c != i ==> Blocks(g.d, c) == Blocks(f.d, c))
      && Blocks(g.d, i) == Blocks(f.d, i) + [b] && Blocks(g.d, x) == []
  {
    assert f.use[i] == IsInode;
    var g := HangInBlock(f, i, b, j, name, x);
    forall c, m | c in g.link && 0 <= m < |Blocks(g.d, c)|
      ensures var e := Blocks(g.d, c)[m];
        e < FS_DISKSIZE && g.use[e] == BlockOf(c, m) && if IsDir(g.d, c) then IsEntries(g.d, e) else g.d[e].Data?
    {
      if !(c == i && m == |Blocks(f.d, i)|) {
        assert c in f.link && Blocks(g.d, c)[m] == Blocks(f.d, c)[m];
      }
    }
  }

  lemma HangInBlockShape(f: Fs, i: nat, b: nat, j: nat, name: string, x: nat)
    requires InodesOk(f) && i in f.link && IsDir(f.d, i) && |Blocks(f.d, i)| < FS_MAXFILEBLOCKS
    requires Key(i, name) !in f.kid && Fresh(f, x) && x != 0 && Loose(f, b) && b != x && b != 0
    requires OneEntry(f.d, b, j, Used(name, x))
    ensures Hung(f, HangInBlock(f, i, b, j, name, x), i, |Blocks(f.d, i)|, j, name, x)
  {
    var g := HangInBlock(f, i, b, j, name, x);
    HangInBlockInodes(f, i, b, j, name, x);
    assert Blocks(g.d, i)[|Blocks(f.d, i)|] == b && g.d[b] == f.d[b];
    forall c: nat, m: nat, n: nat | c in f.link && !(c == i && m == |Blocks(f.d, i)| && n == j)
      ensures SlotAt(g.d, c, m, n) == SlotAt(f.d, c, m, n)
    {
      HangInBlockSlots(f, i, b, j, name, x, c, m, n);
    }
    assert x !in f.link;
  }

  lemma HangInBlockSlots(f: Fs, i: nat, b: nat, j: nat, name: string, x: nat, c: nat, m: nat, n: nat)
    requires InodesOk(f) && i in f.link && Fresh(f, x) && Loose(f, b) && OneEntry(f.d, b, j, Used(name, x))
    requires c in f.link
    requires !(c == i && m == |Blocks(f.d, i)| && n == j)
    requires Blocks(HangInBlock(f, i, b, j, name, x).d, c) == Blocks(f.d, c) + if c == i then [b] else []
    ensures SlotAt(HangInBlock(f, i, b, j, name, x).d, c, m, n) == SlotAt(f.d, c, m, n)
  {
    assert f.use[i] == IsInode;
    if m < |Blocks(f.d, c)| { assert f.use[Blocks(f.d, c)[m]] == BlockOf(c, m); }
  }

  lemma HangInBlockUse(f: Fs, i: nat, b: nat, j: nat, name: string, x: nat)
    requires UseOk(f) && i in f.link && i < |f.d| && f.d[i].Inode? && Fresh(f, x) && Loose(f, b) && b != x
    requires forall c :: c in f.link && c != i ==> Blocks(HangInBlock(f, i, b, j, name, x).d, c) == Blocks(f.d, c)
    requires Blocks(HangInBlock(f, i, b, j, name, x).d, i) == Blocks(f.d, i) + [b]
    ensures UseOk(HangInBlock(f, i, b, j, name, x))
  {
  }

  lemma HangInBlockNodes(f: Fs, i: nat, b: nat, j: nat, name: string, x: nat, c: nat)
    requires InodesOk(f) && i in f.link && IsDir(f.d, i) && Fresh(f, x) && Loose(f, b) && c in f.link
    ensures NodeOf(HangInBlock(f, i, b, j, name, x).d, c) == NodeOf(f.d, c)
  {
    var g := HangInBlock(f, i, b, j, name, x);
    if IsFile(f.d, c) {
      assert forall m :: 0 <= m < |Blocks(f.d, c)| ==> f.use[Blocks(f.d, c)[m]] == BlockOf(c, m);
      assert f.use[i] == IsInode;
      assert Contents(g.d, c) == Contents(f.d, c);
    }
  }

  /** Linking a new directory block commits a create in one write. */
  lemma HangInBlockCommits(f: Fs, i: nat, b: nat, j: nat, name: string, x: nat, p: seq<string>)
    requires WellFormed(f) && i in f.link && IsDir(f.d, i) && |Blocks(f.d, i)| < FS_MAXFILEBLOCKS
    requires Key(i, name) !in f.kid && Fresh(f, x) && x != 0 && Loose(f, b) && b != x && b != 0
    requires OneEntry(f.d, b, j, Used(name, x))
    requires Follow(f.kid, p) == Some(i)
    ensures var g := HangInBlock(f, i, b, j, name, x);
      && WellFormed(g) && OnlyAt(f.d, g.d, p + [name], NodeOf(f.d, x)) && View(f.d, p + [name]) == None
  {
    HangInBlockShape(f, i, b, j, name, x);
    HangInBlockInodes(f, i, b, j, name, x);
    HangInBlockUse(f, i, b, j, name, x);
    forall c | c in f.link ensures NodeOf(HangInBlock(f, i, b, j, name, x).d, c) == NodeOf(f.d, c) {
      HangInBlockNodes(f, i, b, j, name, x, c);
    }
    var g := HangInBlock(f, i, b, j, name, x);
    assert NodeOf(g.d, x) == NodeOf(f.d, x) by { assert f.use[i] == IsInode; NodeOfFresh(f.d, g.d, x); }
    hide InodesOk, UseOk, LinksOk, EntriesOk, KidsOk, NoEmptyBlocks, Hung, OnlyAt, NodeOf, HangInBlock;
    HungFull(f, g, i, |Blocks(f.d, i)|, j, name, x);
    HungTree(f, g, i, |Blocks(f.d, i)|, j, name, x);
    HungView(f, g, i, |Blocks(f.d, i)|, j, name, x, p);
  }

  // ---------------------------------------------------------------- delete

  /** The entry of a sibling after block `k` of directory `i` went away. */
  function Moved(l: Link, i: nat, k: nat): Link {
    if l.parent == i && l.k > k then l.(k := l.k - 1) else l
  }

  /** `g` is `f` without inode `x`, which had no children; `whole` says that its directory block went with it. */
  ghost predicate Cut(f: Fs, g: Fs, x: nat, whole: bool) {
    && x in f.link && x != 0 && (forall c :: c in f.link && c != 0 ==> f.link[c].parent != x)
    && var l := f.link[x];
    && l.parent in f.link && IsDir(f.d, l.parent) && Key(l.parent, l.name) in f.kid && f.kid[Key(l.parent, l.name)] == x
    && g.link == (map c | c in f.link && c != x :: if whole then Moved(f.link[c], l.parent, l.k) else f.link[c])
    && g.kid == f.kid - {Key(l.parent, l.name)}
    && (forall c: nat, m: nat, n: nat :: c in g.link && c != l.parent ==> SlotAt(g.d, c, m, n) == SlotAt(f.d, c, m, n))
    && (forall c :: c in g.link ==> IsDir(g.d, c) == IsDir(f.d, c))
    && (if whole then
      && (forall n: nat :: n != l.j ==> SlotAt(f.d, l.parent, l.k, n) == Unused)
      && (forall m: nat, n: nat ::
        SlotAt(g.d, l.parent, m, n) == SlotAt(f.d, l.parent, if m < l.k then m else m + 1, n))
      else
      && SlotAt(g.d, l.parent, l.k, l.j) == Unused
      && (forall m: nat, n: nat :: !(m == l.k && n == l.j) ==>
        SlotAt(g.d, l.parent, m, n) == SlotAt(f.d, l.parent, m, n)))
  }

  lemma CutLinks(f: Fs, g: Fs, x: nat, whole: bool)
    requires LinksOk(f) && Cut(f, g, x, whole)
    ensures LinksOk(g)
  {
    hide SlotAt, IsDir;
    var l := f.link[x];
    assert Hangs(f, x);
    forall c | c in g.link && c != 0 ensures Hangs(g, c) {
      assert Hangs(f, c);
      var h := f.link[c];
      if h.parent == l.parent && h.k == l.k { assert h.j != l.j; }
    }
  }

  lemma CutEntries(f: Fs, g: Fs, x: nat, whole: bool)
    requires LinksOk(f) && EntriesOk(f) && Cut(f, g, x, whole)
    ensures EntriesOk(g)
  {
    hide SlotAt, IsDir;
    var l := f.link[x];
    assert Hangs(f, x);
    forall i: nat, k: nat, j: nat | i in g.link && SlotAt(g.d, i, k, j).Used?
      ensures var s := SlotAt(g.d, i, k, j);
        && s.ino in g.link && s.ino != 0
        && g.link[s.ino].parent == i && g.link[s.ino].name == s.name && g.link[s.ino].k == k && g.link[s.ino].j == j
        && Key(i, s.name) in g.kid && g.kid[Key(i, s.name)] == s.ino
    {
      var m := if i == l.parent && whole && k >= l.k then k + 1 else k;
      assert SlotAt(g.d, i, k, j) == SlotAt(f.d, i, m, j);
      var s := SlotAt(f.d, i, m, j);
      assert f.link[s.ino].k == m && f.link[s.ino].j == j;
      assert s.ino != x;
    }
  }

  lemma CutKids(f: Fs, g: Fs, x: nat, whole: bool)
    requires KidsOk(f) && Cut(f, g, x, whole)
    ensures KidsOk(g)
  {
  }

  /** Removing one childless child makes exactly its path resolve to nothing. */
  lemma {:induction false} FollowCut(kid: map<Key, nat>, at: Key, q: seq<string>)
    requires at in kid && kid[at] != 0
    requires forall key :: key in kid ==> key.dir != kid[at] && (kid[key] == kid[at] ==> key == at)
    ensures Follow(kid - {at}, q) == if Follow(kid, q) == Some(kid[at]) then None else Follow(kid, q)
  {
    if q != [] {
      FollowCut(kid, at, q[..|q| - 1]);
    }
  }

  /** The path of the removed inode shows nothing any more; every other path shows what it showed. */
  lemma CutView(f: Fs, g: Fs, x: nat, whole: bool, p: seq<string>)
    requires LinksOk(f) && EntriesOk(f) && KidsOk(f) && Cut(f, g, x, whole) && Follow(f.kid, p) == Some(x)
    requires LinksOk(g) && EntriesOk(g) && KidsOk(g)
    requires forall c :: c in g.link ==> NodeOf(g.d, c) == NodeOf(f.d, c)
    ensures OnlyAt(f.d, g.d, p, None) && View(f.d, p) == NodeOf(f.d, x)
  {
    var at := Key(f.link[x].parent, f.link[x].name);
    forall key | key in f.kid ensures key.dir != x && (f.kid[key] == x ==> key == at) {
      KidParent(f, key);
    }
    forall q ensures View(g.d, q) == if q == p then None else View(f.d, q) {
      ResolveIsFollow(f, q);
      ResolveIsFollow(g, q);
      FollowCut(f.kid, at, q);
      if Follow(f.kid, q) == Some(x) { OnePath(f, q, p); }
    }
    ResolveIsFollow(f, p);
  }

  /** The purposes of the blocks after inode `x` is gone: its blocks, and its directory block if that went too, are
      in the hands of `t`. */
  ghost function CutUse(f: Fs, x: nat, whole: bool, t: int): seq<Use>
    requires x in f.link
  {
    var l := f.link[x];
    seq(|f.use|, b requires 0 <= b < |f.use| =>
      var u := f.use[b];
      if b == x || (u.BlockOf? && u.ino == x) || (whole && u == BlockOf(l.parent, l.k)) then Private(t)
      else if whole && u.BlockOf? && u.ino == l.parent && u.k > l.k then BlockOf(u.ino, u.k - 1)
      else u)
  }

  ghost function CutLink(f: Fs, x: nat, whole: bool): map<nat, Link>
    requires x in f.link
  {
    map c | c in f.link && c != x :: if whole then Moved(f.link[c], f.link[x].parent, f.link[x].k) else f.link[c]
  }

  /** The commit of a delete whose directory block keeps other entries: one write of that block. */
  ghost function CutInSlot(f: Fs, x: nat, t: int): Fs
    requires x in f.link && f.link[x].k < |Blocks(f.d, f.link[x].parent)| && f.link[x].j < FS_DIRENTRIES
    requires IsEntries(f.d, Blocks(f.d, f.link[x].parent)[f.link[x].k])
  {
    var l := f.link[x];
    var b := Blocks(f.d, l.parent)[l.k];
    Fs(f.d[b := Entries(f.d[b].slots[l.j := Unused])], CutLink(f, x, false), f.kid - {Key(l.parent, l.name)},
       CutUse(f, x, false, t))
  }

  /** The commit of a delete that empties its directory block: one write of the parent inode, without that block. */
  ghost function CutBlock(f: Fs, x: nat, t: int): Fs
    requires x in f.link && f.link[x].k < |Blocks(f.d, f.link[x].parent)|
  {
    var l := f.link[x];
    var bs := Blocks(f.d, l.parent);
    Fs(f.d[l.parent := f.d[l.parent].(blocks := bs[..l.k] + bs[l.k + 1..])],
       CutLink(f, x, true), f.kid - {Key(l.parent, l.name)}, CutUse(f, x, true, t))
  }

  /** A file, or a directory without blocks: an inode a delete may remove. */
  ghost predicate Removable(f: Fs, x: nat) {
    x in f.link && x != 0 && (IsFile(f.d, x) || Blocks(f.d, x) == [])
  }

  lemma RemovableFacts(f: Fs, x: nat)
    requires LinksOk(f) && EntriesOk(f) && InodesOk(f) && Removable(f, x)
    ensures forall c :: c in f.link && c != 0 ==> f.link[c].parent != x
    ensures var l := f.link[x];
      && l.parent in f.link && l.parent != x && IsDir(f.d, l.parent)
      && l.k < |Blocks(f.d, l.parent)| && l.j < FS_DIRENTRIES
      && IsEntries(f.d, Blocks(f.d, l.parent)[l.k]) && f.use[Blocks(f.d, l.parent)[l.k]] == BlockOf(l.parent, l.k)
      && SlotAt(f.d, l.parent, l.k, l.j) == Used(l.name, x)
      && Key(l.parent, l.name) in f.kid && f.kid[Key(l.parent, l.name)] == x
  {
    assert Hangs(f, x);
    assert SlotAt(f.d, f.link[x].parent, f.link[x].k, f.link[x].j).Used?;
    forall c | c in f.link && c != 0 ensures f.link[c].parent != x {
      assert Hangs(f, c);
    }
  }

  lemma CutInSlotInodes(f: Fs, x: nat, t: int)
    requires InodesOk(f) && LinksOk(f) && EntriesOk(f) && Removable(f, x)
    ensures f.link[x].k < |Blocks(f.d, f.link[x].parent)| && f.link[x].j < FS_DIRENTRIES
    ensures IsEntries(f.d, Blocks(f.d, f.link[x].parent)[f.link[x].k])
    ensures var g := CutInSlot(f, x, t);
      && InodesOk(g)
      && (forall c :: c in f.link ==> g.d[c] == f.d[c])
      && (forall c, m :: c in f.link && 0 <= m < |Blocks(f.d, c)| && !(c == f.link[x].parent && m == f.link[x].k) ==>
        g.d[Blocks(f.d, c)[m]] == f.d[Blocks(f.d, c)[m]])
  {
    RemovableFacts(f, x);
    CutInSlotElse(f, x, t);
    hide LinksOk, EntriesOk, SlotAt;
    CutInSlotUses(f, x, t);
    hide CutUse;
    var l := f.link[x];
    var g := CutInSlot(f, x, t);
    forall c, m | c in g.link && 0 <= m < |Blocks(g.d, c)|
      ensures var e := Blocks(g.d, c)[m];
        e < FS_DISKSIZE && g.use[e] == BlockOf(c, m) && if IsDir(g.d, c) then IsEntries(g.d, e) else g.d[e].Data?
    {
      assert Blocks(g.d, c) == Blocks(f.d, c);
      if !(c == l.parent && m == l.k) { assert g.d[Blocks(f.d, c)[m]] == f.d[Blocks(f.d, c)[m]]; }
    }
  }

  lemma CutInSlotElse(f: Fs, x: nat, t: int)
    requires InodesOk(f) && LinksOk(f) && EntriesOk(f) && Removable(f, x)
    ensures f.link[x].k < |Blocks(f.d, f.link[x].parent)| && f.link[x].j < FS_DIRENTRIES
    ensures IsEntries(f.d, Blocks(f.d, f.link[x].parent)[f.link[x].k])
    ensures var g := CutInSlot(f, x, t);
      && (forall c :: c in f.link ==> g.d[c] == f.d[c])
      && (forall c, m :: c in f.link && 0 <= m < |Blocks(f.d, c)| && !(c == f.link[x].parent && m == f.link[x].k) ==>
        g.d[Blocks(f.d, c)[m]] == f.d[Blocks(f.d, c)[m]])
  {
    RemovableFacts(f, x);
    hide LinksOk, EntriesOk, SlotAt, CutUse, CutLink;
  }

  lemma CutInSlotUses(f: Fs, x: nat, t: int)
    requires InodesOk(f) && Removable(f, x) && f.link[x].k < |Blocks(f.d, f.link[x].parent)|
    requires f.link[x].j < FS_DIRENTRIES
    requires IsEntries(f.d, Blocks(f.d, f.link[x].parent)[f.link[x].k])
    ensures var g := CutInSlot(f, x, t);
      && (forall c :: c in f.link && c != x ==> g.use[c] == IsInode)
      && (forall c, m :: c in f.link && c != x && 0 <= m < |Blocks(f.d, c)| ==>
        g.use[Blocks(f.d, c)[m]] == BlockOf(c, m))
  {
  }

  lemma CutInSlotShape(f: Fs, x: nat, t: int)
    requires InodesOk(f) && LinksOk(f) && EntriesOk(f) && Removable(f, x)
    ensures f.link[x].k < |Blocks(f.d, f.link[x].parent)| && f.link[x].j < FS_DIRENTRIES
    ensures IsEntries(f.d, Blocks(f.d, f.link[x].parent)[f.link[x].k])
    ensures Cut(f, CutInSlot(f, x, t), x, false)
  {
    RemovableFacts(f, x);
    CutInSlotInodes(f, x, t);
    hide InodesOk, EntriesOk, LinksOk;
  }

  lemma CutInSlotUse(f: Fs, x: nat, t: int)
    requires InodesOk(f) && UseOk(f) && LinksOk(f) && EntriesOk(f) && Removable(f, x)
    ensures f.link[x].k < |Blocks(f.d, f.link[x].parent)| && f.link[x].j < FS_DIRENTRIES
    ensures IsEntries(f.d, Blocks(f.d, f.link[x].parent)[f.link[x].k])
    ensures UseOk(CutInSlot(f, x, t))
  {
    CutInSlotInodes(f, x, t);
    hide LinksOk, EntriesOk;
  }

  lemma CutNodes(f: Fs, g: Fs, x: nat)
    requires InodesOk(f) && LinksOk(f) && EntriesOk(f) && Removable(f, x) && |g.d| == |f.d|
    requires forall c :: c in f.link && c != f.link[x].parent ==> g.d[c] == f.d[c]
    requires f.link[x].parent in f.link && IsDir(f.d, f.link[x].parent)
    requires var p := f.link[x].parent; g.d[p].Inode? && g.d[p].kind == DirKind && g.d[p].owner == f.d[p].owner
    requires forall c, m :: c in f.link && IsFile(f.d, c) && 0 <= m < |Blocks(f.d, c)| ==>
      g.d[Blocks(f.d, c)[m]] == f.d[Blocks(f.d, c)[m]]
    ensures forall c :: c in f.link ==> NodeOf(g.d, c) == NodeOf(f.d, c)
  {
    forall c | c in f.link ensures NodeOf(g.d, c) == NodeOf(f.d, c) {
      if IsFile(f.d, c) { assert Contents(g.d, c) == Contents(f.d, c); }
    }
  }

  lemma CutInSlotFull(f: Fs, g: Fs, x: nat)
    requires NoEmptyBlocks(f) && Cut(f, g, x, false)
    requires forall c :: c in f.link ==> Blocks(g.d, c) == Blocks(f.d, c)
    requires exists j: nat ::
      j < FS_DIRENTRIES && j != f.link[x].j && SlotAt(f.d, f.link[x].parent, f.link[x].k, j).Used?
    ensures NoEmptyBlocks(g)
  {
    hide SlotAt, Blocks, IsDir;
    var l := f.link[x];
    forall c, m | c in g.link && IsDir(g.d, c) && 0 <= m < |Blocks(g.d, c)|
      ensures SomeUsed(g.d, c, m)
    {
      if c == l.parent && m == l.k {
        var j: nat :| j < FS_DIRENTRIES && j != l.j && SlotAt(f.d, l.parent, l.k, j).Used?;
        assert SlotAt(g.d, c, m, j).Used?;
      } else {
        assert SomeUsed(f.d, c, m);
        var n :| 0 <= n < FS_DIRENTRIES && SlotAt(f.d, c, m, n).Used?;
        assert SlotAt(g.d, c, m, n).Used?;
      }
    }
  }

  /** Clearing an entry whose block keeps others commits a delete in one write. */
  lemma CutInSlotCommits(f: Fs, x: nat, t: int, p: seq<string>)
    requires WellFormed(f) && Removable(f, x) && Follow(f.kid, p) == Some(x)
    requires exists j: nat ::
      j < FS_DIRENTRIES && j != f.link[x].j && SlotAt(f.d, f.link[x].parent, f.link[x].k, j).Used?
    ensures f.link[x].k < |Blocks(f.d, f.link[x].parent)| && f.link[x].j < FS_DIRENTRIES
    ensures IsEntries(f.d, Blocks(f.d, f.link[x].parent)[f.link[x].k])
    ensures var g := CutInSlot(f, x, t);
      && WellFormed(g) && OnlyAt(f.d, g.d, p, None) && View(f.d, p) == NodeOf(f.d, x)
  {
    CutInSlotShape(f, x, t);
    CutInSlotInodes(f, x, t);
    CutInSlotUse(f, x, t);
    RemovableFacts(f, x);
    var g := CutInSlot(f, x, t);
    CutNodes(f, g, x);
    assert forall c :: c in f.link ==> Blocks(g.d, c) == Blocks(f.d, c);
    hide InodesOk, UseOk, LinksOk, EntriesOk, KidsOk, NoEmptyBlocks, OnlyAt, NodeOf, CutInSlot;
    CutLinks(f, g, x, false);
    CutEntries(f, g, x, false);
    CutKids(f, g, x, false);
    CutInSlotFull(f, g, x);
    assert forall c :: c in g.link ==> c in f.link;
    CutView(f, g, x, false, p);
  }

  lemma CutBlockBlocks(f: Fs, x: nat, t: int)
    requires InodesOk(f) && LinksOk(f) && EntriesOk(f) && Removable(f, x)
    ensures f.link[x].k < |Blocks(f.d, f.link[x].parent)|
    ensures var g := CutBlock(f, x, t);
      var l := f.link[x];
      && f.use[l.parent] == IsInode && IsDir(g.d, l.parent)
      && (forall c :: c in f.link && c != l.parent ==> g.d[c] == f.d[c])
      && (forall c :: c in f.link && c != l.parent ==> Blocks(g.d, c) == Blocks(f.d, c))
      && |Blocks(g.d, l.parent)| == |Blocks(f.d, l.parent)| - 1
      && (forall m :: 0 <= m < |Blocks(g.d, l.parent)| ==>
        Blocks(g.d, l.parent)[m] == Blocks(f.d, l.parent)[if m < l.k then m else m + 1])
  {
    RemovableFacts(f, x);
    var l := f.link[x];
    var g := CutBlock(f, x, t);
    assert Blocks(g.d, l.parent) == Blocks(f.d, l.parent)[..l.k] + Blocks(f.d, l.parent)[l.k + 1..];
  }

  /** What one block is for once a directory block is gone. */
  lemma CutUseAt(f: Fs, x: nat, t: int, b: nat)
    requires x in f.link && b < |f.use| && x < |f.use| && f.use[x] == IsInode
    ensures var l := f.link[x];
      var u := CutUse(f, x, true, t)[b];
      && (b == x ==> u == Private(t))
      && (b != x && f.use[b] == IsInode ==> u == IsInode)
      && (f.use[b].BlockOf? && f.use[b].ino != x && f.use[b] != BlockOf(l.parent, l.k) ==> u == BlockOf(f.use[b].ino,
        if f.use[b].ino == l.parent && f.use[b].k > l.k then f.use[b].k - 1 else f.use[b].k))
      && (u == IsInode ==> b != x && f.use[b] == IsInode)
      && (u.BlockOf? ==> f.use[b].BlockOf? && f.use[b].ino == u.ino != x && f.use[b] != BlockOf(l.parent, l.k))
      && (u.BlockOf? ==> f.use[b].k == if u.ino == l.parent && u.k >= l.k then u.k + 1 else u.k)
  {
  }

  lemma CutBlockInodes(f: Fs, x: nat, t: int)
    requires InodesOk(f) && LinksOk(f) && EntriesOk(f) && Removable(f, x)
    ensures f.link[x].k < |Blocks(f.d, f.link[x].parent)|
    ensures InodesOk(CutBlock(f, x, t))
  {
    RemovableFacts(f, x);
    hide LinksOk, EntriesOk, SlotAt, CutUse, Removable, Blocks;
    var g := CutBlock(f, x, t);
    forall c | c in g.link
      ensures c < FS_DISKSIZE && g.d[c].Inode? && |g.d[c].blocks| <= FS_MAXFILEBLOCKS && g.use[c] == IsInode
    {
      CutBlockInode(f, x, t, c);
    }
    forall c, m: nat | c in g.link && m < |Blocks(g.d, c)|
      ensures var e := Blocks(g.d, c)[m];
        e < FS_DISKSIZE && g.use[e] == BlockOf(c, m) && if IsDir(g.d, c) then IsEntries(g.d, e) else g.d[e].Data?
    {
      CutBlockBlock(f, x, t, c, m);
    }
    assert |g.d| == |g.use| == FS_DISKSIZE;
    hide CutBlock;
  }

  lemma CutBlockInode(f: Fs, x: nat, t: int, c: nat)
    requires InodesOk(f) && LinksOk(f) && EntriesOk(f) && Removable(f, x) && c in f.link && c != x
    ensures f.link[x].k < |Blocks(f.d, f.link[x].parent)|
    ensures var g := CutBlock(f, x, t);
      && c < FS_DISKSIZE == |g.d| == |g.use|
      && g.d[c].Inode? && |g.d[c].blocks| <= FS_MAXFILEBLOCKS && g.use[c] == IsInode
  {
    RemovableFacts(f, x);
    CutBlockBlocks(f, x, t);
    hide LinksOk, EntriesOk, SlotAt, CutUse;
    CutUseAt(f, x, t, c);
  }

  lemma CutBlockBlock(f: Fs, x: nat, t: int, c: nat, m: nat)
    requires InodesOk(f) && LinksOk(f) && EntriesOk(f) && Removable(f, x) && c in f.link && c != x
    ensures f.link[x].k < |Blocks(f.d, f.link[x].parent)|
    ensures var g := CutBlock(f, x, t);
      m < |Blocks(g.d, c)| ==>
        var e := Blocks(g.d, c)[m];
        e < FS_DISKSIZE && e < |g.use| && e < |g.d| && g.use[e] == BlockOf(c, m)
        && if IsDir(g.d, c) then IsEntries(g.d, e) else g.d[e].Data?
  {
    RemovableFacts(f, x);
    CutBlockBlocks(f, x, t);
    hide LinksOk, EntriesOk, SlotAt, CutUse;
    var l := f.link[x];
    var g := CutBlock(f, x, t);
    if m < |Blocks(g.d, c)| {
      var o := if c == l.parent && m >= l.k then m + 1 else m;
      assert Blocks(g.d, c)[m] == Blocks(f.d, c)[o];
      assert f.use[Blocks(f.d, c)[o]] == BlockOf(c, o);
      CutUseAt(f, x, t, Blocks(f.d, c)[o]);
    }
  }

  lemma CutBlockUse(f: Fs, x: nat, t: int)
    requires InodesOk(f) && UseOk(f) && LinksOk(f) && EntriesOk(f) && Removable(f, x)
    ensures f.link[x].k < |Blocks(f.d, f.link[x].parent)|
    ensures UseOk(CutBlock(f, x, t))
  {
    RemovableFacts(f, x);
    CutBlockBlocks(f, x, t);
    assert f.use[x] == IsInode;
    hide LinksOk, EntriesOk, InodesOk, Blocks, SlotAt, CutUse;
    var l := f.link[x];
    var g := CutBlock(f, x, t);
    forall b | 0 <= b < FS_DISKSIZE && g.use[b].IsInode? ensures b in g.link {
      CutUseAt(f, x, t, b);
    }
    forall b | 0 <= b < FS_DISKSIZE && g.use[b].BlockOf?
      ensures g.use[b].ino in g.link && g.use[b].k < |Blocks(g.d, g.use[b].ino)|
      ensures Blocks(g.d, g.use[b].ino)[g.use[b].k] == b
    {
      CutUseAt(f, x, t, b);
    }
  }

  lemma CutBlockSlot(f: Fs, x: nat, t: int, c: nat, m: nat, n: nat)
    requires InodesOk(f) && LinksOk(f) && EntriesOk(f) && Removable(f, x) && c in f.link
    ensures f.link[x].k < |Blocks(f.d, f.link[x].parent)|
    ensures SlotAt(CutBlock(f, x, t).d, c, m, n) ==
      SlotAt(f.d, c, if c == f.link[x].parent && m >= f.link[x].k then m + 1 else m, n)
  {
    CutBlockBlocks(f, x, t);
    hide LinksOk, EntriesOk, CutUse, CutLink;
    var o := if c == f.link[x].parent && m >= f.link[x].k then m + 1 else m;
    if o < |Blocks(f.d, c)| { assert f.use[Blocks(f.d, c)[o]] == BlockOf(c, o); }
  }

  lemma CutBlockShape(f: Fs, x: nat, t: int)
    requires InodesOk(f) && LinksOk(f) && EntriesOk(f) && Removable(f, x)
    requires forall n: nat :: n != f.link[x].j ==> SlotAt(f.d, f.link[x].parent, f.link[x].k, n) == Unused
    ensures f.link[x].k < |Blocks(f.d, f.link[x].parent)|
    ensures Cut(f, CutBlock(f, x, t), x, true)
  {
    RemovableFacts(f, x);
    CutBlockBlocks(f, x, t);
    var l := f.link[x];
    var g := CutBlock(f, x, t);
    assert g.link.Keys == f.link.Keys - {x};
    forall m: nat, n: nat
      ensures SlotAt(g.d, l.parent, m, n) == SlotAt(f.d, l.parent, if m < l.k then m else m + 1, n)
    {
      CutBlockSlot(f, x, t, l.parent, m, n);
    }
    forall c: nat, m: nat, n: nat | c in g.link && c != l.parent ensures SlotAt(g.d, c, m, n) == SlotAt(f.d, c, m, n) {
      CutBlockSlot(f, x, t, c, m, n);
    }
    assert forall c :: c in g.link ==> IsDir(g.d, c) == IsDir(f.d, c);
    hide InodesOk, LinksOk, EntriesOk, SlotAt, Blocks, IsDir;
  }

  lemma CutBlockFull(f: Fs, g: Fs, x: nat)
    requires NoEmptyBlocks(f) && Cut(f, g, x, true)
    requires forall c :: c in f.link && c != f.link[x].parent ==> Blocks(g.d, c) == Blocks(f.d, c)
    requires |Blocks(g.d, f.link[x].parent)| == |Blocks(f.d, f.link[x].parent)| - 1
    ensures NoEmptyBlocks(g)
  {
    hide SlotAt, Blocks, IsDir;
    var l := f.link[x];
    forall c, m: nat | c in g.link && IsDir(g.d, c) && m < |Blocks(g.d, c)|
      ensures SomeUsed(g.d, c, m)
    {
      var o := if c == l.parent && m >= l.k then m + 1 else m;
      assert SomeUsed(f.d, c, o);
      var n :| 0 <= n < FS_DIRENTRIES && SlotAt(f.d, c, o, n).Used?;
      assert SlotAt(g.d, c, m, n).Used?;
    }
  }

  /** Dropping the directory block that held only the entry commits a delete in one write. */
  lemma CutBlockCommits(f: Fs, x: nat, t: int, p: seq<string>)
    requires WellFormed(f) && Removable(f, x) && Follow(f.kid, p) == Some(x)
    requires forall n: nat :: n != f.link[x].j ==> SlotAt(f.d, f.link[x].parent, f.link[x].k, n) == Unused
    ensures f.link[x].k < |Blocks(f.d, f.link[x].parent)|
    ensures var g := CutBlock(f, x, t);
      && WellFormed(g) && OnlyAt(f.d, g.d, p, None) && View(f.d, p) == NodeOf(f.d, x)
  {
    CutBlockShape(f, x, t);
    CutBlockBlocks(f, x, t);
    CutBlockInodes(f, x, t);
    CutBlockUse(f, x, t);
    RemovableFacts(f, x);
    var g := CutBlock(f, x, t);
    assert forall c, m :: c in f.link && 0 <= m < |Blocks(f.d, c)| ==> f.use[Blocks(f.d, c)[m]] == BlockOf(c, m);
    assert f.use[f.link[x].parent] == IsInode;
    CutNodes(f, g, x);
    hide InodesOk, UseOk, LinksOk, EntriesOk, KidsOk, NoEmptyBlocks, OnlyAt, NodeOf, CutBlock;
    CutLinks(f, g, x, true);
    CutEntries(f, g, x, true);
    CutKids(f, g, x, true);
    CutBlockFull(f, g, x);
    assert forall c :: c in g.link ==> c in f.link;
    CutView(f, g, x, true, p);
  }

  // ---------------------------------------------------------------- write

  /** The commit of a write behind the end of a file: one write of the inode, with the loose block `b` appended. */
  ghost function Appended(f: Fs, x: nat, b: nat): Fs
    requires x < |f.d| && f.d[x].Inode? && b < |f.use|
  {
    f.(d := f.d[x := f.d[x].(blocks := f.d[x].blocks + [b])], use := f.use[b := BlockOf(x, |f.d[x].blocks|)])
  }

  /** The commit of a write inside a file: one write of the data block. */
  ghost function Overwritten(f: Fs, x: nat, k: nat, bytes: string): Fs
    requires k < |Blocks(f.d, x)| && Blocks(f.d, x)[k] < |f.d|
  {
    f.(d := f.d[Blocks(f.d, x)[k] := Data(bytes)])
  }

  /** The directories, and so the tree, are the same in `g` as in `f`. */
  ghost predicate SameDirs(f: Fs, g: Fs) {
    && g.link == f.link && g.kid == f.kid
    && (forall c :: c in f.link ==> IsDir(g.d, c) == IsDir(f.d, c))
    && (forall c :: c in f.link && IsDir(f.d, c) ==> Blocks(g.d, c) == Blocks(f.d, c))
    && (forall c: nat, m: nat, n: nat :: c in f.link ==> SlotAt(g.d, c, m, n) == SlotAt(f.d, c, m, n))
  }

  lemma SameDirsTree(f: Fs, g: Fs)
    requires LinksOk(f) && EntriesOk(f) && KidsOk(f) && NoEmptyBlocks(f) && SameDirs(f, g)
    ensures LinksOk(g) && EntriesOk(g) && KidsOk(g) && NoEmptyBlocks(g)
  {
    hide SlotAt, Blocks, IsDir;
    forall c | c in g.link && c != 0 ensures Hangs(g, c) {
      assert Hangs(f, c);
    }
    forall c, m: nat | c in g.link && IsDir(g.d, c) && m < |Blocks(g.d, c)| ensures SomeUsed(g.d, c, m) {
      assert SomeUsed(f.d, c, m);
      var n :| 0 <= n < FS_DIRENTRIES && SlotAt(f.d, c, m, n).Used?;
      assert SlotAt(g.d, c, m, n).Used?;
    }
  }

  lemma SameDirsView(f: Fs, g: Fs, x: nat, p: seq<string>)
    requires LinksOk(f) && EntriesOk(f) && KidsOk(f) && SameDirs(f, g) && LinksOk(g) && EntriesOk(g) && KidsOk(g)
    requires Follow(f.kid, p) == Some(x)
    requires forall c :: c in f.link && c != x ==> NodeOf(g.d, c) == NodeOf(f.d, c)
    ensures OnlyAt(f.d, g.d, p, NodeOf(g.d, x)) && View(f.d, p) == NodeOf(f.d, x)
  {
    forall q ensures View(g.d, q) == if q == p then NodeOf(g.d, x) else View(f.d, q) {
      ResolveIsFollow(f, q);
      ResolveIsFollow(g, q);
      if Follow(f.kid, q) == Some(x) { OnePath(f, q, p); }
    }
    ResolveIsFollow(f, p);
  }

  lemma AppendedElse(f: Fs, x: nat, b: nat)
    requires InodesOk(f) && x in f.link && IsFile(f.d, x) && Loose(f, b) && b < |f.d|
    ensures b != x && f.use[x] == IsInode
    ensures var g := Appended(f, x, b);
      && (forall c :: c in f.link && c != x ==> Blocks(g.d, c) == Blocks(f.d, c) && g.d[c] == f.d[c])
      && Blocks(g.d, x) == Blocks(f.d, x) + [b]
      && (forall c, m :: c in f.link && 0 <= m < |Blocks(f.d, c)| ==> g.d[Blocks(f.d, c)[m]] == f.d[Blocks(f.d, c)[m]])
  {
    assert f.use[x] == IsInode && b != x;
    assert forall c, m :: c in f.link && 0 <= m < |Blocks(f.d, c)| ==> f.use[Blocks(f.d, c)[m]] == BlockOf(c, m);
  }

  lemma AppendedInodes(f: Fs, x: nat, b: nat)
    requires InodesOk(f) && x in f.link && IsFile(f.d, x) && |Blocks(f.d, x)| < FS_MAXFILEBLOCKS
    requires Loose(f, b) && b < |f.d| && f.d[b].Data?
    ensures InodesOk(Appended(f, x, b))
  {
    AppendedElse(f, x, b);
    var g := Appended(f, x, b);
    forall c, m | c in g.link && 0 <= m < |Blocks(g.d, c)|
      ensures var e := Blocks(g.d, c)[m];
        e < FS_DISKSIZE && g.use[e] == BlockOf(c, m) && if IsDir(g.d, c) then IsEntries(g.d, e) else g.d[e].Data?
    {
      if !(c == x && m == |Blocks(f.d, x)|) { assert Blocks(g.d, c)[m] == Blocks(f.d, c)[m]; }
    }
  }

  lemma AppendedDirs(f: Fs, x: nat, b: nat)
    requires InodesOk(f) && x in f.link && IsFile(f.d, x) && Loose(f, b) && b < |f.d| && f.d[b].Data?
    ensures SameDirs(f, Appended(f, x, b))
  {
    AppendedElse(f, x, b);
    AppendedRest(f, x, b);
    hide InodesOk, Appended;
  }

  lemma AppendedRest(f: Fs, x: nat, b: nat)
    requires InodesOk(f) && x in f.link && IsFile(f.d, x) && Loose(f, b) && b < |f.d| && f.d[b].Data?
    ensures var g := Appended(f, x, b);
      && g.link == f.link && g.kid == f.kid && |g.d| == |f.d| && IsFile(g.d, x) && g.d[b].Data?
      && forall m :: 0 <= m < |Blocks(f.d, x)| ==> Blocks(f.d, x)[m] < |f.d| && f.d[Blocks(f.d, x)[m]].Data?
  {
    AppendedElse(f, x, b);
  }

  lemma AppendedBlocks(f: Fs, x: nat, b: nat)
    requires InodesOk(f) && x in f.link && IsFile(f.d, x) && |Blocks(f.d, x)| < FS_MAXFILEBLOCKS
    requires Loose(f, b) && b < |f.d| && f.d[b].Data?
    ensures var g := Appended(f, x, b);
      && InodesOk(g) && SameDirs(f, g)
      && (forall c :: c in f.link && c != x ==> Blocks(g.d, c) == Blocks(f.d, c))
      && Blocks(g.d, x) == Blocks(f.d, x) + [b]
      && (forall c, m :: c in f.link && 0 <= m < |Blocks(f.d, c)| ==> g.d[Blocks(f.d, c)[m]] == f.d[Blocks(f.d, c)[m]])
  {
    AppendedElse(f, x, b);
    AppendedInodes(f, x, b);
    AppendedDirs(f, x, b);
    hide InodesOk, SameDirs, Appended;
  }

  lemma AppendedNodes(f: Fs, x: nat, b: nat)
    requires InodesOk(f) && x in f.link && IsFile(f.d, x) && |Blocks(f.d, x)| < FS_MAXFILEBLOCKS
    requires Loose(f, b) && b < |f.d| && f.d[b].Data?
    ensures var g := Appended(f, x, b);
      && (forall c :: c in f.link && c != x ==> NodeOf(g.d, c) == NodeOf(f.d, c))
      && NodeOf(g.d, x) == Some(FileNode(f.d[x].owner, Contents(f.d, x) + [f.d[b].bytes]))
  {
    var g := Appended(f, x, b);
    AppendedBlocks(f, x, b);
    assert b != x by { assert f.use[x] == IsInode; }
    forall c | c in f.link && c != x ensures NodeOf(g.d, c) == NodeOf(f.d, c) {
      assert Contents(g.d, c) == Contents(f.d, c);
    }
    assert Contents(g.d, x) == Contents(f.d, x) + [f.d[b].bytes];
  }

  /** Appending a block commits a write behind the end in one write: the file grows by that block. */
  lemma AppendedCommits(f: Fs, x: nat, b: nat, p: seq<string>)
    requires WellFormed(f) && x in f.link && IsFile(f.d, x) && |Blocks(f.d, x)| < FS_MAXFILEBLOCKS
    requires Loose(f, b) && b < |f.d| && f.d[b].Data? && Follow(f.kid, p) == Some(x)
    ensures var g := Appended(f, x, b);
      && WellFormed(g)
      && View(f.d, p) == Some(FileNode(f.d[x].owner, Contents(f.d, x)))
      && OnlyAt(f.d, g.d, p, Some(FileNode(f.d[x].owner, Contents(f.d, x) + [f.d[b].bytes])))
  {
    AppendedBlocks(f, x, b);
    AppendedNodes(f, x, b);
    AppendedUse(f, x, b);
    var g := Appended(f, x, b);
    hide InodesOk, UseOk, SameDirs, Appended, OnlyAt;
    SameDirsTree(f, g);
    hide LinksOk, EntriesOk, KidsOk, NoEmptyBlocks;
    SameDirsView(f, g, x, p);
  }

  lemma AppendedUse(f: Fs, x: nat, b: nat)
    requires UseOk(f) && x in f.link && x < |f.d| && f.d[x].Inode? && Loose(f, b)
    requires Blocks(Appended(f, x, b).d, x) == Blocks(f.d, x) + [b]
    requires forall c :: c in f.link && c != x ==> Blocks(Appended(f, x, b).d, c) == Blocks(f.d, c)
    ensures UseOk(Appended(f, x, b))
  {
  }

  lemma OverwrittenElse(f: Fs, x: nat, k: nat, bytes: string)
    requires InodesOk(f) && x in f.link && k < |Blocks(f.d, x)|
    ensures Blocks(f.d, x)[k] < |f.d|
    ensures var g := Overwritten(f, x, k, bytes);
      && (forall c :: c in f.link ==> g.d[c] == f.d[c])
      && (forall c, m :: c in f.link && 0 <= m < |Blocks(f.d, c)| && !(c == x && m == k) ==>
        g.d[Blocks(f.d, c)[m]] == f.d[Blocks(f.d, c)[m]])
  {
    assert f.use[Blocks(f.d, x)[k]] == BlockOf(x, k);
    assert forall c, m :: c in f.link && 0 <= m < |Blocks(f.d, c)| ==> f.use[Blocks(f.d, c)[m]] == BlockOf(c, m);
  }

  lemma OverwrittenDirs(f: Fs, x: nat, k: nat, bytes: string)
    requires InodesOk(f) && x in f.link && IsFile(f.d, x) && k < |Blocks(f.d, x)|
    ensures Blocks(f.d, x)[k] < |f.d| && SameDirs(f, Overwritten(f, x, k, bytes))
  {
    OverwrittenElse(f, x, k, bytes);
    hide InodesOk, Overwritten;
    var g := Overwritten(f, x, k, bytes);
    assert g.link == f.link && g.kid == f.kid && |g.d| == |f.d| by { OverwrittenRest(f, x, k, bytes); }
    assert g.d[Blocks(f.d, x)[k]].Data? && f.d[Blocks(f.d, x)[k]].Data? by { OverwrittenRest(f, x, k, bytes); }
  }

  lemma OverwrittenRest(f: Fs, x: nat, k: nat, bytes: string)
    requires InodesOk(f) && x in f.link && IsFile(f.d, x) && k < |Blocks(f.d, x)|
    ensures Blocks(f.d, x)[k] < |f.d| && f.d[Blocks(f.d, x)[k]].Data?
    ensures var g := Overwritten(f, x, k, bytes);
      && g.link == f.link && g.kid == f.kid && g.use == f.use && |g.d| == |f.d| && g.d[Blocks(f.d, x)[k]] == Data(bytes)
  {
  }

  lemma OverwrittenInodes(f: Fs, x: nat, k: nat, bytes: string)
    requires InodesOk(f) && x in f.link && IsFile(f.d, x) && k < |Blocks(f.d, x)|
    ensures Blocks(f.d, x)[k] < |f.d| && InodesOk(Overwritten(f, x, k, bytes))
  {
    OverwrittenElse(f, x, k, bytes);
    OverwrittenRest(f, x, k, bytes);
    hide Overwritten;
  }

  lemma OverwrittenBlocks(f: Fs, x: nat, k: nat, bytes: string)
    requires InodesOk(f) && x in f.link && IsFile(f.d, x) && k < |Blocks(f.d, x)|
    ensures Blocks(f.d, x)[k] < |f.d|
    ensures var g := Overwritten(f, x, k, bytes);
      && InodesOk(g) && SameDirs(f, g)
      && (forall c :: c in f.link ==> g.d[c] == f.d[c])
      && (forall c, m :: c in f.link && 0 <= m < |Blocks(f.d, c)| && !(c == x && m == k) ==>
        g.d[Blocks(f.d, c)[m]] == f.d[Blocks(f.d, c)[m]])
  {
    OverwrittenElse(f, x, k, bytes);
    OverwrittenDirs(f, x, k, bytes);
    OverwrittenInodes(f, x, k, bytes);
    hide SameDirs, Overwritten, InodesOk;
  }

  lemma OverwrittenNodes(f: Fs, x: nat, k: nat, bytes: string)
    requires InodesOk(f) && UseOk(f) && x in f.link && IsFile(f.d, x) && k < |Blocks(f.d, x)|
    ensures Blocks(f.d, x)[k] < |f.d|
    ensures var g := Overwritten(f, x, k, bytes);
      && UseOk(g)
      && (forall c :: c in f.link && c != x ==> NodeOf(g.d, c) == NodeOf(f.d, c))
      && NodeOf(g.d, x) == Some(FileNode(f.d[x].owner, Contents(f.d, x)[k := bytes]))
  {
    OverwrittenBlocks(f, x, k, bytes);
    var g := Overwritten(f, x, k, bytes);
    forall c | c in f.link && c != x ensures NodeOf(g.d, c) == NodeOf(f.d, c) {
      assert Contents(g.d, c) == Contents(f.d, c);
    }
    assert Contents(g.d, x) == Contents(f.d, x)[k := bytes];
  }

  /** Overwriting a data block commits a write inside the file in one write: that block of the file changes. */
  lemma OverwrittenCommits(f: Fs, x: nat, k: nat, bytes: string, p: seq<string>)
    requires WellFormed(f) && x in f.link && IsFile(f.d, x) && k < |Blocks(f.d, x)| && Follow(f.kid, p) == Some(x)
    ensures Blocks(f.d, x)[k] < |f.d|
    ensures var g := Overwritten(f, x, k, bytes);
      && WellFormed(g)
      && View(f.d, p) == Some(FileNode(f.d[x].owner, Contents(f.d, x)))
      && OnlyAt(f.d, g.d, p, Some(FileNode(f.d[x].owner, Contents(f.d, x)[k := bytes])))
  {
    OverwrittenBlocks(f, x, k, bytes);
    OverwrittenNodes(f, x, k, bytes);
    var g := Overwritten(f, x, k, bytes);
    hide InodesOk, UseOk, SameDirs, Overwritten, OnlyAt;
    SameDirsTree(f, g);
    hide LinksOk, EntriesOk, KidsOk, NoEmptyBlocks;
    SameDirsView(f, g, x, p);
  }
}
