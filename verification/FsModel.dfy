/** The disk of the file server of Project4: typed blocks, the directory tree they spell out, and what it means for
    the blocks to spell out a tree without sharing. */
module FsModel {
  import opened Common

  const FS_DISKSIZE: nat := 4096
  const FS_MAXFILEBLOCKS: nat := 124
  const FS_DIRENTRIES: nat := 8

  datatype Kind = FileKind | DirKind

  /** A directory entry; the name left behind in an unused one is not kept. */
  datatype Slot = Unused | Used(name: string, ino: nat)

  /** The three things a disk block can hold.  `blocks` is the used part of the inode's block array. */
  datatype Block =
    | Inode(kind: Kind, owner: string, blocks: seq<nat>)
    | Entries(slots: seq<Slot>)
    | Data(bytes: string)

  type Disk = seq<Block>

  /** Where the one directory entry of an inode is, under which name, and how deep. */
  datatype Link = Link(parent: nat, name: string, k: nat, j: nat, depth: nat)

  /** What a disk block is for. */
  datatype Use = IsInode | BlockOf(ino: nat, k: nat) | Free | Private(owner: int)

  datatype Key = Key(dir: nat, name: string)

  /** A disk together with the tree it spells out: the entry of each inode, the children of each directory, and the
      purpose of each block. */
  datatype Fs = Fs(d: Disk, link: map<nat, Link>, kid: map<Key, nat>, use: seq<Use>)

  function Blocks(d: Disk, i: nat): seq<nat> {
    if i < |d| && d[i].Inode? then d[i].blocks else []
  }

  predicate IsDir(d: Disk, i: nat) {
    i < |d| && d[i].Inode? && d[i].kind == DirKind
  }

  predicate IsFile(d: Disk, i: nat) {
    i < |d| && d[i].Inode? && d[i].kind == FileKind
  }

  predicate IsEntries(d: Disk, b: nat) {
    b < |d| && d[b].Entries? && |d[b].slots| == FS_DIRENTRIES
  }

  function SlotAt(d: Disk, i: nat, k: nat, j: nat): Slot {
    if k < |Blocks(d, i)| && IsEntries(d, Blocks(d, i)[k]) && j < FS_DIRENTRIES
    then d[Blocks(d, i)[k]].slots[j] else Unused
  }

  // ---------------------------------------------------------------- well-formed disks

  /** Every live inode is an inode with blocks of its own, of the right sort. */
  ghost predicate InodesOk(f: Fs) {
    && |f.d| == |f.use| == FS_DISKSIZE
    && (forall i :: i in f.link ==>
      && i < FS_DISKSIZE && f.d[i].Inode? && |f.d[i].blocks| <= FS_MAXFILEBLOCKS && f.use[i] == IsInode)
    && (forall i, k :: i in f.link && 0 <= k < |Blocks(f.d, i)| ==>
      var b := Blocks(f.d, i)[k];
      && b < FS_DISKSIZE && f.use[b] == BlockOf(i, k)
      && if IsDir(f.d, i) then IsEntries(f.d, b) else f.d[b].Data?)
  }

  /** Nothing else is marked as an inode or as a block of one: no block has two owners. */
  ghost predicate UseOk(f: Fs) {
    && |f.use| == FS_DISKSIZE
    && (forall b :: 0 <= b < FS_DISKSIZE && f.use[b].IsInode? ==> b in f.link)
    && (forall b :: 0 <= b < FS_DISKSIZE && f.use[b].BlockOf? ==>
      f.use[b].ino in f.link && f.use[b].k < |Blocks(f.d, f.use[b].ino)| && Blocks(f.d, f.use[b].ino)[f.use[b].k] == b)
  }

  /** Every live inode but the root hangs at its entry, one level below its parent. */
  ghost predicate LinksOk(f: Fs) {
    && 0 in f.link && IsDir(f.d, 0)
    && (forall i {:trigger Hangs(f, i)} :: i in f.link && i != 0 ==> Hangs(f, i))
  }

  ghost predicate Hangs(f: Fs, i: nat)
    requires i in f.link
  {
    var l := f.link[i];
    && l.parent in f.link && IsDir(f.d, l.parent)
    && SlotAt(f.d, l.parent, l.k, l.j) == Used(l.name, i)
    && l.depth == f.link[l.parent].depth + 1
  }

  /** Every entry leads to a live inode that hangs there, and is the only one of its name in its directory. */
  ghost predicate EntriesOk(f: Fs) {
    forall i: nat, k: nat, j: nat :: i in f.link && SlotAt(f.d, i, k, j).Used? ==>
      var s := SlotAt(f.d, i, k, j);
      && s.ino in f.link && s.ino != 0
      && f.link[s.ino].parent == i && f.link[s.ino].name == s.name && f.link[s.ino].k == k && f.link[s.ino].j == j
      && Key(i, s.name) in f.kid && f.kid[Key(i, s.name)] == s.ino
  }

  ghost predicate KidsOk(f: Fs) {
    forall key :: key in f.kid ==>
      var c := f.kid[key];
      c in f.link && c != 0 && f.link[c].parent == key.dir && f.link[c].name == key.name
  }

  /** No directory keeps a block without entries. */
  ghost predicate NoEmptyBlocks(f: Fs) {
    forall i, k :: i in f.link && IsDir(f.d, i) && 0 <= k < |Blocks(f.d, i)| ==> SomeUsed(f.d, i, k)
  }

  ghost predicate SomeUsed(d: Disk, i: nat, k: nat) {
    exists j :: 0 <= j < FS_DIRENTRIES && SlotAt(d, i, k, j).Used?
  }

  ghost predicate WellFormed(f: Fs) {
    InodesOk(f) && UseOk(f) && LinksOk(f) && EntriesOk(f) && KidsOk(f) && NoEmptyBlocks(f)
  }

  // ---------------------------------------------------------------- what a disk spells out

  /** Scans the entries of inode `i` from (k, j) on for the first one called `name`. */
  function FindFrom(d: Disk, i: nat, name: string, k: nat, j: nat): Option<(nat, nat)>
    requires j <= FS_DIRENTRIES
    decreases |Blocks(d, i)| - k, FS_DIRENTRIES - j
  {
    if k >= |Blocks(d, i)| then None
    else if j == FS_DIRENTRIES then FindFrom(d, i, name, k + 1, 0)
    else if SlotAt(d, i, k, j).Used? && SlotAt(d, i, k, j).name == name then Some((k, j))
    else FindFrom(d, i, name, k, j + 1)
  }

  /** The inode that the directory with inode `i` calls `name`. */
  function Lookup(d: Disk, i: nat, name: string): Option<nat> {
    var at := FindFrom(d, i, name, 0, 0);
    if at.None? || SlotAt(d, i, at.value.0, at.value.1).Unused? then None
    else Some(SlotAt(d, i, at.value.0, at.value.1).ino)
  }

  /** The inode at the end of a path from the root. */
  function Resolve(d: Disk, path: seq<string>): Option<nat> {
    if path == [] then Some(0)
    else
      var p := Resolve(d, path[..|path| - 1]);
      if p.None? then None else Lookup(d, p.value, path[|path| - 1])
  }

  datatype Node = FileNode(owner: string, contents: seq<string>) | DirNode(owner: string)

  function Contents(d: Disk, i: nat): seq<string> {
    var bs := Blocks(d, i);
    seq(|bs|, k requires 0 <= k < |bs| => if bs[k] < |d| && d[bs[k]].Data? then d[bs[k]].bytes else "")
  }

  function NodeOf(d: Disk, i: nat): Option<Node> {
    if IsDir(d, i) then Some(DirNode(d[i].owner))
    else if IsFile(d, i) then Some(FileNode(d[i].owner, Contents(d, i)))
    else None
  }

  /** The abstract file system: what, if anything, a path names. */
  function View(d: Disk, path: seq<string>): Option<Node> {
    var i := Resolve(d, path);
    if i.None? then None else NodeOf(d, i.value)
  }

  ghost predicate SameView(d: Disk, e: Disk) {
    forall path :: View(e, path) == View(d, path)
  }

  /** `e` shows `node` at `path` and agrees with `d` everywhere else. */
  ghost predicate OnlyAt(d: Disk, e: Disk, path: seq<string>, node: Option<Node>) {
    View(e, path) == node && forall p :: p != path ==> View(e, p) == View(d, p)
  }

  // ---------------------------------------------------------------- scans and lookups agree with the tree

  lemma {:induction false} FindFromWorks(d: Disk, i: nat, name: string, k: nat, j: nat)
    requires j <= FS_DIRENTRIES
    ensures FindFrom(d, i, name, k, j).Some? ==>
      var (k', j') := FindFrom(d, i, name, k, j).value;
      && k' < |Blocks(d, i)| && j' < FS_DIRENTRIES
      && SlotAt(d, i, k', j').Used? && SlotAt(d, i, k', j').name == name
    ensures FindFrom(d, i, name, k, j).None? ==>
      forall k': nat, j': nat :: (k' > k || (k' == k && j' >= j)) && SlotAt(d, i, k', j').Used? ==>
        SlotAt(d, i, k', j').name != name
    decreases |Blocks(d, i)| - k, FS_DIRENTRIES - j
  {
    if k < |Blocks(d, i)| {
      if j == FS_DIRENTRIES {
        FindFromWorks(d, i, name, k + 1, 0);
      } else if !(SlotAt(d, i, k, j).Used? && SlotAt(d, i, k, j).name == name) {
        FindFromWorks(d, i, name, k, j + 1);
      }
    }
  }

  /** On a well-formed disk a scan finds exactly the child of that name. */
  lemma LookupIsKid(f: Fs, i: nat, name: string)
    requires LinksOk(f) && EntriesOk(f) && KidsOk(f) && i in f.link
    ensures Lookup(f.d, i, name) == if Key(i, name) in f.kid then Some(f.kid[Key(i, name)]) else None
    ensures FindFrom(f.d, i, name, 0, 0) ==
      if Key(i, name) in f.kid then Some((f.link[f.kid[Key(i, name)]].k, f.link[f.kid[Key(i, name)]].j)) else None
  {
    FindFromWorks(f.d, i, name, 0, 0);
    hide FindFrom, SlotAt, Blocks, IsDir;
    if Key(i, name) in f.kid {
      var c := f.kid[Key(i, name)];
      assert Hangs(f, c);
      assert SlotAt(f.d, i, f.link[c].k, f.link[c].j) == Used(name, c);
    }
  }

  /** Resolution along the children of the tree. */
  ghost function Follow(kid: map<Key, nat>, path: seq<string>): Option<nat> {
    if path == [] then Some(0)
    else
      var p := Follow(kid, path[..|path| - 1]);
      if p.Some? && Key(p.value, path[|path| - 1]) in kid then Some(kid[Key(p.value, path[|path| - 1])]) else None
  }

  lemma {:induction false} ResolveIsFollow(f: Fs, path: seq<string>)
    requires LinksOk(f) && EntriesOk(f) && KidsOk(f)
    ensures Resolve(f.d, path) == Follow(f.kid, path)
    ensures Follow(f.kid, path).Some? ==> Follow(f.kid, path).value in f.link
  {
    if path != [] {
      ResolveIsFollow(f, path[..|path| - 1]);
      var p := Follow(f.kid, path[..|path| - 1]);
      if p.Some? { LookupIsKid(f, p.value, path[|path| - 1]); }
    }
  }

  /** No inode is reached by two paths. */
  lemma {:induction false} OnePath(f: Fs, p: seq<string>, q: seq<string>)
    requires KidsOk(f)
    requires Follow(f.kid, p).Some? && Follow(f.kid, p) == Follow(f.kid, q)
    ensures p == q
  {
    if p != [] && q != [] {
      OnePath(f, p[..|p| - 1], q[..|q| - 1]);
      assert p == p[..|p| - 1] + [p[|p| - 1]];
      assert q == q[..|q| - 1] + [q[|q| - 1]];
    }
  }

  /** Every live inode is reached by a path. */
  lemma {:induction false} PathTo(f: Fs, i: nat) returns (p: seq<string>)
    requires LinksOk(f) && EntriesOk(f) && i in f.link
    ensures Follow(f.kid, p) == Some(i)
    decreases f.link[i].depth
  {
    if i == 0 {
      p := [];
    } else {
      var l := f.link[i];
      assert Hangs(f, i);
      var q := PathTo(f, l.parent);
      assert SlotAt(f.d, l.parent, l.k, l.j).Used?;
      p := q + [l.name];
      assert p[..|p| - 1] == q;
    }
  }

  // ---------------------------------------------------------------- the blocks of the tree

  /** Block `b` is an inode that some path leads to, or a block of one. */
  ghost predicate Reached(d: Disk, b: nat) {
    exists path :: Resolve(d, path).Some? && (Resolve(d, path).value == b || b in Blocks(d, Resolve(d, path).value))
  }

  /** The blocks that the tree reaches are exactly those marked as inodes or as blocks of inodes. */
  lemma ReachedIsUse(f: Fs, b: nat)
    requires WellFormed(f) && b < FS_DISKSIZE
    ensures Reached(f.d, b) <==> f.use[b].IsInode? || f.use[b].BlockOf?
  {
    hide LinksOk, EntriesOk, KidsOk, NoEmptyBlocks, Blocks, Resolve, Follow;
    if Reached(f.d, b) {
      var path :|
        Resolve(f.d, path).Some? && (Resolve(f.d, path).value == b || b in Blocks(f.d, Resolve(f.d, path).value));
      ResolveIsFollow(f, path);
    }
    if f.use[b].IsInode? || f.use[b].BlockOf? {
      var i := if f.use[b].IsInode? then b else f.use[b].ino;
      var path := PathTo(f, i);
      ResolveIsFollow(f, path);
    }
  }
}
