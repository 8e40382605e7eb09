/** `init_free_blocks`: the free queue rebuilt from the disk when the server starts. */
module FsRestart {
  import opened Common
  import opened FsModel
  import opened FsThreads
  import opened FsInvariant
  import opened FsSteps
  import opened FsGuarantees

  /** The directory block that holds the entry of live inode `c`. */
  ghost function EntryBlock(f: Fs, c: nat): nat
    requires c in f.link
  {
    var l := f.link[c];
    if l.k < |Blocks(f.d, l.parent)| then Blocks(f.d, l.parent)[l.k] else 0
  }

  /** The traversal has come to inode `c`: it is the root, or its entry was read.  `out` are the directory blocks taken
      from the queue, and of the last one, `cur`, the first `n` entries were read. */
  ghost predicate Seen(f: Fs, out: set<nat>, cur: nat, n: nat, c: nat) {
    c in f.link && (c == 0 || (EntryBlock(f, c) in out && (EntryBlock(f, c) == cur ==> f.link[c].j < n)))
  }

  ghost predicate DirBlock(f: Fs, b: nat) {
    b < |f.use| && f.use[b].BlockOf? && f.use[b].ino in f.link && IsDir(f.d, f.use[b].ino)
  }

  /** The queue and what went through it are the blocks of exactly the directories the traversal has come to. */
  ghost predicate QueueOk(f: Fs, out: set<nat>, cur: nat, n: nat, queue: seq<nat>) {
    && NoDup(queue) && (forall q :: q in queue ==> q !in out)
    && (forall q: nat :: q in queue || q in out ==> DirBlock(f, q) && Seen(f, out, cur, n, f.use[q].ino))
    && (forall c, k :: Seen(f, out, cur, n, c) && IsDir(f.d, c) && 0 <= k < |Blocks(f.d, c)| ==>
      Blocks(f.d, c)[k] in queue || Blocks(f.d, c)[k] in out)
  }

  ghost predicate Erased(f: Fs, out: set<nat>, cur: nat, n: nat, b: nat)
    requires b < |f.use|
  {
    || b in out
    || (f.use[b].IsInode? && Seen(f, out, cur, n, b))
    || (f.use[b].BlockOf? && Seen(f, out, cur, n, f.use[b].ino) && IsFile(f.d, f.use[b].ino))
  }

  ghost predicate LeftOk(f: Fs, out: set<nat>, cur: nat, n: nat, left: set<nat>) {
    forall b: nat :: b in left <==> 0 < b < |f.use| && !Erased(f, out, cur, n, b)
  }

  /** Reading entry `n` of block `cur` brings the traversal to the inode of that entry, if any, and to no other. */
  lemma SeesNext(f: Fs, out: set<nat>, cur: nat, n: nat, c: nat)
    requires WellFormed(f) && DirBlock(f, cur) && cur in out && n < FS_DIRENTRIES
    ensures IsEntries(f.d, cur)
    ensures var s := f.d[cur].slots[n];
      Seen(f, out, cur, n + 1, c) <==> Seen(f, out, cur, n, c) || (s.Used? && c == s.ino)
    ensures var s := f.d[cur].slots[n];
      s.Used? ==> s.ino in f.link && s.ino != 0 && !Seen(f, out, cur, n, s.ino)
  {
    var u := f.use[cur];
    assert Blocks(f.d, u.ino)[u.k] == cur;
    assert f.use[Blocks(f.d, u.ino)[u.k]] == BlockOf(u.ino, u.k);
    assert f.d[cur].slots[n] == SlotAt(f.d, u.ino, u.k, n);
    if c in f.link && c != 0 {
      assert Hangs(f, c);
      if EntryBlock(f, c) == cur {
        var l := f.link[c];
        assert SlotAt(f.d, l.parent, l.k, l.j).Used?;
        assert f.use[Blocks(f.d, l.parent)[l.k]] == BlockOf(l.parent, l.k);
      }
    }
  }

  lemma TakesUnread(f: Fs, out: set<nat>, last: nat, q: nat, c: nat)
    requires WellFormed(f) && q !in out
    ensures Seen(f, out + {q}, q, 0, c) <==> Seen(f, out, last, FS_DIRENTRIES, c)
  {
    if c in f.link && c != 0 {
      assert Hangs(f, c);
      assert SlotAt(f.d, f.link[c].parent, f.link[c].k, f.link[c].j).Used?;
    }
  }

  /** Taking a block from the queue, before any of its entries is read. */
  lemma TakesBlock(f: Fs, out: set<nat>, last: nat, queue: seq<nat>, left: set<nat>)
    requires WellFormed(f) && queue != [] && QueueOk(f, out, last, FS_DIRENTRIES, queue)
    requires LeftOk(f, out, last, FS_DIRENTRIES, left)
    ensures DirBlock(f, queue[0]) && queue[0] !in out
    ensures QueueOk(f, out + {queue[0]}, queue[0], 0, queue[1..])
    ensures LeftOk(f, out + {queue[0]}, queue[0], 0, left - {queue[0]})
  {
    var q := queue[0];
    assert q in queue;
    assert forall b :: b in queue[1..] <==> b in queue && b != q;
    forall c ensures Seen(f, out + {q}, q, 0, c) <==> Seen(f, out, last, FS_DIRENTRIES, c) {
      TakesUnread(f, out, last, q, c);
    }
    hide Seen, WellFormed;
    assert forall b: nat :: b < |f.use| ==>
      (Erased(f, out + {q}, q, 0, b) <==> Erased(f, out, last, FS_DIRENTRIES, b) || b == q);
    hide Erased, DirBlock, Blocks, IsDir;
  }

  /** Reading an unused entry. */
  lemma PassesUnused(f: Fs, out: set<nat>, cur: nat, n: nat, queue: seq<nat>, left: set<nat>)
    requires WellFormed(f) && DirBlock(f, cur) && cur in out && n < FS_DIRENTRIES && IsEntries(f.d, cur)
    requires f.d[cur].slots[n].Unused?
    requires QueueOk(f, out, cur, n, queue) && LeftOk(f, out, cur, n, left)
    ensures QueueOk(f, out, cur, n + 1, queue) && LeftOk(f, out, cur, n + 1, left)
  {
    forall c ensures Seen(f, out, cur, n + 1, c) <==> Seen(f, out, cur, n, c) {
      SeesNext(f, out, cur, n, c);
    }
    hide Seen, WellFormed, DirBlock, Blocks, IsDir;
  }

  /** Reading the entry of a file: the file's inode and blocks are not free. */
  lemma PassesFile(f: Fs, out: set<nat>, cur: nat, n: nat, queue: seq<nat>, left: set<nat>, c: nat)
    requires WellFormed(f) && DirBlock(f, cur) && cur in out && n < FS_DIRENTRIES && IsEntries(f.d, cur)
    requires f.d[cur].slots[n].Used? && f.d[cur].slots[n].ino == c && IsFile(f.d, c)
    requires QueueOk(f, out, cur, n, queue) && LeftOk(f, out, cur, n, left)
    ensures QueueOk(f, out, cur, n + 1, queue)
    ensures LeftOk(f, out, cur, n + 1, left - {c} - set b | b in Blocks(f.d, c))
  {
    SeesNext(f, out, cur, n, c);
    forall x ensures Seen(f, out, cur, n + 1, x) <==> Seen(f, out, cur, n, x) || x == c {
      SeesNext(f, out, cur, n, x);
    }
    FileBlocks(f, c);
    hide Seen, WellFormed, Blocks, IsDir, IsFile, DirBlock;
    forall b: nat | b < |f.use|
      ensures Erased(f, out, cur, n + 1, b) <==> Erased(f, out, cur, n, b) || b == c || b in Blocks(f.d, c)
    {
    }
    hide Erased;
  }

  lemma FileBlocks(f: Fs, c: nat)
    requires WellFormed(f) && c in f.link && IsFile(f.d, c)
    ensures c < |f.use| == FS_DISKSIZE && f.use[c] == IsInode && !IsDir(f.d, c)
    ensures forall b: nat :: b < |f.use| ==> (b in Blocks(f.d, c) <==> f.use[b].BlockOf? && f.use[b].ino == c)
  {
    assert forall k :: 0 <= k < |Blocks(f.d, c)| ==> f.use[Blocks(f.d, c)[k]] == BlockOf(c, k);
  }

  /** Reading the entry of a directory: its inode is not free, and its blocks wait to be read. */
  lemma PassesDir(f: Fs, out: set<nat>, cur: nat, n: nat, queue: seq<nat>, left: set<nat>, c: nat)
    requires WellFormed(f) && DirBlock(f, cur) && cur in out && n < FS_DIRENTRIES && IsEntries(f.d, cur)
    requires f.d[cur].slots[n].Used? && f.d[cur].slots[n].ino == c && IsDir(f.d, c)
    requires QueueOk(f, out, cur, n, queue) && LeftOk(f, out, cur, n, left)
    ensures QueueOk(f, out, cur, n + 1, queue + Blocks(f.d, c))
    ensures LeftOk(f, out, cur, n + 1, left - {c})
  {
    SeesNext(f, out, cur, n, c);
    forall x ensures Seen(f, out, cur, n + 1, x) <==> Seen(f, out, cur, n, x) || x == c {
      SeesNext(f, out, cur, n, x);
    }
    DirBlocks(f, c);
    assert f.use[c] == IsInode && !IsFile(f.d, c);
    var bs := Blocks(f.d, c);
    assert forall x :: x in queue ==> x !in bs;
    NoDupAppend(queue, bs);
    hide Seen, WellFormed;
    forall b: nat | b < |f.use| ensures Erased(f, out, cur, n + 1, b) <==> Erased(f, out, cur, n, b) || b == c {
      if f.use[b].BlockOf? && f.use[b].ino == c { assert !IsFile(f.d, f.use[b].ino); }
    }
    hide Erased, Blocks, IsDir, IsFile, NoDup;
  }

  lemma DirBlocks(f: Fs, c: nat)
    requires WellFormed(f) && c in f.link && IsDir(f.d, c)
    ensures NoDup(Blocks(f.d, c))
    ensures forall b :: b in Blocks(f.d, c) ==> b < |f.use| && f.use[b].BlockOf? && f.use[b].ino == c && DirBlock(f, b)
  {
    var bs := Blocks(f.d, c);
    assert forall k :: 0 <= k < |bs| ==> f.use[bs[k]] == BlockOf(c, k);
  }

  // ---------------------------------------------------------------- when the queue is empty

  /** Then the traversal has come to every inode of the tree. */
  lemma {:induction false} AllSeen(f: Fs, out: set<nat>, cur: nat, c: nat)
    requires WellFormed(f) && QueueOk(f, out, cur, FS_DIRENTRIES, []) && c in f.link
    ensures Seen(f, out, cur, FS_DIRENTRIES, c)
    decreases f.link[c].depth
  {
    if c != 0 {
      assert Hangs(f, c);
      var l := f.link[c];
      assert SlotAt(f.d, l.parent, l.k, l.j).Used?;
      AllSeen(f, out, cur, l.parent);
    }
  }

  lemma AllErased(f: Fs, out: set<nat>, cur: nat, left: set<nat>, b: nat)
    requires WellFormed(f) && QueueOk(f, out, cur, FS_DIRENTRIES, []) && LeftOk(f, out, cur, FS_DIRENTRIES, left)
    ensures b in left <==> 0 < b < FS_DISKSIZE && !Reached(f.d, b)
  {
    assert |f.use| == FS_DISKSIZE;
    if 0 < b < FS_DISKSIZE {
      ReachedIsUse(f, b);
      if f.use[b].IsInode? {
        AllSeen(f, out, cur, b);
      } else if f.use[b].BlockOf? {
        var u := f.use[b];
        AllSeen(f, out, cur, u.ino);
        assert Blocks(f.d, u.ino)[u.k] == b;
      }
    }
    hide Reached, WellFormed;
  }

  // ---------------------------------------------------------------- the scan

  predicate Ascending(s: seq<nat>) {
    forall i, j :: 0 <= i < j < |s| ==> s[i] < s[j]
  }

  /** Reads the whole tree, directory block by directory block, and queues every block it did not come across.  The
      caller vouches, by `f`, that the disk spells out a tree. */
  method InitFreeBlocks(d: Disk, ghost f: Fs) returns (free: seq<nat>)
    requires WellFormed(f) && f.d == d
    ensures Ascending(free)
    ensures forall b :: b in free <==> 0 < b < FS_DISKSIZE && !Reached(d, b)
  {
    var left: set<nat> := {};
    for b: nat := 1 to FS_DISKSIZE
      invariant forall x: nat :: x in left <==> 1 <= x < b
    {
      left := left + {b};
    }
    var queue := Blocks(d, 0);
    ghost var out: set<nat> := {};
    ghost var cur: nat := 0;
    StartsAtRoot(f, left);
    while queue != []
      invariant QueueOk(f, out, cur, FS_DIRENTRIES, queue) && LeftOk(f, out, cur, FS_DIRENTRIES, left)
      invariant forall q :: q in out ==> q < FS_DISKSIZE
      decreases FS_DISKSIZE - |out|
    {
      var block := queue[0];
      TakesBlock(f, out, cur, queue, left);
      OutGrows(f, out, block);
      queue, left := queue[1..], left - {block};
      out, cur := out + {block}, block;
      EntriesBlock(f, block);
      queue, left := ScanEntries(d, block, queue, left, f, out);
    }
    forall b ensures b in left <==> 0 < b < FS_DISKSIZE && !Reached(d, b) {
      if b >= 0 { AllErased(f, out, cur, left, b); }
    }
    hide Reached;
    free := [];
    for b := 1 to FS_DISKSIZE
      invariant Ascending(free) && forall i :: 0 <= i < |free| ==> free[i] < b
      invariant forall x :: x in free <==> x in left && x < b
    {
      if b in left {
        free := free + [b];
      }
    }
  }

  method ScanEntries(d: Disk, block: nat, queue0: seq<nat>, left0: set<nat>, ghost f: Fs, ghost out: set<nat>)
    returns (queue: seq<nat>, left: set<nat>)
    requires WellFormed(f) && f.d == d && IsEntries(d, block) && DirBlock(f, block) && block in out
    requires QueueOk(f, out, block, 0, queue0) && LeftOk(f, out, block, 0, left0)
    ensures QueueOk(f, out, block, FS_DIRENTRIES, queue) && LeftOk(f, out, block, FS_DIRENTRIES, left)
  {
    queue, left := queue0, left0;
    for n := 0 to FS_DIRENTRIES
      invariant QueueOk(f, out, block, n, queue) && LeftOk(f, out, block, n, left)
    {
      var entry := d[block].slots[n];
      if entry.Unused? {
        PassesUnused(f, out, block, n, queue, left);
      } else {
        EntryIsInode(f, out, block, n);
        var inode := d[entry.ino];
        if inode.kind == FileKind {
          PassesFile(f, out, block, n, queue, left, entry.ino);
          left := EraseAll(left - {entry.ino}, inode.blocks);
        } else {
          PassesDir(f, out, block, n, queue, left, entry.ino);
          left := left - {entry.ino};
          queue := PushAll(queue, inode.blocks);
        }
      }
      hide WellFormed, QueueOk, LeftOk;
    }
  }

  method EraseAll(left0: set<nat>, bs: seq<nat>) returns (left: set<nat>)
    ensures left == left0 - set b | b in bs
  {
    left := left0;
    for j := 0 to |bs|
      invariant left == left0 - set b | b in bs[..j]
    {
      left := left - {bs[j]};
      assert bs[..j + 1] == bs[..j] + [bs[j]];
    }
    assert bs[..|bs|] == bs;
  }

  method PushAll(queue0: seq<nat>, bs: seq<nat>) returns (queue: seq<nat>)
    ensures queue == queue0 + bs
  {
    queue := queue0;
    for j := 0 to |bs|
      invariant queue == queue0 + bs[..j]
    {
      queue := queue + [bs[j]];
    }
  }

  lemma StartsAtRoot(f: Fs, left: set<nat>)
    requires WellFormed(f) && forall x: nat :: x in left <==> 1 <= x < FS_DISKSIZE
    ensures QueueOk(f, {}, 0, FS_DIRENTRIES, Blocks(f.d, 0))
    ensures LeftOk(f, {}, 0, FS_DIRENTRIES, left)
  {
    DirBlocks(f, 0);
    assert |f.use| == FS_DISKSIZE && !IsFile(f.d, 0);
  }

  lemma EntriesBlock(f: Fs, b: nat)
    requires WellFormed(f) && DirBlock(f, b)
    ensures IsEntries(f.d, b)
  {
    var u := f.use[b];
    assert Blocks(f.d, u.ino)[u.k] == b;
  }

  lemma EntryIsInode(f: Fs, out: set<nat>, block: nat, n: nat)
    requires WellFormed(f) && DirBlock(f, block) && block in out && n < FS_DIRENTRIES
    ensures IsEntries(f.d, block)
    ensures f.d[block].slots[n].Used? ==> f.d[block].slots[n].ino < |f.d| && f.d[f.d[block].slots[n].ino].Inode?
  {
    SeesNext(f, out, block, n, 0);
  }

  lemma OutGrows(f: Fs, out: set<nat>, block: nat)
    requires WellFormed(f) && DirBlock(f, block) && block !in out && forall q :: q in out ==> q < FS_DISKSIZE
    ensures |out| < |out + {block}| <= FS_DISKSIZE && block < FS_DISKSIZE
  {
    assert |f.use| == FS_DISKSIZE;
    hide WellFormed, DirBlock;
    Bounded(out + {block}, FS_DISKSIZE);
  }

  lemma {:induction false} Bounded(s: set<nat>, n: nat)
    requires forall x :: x in s ==> x < n
    ensures |s| <= n
  {
    if n > 0 {
      Bounded(s - {n - 1}, n - 1);
    } else {
      assert s == {};
    }
  }

  // ---------------------------------------------------------------- restart and crash

  /** A server whose handlers are all done has the same free blocks as one restarted from its disk. */
  lemma RestartAgrees(s: State, rescan: seq<nat>)
    requires Inv(s) && AllFinished(s)
    requires forall b :: b in rescan <==> 0 < b < FS_DISKSIZE && !Reached(s.fs.d, b)
    ensures forall b :: b in rescan <==> b in s.free
  {
    AllReturned(s);
    assert FreeOk(s.fs, s.free) && |s.fs.use| == FS_DISKSIZE;
    hide Inv, Reached;
  }

  /** A server restarted after a crash gets back, besides what was free, exactly what the handlers held. */
  lemma RestartReclaims(s: State, rescan: seq<nat>, b: nat)
    requires Inv(s)
    requires forall c :: c in rescan <==> 0 < c < FS_DISKSIZE && !Reached(s.fs.d, c)
    ensures b in rescan <==> b in s.free || exists t :: t in s.threads && b in s.threads[t].held
  {
    if 0 < b < FS_DISKSIZE { BlockOwners(s, b); }
    assert FreeOk(s.fs, s.free) && |s.fs.use| == FS_DISKSIZE;
    forall t | t in s.threads ensures HeldOk(s.fs, t, s.threads[t].held) {
    }
    hide Inv, Reached;
  }
}
