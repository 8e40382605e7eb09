/** The commits of FsCommits as a handler meets them that runs alone: what they do to a settled disk. */
module FsSolo {
  import opened Common
  import opened FsModel
  import opened FsCommits
  import opened FsThreads
  import opened FsInvariant
  import opened FsSteps
  import opened FsCommitSteps
  import opened FsDataSteps
  import opened FsDeleteSteps
  import opened FsTargetSteps

  /** The disk is well formed, and the free queue holds exactly what the tree does not reach. */
  ghost predicate Settled(f: Fs, free: seq<nat>) {
    WellFormed(f) && FreeOk(f, free) && forall b :: 0 <= b < |f.use| ==> !f.use[b].Private?
  }

  /** A disk that a restart can take up. */
  ghost predicate Sound(d: Disk) {
    exists f :: WellFormed(f) && f.d == d
  }

  lemma EffectAfter(r: Request, d: Disk, d': Disk, e: Disk)
    requires SameView(d, d') && Effect(r, d', e)
    ensures Effect(r, d, e)
  {
    AllowedSame(r, d, d');
    hide View, Allowed;
    match r
    case CreateReq(_, _, _, _) =>
    case DeleteReq(_, _, _) =>
    case WriteReq(_, _, _, _) =>
  }

  lemma AllowedSame(r: Request, d: Disk, d': Disk)
    requires SameView(d, d')
    ensures Allowed(r, d) <==> Allowed(r, d')
  {
    hide View;
  }

  /** A write to a free block. */
  lemma SpareWrite(f: Fs, free: seq<nat>, n: nat, x: Block)
    requires Settled(f, free) && n < |free|
    ensures 0 < free[n] < |f.d| && Sound(f.d[free[n] := x]) && SameView(f.d, f.d[free[n] := x])
    ensures Settled(f.(d := f.d[free[n] := x]), free)
  {
    assert free[n] in free;
    assert |f.use| == |f.d|;
    hide WellFormed, SameView;
    LooseWrite(f, free[n], x);
    assert WellFormed(f.(d := f.d[free[n] := x]));
  }

  /** The first `n` blocks of the queue are reserved. */
  ghost function Reserve(f: Fs, bs: seq<nat>): Fs {
    f.(use := seq(|f.use|, b requires 0 <= b < |f.use| => if b in bs then Private(0) else f.use[b]))
  }

  lemma Reserves(f: Fs, free: seq<nat>, n: nat)
    requires Settled(f, free) && n <= |free|
    ensures WellFormed(Reserve(f, free[..n])) && FreeOk(Reserve(f, free[..n]), free[n..])
    ensures forall b: nat :: b < |f.use| && Reserve(f, free[..n]).use[b].Private? <==> b in free[..n]
  {
    assert forall b :: b in free[..n] ==> b in free;
    HandOver(f, Reserve(f, free[..n]).use);
    hide WellFormed;
    assert free == free[..n] + free[n..];
    forall b | b in free[n..] ensures b in free && b !in free[..n] {
      var i :| 0 <= i < |free[n..]| && free[n..][i] == b;
      assert free[n + i] == b;
    }
  }

  /** All reserved blocks became part of the tree. */
  lemma UsedUp(f: Fs, e: Fs, free: seq<nat>, n: nat)
    requires Settled(f, free) && n <= |free| && WellFormed(e) && |e.use| == |f.use|
    requires forall b: nat :: b < |f.use| ==>
      if b in free[..n] then !e.use[b].Free? && !e.use[b].Private? else e.use[b] == f.use[b]
    ensures Settled(e, free[n..])
  {
    hide WellFormed;
    assert free == free[..n] + free[n..];
    forall b | b in free[n..] ensures b in free && b !in free[..n] {
      var i :| 0 <= i < |free[n..]| && free[n..][i] == b;
      assert free[n + i] == b;
    }
  }

  lemma ReserveKeepsFacts(f: Fs, bs: seq<nat>, r: Request, i: nat)
    requires Arrived(f, r, i)
    ensures Arrived(Reserve(f, bs), r, i)
  {
    var g := Reserve(f, bs);
    forall m | 0 < m <= |Walk(r)| - 1 && m <= |Walk(r)| ensures OwnDir(g, r.user, Walk(r)[..m]) {
      assert OwnDir(f, r.user, Walk(r)[..m]);
    }
  }

  // ---------------------------------------------------------------- create

  function NewInode(r: Request): Block
    requires r.CreateReq?
  {
    Inode(r.kind, r.user, [])
  }

  /** The tree after inode `x` was written and hung at entry (k, j) of directory `i`. */
  ghost function Filled(f: Fs, r: Request, i: nat, k: nat, j: nat, x: nat): Fs
    requires r.CreateReq? && i in f.link && k < |Blocks(f.d, i)| && j < FS_DIRENTRIES && x < |f.d| && x < |f.use|
    requires Blocks(f.d[x := NewInode(r)], i) == Blocks(f.d, i) && IsEntries(f.d[x := NewInode(r)], Blocks(f.d, i)[k])
  {
    HangInSlot(Reserve(f, [x]).(d := f.d[x := NewInode(r)]), i, k, j, r.name, x)
  }

  lemma FillReady(f: Fs, free: seq<nat>, r: Request, i: nat, k: nat, j: nat)
    requires Settled(f, free) && free != [] && Arrived(f, r, i) && NewName(f, r, i)
    requires EntryBuffer(f, i, k, j, SlotsOf(f.d, i, k), Unused)
    ensures 0 < free[0] < |f.d| == |f.use|
    ensures var x := free[0];
      var g := Reserve(f, [x]).(d := f.d[x := NewInode(r)]);
      ReuseReady(g, 0, Thread(r, ReuseEntry(i, k, j, SlotsOf(f.d, i, k)), [x], false))
  {
    var x := free[0];
    assert x in free && |f.d| == |f.use|;
    var slots := SlotsOf(f.d, i, k);
    var th := Thread(r, ReuseEntry(i, k, j, slots), [x], false);
    var h := Reserve(f, [x]);
    assert NewName(h, r, i) && EntryBuffer(h, i, k, j, slots, Unused);
    hide Settled, WellFormed, NewName, EntryBuffer, SlotsOf, OwnedFile, Growing, Arrived, InodesOk;
    ReserveKeepsFacts(f, [x], r, i);
    ReservedInodes(f, free, 1);
    assert free[..1] == [x];
    WriteKeepsFacts(h, 0, th, x, NewInode(r));
    FillShape(h.(d := f.d[x := NewInode(r)]), 0, th);
  }

  lemma ReservedInodes(f: Fs, free: seq<nat>, n: nat)
    requires Settled(f, free) && n <= |free|
    ensures InodesOk(Reserve(f, free[..n]))
  {
    Reserves(f, free, n);
  }

  lemma FillShape(g: Fs, t: int, th: Thread)
    requires th.pc.ReuseEntry? && |th.held| == 1 && 0 < th.held[0] < |g.d| && th.held[0] < |g.use|
    requires g.use[th.held[0]] == Private(t)
    requires Arrived(g, th.req, th.pc.target) && NewName(g, th.req, th.pc.target)
    requires EntryBuffer(g, th.pc.target, th.pc.k, th.pc.j, th.pc.slots, Unused) && g.d[th.held[0]] == NewInode(th.req)
    ensures ReuseReady(g, t, th)
  {
    hide Passed;
  }

  lemma FillDisk(f: Fs, free: seq<nat>, r: Request, i: nat, k: nat, j: nat)
    requires Settled(f, free) && free != [] && r.CreateReq? && i in f.link
    requires EntryBuffer(f, i, k, j, SlotsOf(f.d, i, k), Unused)
    ensures 0 < free[0] < |f.d| == |f.use| && k < |Blocks(f.d, i)| && j < FS_DIRENTRIES
    ensures var d1 := f.d[free[0] := NewInode(r)];
      && Blocks(d1, i) == Blocks(f.d, i) && IsEntries(d1, Blocks(f.d, i)[k])
      && Filled(f, r, i, k, j, free[0]).d == d1[Blocks(f.d, i)[k] :=
        Entries(SlotsOf(f.d, i, k)[j := Used(r.name, free[0])])]
  {
    assert free[0] in free && |f.d| == |f.use|;
    BlocksKept(f, free, i, NewInode(r));
    assert free[0] != Blocks(f.d, i)[k] by { assert f.use[Blocks(f.d, i)[k]] == BlockOf(i, k); }
    hide Settled;
  }

  lemma FillEffect(f: Fs, free: seq<nat>, r: Request, i: nat, k: nat, j: nat)
    requires Settled(f, free) && free != [] && Arrived(f, r, i) && NewName(f, r, i) && i in f.link && r.CreateReq?
    requires EntryBuffer(f, i, k, j, SlotsOf(f.d, i, k), Unused)
    requires free[0] < |f.d| == |f.use| && k < |Blocks(f.d, i)| && j < FS_DIRENTRIES
    requires Blocks(f.d[free[0] := NewInode(r)], i) == Blocks(f.d, i)
    requires IsEntries(f.d[free[0] := NewInode(r)], Blocks(f.d, i)[k])
    ensures WellFormed(Filled(f, r, i, k, j, free[0])) && Effect(r, f.d, Filled(f, r, i, k, j, free[0]).d)
  {
    var x := free[0];
    var th := Thread(r, ReuseEntry(i, k, j, SlotsOf(f.d, i, k)), [x], false);
    var g := Reserve(f, [x]).(d := f.d[x := NewInode(r)]);
    hide Settled, WellFormed, Arrived, Effect, SameView, EntryBuffer, NewName, Blocks, Sound, ReuseReady, HangInSlot,
      Reserve;
    FillReady(f, free, r, i, k, j);
    SpareWrite(f, free, 0, NewInode(r));
    WrittenReserved(f, free, 1, f.d[x := NewInode(r)]);
    assert free[..1] == [x];
    ReuseEffect(g, 0, th);
    EffectAfter(r, f.d, g.d, Filled(f, r, i, k, j, x).d);
  }

  lemma WrittenReserved(f: Fs, free: seq<nat>, n: nat, d: Disk)
    requires Settled(f.(d := d), free) && n <= |free|
    ensures WellFormed(Reserve(f, free[..n]).(d := d))
  {
    Reserves(f.(d := d), free, n);
    assert Reserve(f, free[..n]).(d := d) == Reserve(f.(d := d), free[..n]);
  }

  /** A create that finds an entry: two writes, the second of which commits it. */
  lemma FillCommits(f: Fs, free: seq<nat>, r: Request, i: nat, k: nat, j: nat)
    requires Settled(f, free) && free != [] && Arrived(f, r, i) && NewName(f, r, i) && i in f.link && r.CreateReq?
    requires EntryBuffer(f, i, k, j, SlotsOf(f.d, i, k), Unused)
    ensures 0 < free[0] < |f.d| == |f.use| && k < |Blocks(f.d, i)| && j < FS_DIRENTRIES
    ensures var x := free[0];
      var d1 := f.d[x := NewInode(r)];
      && Sound(d1) && SameView(f.d, d1)
      && Blocks(d1, i) == Blocks(f.d, i) && IsEntries(d1, Blocks(f.d, i)[k])
      && Settled(Filled(f, r, i, k, j, x), free[1..]) && Effect(r, f.d, Filled(f, r, i, k, j, x).d)
      && Filled(f, r, i, k, j, x).d == d1[Blocks(f.d, i)[k] := Entries(SlotsOf(f.d, i, k)[j := Used(r.name, x)])]
  {
    hide Settled, WellFormed, Arrived, Effect, SameView, EntryBuffer, NewName, Blocks, Sound, HangInSlot, IsEntries;
    FillDisk(f, free, r, i, k, j);
    SpareWrite(f, free, 0, NewInode(r));
    FillEffect(f, free, r, i, k, j);
    FilledUse(f, r, i, k, j, free[0]);
    assert free[..1] == [free[0]];
    hide Filled;
    UsedUp(f, Filled(f, r, i, k, j, free[0]), free, 1);
  }

  lemma FilledUse(f: Fs, r: Request, i: nat, k: nat, j: nat, x: nat)
    requires r.CreateReq? && i in f.link && k < |Blocks(f.d, i)| && j < FS_DIRENTRIES && x < |f.d| && x < |f.use|
    requires Blocks(f.d[x := NewInode(r)], i) == Blocks(f.d, i) && IsEntries(f.d[x := NewInode(r)], Blocks(f.d, i)[k])
    ensures Filled(f, r, i, k, j, x).use == f.use[x := IsInode]
  {
  }

  lemma BlocksKept(f: Fs, free: seq<nat>, i: nat, x: Block)
    requires Settled(f, free) && free != [] && i in f.link
    ensures free[0] < |f.d| && Blocks(f.d[free[0] := x], i) == Blocks(f.d, i)
  {
    assert free[0] in free;
  }

  /** The tree after inode `x` and directory block `b` were written and `b` was linked. */
  ghost function Linked(f: Fs, r: Request, i: nat, j: nat, x: nat, b: nat): Fs
    requires r.CreateReq? && i in f.link && x < |f.d| && b < |f.d| && i < |f.d| && x < |f.use| && b < |f.use|
    requires i != x && i != b && f.d[i].Inode?
  {
    var g := Reserve(f, [x, b]).(d := f.d[x := NewInode(r)][b := Entries(OneSlot(j, Used(r.name, x)))]);
    HangInBlock(g, i, b, j, r.name, x)
  }

  lemma LinkShape(g: Fs, t: int, th: Thread)
    requires th.pc.GrowParent? && |th.held| == 2 && 0 < th.held[0] < |g.d| && 0 < th.held[1] < |g.d|
    requires th.held[0] != th.held[1]
    requires th.held[0] < |g.use| && g.use[th.held[0]] == Private(t) && th.held[1] < |g.use|
    requires g.use[th.held[1]] == Private(t)
    requires Arrived(g, th.req, th.pc.target) && NewName(g, th.req, th.pc.target)
    requires Growing(g, th, th.pc.target, th.pc.j, th.pc.inode) && g.d[th.held[0]] == NewInode(th.req)
    requires g.d[th.held[1]] == Entries(OneSlot(th.pc.j, Used(th.req.name, th.held[0])))
    ensures GrowReady(g, t, th)
  {
    hide Passed;
  }

  lemma TwoFree(f: Fs, free: seq<nat>)
    requires Settled(f, free) && |free| >= 2
    ensures 0 < free[0] < |f.d| == |f.use| && 0 < free[1] < |f.d| && free[0] != free[1]
    ensures free[..2] == [free[0], free[1]]
    ensures f.use[free[0]] == Free && f.use[free[1]] == Free
  {
    assert free[0] in free && free[1] in free;
  }

  lemma LinkReady(f: Fs, free: seq<nat>, r: Request, i: nat, j: nat)
    requires Settled(f, free) && |free| >= 2 && Arrived(f, r, i) && NewName(f, r, i) && i < |f.d|
    requires |Blocks(f.d, i)| < FS_MAXFILEBLOCKS && j < FS_DIRENTRIES
    ensures 0 < free[0] < |f.d| == |f.use| && 0 < free[1] < |f.d| && free[0] != free[1]
    ensures var (x, b) := (free[0], free[1]);
      var g := Reserve(f, [x, b]).(d := f.d[x := NewInode(r)][b := Entries(OneSlot(j, Used(r.name, x)))]);
      GrowReady(g, 0, Thread(r, GrowParent(i, j, f.d[i]), [x, b], false))
  {
    TwoFree(f, free);
    var (x, b) := (free[0], free[1]);
    var th := Thread(r, GrowParent(i, j, f.d[i]), [x, b], false);
    var h := Reserve(f, [x, b]);
    assert NewName(h, r, i) && Growing(h, th, i, j, f.d[i]);
    hide InodesOk, Settled, WellFormed, NewName, EntryBuffer, OwnedFile, Growing, Arrived;
    ReservedInodes(f, free, 2);
    ReserveKeepsFacts(f, [x, b], r, i);
    WriteKeepsFacts(h, 0, th, x, NewInode(r));
    var h1 := h.(d := f.d[x := NewInode(r)]);
    InodesAfterWrite(f, free, NewInode(r));
    WriteKeepsFacts(h1, 0, th, b, Entries(OneSlot(j, Used(r.name, x))));
    LinkShape(h1.(d := h1.d[b := Entries(OneSlot(j, Used(r.name, x)))]), 0, th);
  }

  lemma InodesAfterWrite(f: Fs, free: seq<nat>, y: Block)
    requires Settled(f, free) && |free| >= 2
    ensures free[0] < |f.d| && InodesOk(Reserve(f, [free[0], free[1]]).(d := f.d[free[0] := y]))
  {
    TwoFree(f, free);
    hide Settled, Reserve;
    SpareWrite(f, free, 0, y);
    WrittenReserved(f, free, 2, f.d[free[0] := y]);
  }

  lemma LinkEffect(f: Fs, free: seq<nat>, r: Request, i: nat, j: nat)
    requires Settled(f, free) && |free| >= 2 && Arrived(f, r, i) && NewName(f, r, i) && r.CreateReq? && i in f.link
    requires i < |f.d|
    requires |Blocks(f.d, i)| < FS_MAXFILEBLOCKS && j < FS_DIRENTRIES
    requires free[0] < |f.d| == |f.use| && free[1] < |f.d| && i != free[0] && i != free[1] && f.d[i].Inode?
    ensures WellFormed(Linked(f, r, i, j, free[0], free[1])) && Effect(r, f.d, Linked(f, r, i, j, free[0], free[1]).d)
  {
    TwoFree(f, free);
    var (x, b) := (free[0], free[1]);
    var th := Thread(r, GrowParent(i, j, f.d[i]), [x, b], false);
    var f1 := f.(d := f.d[x := NewInode(r)]);
    var f2 := f1.(d := f1.d[b := Entries(OneSlot(j, Used(r.name, x)))]);
    var g := Reserve(f, [x, b]).(d := f2.d);
    hide Settled, WellFormed, Arrived, Effect, SameView, NewName, Blocks, Sound, GrowReady, HangInBlock, Reserve;
    LinkReady(f, free, r, i, j);
    SpareWrite(f, free, 0, NewInode(r));
    SpareWrite(f1, free, 1, Entries(OneSlot(j, Used(r.name, x))));
    WrittenReserved(f, free, 2, f2.d);
    GrowEffect(g, 0, th);
    EffectAfter(r, f1.d, g.d, Linked(f, r, i, j, x, b).d);
    EffectAfter(r, f.d, f1.d, Linked(f, r, i, j, x, b).d);
  }

  lemma LinkedUse(f: Fs, r: Request, i: nat, j: nat, x: nat, b: nat)
    requires r.CreateReq? && i in f.link && x < |f.d| && b < |f.d| && i < |f.d| && x < |f.use| && b < |f.use|
    requires i != x && i != b && f.d[i].Inode?
    ensures Linked(f, r, i, j, x, b).use == f.use[x := IsInode][b := BlockOf(i, |f.d[i].blocks|)]
    ensures Linked(f, r, i, j, x, b).d ==
      f.d[x := NewInode(r)][b := Entries(OneSlot(j, Used(r.name, x)))][i := f.d[i].(blocks := f.d[i].blocks + [b])]
  {
  }

  /** A create that adds a directory block: three writes, the last of which commits it. */
  lemma LinkCommits(f: Fs, free: seq<nat>, r: Request, i: nat, j: nat)
    requires Settled(f, free) && |free| >= 2 && Arrived(f, r, i) && NewName(f, r, i) && r.CreateReq? && i in f.link
    requires |Blocks(f.d, i)| < FS_MAXFILEBLOCKS && j < FS_DIRENTRIES
    ensures 0 < free[0] < |f.d| == |f.use| && 0 < free[1] < |f.d| && i < |f.d| && i != free[0] && i != free[1]
    ensures f.d[i].Inode?
    ensures var (x, b) := (free[0], free[1]);
      var d1 := f.d[x := NewInode(r)];
      var d2 := d1[b := Entries(OneSlot(j, Used(r.name, x)))];
      && Sound(d1) && SameView(f.d, d1) && Sound(d2) && SameView(f.d, d2)
      && Settled(Linked(f, r, i, j, x, b), free[2..]) && Effect(r, f.d, Linked(f, r, i, j, x, b).d)
      && Linked(f, r, i, j, x, b).d == d2[i := f.d[i].(blocks := f.d[i].blocks + [b])]
  {
    TwoFree(f, free);
    LiveApart(f, free, i);
    hide Settled, WellFormed, Arrived, Effect, NewName, Blocks, Sound, HangInBlock, SameView, Growing;
    TwoWrites(f, free, NewInode(r), Entries(OneSlot(j, Used(r.name, free[0]))));
    LinkEffect(f, free, r, i, j);
    LinkedUse(f, r, i, j, free[0], free[1]);
    hide Linked;
    LinkSettles(f, Linked(f, r, i, j, free[0], free[1]), free, i);
  }

  lemma TwoWrites(f: Fs, free: seq<nat>, y: Block, z: Block)
    requires Settled(f, free) && |free| >= 2
    ensures free[0] < |f.d| && free[1] < |f.d|
    ensures Sound(f.d[free[0] := y]) && SameView(f.d, f.d[free[0] := y])
    ensures Sound(f.d[free[0] := y][free[1] := z]) && SameView(f.d, f.d[free[0] := y][free[1] := z])
  {
    hide Settled, Sound, View;
    SpareWrite(f, free, 0, y);
    SpareWrite(f.(d := f.d[free[0] := y]), free, 1, z);
  }

  lemma LinkSettles(f: Fs, e: Fs, free: seq<nat>, i: nat)
    requires Settled(f, free) && |free| >= 2 && WellFormed(e) && i < |f.d| && f.d[i].Inode?
    requires free[0] < |f.use| && free[1] < |f.use| && free[0] != free[1]
    requires e.use == f.use[free[0] := IsInode][free[1] := BlockOf(i, |f.d[i].blocks|)]
    ensures Settled(e, free[2..])
  {
    TwoFree(f, free);
    hide Settled, WellFormed;
    UsedUp(f, e, free, 2);
  }

  lemma LiveApart(f: Fs, free: seq<nat>, i: nat)
    requires Settled(f, free) && i in f.link
    ensures i < |f.d| && f.d[i].Inode? && Blocks(f.d, i) == f.d[i].blocks
    ensures forall k :: 0 <= k < |free| ==> free[k] != i
  {
  }

  // ---------------------------------------------------------------- write

  lemma OverwriteCommits(f: Fs, free: seq<nat>, r: Request, i: nat)
    requires Settled(f, free) && Arrived(f, r, i) && OwnedFile(f, r, i, if i < |f.d| then f.d[i] else Data(""))
    requires r.WriteReq? && r.k < |Blocks(f.d, i)|
    ensures i in f.link && Blocks(f.d, i)[r.k] < |f.d|
    ensures var e := Overwritten(f, i, r.k, r.bytes);
      Settled(e, free) && Effect(r, f.d, e.d) && e.d == f.d[Blocks(f.d, i)[r.k] := Data(r.bytes)]
  {
    var th := Thread(r, PutData(i, f.d[i]), [], false);
    assert WellFormed(f) && InodesOk(f);
    assert f.use[Blocks(f.d, i)[r.k]] == BlockOf(i, r.k);
    hide WellFormed, Effect, InodesOk, Passed;
    assert PutReady(f, th);
    PutEffect(f, th);
  }

  lemma AppendReadyNow(f: Fs, free: seq<nat>, r: Request, i: nat)
    requires Settled(f, free) && free != [] && Arrived(f, r, i) && r.WriteReq? && i < |f.d|
    requires OwnedFile(f, r, i, f.d[i])
    requires r.k == |Blocks(f.d, i)|
    ensures 0 < free[0] < |f.d| == |f.use|
    ensures var g := Reserve(f, [free[0]]).(d := f.d[free[0] := Data(r.bytes)]);
      AppendReady(g, 0, Thread(r, GrowFile(i, f.d[i]), [free[0]], false))
  {
    var b := free[0];
    assert b in free && |f.d| == |f.use|;
    assert free[..1] == [b];
    var th := Thread(r, GrowFile(i, f.d[i]), [b], false);
    var h := Reserve(f, [b]);
    assert OwnedFile(h, r, i, f.d[i]) && i in f.link;
    hide Settled, WellFormed, NewName, EntryBuffer, Growing, Arrived, InodesOk;
    ReserveKeepsFacts(f, [b], r, i);
    ReservedInodes(f, free, 1);
    WriteKeepsFacts(h, 0, th, b, Data(r.bytes));
    hide Reserve;
  }

  /** The tree after data block `b` was written and appended to file `i`. */
  ghost function Extended(f: Fs, r: Request, i: nat, b: nat): Fs
    requires r.WriteReq? && i < |f.d| && b < |f.d| && b < |f.use| && i != b && f.d[i].Inode?
  {
    Appended(Reserve(f, [b]).(d := f.d[b := Data(r.bytes)]), i, b)
  }

  lemma ExtendedUse(f: Fs, r: Request, i: nat, b: nat)
    requires r.WriteReq? && i < |f.d| && b < |f.d| && b < |f.use| && i != b && f.d[i].Inode?
    ensures Extended(f, r, i, b).use == f.use[b := BlockOf(i, |f.d[i].blocks|)]
    ensures Extended(f, r, i, b).d == f.d[b := Data(r.bytes)][i := f.d[i].(blocks := f.d[i].blocks + [b])]
  {
  }

  lemma ExtendEffect(f: Fs, free: seq<nat>, r: Request, i: nat)
    requires Settled(f, free) && free != [] && Arrived(f, r, i) && r.WriteReq? && i < |f.d|
    requires OwnedFile(f, r, i, f.d[i])
    requires r.k == |Blocks(f.d, i)| && free[0] < |f.d| == |f.use| && i != free[0]
    ensures WellFormed(Extended(f, r, i, free[0])) && Effect(r, f.d, Extended(f, r, i, free[0]).d)
  {
    var b := free[0];
    var th := Thread(r, GrowFile(i, f.d[i]), [b], false);
    var g := Reserve(f, [b]).(d := f.d[b := Data(r.bytes)]);
    assert free[..1] == [b];
    assert f.d[i].Inode?;
    hide Settled, WellFormed, Arrived, Effect, SameView, Blocks, Sound, AppendReady, Appended, Reserve, OwnedFile;
    AppendReadyNow(f, free, r, i);
    SpareWrite(f, free, 0, Data(r.bytes));
    WrittenReserved(f, free, 1, g.d);
    AppendEffect(g, 0, th);
    EffectAfter(r, f.d, g.d, Extended(f, r, i, b).d);
  }

  /** A write behind the end: two writes, the second of which commits it. */
  lemma ExtendCommits(f: Fs, free: seq<nat>, r: Request, i: nat)
    requires Settled(f, free) && free != [] && Arrived(f, r, i) && r.WriteReq? && i in f.link && i < |f.d|
    requires OwnedFile(f, r, i, f.d[i])
    requires r.k == |Blocks(f.d, i)|
    ensures 0 < free[0] < |f.d| == |f.use| && i != free[0] && f.d[i].Inode?
    ensures var d1 := f.d[free[0] := Data(r.bytes)];
      && Sound(d1) && SameView(f.d, d1)
      && Settled(Extended(f, r, i, free[0]), free[1..]) && Effect(r, f.d, Extended(f, r, i, free[0]).d)
      && Extended(f, r, i, free[0]).d == d1[i := f.d[i].(blocks := f.d[i].blocks + [free[0]])]
  {
    LiveApart(f, free, i);
    hide Settled, WellFormed, Arrived, Effect, SameView, Blocks, Sound, OwnedFile;
    SpareWrite(f, free, 0, Data(r.bytes));
    SameSizes(f, free);
    ExtendEffect(f, free, r, i);
    ExtendedUse(f, r, i, free[0]);
    assert free[..1] == [free[0]];
    hide Extended;
    UsedUp(f, Extended(f, r, i, free[0]), free, 1);
  }

  lemma SameSizes(f: Fs, free: seq<nat>)
    requires Settled(f, free)
    ensures |f.d| == |f.use| == FS_DISKSIZE
  {
  }

  // ---------------------------------------------------------------- delete

  /** A delete that may cut child `x` of directory `i`. */
  ghost function Cutting(f: Fs, r: Request, i: nat, x: nat): Thread
    requires x in f.link && i < |f.d|
  {
    Thread(r, AtChild(i, x, f.link[x].k, f.link[x].j, SlotsOf(f.d, i, f.link[x].k), f.d[i]), [], false)
  }

  lemma CutReadyNow(f: Fs, free: seq<nat>, r: Request, i: nat, x: nat)
    requires Settled(f, free) && Arrived(f, r, i) && OwnedDir(f, r, i) && r.DeleteReq? && i in f.link
    requires Key(i, r.name) in f.kid && f.kid[Key(i, r.name)] == x && MayDelete(f.d, r.user, x)
    ensures x in f.link && CutReady(f, Cutting(f, r, i, x))
  {
    assert Hangs(f, x);
    LookupIsKid(f, i, r.name);
    DeleteFinds(f, r, i);
    assert SlotAt(f.d, i, f.link[x].k, f.link[x].j) == Used(r.name, x);
    hide Settled, WellFormed, InodesOk, Arrived, FindFrom, Lookup, Doomed, LinksOk, EntriesOk, KidsOk, OwnedDir,
      MayDelete, SlotsOf, CutReady;
    ChildFacts(f, Cutting(f, r, i, x));
  }

  /** The tree after the cut, with all unlinked blocks free. */
  ghost function Removed(f: Fs, th: Thread): Fs
    requires CutReady(f, th)
  {
    var e := CutOut(f, 0, th);
    e.(use := Freed(e.use, Unlinked(f, th)))
  }

  lemma CutFrees(f: Fs, free: seq<nat>, th: Thread)
    requires Settled(f, free) && CutReady(f, th) && WellFormed(CutOut(f, 0, th))
    ensures Settled(Removed(f, th), free + Unlinked(f, th))
  {
    var e := CutOut(f, 0, th);
    var bs := Unlinked(f, th);
    CutOwned(f, free, th);
    assert |e.use| == |e.d|;
    hide Settled, WellFormed, CutReady, FreeOk, PrivateOk, CutOut, Unlinked;
    var given := th.(held := bs);
    assert map[0 := given][0].held[..|bs|] == bs;
    GiveFree(e, free, 0, bs, |bs|);
    assert bs[..|bs|] == bs;
    FreedIsSettled(e, free, bs, given);
  }

  lemma CutOutUse(f: Fs, th: Thread)
    requires CutReady(f, th)
    ensures CutOut(f, 0, th).use == CutUse(f, th.pc.child, Last(f, th.pc.child), 0) && |CutOut(f, 0, th).d| == |f.d|
  {
    hide Arrived, OwnedDir, Last, CutUse, CutLink, MayDelete;
  }

  lemma CutOwned(f: Fs, free: seq<nat>, th: Thread)
    requires Settled(f, free) && CutReady(f, th)
    ensures FreeOk(CutOut(f, 0, th), free) && PrivateOk(CutOut(f, 0, th), map[0 := th.(held := Unlinked(f, th))])
    ensures HeldOk(CutOut(f, 0, th), 0, Unlinked(f, th))
  {
    CutSettled(f, free, th);
    assert th.pc.AtChild? && th.held == [] && th.pc.child in f.link && th.pc.child != 0;
    UnlinkedIs(f, th);
    CutOutUse(f, th);
    hide *;
    CutOwnedBy(f, CutOut(f, 0, th), th.pc.child, Last(f, th.pc.child), free, th, Unlinked(f, th));
  }

  lemma CutOwnedBy(f: Fs, e: Fs, x: nat, whole: bool, free: seq<nat>, th: Thread, bs: seq<nat>)
    requires FreeOk(f, free) && PrivateOk(f, map[0 := th]) && th.held == [] && x in f.link && x != 0
    requires x < |f.use| && f.use[x] == IsInode && f.use[0] == IsInode
    requires e.use == CutUse(f, x, whole, 0) && |e.d| == |f.d| == |f.use|
    requires NoDup(bs) && forall b :: b in bs <==> Freeable(f, x, whole, b)
    ensures FreeOk(e, free) && PrivateOk(e, map[0 := th.(held := bs)]) && HeldOk(e, 0, bs)
  {
    hide Freeable, CutUse, FreeOk, PrivateOk, HeldOk;
    CutOwners(f, e, x, whole, free, map[0 := th], 0, th.(held := bs));
    assert map[0 := th][0 := th.(held := bs)] == map[0 := th.(held := bs)];
    HeldOf(e, th.(held := bs));
  }

  lemma CutSettled(f: Fs, free: seq<nat>, th: Thread)
    requires Settled(f, free) && CutReady(f, th)
    ensures InodesOk(f) && UseOk(f) && 0 in f.link && FreeOk(f, free) && PrivateOk(f, map[0 := th])
    ensures th.pc.child < |f.use| == |f.d| && 0 < |f.use| && f.use[th.pc.child] == IsInode && f.use[0] == IsInode
  {
    assert InodesOk(f);
  }

  lemma HeldOf(e: Fs, th: Thread)
    requires PrivateOk(e, map[0 := th])
    ensures HeldOk(e, 0, th.held)
  {
    assert HeldOk(e, 0, map[0 := th][0].held);
  }

  lemma FreedIsSettled(e: Fs, free: seq<nat>, bs: seq<nat>, th: Thread)
    requires WellFormed(e) && FreeOk(e.(use := Freed(e.use, bs)), free + bs) && PrivateOk(e, map[0 := th])
    requires th.held == bs
    requires HeldOk(e, 0, bs)
    ensures Settled(e.(use := Freed(e.use, bs)), free + bs)
  {
    HandOver(e, Freed(e.use, bs));
    hide WellFormed, FreeOk;
  }

  /** A delete: one write, which commits it, and the unlinked blocks join the queue after that. */
  lemma RemoveCommits(f: Fs, free: seq<nat>, r: Request, i: nat, x: nat)
    requires Settled(f, free) && Arrived(f, r, i) && OwnedDir(f, r, i) && r.DeleteReq? && i in f.link
    requires Key(i, r.name) in f.kid && f.kid[Key(i, r.name)] == x && MayDelete(f.d, r.user, x)
    ensures x in f.link && i < |f.d| && CutReady(f, Cutting(f, r, i, x))
    ensures var th := Cutting(f, r, i, x);
      Settled(Removed(f, th), free + Unlinked(f, th)) && Effect(r, f.d, Removed(f, th).d)
  {
    CutReadyNow(f, free, r, i, x);
    hide Arrived, Effect, CutReady, CutOut, Unlinked, MayDelete, OwnedDir;
    assert WellFormed(f);
    hide Settled, WellFormed;
    CutEffect(f, 0, Cutting(f, r, i, x));
    CutFrees(f, free, Cutting(f, r, i, x));
  }

  /** What the disk looks like after that one write, and which blocks it unlinks. */
  lemma RemoveDisk(f: Fs, th: Thread)
    requires CutReady(f, th)
    ensures var (i, k, j) := (th.pc.target, th.pc.k, th.pc.j);
      && |th.pc.slots| == FS_DIRENTRIES && k < |Blocks(f.d, i)| && Blocks(f.d, i)[k] < |f.d|
      && var left := th.pc.slots[j := Unused];
      && (AllUnused(left) ==>
        && Removed(f, th).d == f.d[i := f.d[i].(blocks := f.d[i].blocks[..k] + f.d[i].blocks[k + 1..])]
        && Unlinked(f, th) == [Blocks(f.d, i)[k]] + Blocks(f.d, th.pc.child) + [th.pc.child])
      && (!AllUnused(left) ==>
        && Removed(f, th).d == f.d[Blocks(f.d, i)[k] := Entries(left)]
        && Unlinked(f, th) == Blocks(f.d, th.pc.child) + [th.pc.child])
  {
    LastIsAllUnused(f, th);
    hide Arrived, OwnedDir, Last, AllUnused, SlotAt, CutLink, CutUse, MayDelete;
    assert [] + Blocks(f.d, th.pc.child) == Blocks(f.d, th.pc.child);
  }
}
