/** What a request does to the tree, and the two commits of a create. */
module FsCommitSteps {
  import opened Common
  import opened FsModel
  import opened FsCommits
  import opened FsThreads
  import opened FsInvariant
  import opened FsSteps
  import opened FsWalkSteps

  // ---------------------------------------------------------------- what a request does to the tree

  function NewNode(r: Request): Node
    requires r.CreateReq?
  {
    if r.kind == DirKind then DirNode(r.user) else FileNode(r.user, [])
  }

  /** The directories on the way, below the root and above the last one, belong to the user. */
  ghost predicate MayWalk(d: Disk, r: Request) {
    forall m :: 0 < m < |Walk(r)| ==> View(d, Walk(r)[..m]) == Some(DirNode(r.user))
  }

  ghost predicate MayChange(d: Disk, r: Request) {
    View(d, Walk(r)) == Some(DirNode(r.user)) || View(d, Walk(r)) == Some(DirNode(""))
  }

  /** The tree allows request `r`: the way and the place are the user's, and what must or must not be there is or is
      not.  Whether there is space is another question. */
  ghost predicate Allowed(r: Request, d: Disk) {
    && MayWalk(d, r)
    && match r
       case CreateReq(_, dir, name, _) => MayChange(d, r) && View(d, dir + [name]) == None
       case DeleteReq(user, dir, name) =>
         && MayChange(d, r) && View(d, dir + [name]).Some? && View(d, dir + [name]).value.owner == user
         && forall n :: View(d, dir + [name, n]) == None
       case ReadReq(user, path, k) =>
         OwnFile(d, user, path) && k < |View(d, path).value.contents| && k < FS_MAXFILEBLOCKS
       case WriteReq(user, path, k, _) =>
         OwnFile(d, user, path) && k <= |View(d, path).value.contents| && k < FS_MAXFILEBLOCKS
  }

  ghost predicate OwnFile(d: Disk, user: string, path: seq<string>) {
    View(d, path).Some? && View(d, path).value.FileNode? && View(d, path).value.owner == user
  }

  /** `e` is what the abstract file system shows after it showed `d` and request `r` was carried out alone. */
  ghost predicate Effect(r: Request, d: Disk, e: Disk) {
    && Allowed(r, d)
    && match r
       case CreateReq(_, dir, name, _) => OnlyAt(d, e, dir + [name], Some(NewNode(r)))
       case DeleteReq(_, dir, name) => OnlyAt(d, e, dir + [name], None)
       case ReadReq(_, _, _) => false
       case WriteReq(user, path, k, bytes) =>
         OnlyAt(d, e, path, Some(FileNode(user, Written(View(d, path).value.contents, k, bytes))))
  }

  /** A file after block `k`, which may be the first one behind its end, was written. */
  function Written(contents: seq<string>, k: nat, bytes: string): seq<string>
    requires k <= |contents|
  {
    if k < |contents| then contents[k := bytes] else contents + [bytes]
  }

  lemma MayWalkHere(f: Fs, r: Request, i: nat)
    requires LinksOk(f) && EntriesOk(f) && KidsOk(f) && Arrived(f, r, i)
    ensures MayWalk(f.d, r)
    ensures Walk(r)[..|Walk(r)|] == Walk(r) && Follow(f.kid, Walk(r)) == Some(i) && View(f.d, Walk(r)) == NodeOf(f.d, i)
  {
    assert Walk(r)[..|Walk(r)|] == Walk(r);
    ResolveIsFollow(f, Walk(r));
    forall m | 0 < m < |Walk(r)| ensures View(f.d, Walk(r)[..m]) == Some(DirNode(r.user)) {
      assert OwnDir(f, r.user, Walk(r)[..m]);
      ResolveIsFollow(f, Walk(r)[..m]);
    }
  }

  // ---------------------------------------------------------------- the frame of a commit

  lemma CommitFrame(s: State, t: int, e: Fs, held: seq<nat>, pc: Pc, mine: set<nat>, gone: nat)
    requires Inv(s) && t in s.threads && WellFormed(e) && MineOf(s.excl, t, mine) && Stable(s.fs, e, t, mine, gone)
    requires FreeOk(e, s.free) && PrivateOk(e, s.threads[t := s.threads[t].(pc := pc, held := held, committed := true)])
    requires var th := s.threads[t].(pc := pc, held := held, committed := true);
      PcOk(e, th) && SharedBy(th) == SharedBy(s.threads[t]) && ExclBy(th) == ExclBy(s.threads[t])
    ensures Inv(Commit(s, t, e, held, pc))
  {
    hide WellFormed, FreeOk, PrivateOk, PcOk, SharedBy, ExclBy, Stable, ThreadsOk, MineOf;
    var th := s.threads[t].(pc := pc, held := held, committed := true);
    SameLocks(s, t, th);
    hide LocksOk;
    StepFrame(s, t, th, e, s.free, s.excl, s.shared, mine, gone);
  }

  /** The handler owns the locks its position says. */
  lemma MineAre(s: State, t: int, mine: set<nat>)
    requires Inv(s) && t in s.threads && mine <= ExclBy(s.threads[t])
    ensures MineOf(s.excl, t, mine)
  {
    assert LocksOk(s.excl, s.shared, s.threads);
    hide Inv, SharedBy, ExclBy;
  }

  /** The handler after a commit that leaves it nothing to give back. */
  function Done(th: Thread): Thread
    requires AtTargetPc(th.pc)
  {
    th.(pc := Unlock(th.pc.target, true, ""), held := [], committed := true)
  }

  lemma DoneMoves(e: Fs, th: Thread)
    requires AtTargetPc(th.pc) && (th.req.CreateReq? || th.req.WriteReq?) && Arrived(e, th.req, th.pc.target)
    requires ExclBy(th) == {th.pc.target}
    ensures PcOk(e, Done(th)) && SharedBy(Done(th)) == SharedBy(th) && ExclBy(Done(th)) == ExclBy(th)
  {
    hide Arrived;
  }

  lemma DoneFrame(s: State, t: int, e: Fs)
    requires Inv(s) && t in s.threads && AtTargetPc(s.threads[t].pc)
    requires s.threads[t].req.CreateReq? || s.threads[t].req.WriteReq?
    requires ExclBy(s.threads[t]) == {s.threads[t].pc.target}
    requires Arrived(e, s.threads[t].req, s.threads[t].pc.target)
    requires WellFormed(e) && Stable(s.fs, e, t, {s.threads[t].pc.target}, 0)
    requires FreeOk(e, s.free) && PrivateOk(e, s.threads[t := Done(s.threads[t])])
    ensures Inv(Commit(s, t, e, [], Unlock(s.threads[t].pc.target, true, "")))
  {
    MineAre(s, t, {s.threads[t].pc.target});
    hide WellFormed, FreeOk, PrivateOk, Stable, Inv, Arrived, SharedBy, ExclBy, PcOk, MineOf, AtTargetPc;
    DoneMoves(e, s.threads[t]);
    CommitFrame(s, t, e, [], Unlock(s.threads[t].pc.target, true, ""), {s.threads[t].pc.target}, 0);
  }

  /** All loose blocks of handler `t` became part of the tree. */
  lemma AllGiven(f: Fs, e: Fs, free: seq<nat>, threads: map<int, Thread>, t: int, th: Thread)
    requires FreeOk(f, free) && PrivateOk(f, threads) && t in threads && th.held == [] && |e.use| == |f.use|
    requires |e.d| == |f.d|
    requires forall b :: 0 <= b < |f.use| ==>
      if b in threads[t].held then !e.use[b].Free? && !e.use[b].Private? else e.use[b] == f.use[b]
    ensures FreeOk(e, free) && PrivateOk(e, threads[t := th])
  {
    forall u | u in threads && u != t ensures HeldOk(e, u, threads[u].held) {
      assert HeldOk(f, u, threads[u].held);
    }
    assert HeldOk(f, t, threads[t].held);
  }

  // ---------------------------------------------------------------- create

  lemma ReuseElsewhere(f: Fs, i: nat, k: nat, j: nat, name: string, x: nat, t: int)
    requires InodesOk(f) && i in f.link && k < |Blocks(f.d, i)| && j < FS_DIRENTRIES
    requires IsEntries(f.d, Blocks(f.d, i)[k])
    requires x < |f.use| && f.use[x] == Private(t)
    ensures var g := HangInSlot(f, i, k, j, name, x);
      && Elsewhere(f, g, i, x) && OthersKept(f, g, t) && (forall y :: y in f.link ==> SameHead(f, g, y))
  {
    assert f.use[Blocks(f.d, i)[k]] == BlockOf(i, k);
  }

  lemma ReuseStable(f: Fs, i: nat, k: nat, j: nat, name: string, x: nat, t: int)
    requires WellFormed(f) && i in f.link && IsDir(f.d, i) && k < |Blocks(f.d, i)| && j < FS_DIRENTRIES
    requires IsEntries(f.d, Blocks(f.d, i)[k]) && SlotAt(f.d, i, k, j) == Unused && Key(i, name) !in f.kid
    requires Fresh(f, x) && x != 0 && f.use[x] == Private(t)
    ensures Stable(f, HangInSlot(f, i, k, j, name, x), t, {i}, 0)
  {
    HangInSlotShape(f, i, k, j, name, x);
    ReuseElsewhere(f, i, k, j, name, x, t);
    hide InodesOk, UseOk, NoEmptyBlocks, LinksOk, EntriesOk, KidsOk, Hung, HangInSlot, Elsewhere, OthersKept, SameHead,
      Stable;
    HungStable(f, HangInSlot(f, i, k, j, name, x), t, i, k, j, name, x);
  }

  lemma CreateNode(f: Fs, r: Request, x: nat)
    requires r.CreateReq? && x < |f.d| && f.d[x] == Inode(r.kind, r.user, [])
    ensures NodeOf(f.d, x) == Some(NewNode(r))
  {
    assert Contents(f.d, x) == [];
  }

  lemma OwnedView(f: Fs, r: Request, i: nat)
    requires OwnedDir(f, r, i) && View(f.d, Walk(r)) == NodeOf(f.d, i)
    ensures MayChange(f.d, r)
  {
  }

  /** What a create knows when it is about to fill in an unused entry. */
  ghost predicate ReuseReady(f: Fs, t: int, th: Thread) {
    && th.pc.ReuseEntry? && th.req.CreateReq? && |th.held| == 1
    && var (i, k, j, x) := (th.pc.target, th.pc.k, th.pc.j, th.held[0]);
    && i in f.link && IsDir(f.d, i) && k < |Blocks(f.d, i)| && j < FS_DIRENTRIES
    && IsEntries(f.d, Blocks(f.d, i)[k]) && f.d[Blocks(f.d, i)[k]].slots == th.pc.slots
    && SlotAt(f.d, i, k, j) == Unused
    && Key(i, th.req.name) !in f.kid && Fresh(f, x) && x != 0 && f.use[x] == Private(t)
    && x < |f.d| && f.d[x] == Inode(th.req.kind, th.req.user, [])
    && Arrived(f, th.req, i) && OwnedDir(f, th.req, i)
  }

  lemma ReuseFacts(s: State, t: int)
    requires Inv(s) && t in s.threads && s.threads[t].pc.ReuseEntry?
    ensures ReuseReady(s.fs, t, s.threads[t])
  {
    Facts(s, t);
    hide WellFormed, FreeOk, PrivateOk, LocksOk, ThreadsOk, LinksOk, EntriesOk, KidsOk, InodesOk;
    assert s.threads[t].held[0] in s.threads[t].held;
  }

  ghost function Reused(f: Fs, th: Thread): Fs
    requires th.pc.ReuseEntry? && th.req.CreateReq? && |th.held| == 1 && th.held[0] < |f.use|
    requires th.pc.target in f.link && th.pc.k < |Blocks(f.d, th.pc.target)| && th.pc.j < FS_DIRENTRIES
    requires IsEntries(f.d, Blocks(f.d, th.pc.target)[th.pc.k])
  {
    HangInSlot(f, th.pc.target, th.pc.k, th.pc.j, th.req.name, th.held[0])
  }

  lemma ReuseStep(s: State, t: int)
    requires t in s.threads && ReuseReady(s.fs, t, s.threads[t])
    ensures StepCreate(s, t) == Some(Commit(s, t, Reused(s.fs, s.threads[t]), [],
      Unlock(s.threads[t].pc.target, true, "")))
  {
    hide Arrived, OwnedDir, SlotAt;
  }

  lemma ReuseEffect(f: Fs, t: int, th: Thread)
    requires WellFormed(f) && ReuseReady(f, t, th)
    ensures WellFormed(Reused(f, th)) && Effect(th.req, f.d, Reused(f, th).d)
  {
    var r := th.req;
    MayWalkHere(f, r, th.pc.target);
    hide InodesOk, UseOk, LinksOk, EntriesOk, KidsOk, NoEmptyBlocks, SlotAt, Blocks, Arrived;
    HangInSlotCommits(f, th.pc.target, th.pc.k, th.pc.j, r.name, th.held[0], Walk(r));
    CreateNode(f, r, th.held[0]);
    OwnedView(f, r, th.pc.target);
    hide WellFormed, HangInSlot, OnlyAt, MayWalk, MayChange;
  }

  lemma ReuseStays(f: Fs, t: int, th: Thread)
    requires WellFormed(f) && ReuseReady(f, t, th)
    ensures Stable(f, Reused(f, th), t, {th.pc.target}, 0)
    ensures Arrived(Reused(f, th), th.req, th.pc.target)
  {
    hide InodesOk, UseOk, LinksOk, EntriesOk, KidsOk, NoEmptyBlocks, Arrived, OwnedDir, WellFormed;
    ReuseStable(f, th.pc.target, th.pc.k, th.pc.j, th.req.name, th.held[0], t);
    ArrivedStable(f, Reused(f, th), t, {th.pc.target}, 0, th.req, th.pc.target);
  }

  lemma ReuseOwners(f: Fs, free: seq<nat>, threads: map<int, Thread>, t: int, th: Thread)
    requires FreeOk(f, free) && PrivateOk(f, threads) && t in threads && th.held == [] && ReuseReady(f, t, threads[t])
    ensures FreeOk(Reused(f, threads[t]), free) && PrivateOk(Reused(f, threads[t]), threads[t := th])
  {
    hide FreeOk, PrivateOk, Arrived, OwnedDir, SlotAt;
    AllGiven(f, Reused(f, threads[t]), free, threads, t, th);
  }

  lemma ReuseCommits(s: State, t: int)
    requires Inv(s) && t in s.threads && s.threads[t].pc.ReuseEntry?
    ensures s.threads[t].req.CreateReq? && StepCreate(s, t).Some?
    ensures Inv(StepCreate(s, t).value) && Effect(s.threads[t].req, s.fs.d, StepCreate(s, t).value.fs.d)
  {
    ReuseFacts(s, t);
    assert WellFormed(s.fs) && FreeOk(s.fs, s.free) && PrivateOk(s.fs, s.threads);
    hide Inv, WellFormed, FreeOk, PrivateOk, LocksOk, ThreadsOk, Stable, Arrived, StepCreate, Effect, HangInSlot,
      PcOk, SlotAt, Blocks, OwnedDir;
    var th := s.threads[t];
    ReuseStep(s, t);
    ReuseEffect(s.fs, t, th);
    ReuseStays(s.fs, t, th);
    ReuseOwners(s.fs, s.free, s.threads, t, Done(th));
    DoneFrame(s, t, Reused(s.fs, th));
  }

  /** What a create knows when it is about to link the directory block it added. */
  ghost predicate GrowReady(f: Fs, t: int, th: Thread) {
    && th.pc.GrowParent? && th.req.CreateReq? && |th.held| == 2
    && var (i, j, x, b) := (th.pc.target, th.pc.j, th.held[0], th.held[1]);
    && i in f.link && IsDir(f.d, i) && |Blocks(f.d, i)| < FS_MAXFILEBLOCKS && f.d[i] == th.pc.inode
    && Key(i, th.req.name) !in f.kid && Fresh(f, x) && x != 0 && f.use[x] == Private(t)
    && Loose(f, b) && b != x && b != 0 && f.use[b] == Private(t) && OneEntry(f.d, b, j, Used(th.req.name, x))
    && x < |f.d| && f.d[x] == Inode(th.req.kind, th.req.user, [])
    && Arrived(f, th.req, i) && OwnedDir(f, th.req, i)
  }

  lemma GrowFacts(s: State, t: int)
    requires Inv(s) && t in s.threads && s.threads[t].pc.GrowParent?
    ensures GrowReady(s.fs, t, s.threads[t])
  {
    Facts(s, t);
    hide WellFormed, FreeOk, PrivateOk, LocksOk, ThreadsOk, LinksOk, EntriesOk, KidsOk, InodesOk;
    assert s.threads[t].held[0] in s.threads[t].held && s.threads[t].held[1] in s.threads[t].held;
  }

  ghost function Grown(f: Fs, th: Thread): Fs
    requires th.pc.GrowParent? && th.req.CreateReq? && |th.held| == 2 && th.held[0] < |f.use| && th.held[1] < |f.use|
    requires th.pc.target in f.link && th.pc.target < |f.d| && f.d[th.pc.target].Inode?
  {
    HangInBlock(f, th.pc.target, th.held[1], th.pc.j, th.req.name, th.held[0])
  }

  lemma GrowStep(s: State, t: int)
    requires t in s.threads && GrowReady(s.fs, t, s.threads[t])
    ensures StepCreate(s, t) == Some(Commit(s, t, Grown(s.fs, s.threads[t]), [],
      Unlock(s.threads[t].pc.target, true, "")))
  {
    hide Arrived, OwnedDir, OneEntry, Blocks;
  }

  lemma GrowEffect(f: Fs, t: int, th: Thread)
    requires WellFormed(f) && GrowReady(f, t, th)
    ensures WellFormed(Grown(f, th)) && Effect(th.req, f.d, Grown(f, th).d)
  {
    var r := th.req;
    MayWalkHere(f, r, th.pc.target);
    hide InodesOk, UseOk, LinksOk, EntriesOk, KidsOk, NoEmptyBlocks, Blocks, Arrived, OneEntry;
    HangInBlockCommits(f, th.pc.target, th.held[1], th.pc.j, r.name, th.held[0], Walk(r));
    CreateNode(f, r, th.held[0]);
    OwnedView(f, r, th.pc.target);
    hide WellFormed, HangInBlock, OnlyAt, MayWalk, MayChange;
  }

  lemma GrowElsewhere(f: Fs, i: nat, b: nat, j: nat, name: string, x: nat, t: int)
    requires InodesOk(f) && i in f.link && x < |f.use| && b < |f.use| && f.use[x] == Private(t)
    requires f.use[b] == Private(t)
    ensures var g := HangInBlock(f, i, b, j, name, x);
      && Elsewhere(f, g, i, x) && OthersKept(f, g, t) && (forall y :: y in f.link ==> SameHead(f, g, y))
  {
    assert f.use[i] == IsInode;
  }

  lemma GrowStays(f: Fs, t: int, th: Thread)
    requires WellFormed(f) && GrowReady(f, t, th)
    ensures Stable(f, Grown(f, th), t, {th.pc.target}, 0)
    ensures Arrived(Grown(f, th), th.req, th.pc.target)
  {
    var (i, j, x, b) := (th.pc.target, th.pc.j, th.held[0], th.held[1]);
    hide Arrived, OwnedDir, OneEntry;
    HangInBlockShape(f, i, b, j, th.req.name, x);
    GrowElsewhere(f, i, b, j, th.req.name, x, t);
    hide InodesOk, UseOk, NoEmptyBlocks, LinksOk, EntriesOk, KidsOk, Hung, HangInBlock, Elsewhere, OthersKept,
      SameHead, Stable;
    HungStable(f, Grown(f, th), t, i, |Blocks(f.d, i)|, j, th.req.name, x);
    ArrivedStable(f, Grown(f, th), t, {th.pc.target}, 0, th.req, th.pc.target);
  }

  lemma GrowOwners(f: Fs, free: seq<nat>, threads: map<int, Thread>, t: int, th: Thread)
    requires FreeOk(f, free) && PrivateOk(f, threads) && t in threads && th.held == [] && GrowReady(f, t, threads[t])
    ensures FreeOk(Grown(f, threads[t]), free) && PrivateOk(Grown(f, threads[t]), threads[t := th])
  {
    hide FreeOk, PrivateOk, Arrived, OwnedDir, OneEntry;
    AllGiven(f, Grown(f, threads[t]), free, threads, t, th);
  }

  lemma GrowCommits(s: State, t: int)
    requires Inv(s) && t in s.threads && s.threads[t].pc.GrowParent?
    ensures s.threads[t].req.CreateReq? && StepCreate(s, t).Some?
    ensures Inv(StepCreate(s, t).value) && Effect(s.threads[t].req, s.fs.d, StepCreate(s, t).value.fs.d)
  {
    GrowFacts(s, t);
    assert WellFormed(s.fs) && FreeOk(s.fs, s.free) && PrivateOk(s.fs, s.threads);
    hide Inv, WellFormed, FreeOk, PrivateOk, LocksOk, ThreadsOk, Stable, Arrived, StepCreate, Effect, HangInBlock,
      PcOk, OneEntry, Blocks, OwnedDir;
    var th := s.threads[t];
    GrowStep(s, t);
    GrowEffect(s.fs, t, th);
    GrowStays(s.fs, t, th);
    GrowOwners(s.fs, s.free, s.threads, t, Done(th));
    DoneFrame(s, t, Grown(s.fs, th));
  }
}
