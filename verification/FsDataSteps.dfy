/** The two commits of a write. */
module FsDataSteps {
  import opened Common
  import opened FsModel
  import opened FsCommits
  import opened FsThreads
  import opened FsInvariant
  import opened FsSteps
  import opened FsWalkSteps
  import opened FsCommitSteps

  // ---------------------------------------------------------------- a write inside the file

  /** What a write knows when it is about to overwrite a block. */
  ghost predicate PutReady(f: Fs, th: Thread) {
    && th.pc.PutData? && th.req.WriteReq? && th.held == []
    && var i := th.pc.target;
    && i in f.link && IsFile(f.d, i) && f.d[i] == th.pc.inode && f.d[i].owner == th.req.user
    && th.req.k < |Blocks(f.d, i)| && th.req.k < FS_MAXFILEBLOCKS && Blocks(f.d, i)[th.req.k] < |f.d|
    && Arrived(f, th.req, i)
  }

  lemma PutFacts(s: State, t: int)
    requires Inv(s) && t in s.threads && s.threads[t].pc.PutData?
    ensures PutReady(s.fs, s.threads[t])
  {
    Facts(s, t);
    hide WellFormed, FreeOk, PrivateOk, LocksOk, ThreadsOk, LinksOk, EntriesOk, KidsOk;
  }

  ghost function Put(f: Fs, th: Thread): Fs
    requires th.pc.PutData? && th.req.WriteReq?
    requires th.req.k < |Blocks(f.d, th.pc.target)| && Blocks(f.d, th.pc.target)[th.req.k] < |f.d|
  {
    Overwritten(f, th.pc.target, th.req.k, th.req.bytes)
  }

  lemma PutStep(s: State, t: int)
    requires t in s.threads && PutReady(s.fs, s.threads[t])
    ensures StepData(s, t) == Some(Commit(s, t, Put(s.fs, s.threads[t]), [], Unlock(s.threads[t].pc.target, true, "")))
  {
    hide Arrived;
  }

  lemma WalkView(f: Fs, r: Request, i: nat, e: Disk, contents: seq<string>)
    requires LinksOk(f) && EntriesOk(f) && KidsOk(f) && Arrived(f, r, i) && r.WriteReq? && r.k < FS_MAXFILEBLOCKS
    requires View(f.d, r.path) == Some(FileNode(r.user, contents)) && r.k <= |contents|
    requires OnlyAt(f.d, e, r.path, Some(FileNode(r.user, Written(contents, r.k, r.bytes))))
    ensures Effect(r, f.d, e)
  {
    MayWalkHere(f, r, i);
    hide MayWalk, OnlyAt, View, Arrived, LinksOk, EntriesOk, KidsOk, Written;
  }

  lemma PutEffect(f: Fs, th: Thread)
    requires WellFormed(f) && PutReady(f, th)
    ensures WellFormed(Put(f, th)) && Effect(th.req, f.d, Put(f, th).d)
  {
    var r := th.req;
    MayWalkHere(f, r, th.pc.target);
    hide InodesOk, UseOk, LinksOk, EntriesOk, KidsOk, NoEmptyBlocks, Arrived, OnlyAt, View, MayWalk;
    OverwrittenCommits(f, th.pc.target, r.k, r.bytes, Walk(r));
    assert |Contents(f.d, th.pc.target)| == |Blocks(f.d, th.pc.target)|;
    hide WellFormed, Overwritten, Effect;
    WalkView(f, r, th.pc.target, Put(f, th).d, Contents(f.d, th.pc.target));
  }

  lemma PutElsewhere(f: Fs, x: nat, k: nat, bytes: string, t: int)
    requires InodesOk(f) && x in f.link && k < |Blocks(f.d, x)|
    ensures Blocks(f.d, x)[k] < |f.d|
    ensures var g := Overwritten(f, x, k, bytes);
      && Elsewhere(f, g, x, x) && OthersKept(f, g, t) && (forall y :: y in f.link ==> SameHead(f, g, y))
  {
    assert f.use[Blocks(f.d, x)[k]] == BlockOf(x, k);
  }

  lemma PutStays(f: Fs, t: int, th: Thread)
    requires WellFormed(f) && PutReady(f, th)
    ensures Stable(f, Put(f, th), t, {th.pc.target}, 0)
    ensures Arrived(Put(f, th), th.req, th.pc.target)
  {
    hide Arrived;
    OverwrittenBlocks(f, th.pc.target, th.req.k, th.req.bytes);
    PutElsewhere(f, th.pc.target, th.req.k, th.req.bytes, t);
    hide InodesOk, UseOk, NoEmptyBlocks, LinksOk, EntriesOk, KidsOk, SameDirs, Overwritten, Elsewhere, OthersKept,
      SameHead, Stable;
    SameDirsStable(f, Put(f, th), t, th.pc.target);
    ArrivedStable(f, Put(f, th), t, {th.pc.target}, 0, th.req, th.pc.target);
  }

  lemma PutOwners(f: Fs, free: seq<nat>, threads: map<int, Thread>, t: int, th: Thread)
    requires FreeOk(f, free) && PrivateOk(f, threads) && t in threads && th.held == [] && PutReady(f, threads[t])
    ensures FreeOk(Put(f, threads[t]), free) && PrivateOk(Put(f, threads[t]), threads[t := th])
  {
    hide FreeOk, PrivateOk, Arrived;
    AllGiven(f, Put(f, threads[t]), free, threads, t, th);
  }

  lemma PutCommits(s: State, t: int)
    requires Inv(s) && t in s.threads && s.threads[t].pc.PutData?
    ensures s.threads[t].req.WriteReq? && StepData(s, t).Some?
    ensures Inv(StepData(s, t).value) && Effect(s.threads[t].req, s.fs.d, StepData(s, t).value.fs.d)
  {
    PutFacts(s, t);
    assert WellFormed(s.fs) && FreeOk(s.fs, s.free) && PrivateOk(s.fs, s.threads);
    hide Inv, WellFormed, FreeOk, PrivateOk, LocksOk, ThreadsOk, Stable, Arrived, StepData, Effect, Overwritten, PcOk,
      Blocks;
    var th := s.threads[t];
    PutStep(s, t);
    PutEffect(s.fs, th);
    PutStays(s.fs, t, th);
    PutOwners(s.fs, s.free, s.threads, t, Done(th));
    DoneFrame(s, t, Put(s.fs, th));
  }

  // ---------------------------------------------------------------- a write behind the end

  /** What a write knows when it is about to append a block. */
  ghost predicate AppendReady(f: Fs, t: int, th: Thread) {
    && th.pc.GrowFile? && th.req.WriteReq? && |th.held| == 1
    && var (i, b) := (th.pc.target, th.held[0]);
    && i in f.link && IsFile(f.d, i) && f.d[i] == th.pc.inode && f.d[i].owner == th.req.user
    && th.req.k == |Blocks(f.d, i)| && th.req.k < FS_MAXFILEBLOCKS
    && Loose(f, b) && f.use[b] == Private(t) && b < |f.d| && f.d[b] == Data(th.req.bytes)
    && Arrived(f, th.req, i)
  }

  lemma AppendFacts(s: State, t: int)
    requires Inv(s) && t in s.threads && s.threads[t].pc.GrowFile?
    ensures AppendReady(s.fs, t, s.threads[t])
  {
    Facts(s, t);
    hide WellFormed, FreeOk, PrivateOk, LocksOk, ThreadsOk, LinksOk, EntriesOk, KidsOk, InodesOk;
    assert s.threads[t].held[0] in s.threads[t].held;
  }

  ghost function Append(f: Fs, th: Thread): Fs
    requires th.pc.GrowFile? && th.req.WriteReq? && |th.held| == 1 && th.held[0] < |f.use|
    requires th.pc.target < |f.d| && f.d[th.pc.target].Inode?
  {
    Appended(f, th.pc.target, th.held[0])
  }

  lemma AppendStep(s: State, t: int)
    requires t in s.threads && AppendReady(s.fs, t, s.threads[t])
    ensures StepData(s, t) == Some(Commit(s, t, Append(s.fs, s.threads[t]), [],
      Unlock(s.threads[t].pc.target, true, "")))
  {
    hide Arrived;
  }

  lemma AppendEffect(f: Fs, t: int, th: Thread)
    requires WellFormed(f) && AppendReady(f, t, th)
    ensures WellFormed(Append(f, th)) && Effect(th.req, f.d, Append(f, th).d)
  {
    var r := th.req;
    MayWalkHere(f, r, th.pc.target);
    hide InodesOk, UseOk, LinksOk, EntriesOk, KidsOk, NoEmptyBlocks, Arrived, OnlyAt, View, MayWalk;
    AppendedCommits(f, th.pc.target, th.held[0], Walk(r));
    assert |Contents(f.d, th.pc.target)| == |Blocks(f.d, th.pc.target)|;
    hide WellFormed, Appended, Effect;
    WalkView(f, r, th.pc.target, Append(f, th).d, Contents(f.d, th.pc.target));
  }

  lemma AppendElsewhere(f: Fs, x: nat, b: nat, t: int)
    requires InodesOk(f) && x in f.link && x < |f.d| && f.d[x].Inode? && b < |f.use| && f.use[b] == Private(t)
    ensures var g := Appended(f, x, b);
      && Elsewhere(f, g, x, x) && OthersKept(f, g, t) && (forall y :: y in f.link ==> SameHead(f, g, y))
  {
    assert f.use[x] == IsInode;
  }

  lemma AppendStays(f: Fs, t: int, th: Thread)
    requires WellFormed(f) && AppendReady(f, t, th)
    ensures Stable(f, Append(f, th), t, {th.pc.target}, 0)
    ensures Arrived(Append(f, th), th.req, th.pc.target)
  {
    hide Arrived;
    AppendedBlocks(f, th.pc.target, th.held[0]);
    AppendElsewhere(f, th.pc.target, th.held[0], t);
    hide InodesOk, UseOk, NoEmptyBlocks, LinksOk, EntriesOk, KidsOk, SameDirs, Appended, Elsewhere, OthersKept,
      SameHead, Stable;
    SameDirsStable(f, Append(f, th), t, th.pc.target);
    ArrivedStable(f, Append(f, th), t, {th.pc.target}, 0, th.req, th.pc.target);
  }

  lemma AppendOwners(f: Fs, free: seq<nat>, threads: map<int, Thread>, t: int, th: Thread)
    requires FreeOk(f, free) && PrivateOk(f, threads) && t in threads && th.held == [] && AppendReady(f, t, threads[t])
    ensures FreeOk(Append(f, threads[t]), free) && PrivateOk(Append(f, threads[t]), threads[t := th])
  {
    hide FreeOk, PrivateOk, Arrived;
    AllGiven(f, Append(f, threads[t]), free, threads, t, th);
  }

  lemma AppendCommits(s: State, t: int)
    requires Inv(s) && t in s.threads && s.threads[t].pc.GrowFile?
    ensures s.threads[t].req.WriteReq? && StepData(s, t).Some?
    ensures Inv(StepData(s, t).value) && Effect(s.threads[t].req, s.fs.d, StepData(s, t).value.fs.d)
  {
    AppendFacts(s, t);
    assert WellFormed(s.fs) && FreeOk(s.fs, s.free) && PrivateOk(s.fs, s.threads);
    hide Inv, WellFormed, FreeOk, PrivateOk, LocksOk, ThreadsOk, Stable, Arrived, StepData, Effect, Appended, PcOk,
      Blocks;
    var th := s.threads[t];
    AppendStep(s, t);
    AppendEffect(s.fs, t, th);
    AppendStays(s.fs, t, th);
    AppendOwners(s.fs, s.free, s.threads, t, Done(th));
    DoneFrame(s, t, Append(s.fs, th));
  }
}
