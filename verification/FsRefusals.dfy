/** Requests that fail: each does so at a step at which the tree does not allow it or space has run out. */
module FsRefusals {
  import opened Common
  import opened FsModel
  import opened FsCommits
  import opened FsThreads
  import opened FsInvariant
  import opened FsWalkSteps
  import opened FsCommitSteps
  import opened FsDeleteSteps
  import opened FsTargetSteps
  import opened FsRuns

  /** The handler has given up. */
  predicate Failing(pc: Pc) {
    || pc.Abort? || pc.GiveBack? || pc.Refuse?
    || (pc.Unlock? && !pc.ok) || (pc.UnlockChild? && !pc.ok) || (pc.Finished? && !pc.ok)
  }

  /** There is no block left for what `r` has to store, or no entry in its directory. */
  ghost predicate NoSpace(s: State, r: Request) {
    (r.CreateReq? || r.WriteReq?) && (s.free == [] || (r.CreateReq? && FullDir(s.fs.d, r.dir)))
  }

  ghost predicate FullDir(d: Disk, path: seq<string>) {
    var i := Resolve(d, path);
    i.Some? && |Blocks(d, i.value)| == FS_MAXFILEBLOCKS && forall k, j :: !Reusable(d, i.value, k, j)
  }

  ghost predicate Trees(f: Fs) {
    LinksOk(f) && EntriesOk(f) && KidsOk(f)
  }

  lemma NoWay(f: Fs, r: Request, cur: nat, n: nat)
    requires Trees(f) && On(f, Walk(r), n, cur) && n < |Walk(r)| && Lookup(f.d, cur, Walk(r)[n]).None?
    ensures !Allowed(r, f.d)
  {
    var p := Walk(r)[..n + 1];
    assert p[..n] == Walk(r)[..n];
    ResolveIsFollow(f, p);
    LookupIsKid(f, cur, Walk(r)[n]);
    assert View(f.d, p) == None;
    if n + 1 == |Walk(r)| { assert p == Walk(r); }
    hide Trees, LinksOk, EntriesOk, KidsOk, View, Lookup, Follow;
  }

  lemma NotMine(f: Fs, r: Request, cur: nat, n: nat)
    requires Trees(f) && On(f, Walk(r), n, cur) && 0 < n < |Walk(r)| && !(IsDir(f.d, cur) && f.d[cur].owner == r.user)
    ensures !Allowed(r, f.d)
  {
    ResolveIsFollow(f, Walk(r)[..n]);
    assert View(f.d, Walk(r)[..n]) == NodeOf(f.d, cur);
    hide Trees, LinksOk, EntriesOk, KidsOk, Lookup, Follow, View;
  }

  lemma KidView(f: Fs, r: Request, i: nat, name: string)
    requires Trees(f) && Arrived(f, r, i)
    ensures View(f.d, Walk(r) + [name]) == if Key(i, name) in f.kid then NodeOf(f.d, f.kid[Key(i, name)]) else None
  {
    var p := Walk(r) + [name];
    assert p[..|p| - 1] == Walk(r);
    assert Walk(r)[..|Walk(r)|] == Walk(r);
    ResolveIsFollow(f, p);
  }

  lemma LiveNode(f: Fs, i: nat)
    requires InodesOk(f) && i in f.link
    ensures NodeOf(f.d, i).Some? && NodeOf(f.d, i).value.owner == f.d[i].owner
    ensures IsFile(f.d, i) ==> |NodeOf(f.d, i).value.contents| == |Blocks(f.d, i)|
  {
  }

  lemma CreateRefused(f: Fs, r: Request, i: nat)
    requires Trees(f) && InodesOk(f) && Arrived(f, r, i) && r.CreateReq?
    requires !IsDir(f.d, i) || (f.d[i].owner != r.user && f.d[i].owner != "") || Lookup(f.d, i, r.name).Some?
    ensures !Allowed(r, f.d)
  {
    MayWalkHere(f, r, i);
    KidView(f, r, i, r.name);
    LookupIsKid(f, i, r.name);
    if Key(i, r.name) in f.kid { LiveNode(f, f.kid[Key(i, r.name)]); }
    hide Trees, InodesOk, LinksOk, EntriesOk, KidsOk, Arrived, View, Lookup, Follow;
  }

  lemma DeleteRefused(f: Fs, r: Request, i: nat)
    requires Trees(f) && InodesOk(f) && Arrived(f, r, i) && r.DeleteReq?
    requires !IsDir(f.d, i) || (f.d[i].owner != r.user && f.d[i].owner != "") || Key(i, r.name) !in f.kid
    ensures !Allowed(r, f.d)
  {
    MayWalkHere(f, r, i);
    KidView(f, r, i, r.name);
    hide Trees, InodesOk, LinksOk, EntriesOk, KidsOk, Arrived, View, Lookup, Follow;
  }

  /** A directory with blocks has an entry, because no block of it is empty. */
  lemma HasEntry(f: Fs, x: nat) returns (name: string)
    requires Trees(f) && NoEmptyBlocks(f) && x in f.link && IsDir(f.d, x) && Blocks(f.d, x) != []
    ensures Key(x, name) in f.kid
  {
    assert SomeUsed(f.d, x, 0);
    var j :| 0 <= j < FS_DIRENTRIES && SlotAt(f.d, x, 0, j).Used?;
    name := SlotAt(f.d, x, 0, j).name;
  }

  lemma ChildRefused(f: Fs, r: Request, i: nat, x: nat)
    requires Trees(f) && InodesOk(f) && NoEmptyBlocks(f) && Arrived(f, r, i) && r.DeleteReq?
    requires Key(i, r.name) in f.kid && f.kid[Key(i, r.name)] == x && !MayDelete(f.d, r.user, x)
    ensures !Allowed(r, f.d)
  {
    KidView(f, r, i, r.name);
    LiveNode(f, x);
    if f.d[x].owner == r.user {
      var name := HasEntry(f, x);
      var p := Walk(r) + [r.name];
      var q := Walk(r) + [r.name, name];
      assert q[..|q| - 1] == p && p[..|p| - 1] == Walk(r) && Walk(r)[..|Walk(r)|] == Walk(r);
      ResolveIsFollow(f, q);
      LiveNode(f, f.kid[Key(x, name)]);
      assert View(f.d, Walk(r) + [r.name, name]).Some?;
    }
    hide Trees, InodesOk, LinksOk, EntriesOk, KidsOk, Arrived, View, Follow, NoEmptyBlocks;
  }

  lemma DataRefused(f: Fs, r: Request, i: nat)
    requires Trees(f) && InodesOk(f) && Arrived(f, r, i) && (r.ReadReq? || r.WriteReq?)
    requires
      || !IsFile(f.d, i) || f.d[i].owner != r.user || r.k > |Blocks(f.d, i)|
      || (r.ReadReq? && r.k == |Blocks(f.d, i)|)
    ensures !Allowed(r, f.d)
  {
    MayWalkHere(f, r, i);
    LiveNode(f, i);
    hide Trees, InodesOk, LinksOk, EntriesOk, KidsOk, Arrived, View, Follow;
  }

  /** The step at which a handler gives up. */
  ghost predicate GivesUp(s: State, t: int, n: State) {
    t in s.threads && t in n.threads && !Failing(s.threads[t].pc) && Failing(n.threads[t].pc)
  }

  lemma WalkGivesUp(s: State, t: int)
    requires Inv(s) && t in s.threads && Walking(s.threads[t].pc) && StepWalk(s, t).Some?
    requires GivesUp(s, t, StepWalk(s, t).value)
    ensures !Allowed(s.threads[t].req, s.fs.d) || NoSpace(s, s.threads[t].req)
  {
    Facts(s, t);
    var th := s.threads[t];
    hide Inv, LinksOk, EntriesOk, KidsOk, InodesOk, HeldOk, Lookup, View, Freed, MayWalk, MayChange, FullDir, On,
      Passed;
    if th.pc.Search? {
      NoWay(s.fs, th.req, th.pc.cur, th.pc.n);
    } else if th.pc.CheckDir? {
      NotMine(s.fs, th.req, th.pc.cur, th.pc.n);
    }
  }

  lemma CreateGivesUp(s: State, t: int)
    requires Inv(s) && t in s.threads && s.threads[t].req.CreateReq? && StepCreate(s, t).Some?
    requires GivesUp(s, t, StepCreate(s, t).value)
    ensures !Allowed(s.threads[t].req, s.fs.d) || NoSpace(s, s.threads[t].req)
  {
    Facts(s, t);
    NoCreateStep(s, t);
    var th := s.threads[t];
    hide Inv, LinksOk, EntriesOk, KidsOk, HeldOk, Lookup, View, Freed, MayWalk, MayChange, On, Passed, Allowed,
      FreeSlotFrom, LeftoverIndex, SlotsOf, Blocks, OneSlot, HangInSlot, HangInBlock;
    if th.pc.AtTarget? {
      CreateRefused(s.fs, th.req, th.pc.target);
    } else if th.pc.NeedEntries? {
      FullAtTarget(s.fs, th);
    }
  }

  lemma FullAtTarget(f: Fs, th: Thread)
    requires Trees(f) && InodesOk(f) && PcOk(f, th) && th.pc.NeedEntries?
    ensures th.req.CreateReq? && th.pc.target < |f.d|
    ensures |Blocks(f.d, th.pc.target)| + 1 > FS_MAXFILEBLOCKS ==> FullDir(f.d, th.req.dir)
  {
    var r := th.req;
    assert Walk(r)[..|Walk(r)|] == Walk(r);
    ResolveIsFollow(f, Walk(r));
    hide LinksOk, EntriesOk, KidsOk, Passed, Follow, Resolve;
  }

  lemma DeleteGivesUp(s: State, t: int)
    requires Inv(s) && t in s.threads && s.threads[t].req.DeleteReq? && StepDelete(s, t).Some?
    requires GivesUp(s, t, StepDelete(s, t).value)
    ensures !Allowed(s.threads[t].req, s.fs.d)
  {
    Facts(s, t);
    NoDeleteStep(s, t);
    assert NoEmptyBlocks(s.fs);
    var th := s.threads[t];
    hide Inv, HeldOk, Lookup, View, Freed, MayWalk, MayChange, On, Passed, Allowed, SlotsOf, Blocks, NoEmptyBlocks,
      InodesOk;
    if th.pc.AtTarget? {
      NoEntry(s.fs, th.req, th.pc.target);
      hide FindFrom, SlotAt, LinksOk, EntriesOk, KidsOk;
      DeleteRefused(s.fs, th.req, th.pc.target);
    } else if th.pc.AtChild? {
      hide FindFrom, SlotAt, LinksOk, EntriesOk, KidsOk;
      ChildRefused(s.fs, th.req, th.pc.target, th.pc.child);
    }
  }

  lemma NoEntry(f: Fs, r: Request, i: nat)
    requires Trees(f) && i in f.link && r.DeleteReq?
    ensures var at := FindFrom(f.d, i, r.name, 0, 0);
      at.None? || SlotAt(f.d, i, at.value.0, at.value.1).Unused? ==> Key(i, r.name) !in f.kid
  {
    LookupIsKid(f, i, r.name);
    if Key(i, r.name) in f.kid { assert Hangs(f, f.kid[Key(i, r.name)]); }
    hide FindFrom, Lookup;
  }

  lemma DataGivesUp(s: State, t: int)
    requires Inv(s) && t in s.threads && (s.threads[t].req.ReadReq? || s.threads[t].req.WriteReq?)
    requires StepData(s, t).Some?
    requires GivesUp(s, t, StepData(s, t).value)
    ensures !Allowed(s.threads[t].req, s.fs.d) || NoSpace(s, s.threads[t].req)
  {
    Facts(s, t);
    NoDataStep(s, t);
    var th := s.threads[t];
    if th.pc.AtTarget? {
      hide Inv, LinksOk, EntriesOk, KidsOk, HeldOk, View, MayWalk, MayChange, On, Passed, Allowed, InodesOk, Contents;
      DataRefused(s.fs, th.req, th.pc.target);
    } else {
      hide Inv, LinksOk, EntriesOk, KidsOk, InodesOk, HeldOk, View, Allowed, Arrived;
    }
  }

  /** A request is refused only at a moment at which the tree does not allow it or there is no space for it. */
  lemma RefusalsAreJustified(s: State, t: int)
    requires Inv(s) && t in s.threads && Next(s, t).Some? && GivesUp(s, t, Next(s, t).value)
    ensures !Allowed(s.threads[t].req, s.fs.d) || NoSpace(s, s.threads[t].req)
    ensures !Allowed(s.threads[t].req, s.fs.d) ==> forall e :: !Effect(s.threads[t].req, s.fs.d, e)
  {
    hide Inv, StepWalk, StepCreate, StepDelete, StepData, Allowed, NoSpace, GivesUp;
    if Walking(s.threads[t].pc) {
      WalkGivesUp(s, t);
    } else if s.threads[t].req.CreateReq? {
      CreateGivesUp(s, t);
    } else if s.threads[t].req.DeleteReq? {
      DeleteGivesUp(s, t);
    } else {
      DataGivesUp(s, t);
    }
  }

  // ---------------------------------------------------------------- block 125

  /** A create at a directory it may change goes by what the scan for an unused entry finds. */
  lemma GoesByScan(s: State, t: int)
    requires Inv(s) && t in s.threads && s.threads[t].req.CreateReq? && s.threads[t].pc.AtTarget?
    requires Allowed(s.threads[t].req, s.fs.d)
    ensures Next(s, t).Some? && t in Next(s, t).value.threads
    ensures var (i, pc, d) := (s.threads[t].pc.target, Next(s, t).value.threads[t].pc, s.fs.d);
      var at := FreeSlotFrom(d, i, 0, 0);
      pc == if at.Some? then ReuseInode(i, at.value.0, at.value.1, SlotsOf(d, i, at.value.0))
            else NeedEntries(i, LeftoverIndex(d, i, 0, 0, 0))
  {
    Facts(s, t);
    var th := s.threads[t];
    assert Arrived(s.fs, th.req, th.pc.target);
    hide Inv, LinksOk, EntriesOk, KidsOk, HeldOk, InodesOk, Arrived, LeftoverIndex, SlotsOf, Reusable;
    MayWalkHere(s.fs, th.req, th.pc.target);
    KidView(s.fs, th.req, th.pc.target, th.req.name);
    LookupIsKid(s.fs, th.pc.target, th.req.name);
    if Key(th.pc.target, th.req.name) in s.fs.kid { LiveNode(s.fs, s.fs.kid[Key(th.pc.target, th.req.name)]); }
    hide View, Follow, Lookup, MayWalk, FreeSlotFrom;
  }

  lemma ScanChooses(d: Disk, i: nat)
    ensures var at := FreeSlotFrom(d, i, 0, 0);
      && (at.Some? <==> exists k, j :: Reusable(d, i, k, j))
      && (at.Some? ==>
        && Reusable(d, i, at.value.0, at.value.1)
        && forall k: nat, j: nat :: k < at.value.0 || (k == at.value.0 && j < at.value.1) ==> !Reusable(d, i, k, j))
  {
    FreeSlotFromWorks(d, i, 0, 0);
    hide FreeSlotFrom, SlotAt, Blocks;
    if FreeSlotFrom(d, i, 0, 0).Some? {
      var (m, n) := FreeSlotFrom(d, i, 0, 0).value;
      assert Reusable(d, i, m, n);
    }
  }

  /** A create at a directory it may change fills in the first unused entry outside block 125, and adds a block exactly
      if there is none. */
  lemma ReusesAnEntry(s: State, t: int)
    requires Inv(s) && t in s.threads && s.threads[t].req.CreateReq? && s.threads[t].pc.AtTarget?
    requires Allowed(s.threads[t].req, s.fs.d)
    ensures Next(s, t).Some? && t in Next(s, t).value.threads
    ensures var (i, pc) := (s.threads[t].pc.target, Next(s, t).value.threads[t].pc);
      && (pc.ReuseInode? <==> exists k, j :: Reusable(s.fs.d, i, k, j))
      && (pc.NeedEntries? <==> forall k, j :: !Reusable(s.fs.d, i, k, j))
      && (pc.ReuseInode? ==>
        && Reusable(s.fs.d, i, pc.k, pc.j) && pc.slots == SlotsOf(s.fs.d, i, pc.k)
        && forall k: nat, j: nat :: k < pc.k || (k == pc.k && j < pc.j) ==> !Reusable(s.fs.d, i, k, j))
      && (pc.NeedEntries? ==> pc.j == LeftoverIndex(s.fs.d, i, 0, 0, 0))
  {
    hide *;
    GoesByScan(s, t);
    ScanChooses(s.fs.d, s.threads[t].pc.target);
  }
}
