/** The steps of the walk and of the final unlocking keep the invariant. */
module FsWalkSteps {
  import opened FsModel
  import opened FsThreads
  import opened FsInvariant
  import opened FsSteps

  /** A child is live and is not its own parent. */
  lemma KidDiffers(f: Fs, key: Key)
    requires LinksOk(f) && KidsOk(f) && key in f.kid
    ensures f.kid[key] in f.link && f.kid[key] != key.dir && f.kid[key] != 0 && key.dir in f.link
  {
    assert Hangs(f, f.kid[key]);
  }

  lemma SteppedOn(f: Fs, r: Request, cur: nat, n: nat, next: nat)
    requires LinksOk(f) && KidsOk(f) && Stepping(f, r, cur, n, next)
    ensures On(f, Walk(r), n + 1, next) && next != cur && next != 0
  {
    KidDiffers(f, Key(cur, Walk(r)[n]));
    assert Walk(r)[..n + 1][..n] == Walk(r)[..n];
  }

  lemma Facts(s: State, t: int)
    requires Inv(s) && t in s.threads
    ensures LinksOk(s.fs) && EntriesOk(s.fs) && KidsOk(s.fs) && InodesOk(s.fs) && PcOk(s.fs, s.threads[t])
    ensures HeldOk(s.fs, t, s.threads[t].held) && 0 in s.fs.link
  {
  }

  // What a move does to the locks, and that the handler may rely on what its new position says.

  ghost predicate Moves(f: Fs, th: Thread, pc: Pc) {
    PcOk(f, th.(pc := pc)) && SharedBy(th.(pc := pc)) == SharedBy(th) && ExclBy(th.(pc := pc)) == ExclBy(th)
  }

  ghost predicate Shares(f: Fs, th: Thread, pc: Pc, i: nat) {
    PcOk(f, th.(pc := pc)) && SharedBy(th.(pc := pc)) == SharedBy(th) + {i} && ExclBy(th.(pc := pc)) == ExclBy(th)
  }

  ghost predicate Unshares(f: Fs, th: Thread, pc: Pc, i: nat) {
    && i in SharedBy(th) && PcOk(f, th.(pc := pc))
    && SharedBy(th.(pc := pc)) == SharedBy(th) - {i} && ExclBy(th.(pc := pc)) == ExclBy(th)
  }

  ghost predicate Owns(f: Fs, th: Thread, pc: Pc, i: nat) {
    PcOk(f, th.(pc := pc)) && SharedBy(th.(pc := pc)) == SharedBy(th) && ExclBy(th.(pc := pc)) == ExclBy(th) + {i}
  }

  ghost predicate Disowns(f: Fs, th: Thread, pc: Pc, i: nat) {
    && i in ExclBy(th) && PcOk(f, th.(pc := pc))
    && SharedBy(th.(pc := pc)) == SharedBy(th) && ExclBy(th.(pc := pc)) == ExclBy(th) - {i}
  }

  lemma StartKeeps(s: State, t: int)
    requires Inv(s) && t in s.threads && s.threads[t].pc.Start? && StepWalk(s, t).Some?
    ensures Inv(StepWalk(s, t).value)
  {
    Facts(s, t);
    hide Inv, WellFormed, On, Passed, LinksOk, EntriesOk, KidsOk, InodesOk, HeldOk;
    var r := s.threads[t].req;
    var next := if Walk(r) == [] then LockTarget(0, 0) else LockRoot;
    if (r.ReadReq? || r.WriteReq?) && r.k >= FS_MAXFILEBLOCKS {
      PcFrame(s, t, Finished(false, ""));
    } else if !r.CreateReq? {
      PcFrame(s, t, next);
    } else if s.free == [] {
      PcFrame(s, t, Finished(false, ""));
    } else {
      TakeFrame(s, t, next);
    }
  }

  lemma SearchMoves(f: Fs, th: Thread)
    requires LinksOk(f) && EntriesOk(f) && KidsOk(f) && PcOk(f, th) && th.pc.Search?
    ensures var found := Lookup(f.d, th.pc.cur, Walk(th.req)[th.pc.n]);
      if found.None? then Moves(f, th, Abort(th.pc.cur))
      else if th.pc.n + 1 == |Walk(th.req)| then Moves(f, th, LockTarget(th.pc.cur, found.value))
      else Moves(f, th, LockNext(th.pc.cur, th.pc.n, found.value))
  {
    LookupIsKid(f, th.pc.cur, Walk(th.req)[th.pc.n]);
    if Key(th.pc.cur, Walk(th.req)[th.pc.n]) in f.kid { KidDiffers(f, Key(th.pc.cur, Walk(th.req)[th.pc.n])); }
    hide LinksOk, EntriesOk, KidsOk, Lookup, Passed;
  }

  lemma SearchKeeps(s: State, t: int)
    requires Inv(s) && t in s.threads && s.threads[t].pc.Search? && StepWalk(s, t).Some?
    ensures Inv(StepWalk(s, t).value)
  {
    Facts(s, t);
    SearchMoves(s.fs, s.threads[t]);
    hide Inv, PcOk, SharedBy, ExclBy, LinksOk, EntriesOk, KidsOk, InodesOk, HeldOk, Lookup;
    var r := s.threads[t].req;
    var cur := s.threads[t].pc.cur;
    var n := s.threads[t].pc.n;
    if n < |Walk(r)| {
      var found := Lookup(s.fs.d, cur, Walk(r)[n]);
      if found.None? {
        PcFrame(s, t, Abort(cur));
      } else if n + 1 == |Walk(r)| {
        PcFrame(s, t, LockTarget(cur, found.value));
      } else {
        PcFrame(s, t, LockNext(cur, n, found.value));
      }
    }
  }

  lemma LockRootMoves(f: Fs, th: Thread)
    requires 0 in f.link && PcOk(f, th) && th.pc.LockRoot?
    ensures Shares(f, th, Search(0, 0), 0)
  {
    assert Walk(th.req)[..0] == [];
  }

  lemma LockNextMoves(f: Fs, th: Thread)
    requires PcOk(f, th) && th.pc.LockNext?
    ensures Shares(f, th, DropPrevious(th.pc.cur, th.pc.n, th.pc.next), th.pc.next)
  {
    hide Stepping;
  }

  lemma DropPreviousMoves(f: Fs, th: Thread)
    requires LinksOk(f) && KidsOk(f) && PcOk(f, th) && th.pc.DropPrevious?
    ensures Unshares(f, th, CheckDir(th.pc.next, th.pc.n + 1), th.pc.cur)
  {
    SteppedOn(f, th.req, th.pc.cur, th.pc.n, th.pc.next);
    hide LinksOk, KidsOk, On, Passed;
  }

  lemma HopKeeps(s: State, t: int)
    requires Inv(s) && t in s.threads && StepWalk(s, t).Some?
    requires s.threads[t].pc.LockRoot? || s.threads[t].pc.LockNext? || s.threads[t].pc.DropPrevious?
    ensures Inv(StepWalk(s, t).value)
  {
    Facts(s, t);
    hide Inv, PcOk, SharedBy, ExclBy, LinksOk, EntriesOk, KidsOk, InodesOk, HeldOk;
    match s.threads[t].pc
    case LockRoot =>
      LockRootMoves(s.fs, s.threads[t]);
      AddSharedFrame(s, t, 0, Search(0, 0));
    case LockNext(cur, n, next) =>
      LockNextMoves(s.fs, s.threads[t]);
      AddSharedFrame(s, t, next, DropPrevious(cur, n, next));
    case DropPrevious(cur, n, next) =>
      DropPreviousMoves(s.fs, s.threads[t]);
      DropSharedFrame(s, t, cur, CheckDir(next, n + 1));
    case _ =>
  }

  lemma CheckKeeps(s: State, t: int)
    requires Inv(s) && t in s.threads && s.threads[t].pc.CheckDir? && StepWalk(s, t).Some?
    ensures Inv(StepWalk(s, t).value)
  {
    Facts(s, t);
    var r := s.threads[t].req;
    var cur := s.threads[t].pc.cur;
    var n := s.threads[t].pc.n;
    hide Inv, WellFormed, LinksOk, EntriesOk, KidsOk, HeldOk, Waiting;
    if IsDir(s.fs.d, cur) && s.fs.d[cur].owner == r.user {
      assert OwnDir(s.fs, r.user, Walk(r)[..n]);
      hide InodesOk, OwnDir;
      PcFrame(s, t, Search(cur, n));
    } else {
      hide InodesOk;
      PcFrame(s, t, Abort(cur));
    }
  }

  lemma GiveUpKeeps(s: State, t: int)
    requires Inv(s) && t in s.threads && (s.threads[t].pc.Abort? || s.threads[t].pc.GiveBack?) && StepWalk(s, t).Some?
    ensures Inv(StepWalk(s, t).value)
  {
    Facts(s, t);
    hide Inv, WellFormed, LinksOk, EntriesOk, KidsOk, InodesOk, HeldOk;
    if s.threads[t].pc.Abort? {
      DropSharedFrame(s, t, s.threads[t].pc.cur, GiveBack);
    } else {
      GiveFrame(s, t, |s.threads[t].held|, Finished(false, ""));
    }
  }

  lemma LockTargetMoves(f: Fs, th: Thread)
    requires PcOk(f, th) && th.pc.LockTarget?
    ensures var next := DropParent(th.pc.parent, th.pc.target);
      if th.req.ReadReq? then Shares(f, th, next, th.pc.target) else Owns(f, th, next, th.pc.target)
  {
    hide Stepping;
  }

  lemma LockTargetKeeps(s: State, t: int)
    requires Inv(s) && t in s.threads && s.threads[t].pc.LockTarget? && StepWalk(s, t).Some?
    ensures Inv(StepWalk(s, t).value)
  {
    Facts(s, t);
    hide Inv, PcOk, SharedBy, ExclBy, LinksOk, EntriesOk, KidsOk, InodesOk, HeldOk;
    var pc := s.threads[t].pc;
    LockTargetMoves(s.fs, s.threads[t]);
    if s.threads[t].req.ReadReq? {
      AddSharedFrame(s, t, pc.target, DropParent(pc.parent, pc.target));
    } else {
      AddExclFrame(s, t, pc.target, DropParent(pc.parent, pc.target));
    }
  }

  lemma DropParentMoves(f: Fs, th: Thread)
    requires 0 in f.link && LinksOk(f) && KidsOk(f) && PcOk(f, th) && th.pc.DropParent?
    ensures if th.pc.target == 0 then Moves(f, th, AtTarget(0))
      else Unshares(f, th, AtTarget(th.pc.target), th.pc.parent)
  {
    assert Walk(th.req)[..|Walk(th.req)|] == Walk(th.req);
    if th.pc.target != 0 { SteppedOn(f, th.req, th.pc.parent, |Walk(th.req)| - 1, th.pc.target); }
    hide LinksOk, KidsOk, Passed;
  }

  lemma DropParentKeeps(s: State, t: int)
    requires Inv(s) && t in s.threads && s.threads[t].pc.DropParent? && StepWalk(s, t).Some?
    ensures Inv(StepWalk(s, t).value)
  {
    Facts(s, t);
    hide Inv, PcOk, SharedBy, ExclBy, LinksOk, EntriesOk, KidsOk, InodesOk, HeldOk;
    var pc := s.threads[t].pc;
    DropParentMoves(s.fs, s.threads[t]);
    if pc.target != 0 {
      DropSharedFrame(s, t, pc.parent, AtTarget(pc.target));
    } else {
      PcFrame(s, t, AtTarget(0));
    }
  }

  lemma UnlockMoves(f: Fs, th: Thread)
    requires PcOk(f, th) && th.pc.Unlock?
    ensures var next := if th.held == [] then Finished(th.pc.ok, th.pc.answer) else FreeAll;
      if th.req.ReadReq? then Unshares(f, th, next, th.pc.target) else Disowns(f, th, next, th.pc.target)
  {
    hide Arrived;
  }

  lemma UnlockKeeps(s: State, t: int)
    requires Inv(s) && t in s.threads && s.threads[t].pc.Unlock? && StepWalk(s, t).Some?
    ensures Inv(StepWalk(s, t).value)
  {
    Facts(s, t);
    hide Inv, PcOk, SharedBy, ExclBy, LinksOk, EntriesOk, KidsOk, InodesOk, HeldOk;
    var pc := s.threads[t].pc;
    UnlockMoves(s.fs, s.threads[t]);
    var next := if s.threads[t].held == [] then Finished(pc.ok, pc.answer) else FreeAll;
    if s.threads[t].req.ReadReq? {
      DropSharedFrame(s, t, pc.target, next);
    } else {
      DropExclFrame(s, t, pc.target, next);
    }
  }

  lemma FreeAllKeeps(s: State, t: int)
    requires Inv(s) && t in s.threads && s.threads[t].pc.FreeAll? && StepWalk(s, t).Some?
    ensures Inv(StepWalk(s, t).value)
  {
    Facts(s, t);
    hide Inv, WellFormed, LinksOk, EntriesOk, KidsOk, InodesOk, HeldOk;
    GiveFrame(s, t, |s.threads[t].held|, Finished(true, ""));
  }

  lemma WalkKeeps(s: State, t: int)
    requires Inv(s) && t in s.threads && Walking(s.threads[t].pc) && StepWalk(s, t).Some?
    ensures Inv(StepWalk(s, t).value)
  {
    hide Inv, StepWalk;
    match s.threads[t].pc
    case Start => StartKeeps(s, t);
    case LockRoot => HopKeeps(s, t);
    case Search(_, _) => SearchKeeps(s, t);
    case LockNext(_, _, _) => HopKeeps(s, t);
    case DropPrevious(_, _, _) => HopKeeps(s, t);
    case CheckDir(_, _) => CheckKeeps(s, t);
    case Abort(_) => GiveUpKeeps(s, t);
    case GiveBack => GiveUpKeeps(s, t);
    case LockTarget(_, _) => LockTargetKeeps(s, t);
    case DropParent(_, _) => DropParentKeeps(s, t);
    case Unlock(_, _, _) => UnlockKeeps(s, t);
    case FreeAll => FreeAllKeeps(s, t);
    case _ =>
  }
}
