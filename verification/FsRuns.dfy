/** Whole runs of the file server: any number of handlers, interleaved in any way and stopped at any point. */
module FsRuns {
  import opened Common
  import opened FsModel
  import opened FsCommits
  import opened FsThreads
  import opened FsInvariant
  import opened FsWalkSteps
  import opened FsCommitSteps
  import opened FsDataSteps
  import opened FsDeleteSteps
  import opened FsTargetSteps

  // ---------------------------------------------------------------- one step of one handler

  /** Only handler `t` moved, and it keeps its request. */
  ghost predicate Moved1(s: State, t: int, n: State) {
    && t in s.threads && n.threads.Keys == s.threads.Keys && n.threads[t].req == s.threads[t].req
    && (forall u :: u in s.threads && u != t ==> n.threads[u] == s.threads[u])
  }

  /** The step is not the one at which the request takes effect: the tree stays as it was. */
  ghost predicate Quiet(s: State, t: int, n: State) {
    t in s.threads && t in n.threads && n.threads[t].committed == s.threads[t].committed && SameView(s.fs.d, n.fs.d)
  }

  /** The step at which the request takes effect, once. */
  ghost predicate Commits(s: State, t: int, n: State) {
    && t in s.threads && t in n.threads && !s.threads[t].committed && n.threads[t].committed
    && Effect(s.threads[t].req, s.fs.d, n.fs.d)
  }

  lemma WalkMoved(s: State, t: int)
    requires t in s.threads && Walking(s.threads[t].pc) && StepWalk(s, t).Some?
    ensures Moved1(s, t, StepWalk(s, t).value) && Quiet(s, t, StepWalk(s, t).value)
    ensures StepWalk(s, t).value.fs.(use := s.fs.use) == s.fs
  {
    hide View, Lookup, Walk, Freed, CanShare, CanOwn, IsDir;
  }

  lemma CreateMoved(s: State, t: int)
    requires t in s.threads && s.threads[t].req.CreateReq? && StepCreate(s, t).Some?
    ensures Moved1(s, t, StepCreate(s, t).value)
  {
    hide Lookup, FreeSlotFrom, LeftoverIndex, SlotsOf, HangInSlot, HangInBlock, IsEntries, OneSlot, Blocks, IsDir,
      Freed;
  }

  lemma CreateCommitted(s: State, t: int)
    requires t in s.threads && s.threads[t].req.CreateReq? && StepCreate(s, t).Some?
    requires t in StepCreate(s, t).value.threads
    ensures StepCreate(s, t).value.threads[t].committed ==
      (s.threads[t].committed || s.threads[t].pc.ReuseEntry? || s.threads[t].pc.GrowParent?)
  {
    hide Lookup, FreeSlotFrom, LeftoverIndex, SlotsOf, HangInSlot, HangInBlock, IsEntries, OneSlot, Blocks, IsDir,
      Freed;
  }

  lemma CreateReserves(s: State, t: int)
    requires t in s.threads && s.threads[t].req.CreateReq? && StepCreate(s, t).Some?
    requires s.threads[t].pc.AtTarget? || s.threads[t].pc.Refuse? || s.threads[t].pc.NeedEntries?
    ensures StepCreate(s, t).value.fs.(use := s.fs.use) == s.fs
  {
    hide Lookup, FreeSlotFrom, LeftoverIndex, SlotsOf, HangInSlot, HangInBlock, IsEntries, OneSlot, Blocks, IsDir,
      Freed;
  }

  lemma DeleteMoved(s: State, t: int)
    requires t in s.threads && s.threads[t].req.DeleteReq? && StepDelete(s, t).Some?
    ensures Moved1(s, t, StepDelete(s, t).value)
    ensures StepDelete(s, t).value.threads[t].committed ==
      (|| s.threads[t].committed
       || (s.threads[t].pc.AtChild? && MayDelete(s.fs.d, s.threads[t].req.user, s.threads[t].pc.child)))
    ensures !s.threads[t].pc.AtChild? || !MayDelete(s.fs.d, s.threads[t].req.user, s.threads[t].pc.child) ==>
      StepDelete(s, t).value.fs.(use := s.fs.use) == s.fs
  {
    hide FindFrom, SlotsOf, CutUse, CutLink, SlotAt, AllUnused, Blocks;
  }

  lemma DataMoved(s: State, t: int)
    requires t in s.threads && (s.threads[t].req.ReadReq? || s.threads[t].req.WriteReq?) && StepData(s, t).Some?
    ensures Moved1(s, t, StepData(s, t).value)
    ensures StepData(s, t).value.threads[t].committed ==
      (s.threads[t].committed || s.threads[t].pc.PutData? || s.threads[t].pc.GrowFile?)
    ensures s.threads[t].pc.AtTarget? || s.threads[t].pc.NeedData? ==> StepData(s, t).value.fs.(use := s.fs.use) == s.fs
  {
    hide Appended, Contents;
  }

  ghost predicate GoodStep(s: State, t: int, n: State) {
    Inv(n) && Moved1(s, t, n) && (Quiet(s, t, n) || Commits(s, t, n))
  }

  lemma Uncommitted(s: State, t: int)
    requires Inv(s) && t in s.threads
    requires var pc := s.threads[t].pc; pc.ReuseEntry? || pc.GrowParent? || pc.PutData? || pc.GrowFile? || pc.AtChild?
    ensures !s.threads[t].committed
  {
    hide Arrived, NewName, Doomed, OwnedFile, WellFormed, FreeOk, PrivateOk, LocksOk;
  }

  lemma CreateSteps(s: State, t: int)
    requires Inv(s) && t in s.threads && s.threads[t].req.CreateReq? && StepCreate(s, t).Some?
    ensures GoodStep(s, t, StepCreate(s, t).value)
  {
    CreateMoved(s, t);
    CreateCommitted(s, t);
    hide Inv, StepCreate, SameView, Effect, Moved1;
    SameDisk(s.fs.d);
    match s.threads[t].pc
    case AtTarget(_) => CreateAtKeeps(s, t); CreateReserves(s, t);
    case Refuse(_) => RefuseStep(s, t); CreateReserves(s, t);
    case NeedEntries(_, _) => NeedKeeps(s, t); CreateReserves(s, t);
    case ReuseInode(_, _, _, _) => CreateWriteKeeps(s, t);
    case ReuseEntry(_, _, _, _) => ReuseCommits(s, t); Uncommitted(s, t);
    case GrowInode(_, _, _) => CreateWriteKeeps(s, t);
    case GrowEntries(_, _, _) => CreateWriteKeeps(s, t);
    case GrowParent(_, _, _) => GrowCommits(s, t); Uncommitted(s, t);
    case _ => NoCreateStep(s, t);
  }

  lemma SameDisk(d: Disk)
    ensures SameView(d, d)
  {
  }

  lemma RefuseStep(s: State, t: int)
    requires Inv(s) && t in s.threads && s.threads[t].req.CreateReq? && s.threads[t].pc.Refuse?
    ensures StepCreate(s, t).Some? && Inv(StepCreate(s, t).value)
  {
    RefuseKeeps(s, t);
    hide Inv;
  }

  lemma NoCreateStep(s: State, t: int)
    requires t in s.threads && s.threads[t].req.CreateReq? && StepCreate(s, t).Some?
    ensures var pc := s.threads[t].pc;
      || pc.AtTarget? || pc.Refuse? || pc.NeedEntries? || pc.ReuseInode? || pc.ReuseEntry?
      || pc.GrowInode? || pc.GrowEntries? || pc.GrowParent?
  {
  }

  lemma DeleteSteps(s: State, t: int)
    requires Inv(s) && t in s.threads && s.threads[t].req.DeleteReq? && StepDelete(s, t).Some?
    ensures GoodStep(s, t, StepDelete(s, t).value)
  {
    DeleteMoved(s, t);
    SameDisk(s.fs.d);
    hide Inv, StepDelete, SameView, Effect, Moved1, MayDelete;
    match s.threads[t].pc
    case AtTarget(_) => DeleteAtKeeps(s, t);
    case LockChild(_, _, _, _, _, _) => ChildKeeps(s, t);
    case AtChild(_, x, _, _, _, _) =>
      if MayDelete(s.fs.d, s.threads[t].req.user, x) { CutCommits(s, t); Uncommitted(s, t); } else { ChildKeeps(s, t); }
    case FreeEntries(_, _) => FreeEntriesKeeps(s, t);
    case UnlockChild(_, _, _) => ChildKeeps(s, t);
    case _ => NoDeleteStep(s, t);
  }

  lemma NoDeleteStep(s: State, t: int)
    requires t in s.threads && s.threads[t].req.DeleteReq? && StepDelete(s, t).Some?
    ensures var pc := s.threads[t].pc;
      pc.AtTarget? || pc.LockChild? || pc.AtChild? || pc.FreeEntries? || pc.UnlockChild?
  {
  }

  lemma DataSteps(s: State, t: int)
    requires Inv(s) && t in s.threads && (s.threads[t].req.ReadReq? || s.threads[t].req.WriteReq?)
    requires StepData(s, t).Some?
    ensures GoodStep(s, t, StepData(s, t).value)
  {
    DataMoved(s, t);
    SameDisk(s.fs.d);
    hide Inv, StepData, SameView, Effect, Moved1;
    match s.threads[t].pc
    case AtTarget(_) => DataAtKeeps(s, t);
    case NeedData(_, _) => NeedDataKeeps(s, t);
    case PutData(_, _) => PutCommits(s, t); Uncommitted(s, t);
    case GrowData(_, _) => DataWriteKeeps(s, t);
    case GrowFile(_, _) => AppendCommits(s, t); Uncommitted(s, t);
    case _ => NoDataStep(s, t);
  }

  lemma NoDataStep(s: State, t: int)
    requires t in s.threads && (s.threads[t].req.ReadReq? || s.threads[t].req.WriteReq?) && StepData(s, t).Some?
    ensures var pc := s.threads[t].pc; pc.AtTarget? || pc.NeedData? || pc.PutData? || pc.GrowData? || pc.GrowFile?
  {
  }

  /** Every step of every handler keeps the invariant, and either leaves the tree alone or is the one step at which its
      request is carried out, as if alone. */
  lemma StepKeeps(s: State, t: int)
    requires Inv(s) && t in s.threads && Next(s, t).Some?
    ensures GoodStep(s, t, Next(s, t).value)
  {
    hide Inv, StepWalk, StepCreate, StepDelete, StepData, GoodStep;
    if Walking(s.threads[t].pc) {
      WalkKeeps(s, t);
      WalkMoved(s, t);
      Good(s, t, StepWalk(s, t).value);
    } else if s.threads[t].req.CreateReq? {
      CreateSteps(s, t);
    } else if s.threads[t].req.DeleteReq? {
      DeleteSteps(s, t);
    } else {
      DataSteps(s, t);
    }
  }

  lemma Good(s: State, t: int, n: State)
    requires Inv(n) && Moved1(s, t, n) && Quiet(s, t, n)
    ensures GoodStep(s, t, n)
  {
  }

  // ---------------------------------------------------------------- runs

  /** Handler `t` takes its next step, unless it is finished or waits for a lock. */
  ghost function Step(s: State, t: int): State {
    if t in s.threads && Next(s, t).Some? then Next(s, t).value else s
  }

  /** The state after the handlers took their steps in the order of `sched`. */
  ghost function Exec(s: State, sched: seq<int>): State {
    if sched == [] then s else Step(Exec(s, sched[..|sched| - 1]), sched[|sched| - 1])
  }

  ghost predicate Took(s: State, t: int, n: State) {
    t in s.threads && t in n.threads && !s.threads[t].committed && n.threads[t].committed
  }

  /** The handlers whose requests took effect on the way, in that order. */
  ghost function Log(s: State, sched: seq<int>): seq<int> {
    if sched == [] then []
    else
      var m := Exec(s, sched[..|sched| - 1]);
      var t := sched[|sched| - 1];
      Log(s, sched[..|sched| - 1]) + if Took(m, t, Step(m, t)) then [t] else []
  }

  ghost function Requests(s: State, log: seq<int>): seq<Request>
    requires forall k :: 0 <= k < |log| ==> log[k] in s.threads
  {
    seq(|log|, k requires 0 <= k < |log| => s.threads[log[k]].req)
  }

  /** `e` shows what a file system that showed `d` shows after the requests were carried out one after the other. */
  ghost predicate Explains(reqs: seq<Request>, d: Disk, e: Disk)
    decreases |reqs|, 0
  {
    if reqs == [] then SameView(d, e) else Then(reqs[..|reqs| - 1], reqs[|reqs| - 1], d, e)
  }

  ghost predicate Then(reqs: seq<Request>, r: Request, d: Disk, e: Disk)
    decreases |reqs|, 1
  {
    exists m :: Explains(reqs, d, m) && Effect(r, m, e)
  }

  lemma EffectSame(r: Request, d: Disk, e: Disk, e': Disk)
    requires Effect(r, d, e) && SameView(e, e')
    ensures Effect(r, d, e')
  {
    hide View, MayWalk, MayChange;
  }

  lemma ExplainsSame(reqs: seq<Request>, d: Disk, e: Disk, e': Disk)
    requires Explains(reqs, d, e) && SameView(e, e')
    ensures Explains(reqs, d, e')
  {
    hide View, Effect;
    if reqs != [] {
      var last := reqs[|reqs| - 1];
      var m :| Explains(reqs[..|reqs| - 1], d, m) && Effect(last, m, e);
      EffectSame(last, m, e, e');
    }
  }

  lemma ExplainsMore(reqs: seq<Request>, r: Request, d: Disk, m: Disk, e: Disk)
    requires Explains(reqs, d, m) && Effect(r, m, e)
    ensures Explains(reqs + [r], d, e)
  {
    hide SameView, Effect;
    assert (reqs + [r])[..|reqs|] == reqs;
    assert Then(reqs, r, d, e);
  }

  lemma StepOfRun(s: State, t: int)
    requires Inv(s)
    ensures Inv(Step(s, t)) && Step(s, t).threads.Keys == s.threads.Keys
    ensures forall u :: u in s.threads ==> Step(s, t).threads[u].req == s.threads[u].req
    ensures forall u :: u in s.threads ==>
      Step(s, t).threads[u].committed == (s.threads[u].committed || (u == t && Took(s, t, Step(s, t))))
    ensures if Took(s, t, Step(s, t)) then Effect(s.threads[t].req, s.fs.d, Step(s, t).fs.d)
      else SameView(s.fs.d, Step(s, t).fs.d)
  {
    SameDisk(s.fs.d);
    hide Inv, SameView, Effect, Next;
    if t in s.threads && Next(s, t).Some? { StepKeeps(s, t); }
  }

  lemma {:induction false} RunKeeps(s: State, sched: seq<int>)
    requires Inv(s)
    ensures Inv(Exec(s, sched)) && Exec(s, sched).threads.Keys == s.threads.Keys
    ensures forall u :: u in s.threads ==> Exec(s, sched).threads[u].req == s.threads[u].req
    ensures forall u :: u in Log(s, sched) ==> u in s.threads
  {
    hide Inv, SameView, Effect, Step;
    if sched != [] {
      RunKeeps(s, sched[..|sched| - 1]);
      StepOfRun(Exec(s, sched[..|sched| - 1]), sched[|sched| - 1]);
    }
  }

  lemma RequestsMore(s: State, log: seq<int>, t: int)
    requires t in s.threads && forall k :: 0 <= k < |log| ==> log[k] in s.threads
    ensures Requests(s, log + [t]) == Requests(s, log) + [s.threads[t].req]
  {
  }

  lemma StepExplained(s: State, log: seq<int>, d: Disk, m: Disk, t: int, took: bool, e: Disk)
    requires forall k :: 0 <= k < |log| ==> log[k] in s.threads
    requires Explains(Requests(s, log), d, m)
    requires if took then t in s.threads && Effect(s.threads[t].req, m, e) else SameView(m, e)
    ensures var log' := log + if took then [t] else [];
      && (forall k :: 0 <= k < |log'| ==> log'[k] in s.threads)
      && Explains(Requests(s, log'), d, e)
  {
    hide SameView, Effect, Explains, Requests;
    if took {
      RequestsMore(s, log, t);
      ExplainsMore(Requests(s, log), s.threads[t].req, d, m, e);
    } else {
      assert log + [] == log;
      ExplainsSame(Requests(s, log), d, m, e);
    }
  }

  /** At every moment of every run, so also wherever a crash stops the server, the disk is well formed and shows the
      initial tree after the committed requests were carried out one at a time, in the order they committed. */
  lemma {:induction false} Linearizable(s: State, sched: seq<int>)
    requires Inv(s)
    ensures WellFormed(Exec(s, sched).fs)
    ensures forall k :: 0 <= k < |Log(s, sched)| ==> Log(s, sched)[k] in s.threads
    ensures Explains(Requests(s, Log(s, sched)), s.fs.d, Exec(s, sched).fs.d)
  {
    RunKeeps(s, sched);
    assert WellFormed(Exec(s, sched).fs);
    hide Inv, WellFormed, SameView, Effect, Step;
    if sched == [] {
      SameDisk(s.fs.d);
    } else {
      hide Explains;
      var before := sched[..|sched| - 1];
      Linearizable(s, before);
      RunKeeps(s, before);
      var m := Exec(s, before);
      var t := sched[|sched| - 1];
      StepOfRun(m, t);
      assert Took(m, t, Step(m, t)) ==> t in s.threads;
      hide Requests, Took;
      StepExplained(s, Log(s, before), s.fs.d, m.fs.d, t, Took(m, t, Step(m, t)), Step(m, t).fs.d);
    }
  }

  /** No request takes effect twice, and those in the log are those marked as committed. */
  lemma {:induction false} LogOnce(s: State, sched: seq<int>)
    requires Inv(s) && forall t :: t in s.threads ==> !s.threads[t].committed
    ensures NoDup(Log(s, sched))
    ensures Exec(s, sched).threads.Keys == s.threads.Keys
    ensures forall t :: t in s.threads ==> (t in Log(s, sched) <==> Exec(s, sched).threads[t].committed)
    ensures forall t :: t in Log(s, sched) ==> t in s.threads
  {
    hide Inv, SameView, Effect, Step;
    if sched != [] {
      LogOnce(s, sched[..|sched| - 1]);
      RunKeeps(s, sched[..|sched| - 1]);
      StepOfRun(Exec(s, sched[..|sched| - 1]), sched[|sched| - 1]);
    }
  }

  /** What a request does is determined by what the tree showed before. */
  lemma EffectDetermined(r: Request, d: Disk, d': Disk, e: Disk, e': Disk)
    requires Effect(r, d, e) && Effect(r, d', e') && SameView(d, d')
    ensures SameView(e, e')
  {
    hide View, MayWalk, MayChange;
    match r
    case CreateReq(_, _, _, _) =>
    case DeleteReq(_, _, _) =>
    case WriteReq(_, _, _, _) =>
  }

  lemma SameBoth(d: Disk, e: Disk, e': Disk)
    requires SameView(d, e) && SameView(d, e')
    ensures SameView(e, e')
  {
    hide View;
  }

  /** So the order in which requests commit determines the tree. */
  lemma {:induction false} OrderDetermines(reqs: seq<Request>, d: Disk, e: Disk, e': Disk)
    requires Explains(reqs, d, e) && Explains(reqs, d, e')
    ensures SameView(e, e')
  {
    hide SameView, Effect;
    if reqs == [] {
      SameBoth(d, e, e');
    } else {
      var last := reqs[|reqs| - 1];
      var m :| Explains(reqs[..|reqs| - 1], d, m) && Effect(last, m, e);
      var m' :| Explains(reqs[..|reqs| - 1], d, m') && Effect(last, m', e');
      OrderDetermines(reqs[..|reqs| - 1], d, m, m');
      EffectDetermined(last, m, m', e, e');
    }
  }

  /** A read that succeeds answers with the block as the tree shows it when the handler stands at the file. */
  lemma ReadAnswers(s: State, t: int)
    requires Inv(s) && t in s.threads && s.threads[t].req.ReadReq? && s.threads[t].pc.AtTarget?
    ensures Next(s, t).Some? && t in Next(s, t).value.threads && Next(s, t).value.threads[t].pc.Unlock?
    ensures var r := s.threads[t].req;
      var v := View(s.fs.d, r.path);
      var pc := Next(s, t).value.threads[t].pc;
      && (pc.ok <==> v.Some? && v.value.FileNode? && v.value.owner == r.user && r.k < |v.value.contents|)
      && (pc.ok ==> pc.answer == v.value.contents[r.k])
  {
    Facts(s, t);
    hide Inv;
    MayWalkHere(s.fs, s.threads[t].req, s.threads[t].pc.target);
    hide View, LinksOk, EntriesOk, KidsOk, Arrived, Follow;
  }
}
