/** What the users of the file server are told, over whole runs: every answer was right at some moment of the run. */
module FsAnswers {
  import opened FsModel
  import opened FsThreads
  import opened FsInvariant
  import opened FsWalkSteps
  import opened FsCommitSteps
  import opened FsRuns
  import opened FsGuarantees
  import opened FsRefusals

  // ---------------------------------------------------------------- reads

  /** A read that will tell, or has told, its user `answer`. */
  predicate Answered(pc: Pc, answer: string) {
    (pc.Unlock? || pc.Finished?) && pc.ok && pc.answer == answer
  }

  /** The tree has `answer` in the block that `r` reads, in a file of its user. */
  ghost predicate Shows(d: Disk, r: Request, answer: string) {
    && r.ReadReq? && OwnFile(d, r.user, r.path)
    && r.k < |View(d, r.path).value.contents| && View(d, r.path).value.contents[r.k] == answer
  }

  /** After the first `i` steps of the run. */
  ghost function At(s: State, sched: seq<int>, i: nat): State
    requires i <= |sched|
  {
    Exec(s, sched[..i])
  }

  lemma AtBefore(s: State, sched: seq<int>, i: nat)
    requires sched != [] && i < |sched|
    ensures At(s, sched[..|sched| - 1], i) == At(s, sched, i)
  {
    assert sched[..|sched| - 1][..i] == sched[..i];
  }

  lemma AtTargetAnswers(s: State, t: int, answer: string)
    requires Inv(s) && t in s.threads && s.threads[t].req.ReadReq? && s.threads[t].pc.AtTarget?
    requires Answered(Step(s, t).threads[t].pc, answer)
    ensures Shows(s.fs.d, s.threads[t].req, answer)
  {
    hide Inv, Next, View;
    ReadAnswers(s, t);
  }

  lemma ReadPlaces(s: State, t: int)
    requires Inv(s) && t in s.threads && s.threads[t].req.ReadReq?
    ensures var pc := s.threads[t].pc; !pc.FreeAll? && !pc.PutData? && !pc.GrowFile? && !pc.NeedData?
  {
    Facts(s, t);
    hide Inv, LinksOk, EntriesOk, KidsOk, InodesOk, HeldOk, Arrived;
  }

  lemma ReadWalks(s: State, t: int, answer: string)
    requires t in s.threads && s.threads[t].req.ReadReq? && Walking(s.threads[t].pc) && !s.threads[t].pc.FreeAll?
    requires StepWalk(s, t).Some? && t in StepWalk(s, t).value.threads
    ensures Answered(StepWalk(s, t).value.threads[t].pc, answer) ==> Answered(s.threads[t].pc, answer)
  {
    hide Lookup, Freed, CanShare, CanOwn, IsDir, Walk;
  }

  lemma ReadStep(s: State, t: int, answer: string)
    requires Inv(s) && t in s.threads && s.threads[t].req.ReadReq? && !s.threads[t].pc.AtTarget?
    requires t in Step(s, t).threads && Answered(Step(s, t).threads[t].pc, answer)
    ensures Answered(s.threads[t].pc, answer)
  {
    ReadPlaces(s, t);
    hide Inv, Answered, StepWalk, StepCreate, StepDelete, StepData;
    if Next(s, t).Some? {
      if Walking(s.threads[t].pc) { ReadWalks(s, t, answer); } else { NoDataStep(s, t); }
    }
  }

  lemma StepOther(s: State, t: int, u: int)
    requires Inv(s) && t in s.threads && u != t
    ensures t in Step(s, u).threads && Step(s, u).threads[t] == s.threads[t]
  {
    hide Inv, Next, Quiet, Commits;
    if u in s.threads && Next(s, u).Some? { StepKeeps(s, u); }
  }

  /** A read that ends well was answered with what the block held, in a file of the user, at some moment of the run. */
  lemma {:induction false} AnswersWereTrue(s: State, sched: seq<int>, t: int, answer: string) returns (i: nat)
    requires Initial(s) && t in s.threads && s.threads[t].req.ReadReq?
    requires t in Exec(s, sched).threads && Answered(Exec(s, sched).threads[t].pc, answer)
    ensures i <= |sched| && Shows(At(s, sched, i).fs.d, s.threads[t].req, answer)
  {
    InitialInv(s);
    assert sched != [];
    var before := sched[..|sched| - 1];
    var (m, u) := (Exec(s, before), sched[|sched| - 1]);
    RunKeeps(s, before);
    assert At(s, sched, |before|) == m;
    assert Exec(s, sched) == Step(m, u);
    hide *;
    if u == t && m.threads[t].pc.AtTarget? {
      AtTargetAnswers(m, t, answer);
      i := |before|;
    } else {
      if u == t { ReadStep(m, t, answer); } else { StepOther(m, t, u); }
      i := AnswersWereTrue(s, before, t, answer);
      AtBefore(s, sched, i);
    }
  }

  // ---------------------------------------------------------------- refusals

  /** A request that failed was refused at a moment of the run at which the tree did not allow it or there was no space
      for it. */
  lemma {:induction false} FailuresWereJustified(s: State, sched: seq<int>, t: int) returns (i: nat)
    requires Initial(s) && t in s.threads
    requires t in Exec(s, sched).threads && Failing(Exec(s, sched).threads[t].pc)
    ensures i <= |sched|
    ensures !Allowed(s.threads[t].req, At(s, sched, i).fs.d) || NoSpace(At(s, sched, i), s.threads[t].req)
  {
    InitialInv(s);
    assert sched != [];
    var before := sched[..|sched| - 1];
    var (m, u) := (Exec(s, before), sched[|sched| - 1]);
    RunKeeps(s, before);
    assert At(s, sched, |before|) == m;
    assert Exec(s, sched) == Step(m, u);
    if Failing(m.threads[t].pc) {
      hide *;
      i := FailuresWereJustified(s, before, t);
      AtBefore(s, sched, i);
    } else {
      hide Inv, Next, Failing, Allowed, NoSpace;
      if u != t { StepOther(m, t, u); }
      assert u == t && Next(m, t).Some?;
      RefusalsAreJustified(m, t);
      i := |before|;
    }
  }

  // ---------------------------------------------------------------- the whole story of a request

  /** The request took effect, or its user has been told what the tree showed, or it was refused with reason. */
  ghost predicate Settled(s: State, sched: seq<int>, t: int)
    requires t in s.threads && t in Exec(s, sched).threads
  {
    var r := s.threads[t].req;
    match Exec(s, sched).threads[t].pc
    case Finished(true, answer) =>
      if r.ReadReq? then exists i :: 0 <= i <= |sched| && Shows(At(s, sched, i).fs.d, r, answer) else t in Log(s, sched)
    case Finished(false, _) =>
      && t !in Log(s, sched)
      && exists i :: 0 <= i <= |sched| && (!Allowed(r, At(s, sched, i).fs.d) || NoSpace(At(s, sched, i), r))
    case _ => true
  }

  /** Whatever the handlers do and in whatever order, what a finished one reports is the truth. */
  lemma ReportsAreTrue(s: State, sched: seq<int>, t: int)
    requires Initial(s) && t in s.threads
    ensures t in Exec(s, sched).threads && Settled(s, sched, t)
  {
    InitialInv(s);
    RunKeeps(s, sched);
    LogOnce(s, sched);
    var e := Exec(s, sched);
    var pc := e.threads[t].pc;
    if pc.Finished? {
      FinishedHoldsNothing(e, t);
      if !pc.ok {
        var i := FailuresWereJustified(s, sched, t);
      } else if s.threads[t].req.ReadReq? {
        var i := AnswersWereTrue(s, sched, t, pc.answer);
      }
    }
    hide Initial, Inv, Exec, Log, Allowed, NoSpace, Shows;
  }
}
