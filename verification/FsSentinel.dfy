/** A run of the file server in which a create finds no entry to fill in, though there are seven: the root's one
    directory block is number 125, which also stands for "none found". */
module FsSentinel {
  import opened Common
  import opened FsModel
  import opened FsThreads
  import opened FsInvariant
  import opened FsCommitSteps
  import opened FsTargetSteps
  import opened FsRuns

  // ---------------------------------------------------------------- the disk

  function SentinelDisk(): Disk {
    seq(FS_DISKSIZE, b =>
      if b == 0 then Inode(DirKind, "", [NO_BLOCK])
      else if b == 1 then Inode(FileKind, "a", [])
      else if b == NO_BLOCK then Entries(OneSlot(0, Used("f", 1)))
      else Data(""))
  }

  function SentinelUse(): seq<Use> {
    seq(FS_DISKSIZE, b => if b <= 1 then IsInode else if b == NO_BLOCK then BlockOf(0, 0) else Free)
  }

  /** The tree of that disk: a root of no owner with one empty file of user "a". */
  function SentinelFs(): Fs {
    Fs(SentinelDisk(), map[0 := Link(0, "", 0, 0, 0), 1 := Link(0, "f", 0, 0, 1)], map[Key(0, "f") := 1], SentinelUse())
  }

  lemma SentinelSlots(i: nat, k: nat, j: nat)
    ensures SlotAt(SentinelDisk(), i, k, j) == if i == 0 && k == 0 && j == 0 then Used("f", 1) else Unused
    ensures Blocks(SentinelDisk(), i) == if i == 0 then [NO_BLOCK] else []
  {
  }

  lemma SentinelBlocks()
    ensures InodesOk(SentinelFs()) && UseOk(SentinelFs())
  {
    hide SlotAt;
  }

  lemma SentinelLinks()
    ensures LinksOk(SentinelFs()) && KidsOk(SentinelFs())
  {
    SentinelSlots(0, 0, 0);
    hide SlotAt, Blocks;
    assert Hangs(SentinelFs(), 1);
  }

  lemma SentinelEntries()
    ensures EntriesOk(SentinelFs()) && NoEmptyBlocks(SentinelFs())
  {
    forall i: nat, k: nat, j: nat
      ensures SlotAt(SentinelDisk(), i, k, j) == if i == 0 && k == 0 && j == 0 then Used("f", 1) else Unused
    {
      SentinelSlots(i, k, j);
    }
    SentinelSlots(0, 0, 0);
    SentinelSlots(1, 0, 0);
    hide SlotAt, Blocks;
    assert SlotAt(SentinelFs().d, 0, 0, 0).Used?;
    assert SomeUsed(SentinelFs().d, 0, 0);
  }

  /** The disk spells out a tree. */
  lemma SentinelWellFormed()
    ensures WellFormed(SentinelFs()) && SentinelFs().d == SentinelDisk()
  {
    hide InodesOk, UseOk, LinksOk, EntriesOk, KidsOk, NoEmptyBlocks;
    SentinelBlocks();
    SentinelLinks();
    SentinelEntries();
  }

  /** The scan overlooks seven unused entries. */
  lemma OverlooksEntries()
    ensures forall j :: 0 < j < FS_DIRENTRIES ==> SlotAt(SentinelDisk(), 0, 0, j).Unused?
    ensures FreeSlotFrom(SentinelDisk(), 0, 0, 0).None?
  {
    FreeSlotFromWorks(SentinelDisk(), 0, 0, 0);
    assert Blocks(SentinelDisk(), 0) == [NO_BLOCK];
  }

  // ---------------------------------------------------------------- the run

  const NEW_FILE := CreateReq("a", [], "g", FileKind)

  lemma NewFileAllowed()
    ensures Lookup(SentinelDisk(), 0, "g") == None
    ensures Allowed(NEW_FILE, SentinelDisk())
  {
    var f := SentinelFs();
    SentinelLinks();
    SentinelEntries();
    LookupIsKid(f, 0, "g");
    assert View(f.d, []) == Some(DirNode(""));
    assert ([] + ["g"])[..0] == [];
    hide LinksOk, EntriesOk, KidsOk, Lookup, NodeOf;
    ResolveIsFollow(f, ["g"]);
  }

  /** All blocks that the disk leaves free but for the last one: so many handlers at work leave the next one a block for
      its inode and none for a directory. */
  const CROWD: nat := FS_DISKSIZE - 4

  function FreeBlocks(): seq<nat> {
    seq(CROWD + 1, n => if n + 2 < NO_BLOCK then n + 2 else n + 3)
  }

  /** A handler that is about to create the file; all of them do the same. */
  function Newcomer(t: int): Thread {
    Thread(NEW_FILE, Start, [], false)
  }

  /** A server just started on the disk, with handler 0 and the crowd each about to create a file at the root. */
  ghost function Rush(): State {
    State(SentinelFs(), FreeBlocks(), map[], {}, map t: int | 0 <= t <= CROWD :: Newcomer(t))
  }

  lemma RushInitial()
    ensures Initial(Rush())
  {
    SentinelWellFormed();
    hide WellFormed;
    forall b | 0 <= b < FS_DISKSIZE && SentinelUse()[b] == Free ensures b in FreeBlocks() {
      assert FreeBlocks()[if b < NO_BLOCK then b - 2 else b - 3] == b;
    }
  }

  /** The first `n` of the crowd. */
  function Crowd(n: nat): seq<int> {
    seq(n, i => i + 1)
  }

  /** The first `n` of the crowd have each taken a block and nothing else. */
  ghost predicate Rushed(s: State, n: nat) {
    && n <= CROWD && s.fs.d == SentinelDisk() && s.excl == map[] && s.shared == {}
    && |s.free| == CROWD + 1 - n && (forall t :: t in s.threads <==> 0 <= t <= CROWD)
    && s.threads[0] == Newcomer(0) && forall t :: n < t <= CROWD ==> s.threads[t] == Newcomer(t)
  }

  lemma RushStep(s: State, n: nat)
    requires Rushed(s, n) && n < CROWD
    ensures Rushed(Step(s, n + 1), n + 1)
  {
    hide SentinelDisk;
  }

  lemma {:induction false} CrowdRushes(n: nat)
    requires n <= CROWD
    ensures Rushed(Exec(Rush(), Crowd(n)), n)
  {
    if n > 0 {
      hide Rushed, Rush, Step;
      CrowdRushes(n - 1);
      assert Crowd(n)[..n - 1] == Crowd(n - 1);
      RushStep(Exec(Rush(), Crowd(n - 1)), n - 1);
    } else {
      hide SentinelFs;
      assert Crowd(0) == [];
      assert SentinelFs().d == SentinelDisk();
    }
  }

  /** Handler 0 stands somewhere, with `free` blocks in the queue, nobody else at a lock, and the disk as it was. */
  ghost predicate Stands(s: State, pc: Pc, held: nat, free: nat) {
    && s.fs.d == SentinelDisk() && |s.free| == free && s.shared == {} && (forall i :: i in s.excl ==> s.excl[i] == 0)
    && 0 in s.threads && s.threads[0].req == NEW_FILE && s.threads[0].pc == pc && |s.threads[0].held| == held
  }

  /** Handler 0 takes the last block, locks the root and looks at it. */
  lemma Comes(s: State)
    requires Rushed(s, CROWD)
    ensures var a := Step(s, 0);
      var b := Step(a, 0);
      var c := Step(b, 0);
      Stands(c, AtTarget(0), 1, 0)
  {
    hide SentinelDisk;
  }

  /** It wants a new directory block, and there is none. */
  lemma FindsNothing(s: State)
    requires Stands(s, AtTarget(0), 1, 0)
    ensures Stands(Step(s, 0), NeedEntries(0, LeftoverIndex(SentinelDisk(), 0, 0, 0, 0)), 1, 0)
  {
    OverlooksEntries();
    NewFileAllowed();
    assert IsDir(SentinelDisk(), 0) && SentinelDisk()[0].owner == "";
    assert StepCreate(s, 0) == Some(Go(s, 0, NeedEntries(0, LeftoverIndex(SentinelDisk(), 0, 0, 0, 0)))) by {
      hide SentinelDisk, LeftoverIndex, FreeSlotFrom, Lookup, SlotAt, SlotsOf, IsDir, Allowed, Step, Next;
    }
    hide SentinelDisk, LeftoverIndex, FreeSlotFrom, Lookup, SlotAt, SlotsOf, IsDir, Allowed, StepWalk, StepCreate,
      StepDelete, StepData;
  }

  lemma GivesUp(s: State, j: nat)
    requires Stands(s, NeedEntries(0, j), 1, 0)
    ensures Stands(Step(s, 0), Unlock(0, false, ""), 0, 1)
  {
    hide SentinelDisk, StepWalk, StepDelete, StepData;
  }

  lemma Leaves(s: State)
    requires Stands(s, Unlock(0, false, ""), 0, 1)
    ensures Stands(Step(s, 0), Finished(false, ""), 0, 1)
  {
    hide SentinelDisk, StepCreate, StepDelete, StepData;
  }

  lemma Then(s: State, sched: seq<int>, t: int)
    ensures Exec(s, sched + [t]) == Step(Exec(s, sched), t)
  {
    assert (sched + [t])[..|sched|] == sched;
  }

  /** The crowd comes first, then handler 0 walks to the root and looks for an entry. */
  function Come(): seq<int> {
    Crowd(CROWD) + [0] + [0] + [0] + [0]
  }

  /** One block was left when handler 0 came to create a file that the tree allows.  Its block has seven unused entries,
      yet it wants another one, and is refused. */
  lemma RefusedBesideUnusedEntries()
    ensures Initial(Rush()) && 0 in Rush().threads && Rush().threads[0].req == NEW_FILE
    ensures Allowed(NEW_FILE, SentinelDisk())
    ensures var s := Exec(Rush(), Crowd(CROWD));
      s.fs.d == SentinelDisk() && |s.free| == 1 && 0 in s.threads && s.threads[0].pc == Start
    ensures var s := Exec(Rush(), Come());
      && s.fs.d == SentinelDisk() && 0 in s.threads && s.threads[0].pc.NeedEntries? && s.threads[0].pc.target == 0
      && forall j :: 0 < j < FS_DIRENTRIES ==> SlotAt(s.fs.d, 0, 0, j).Unused?
    ensures var s := Exec(Rush(), Come() + [0] + [0]);
      s.fs.d == SentinelDisk() && 0 in s.threads && s.threads[0].pc == Finished(false, "")
  {
    RushInitial();
    NewFileAllowed();
    OverlooksEntries();
    CrowdRushes(CROWD);
    var c := Crowd(CROWD);
    var s := Exec(Rush(), c);
    assert s.fs.d == SentinelDisk() && |s.free| == 1 && 0 in s.threads && s.threads[0].pc == Start;
    assert 0 in Rush().threads && Rush().threads[0].req == NEW_FILE;
    hide *;
    Then(Rush(), c, 0);
    Then(Rush(), c + [0], 0);
    Then(Rush(), c + [0] + [0], 0);
    Comes(s);
    assert Come() == c + [0] + [0] + [0] + [0] by { ComeIs(); }
    Then(Rush(), c + [0] + [0] + [0], 0);
    var m := Exec(Rush(), Come());
    FindsNothing(Exec(Rush(), c + [0] + [0] + [0]));
    GivesUp(m, LeftoverIndex(SentinelDisk(), 0, 0, 0, 0));
    Leaves(Step(m, 0));
    Then(Rush(), Come(), 0);
    Then(Rush(), Come() + [0], 0);
    StandsAt(m, NeedEntries(0, LeftoverIndex(SentinelDisk(), 0, 0, 0, 0)), 1, 0);
    StandsAt(Exec(Rush(), Come() + [0] + [0]), Finished(false, ""), 0, 1);
  }

  lemma ComeIs()
    ensures Come() == Crowd(CROWD) + [0] + [0] + [0] + [0]
  {
  }

  lemma StandsAt(s: State, pc: Pc, held: nat, free: nat)
    requires Stands(s, pc, held, free)
    ensures s.fs.d == SentinelDisk() && 0 in s.threads && s.threads[0].pc == pc
  {
  }
}
