/** Runs of the pager, from its start, in which it does less than one might expect. */
module PagerLimits {
  import opened Common
  import opened PagerModel
  import opened PagerArenaProofs
  import opened PagerRuns

  lemma Then(s: State, steps: seq<Step>, st: Step)
    requires Sound(s)
    ensures Exec(s, steps + [st]).0 == Do(Exec(s, steps).0, st.op, st.env).0
    ensures Exec(s, steps + [st]).1 == Exec(s, steps).1 + [Do(Exec(s, steps).0, st.op, st.env).1]
  {
    hide Sound, Do;
    assert (steps + [st])[..|steps|] == steps;
  }

  /** What the runs below go by: who has which pages, who runs, and the swap accounting. */
  ghost predicate At(s: State, tables: map<int, seq<FileId>>, cur: Option<int>, curPid: int, swapFree: nat,
                     reservable: nat)
  {
    && Sound(s) && s.tables.Keys == tables.Keys && (forall p :: p in tables ==> s.tables[p].vps == tables[p])
    && s.cur == cur && s.curPid == curPid && |s.swapFree| == swapFree && s.reservable == reservable
  }

  lemma AtStart(s: State, memoryPages: nat, swapBlocks: nat)
    requires Initial(s, memoryPages, swapBlocks)
    ensures At(s, map[], None, s.curPid, swapBlocks, swapBlocks)
  {
    InitialInv(s, memoryPages, swapBlocks);
    hide Inv;
  }

  /** A process with `own` private pages forks. */
  lemma AtFork(s: State, tables: map<int, seq<FileId>>, cur: Option<int>, curPid: int, free: nat, reservable: nat,
               parent: int, child: int, env: Env)
    requires At(s, tables, cur, curPid, free, reservable) && child !in tables
    requires parent in tables ==> CountSwap(tables[parent]) <= reservable
    ensures At(Do(s, Fork(parent, child), env).0, tables[child := []], cur, curPid, free,
      reservable - if parent in tables then CountSwap(tables[parent]) else 0)
  {
    assert Inv(s) && s.gone == {};
    hide Inv, Effect, SwapBlocks, Tracked, SameContents, Content, Mapped, Id, TableOk;
    DoKeeps(s, Fork(parent, child), env);
    CreateKeeps(s, parent, child);
    if parent in s.tables { OccupiedIs(s, parent); }
  }

  lemma AtSwitch(s: State, tables: map<int, seq<FileId>>, cur: Option<int>, curPid: int, free: nat, reservable: nat,
                 pid: int, env: Env)
    requires At(s, tables, cur, curPid, free, reservable) && pid in tables
    ensures At(Do(s, Switch(pid), env).0, tables, if curPid == pid then cur else Some(pid), pid, free, reservable)
  {
    DoKeeps(s, Switch(pid), env);
    hide Inv, Effect;
  }

  lemma ExitIs(s: State, env: Env)
    requires Sound(s) && s.cur.Some?
    ensures s.cur.value in s.tables
    ensures var (t, own) := (Do(s, Exit, env).0, CountSwap(s.tables[s.cur.value].vps));
      && Sound(t) && t.tables == s.tables - {s.cur.value} && t.cur == None && t.curPid == s.curPid
      && |t.swapFree| == |s.swapFree| + own && t.reservable == s.reservable + own
  {
    ExitDoes(s, env);
    ExitPid(s);
    hide Inv, ExitCurrent, Do, SameFileFrames, SwapBlocks, CountSwap, Content, DropFirst;
    ExitKeeps(s);
  }

  lemma ExitDoes(s: State, env: Env)
    requires Sound(s) && s.cur.Some?
    ensures var d := DropFirst(s, s.cur.value, |Arena(s)|);
      d.cur == s.cur && s.cur.value in d.tables && Do(s, Exit, env).0 == ExitCurrent(s) == DropTable(d)
  {
    CurTable(s);
    DropFirstInv(s, s.cur.value, |Arena(s)|);
    hide Inv, DropFirst, DropTable;
  }

  lemma ExitPid(s: State)
    requires Sound(s) && s.cur.Some?
    ensures s.cur.value in s.tables && Arena(s) == s.tables[s.cur.value].vps
    ensures DropFirst(s, s.cur.value, |Arena(s)|).curPid == s.curPid
  {
    CurTable(s);
    DropFirstInv(s, s.cur.value, |Arena(s)|);
    hide Inv, DropFirst;
  }

  lemma AtExit(s: State, tables: map<int, seq<FileId>>, cur: int, free: nat, reservable: nat, env: Env)
    requires At(s, tables, Some(cur), cur, free, reservable)
    ensures cur in tables
    ensures At(Do(s, Exit, env).0, tables - {cur}, None, cur, free + CountSwap(tables[cur]),
      reservable + CountSwap(tables[cur]))
  {
    hide Do, Sound, CountSwap;
    ExitIs(s, env);
    assert (tables - {cur}).Keys == s.tables.Keys - {cur};
  }

  lemma AtMapPrivate(s: State, tables: map<int, seq<FileId>>, cur: int, free: nat, reservable: nat, env: Env)
    requires At(s, tables, Some(cur), cur, free, reservable)
    requires cur in tables && |tables[cur]| < MAX_PAGE_NUM && reservable > 0
    ensures free > 0 && s.swapFree != []
    ensures At(Do(s, MapPrivate, env).0, tables[cur := tables[cur] + [Swap(s.swapFree[0])]], Some(cur), cur, free - 1,
      reservable - 1)
  {
    DoKeeps(s, MapPrivate, env);
    CurMapped(s, 0);
    MapSwapKeeps(s);
    hide Inv, Effect;
  }

  // The same after a run.

  lemma RunFork(s: State, steps: seq<Step>, tables: map<int, seq<FileId>>, cur: Option<int>, curPid: int, free: nat,
                reservable: nat, parent: int, child: int, env: Env)
    requires Sound(s) && At(Exec(s, steps).0, tables, cur, curPid, free, reservable) && child !in tables
    requires parent in tables ==> CountSwap(tables[parent]) <= reservable
    ensures At(Exec(s, steps + [Step(Fork(parent, child), env)]).0, tables[child := []], cur, curPid, free,
      reservable - if parent in tables then CountSwap(tables[parent]) else 0)
  {
    hide *;
    Then(s, steps, Step(Fork(parent, child), env));
    AtFork(Exec(s, steps).0, tables, cur, curPid, free, reservable, parent, child, env);
  }

  lemma RunSwitch(s: State, steps: seq<Step>, tables: map<int, seq<FileId>>, cur: Option<int>, curPid: int, free: nat,
                  reservable: nat, pid: int, env: Env)
    requires Sound(s) && At(Exec(s, steps).0, tables, cur, curPid, free, reservable) && pid in tables
    ensures var now := if curPid == pid then cur else Some(pid);
      At(Exec(s, steps + [Step(Switch(pid), env)]).0, tables, now, pid, free, reservable)
  {
    hide *;
    Then(s, steps, Step(Switch(pid), env));
    AtSwitch(Exec(s, steps).0, tables, cur, curPid, free, reservable, pid, env);
  }

  lemma RunExit(s: State, steps: seq<Step>, tables: map<int, seq<FileId>>, cur: int, free: nat, reservable: nat,
                env: Env)
    requires Sound(s) && At(Exec(s, steps).0, tables, Some(cur), cur, free, reservable)
    ensures cur in tables
    ensures At(Exec(s, steps + [Step(Exit, env)]).0, tables - {cur}, None, cur, free + CountSwap(tables[cur]),
      reservable + CountSwap(tables[cur]))
  {
    hide *;
    Then(s, steps, Step(Exit, env));
    AtExit(Exec(s, steps).0, tables, cur, free, reservable, env);
  }

  lemma RunMapPrivate(s: State, steps: seq<Step>, tables: map<int, seq<FileId>>, cur: int, free: nat, reservable: nat,
                      env: Env) returns (id: FileId)
    requires Sound(s) && At(Exec(s, steps).0, tables, Some(cur), cur, free, reservable)
    requires cur in tables && |tables[cur]| < MAX_PAGE_NUM && reservable > 0
    ensures free > 0 && id.Swap?
    ensures At(Exec(s, steps + [Step(MapPrivate, env)]).0, tables[cur := tables[cur] + [id]], Some(cur), cur, free - 1,
      reservable - 1)
  {
    hide *;
    Then(s, steps, Step(MapPrivate, env));
    AtMapPrivate(Exec(s, steps).0, tables, cur, free, reservable, env);
    id := Swap(Exec(s, steps).0.swapFree[0]);
  }

  /** Process 1 is created and runs. */
  function Starts(env: Env): seq<Step> {
    [] + [Step(Fork(0, 1), env)] + [Step(Switch(1), env)]
  }

  /** And owns a page. */
  function OwnsOne(env: Env): seq<Step> {
    Starts(env) + [Step(MapPrivate, env)]
  }

  /** And forks. */
  function ForksOwner(env: Env): seq<Step> {
    OwnsOne(env) + [Step(Fork(1, 2), env)]
  }

  /** Or exits, and its pid is given to a new process and switched to. */
  function ComesBack(env: Env): seq<Step> {
    Starts(env) + [Step(Exit, env)] + [Step(Fork(0, 1), env)] + [Step(Switch(1), env)]
  }

  lemma Shapes(env: Env)
    ensures Starts(env) == [] + [Step(Fork(0, 1), env)] + [Step(Switch(1), env)]
    ensures OwnsOne(env) == Starts(env) + [Step(MapPrivate, env)]
    ensures ForksOwner(env) == OwnsOne(env) + [Step(Fork(1, 2), env)]
    ensures ComesBack(env) == Starts(env) + [Step(Exit, env)] + [Step(Fork(0, 1), env)] + [Step(Switch(1), env)]
    ensures CountSwap([]) == 0 && MAX_PAGE_NUM > 0
  {
  }

  lemma StartsSound(s: State, memoryPages: nat, swapBlocks: nat)
    requires Initial(s, memoryPages, swapBlocks)
    ensures Sound(s) && At(Exec(s, []).0, map[], None, s.curPid, swapBlocks, swapBlocks)
  {
    AtStart(s, memoryPages, swapBlocks);
    hide Inv;
  }

  lemma AtSound(s: State, tables: map<int, seq<FileId>>, cur: Option<int>, curPid: int, free: nat, reservable: nat)
    requires At(s, tables, cur, curPid, free, reservable)
    ensures Sound(s) && s.tables.Keys == tables.Keys && s.cur == cur && s.curPid == curPid
    ensures |s.swapFree| == free && s.reservable == reservable
  {
  }

  lemma StartsRun(s: State, memoryPages: nat, swapBlocks: nat, env: Env)
    requires Initial(s, memoryPages, swapBlocks) && s.curPid != 1
    ensures Sound(s) && At(Exec(s, Starts(env)).0, map[1 := []], Some(1), 1, swapBlocks, swapBlocks)
  {
    hide *;
    StartsSound(s, memoryPages, swapBlocks);
    Shapes(env);
    var none: map<int, seq<FileId>> := map[];
    assert none[1 := []] == map[1 := []];
    RunFork(s, [], none, None, s.curPid, swapBlocks, swapBlocks, 0, 1, env);
    RunSwitch(s, [] + [Step(Fork(0, 1), env)], map[1 := []], None, s.curPid, swapBlocks, swapBlocks, 1, env);
  }

  // ---------------------------------------------------------------- a pid that comes back at once

  /** A process is created, runs and exits; its pid is given to a new process and switched to.  The new process has an
      arena, and yet it is not installed. */
  lemma SwitchForgets(s: State, memoryPages: nat, swapBlocks: nat, env: Env)
    requires Initial(s, memoryPages, swapBlocks) && s.curPid != 1
    ensures Sound(s) && var t := Exec(s, ComesBack(env)).0; 1 in t.tables && t.cur == None && t.curPid == 1
  {
    hide *;
    StartsRun(s, memoryPages, swapBlocks, env);
    Shapes(env);
    var none: map<int, seq<FileId>> := map[];
    var one: map<int, seq<FileId>> := map[1 := []];
    assert one - {1} == none && none[1 := []] == one && one[1] == [];
    var c3 := Starts(env) + [Step(Exit, env)];
    RunExit(s, Starts(env), one, 1, swapBlocks, swapBlocks, env);
    RunFork(s, c3, none, None, 1, swapBlocks, swapBlocks, 0, 1, env);
    RunSwitch(s, c3 + [Step(Fork(0, 1), env)], one, None, 1, swapBlocks, swapBlocks, 1, env);
    AtSound(Exec(s, ComesBack(env)).0, one, None, 1, swapBlocks, swapBlocks);
  }

  // ---------------------------------------------------------------- reservations that a fork uses up

  lemma ForksOwnerRun(s: State, memoryPages: nat, swapBlocks: nat, env: Env) returns (tables: map<int, seq<FileId>>)
    requires Initial(s, memoryPages, swapBlocks) && s.curPid != 1 && swapBlocks >= 2
    ensures Sound(s) && At(Exec(s, ForksOwner(env)).0, tables, Some(1), 1, swapBlocks - 1, swapBlocks - 2)
  {
    hide *;
    StartsRun(s, memoryPages, swapBlocks, env);
    Shapes(env);
    var one: map<int, seq<FileId>> := map[1 := []];
    var id := RunMapPrivate(s, Starts(env), one, 1, swapBlocks, swapBlocks, env);
    var own := one[1 := one[1] + [id]];
    OnePage(own[1], id);
    RunFork(s, OwnsOne(env), own, Some(1), 1, swapBlocks - 1, swapBlocks - 1, 1, 2, env);
    tables := own[2 := []];
  }

  /** A process with one private page forks: one swap block more is free than may be reserved.  With two blocks in all,
      the next private page is refused although a block is free. */
  lemma ForkLosesReservations(s: State, memoryPages: nat, swapBlocks: nat, env: Env)
    requires Initial(s, memoryPages, swapBlocks) && s.curPid != 1 && swapBlocks >= 2
    ensures Sound(s)
    ensures var (t, es) := Exec(s, ForksOwner(env));
      && |t.swapFree| == t.reservable + 1 && ForkedPages(es) == 1
      && (swapBlocks == 2 ==> t.swapFree != [] && Do(t, MapPrivate, env) == (t, Other))
  {
    hide *;
    var tables := ForksOwnerRun(s, memoryPages, swapBlocks, env);
    var t := Exec(s, ForksOwner(env)).0;
    AtSound(t, tables, Some(1), 1, swapBlocks - 1, swapBlocks - 2);
    GapOf(s, memoryPages, swapBlocks, ForksOwner(env));
    if swapBlocks == 2 { Refused(t, env); }
  }

  lemma GapOf(s: State, memoryPages: nat, swapBlocks: nat, steps: seq<Step>)
    requires Initial(s, memoryPages, swapBlocks)
    ensures Sound(s)
    ensures var (t, es) := Exec(s, steps); |t.swapFree| - t.reservable == ForkedPages(es)
  {
    hide *;
    FlatMemory(s, memoryPages, swapBlocks, steps);
    Gap(Exec(s, steps).0, Exec(s, steps).1, s.disk);
  }

  lemma OnePage(vps: seq<FileId>, id: FileId)
    requires vps == [] + [id] && id.Swap?
    ensures CountSwap(vps) == 1
  {
    assert vps[..0] == [];
  }

  lemma Gap(t: State, es: seq<Event>, disk: map<FileId, Page>)
    requires FlatAt(t, es, disk)
    ensures |t.swapFree| - t.reservable == ForkedPages(es)
  {
  }

  lemma Refused(t: State, env: Env)
    requires Sound(t) && t.cur.Some? && t.reservable == 0
    ensures Do(t, MapPrivate, env) == (t, Other)
  {
    hide Inv;
  }
}
