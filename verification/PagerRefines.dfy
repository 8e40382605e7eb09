/** The pager of frames, tables, entries and sharing maps does in every run exactly what the one of PagerReference does:
    which blocks are in memory, in which order the clock will come to them, what is written to the disk, what every
    process maps, and what every load returns. */
module PagerRefines {
  import opened Common
  import opened PagerModel
  import opened PagerProofs
  import opened PagerArenaProofs
  import opened PagerRuns
  import opened PagerReference

  // ---------------------------------------------------------------- what a state of the pager stands for

  /** What frame `f` holds. */
  function SlotOf(s: State, f: nat): Slot {
    if f < |s.frames| && f < |s.mem| then Slot(s.frames[f].id, s.frames[f].referenced, s.frames[f].dirty, s.mem[f])
    else Slot(Swap(0), false, false, ZeroPage())
  }

  function SlotsOf(s: State, clock: seq<nat>): seq<Slot> {
    seq(|clock|, i requires 0 <= i < |clock| => SlotOf(s, clock[i]))
  }

  function Zeros(inPhys: map<FileId, nat>): set<FileId> {
    set id | id in inPhys && inPhys[id] == 0
  }

  function CacheOf(s: State): Cache {
    Cache(SlotsOf(s, s.clock), |s.free|, Zeros(s.inPhys), s.disk)
  }

  function BooksOf(s: State): Books {
    Books(map p | p in s.tables :: s.tables[p].vps, s.cur, s.curPid, s.swapFree, s.reservable)
  }

  function RefOf(s: State): Ref {
    Ref(CacheOf(s), BooksOf(s))
  }

  // ---------------------------------------------------------------- what the cache shows

  lemma {:induction false} PageInNone(slots: seq<Slot>, zero: set<FileId>, disk: map<FileId, Page>, id: FileId)
    requires forall i :: 0 <= i < |slots| ==> slots[i].id != id
    ensures PageIn(slots, zero, disk, id) == if id in zero then ZeroPage() else Backing(disk, id)
  {
    if slots != [] { PageInNone(slots[1..], zero, disk, id); }
  }

  lemma {:induction false} PageInAt(slots: seq<Slot>, zero: set<FileId>, disk: map<FileId, Page>, id: FileId, i: nat)
    requires i < |slots| && slots[i].id == id && forall j :: 0 <= j < i ==> slots[j].id != id
    ensures PageIn(slots, zero, disk, id) == slots[i].page
  {
    if i > 0 { PageInAt(slots[1..], zero, disk, id, i - 1); }
  }

  /** The blocks in the cache are those on frames, each in one slot. */
  lemma ResidentIs(s: State, id: FileId)
    requires FramesOk(s) && InverseOk(s)
    ensures Resident(CacheOf(s), id) <==> id in s.inPhys && s.inPhys[id] != 0
    ensures forall i :: 0 <= i < |s.clock| ==>
      && s.clock[i] < |s.frames| && s.frames[s.clock[i]].id in s.inPhys
      && s.inPhys[s.frames[s.clock[i]].id] == s.clock[i] && CacheOf(s).slots[i].id == s.frames[s.clock[i]].id
    ensures forall i, j :: 0 <= i < j < |s.clock| ==> CacheOf(s).slots[i].id != CacheOf(s).slots[j].id
  {
    forall i | 0 <= i < |s.clock|
      ensures s.clock[i] < |s.frames| && s.frames[s.clock[i]].id in s.inPhys
      ensures s.inPhys[s.frames[s.clock[i]].id] == s.clock[i]
    {
      assert s.clock[i] in s.clock;
    }
    if Resident(CacheOf(s), id) {
      var i :| 0 <= i < |s.clock| && CacheOf(s).slots[i].id == id;
      assert s.clock[i] in s.clock;
    }
    if id in s.inPhys && s.inPhys[id] != 0 {
      var i :| 0 <= i < |s.clock| && s.clock[i] == s.inPhys[id];
      assert CacheOf(s).slots[i].id == id;
    }
  }

  /** The cache shows the flat memory. */
  lemma ShownIs(s: State, id: FileId)
    requires Inv(s)
    ensures Shown(CacheOf(s), id) == Content(s, id)
  {
    ResidentIs(s, id);
    var c := CacheOf(s);
    assert FramesOk(s) && InverseOk(s) && MemOk(s);
    hide Inv;
    if Resident(c, id) {
      var i :| 0 <= i < |c.slots| && c.slots[i].id == id;
      PageInAt(c.slots, c.zero, c.disk, id, i);
    } else {
      PageInNone(c.slots, c.zero, c.disk, id);
    }
  }

  // ---------------------------------------------------------------- making room

  lemma TurnIs(s: State)
    requires FramesOk(s) && ClockReady(s) && s.free == [] && s.frames[s.clock[0]].referenced
    ensures MakeRoom(CacheOf(SecondChance(s))) == MakeRoom(CacheOf(s))
  {
    var (c, t) := (CacheOf(s), SecondChance(s));
    assert s.clock[0] in s.clock;
    forall i | 0 <= i < |s.clock| ensures s.clock[i] < |s.frames| && (i > 0 ==> s.clock[i] != s.clock[0]) {
      assert s.clock[i] in s.clock;
    }
    assert CacheOf(t).slots == c.slots[1..] + [c.slots[0].(referenced := false)];
  }

  lemma EvictIs(s: State)
    requires FramesOk(s) && InverseOk(s) && ClockReady(s) && s.free == [] && !s.frames[s.clock[0]].referenced
    ensures CacheOf(Evict(s)) == MakeRoom(CacheOf(s))
  {
    var (c, t) := (CacheOf(s), Evict(s));
    assert s.clock[0] in s.clock;
    forall i | 0 <= i < |s.clock| ensures s.clock[i] < |s.frames| && (i > 0 ==> s.clock[i] != s.clock[0]) {
      assert s.clock[i] in s.clock;
    }
    assert CacheOf(t).slots == c.slots[1..];
    assert Zeros(t.inPhys) == Zeros(s.inPhys);
  }

  lemma TurnOfRun(s: State, k: nat)
    requires Inv(s) && s.free == [] && k < FirstUnreferenced(s.frames, s.clock)
    ensures MakeRoom(CacheOf(Chances(s, k + 1))) == MakeRoom(CacheOf(Chances(s, k)))
  {
    HandAt(s, k);
    assert FramesOk(Chances(s, k));
    assert Chances(s, k + 1) == SecondChance(Chances(s, k));
    hide *;
    TurnIs(Chances(s, k));
  }

  lemma {:induction false} ChancesAre(s: State, k: nat)
    requires Inv(s) && s.free == [] && k <= FirstUnreferenced(s.frames, s.clock)
    ensures MakeRoom(CacheOf(Chances(s, k))) == MakeRoom(CacheOf(s))
  {
    hide Inv, CacheOf, MakeRoom, SecondChance;
    if k > 0 {
      ChancesAre(s, k - 1);
      TurnOfRun(s, k - 1);
    }
  }

  /** The loop over the clock queue makes room as the cache does. */
  lemma GetFreeIs(s: State)
    requires Inv(s)
    ensures CacheOf(GetFree(s)) == MakeRoom(CacheOf(s))
  {
    if s.free == [] {
      var k := FirstUnreferenced(s.frames, s.clock);
      HandAt(s, k);
      ChancesAre(s, k);
      assert FramesOk(Chances(s, k)) && InverseOk(Chances(s, k));
      hide Inv, FramesOk, InverseOk, CacheOf, MakeRoom, Evict;
      EvictIs(Chances(s, k));
    }
  }

  // ---------------------------------------------------------------- one access

  lemma SameSlots(s: State, t: State)
    requires FramesOk(s) && t.clock == s.clock && |t.frames| == |s.frames| && |t.mem| == |s.mem|
    requires forall f :: f in s.clock ==>
      f < |s.frames| && f < |s.mem| && t.frames[f] == s.frames[f] && t.mem[f] == s.mem[f]
    ensures CacheOf(t).slots == CacheOf(s).slots
  {
    forall i | 0 <= i < |s.clock| ensures SlotOf(t, s.clock[i]) == SlotOf(s, s.clock[i]) {
      assert s.clock[i] in s.clock;
    }
  }

  /** `t` is `s` with the first free frame taken for `id`. */
  lemma FillIs(s: State, t: State, id: FileId, data: Page, write: bool)
    requires FramesOk(s) && s.free != [] && s.free[0] < |s.frames|
    requires t.free == s.free[1..] && t.clock == s.clock + [s.free[0]]
    requires t.frames == s.frames[s.free[0] := Frame(write, true, id)]
    requires t.mem == s.mem[s.free[0] := data] && t.disk == s.disk && t.inPhys == s.inPhys[id := s.free[0]]
    ensures var c := CacheOf(s);
      CacheOf(t) == c.(slots := c.slots + [Slot(id, true, write, data)], room := c.room - 1, zero := c.zero - {id})
  {
    assert s.free[0] in s.free;
    var u := t.(clock := s.clock);
    SameSlots(s, u);
    assert CacheOf(t).slots == CacheOf(u).slots + [SlotOf(t, s.free[0])];
    assert Zeros(t.inPhys) == Zeros(s.inPhys) - {id};
  }

  /** `t` is `s` with the frame of `id` marked. */
  lemma MarkIs(s: State, t: State, id: FileId, write: bool)
    requires FramesOk(s) && InverseOk(s) && id in s.inPhys && s.inPhys[id] < |s.frames| && s.inPhys[id] != 0
    requires t.free == s.free && t.clock == s.clock && t.mem == s.mem && t.disk == s.disk && t.inPhys == s.inPhys
    requires var f := s.inPhys[id]; t.frames == s.frames[f := Frame(s.frames[f].dirty || write, true, s.frames[f].id)]
    ensures CacheOf(t) == CacheOf(s).(slots := Marked(CacheOf(s).slots, id, write))
  {
    ResidentIs(s, id);
    assert CacheOf(t).slots == Marked(CacheOf(s).slots, id, write);
  }

  /** An access that the entry permits finds the frame marked already. */
  lemma PermittedIs(s: State, vpn: nat, write: bool)
    requires Ready(s) && Allowed(s, vpn, write)
    ensures vpn < |Arena(s)|
    ensures var (c, id) := (CacheOf(s), Arena(s)[vpn]);
      if Resident(c, id) then Marked(c.slots, id, write) == c.slots else id in c.zero && !write
  {
    CurMapped(s, vpn);
    EnabledContent(s, vpn);
    var id := Arena(s)[vpn];
    ResidentIs(s, id);
    assert FramesOk(s) && InverseOk(s);
    hide Inv;
    if Resident(CacheOf(s), id) {
      assert Marked(CacheOf(s).slots, id, write) == CacheOf(s).slots;
    }
  }

  /** What a page that needs a frame is filled with. */
  ghost function DataFor(s: State, g: State, v: VPage): Page
    requires Mapped(s, v) && HasEntry(s.tables, v)
  {
    if Id(s, v) in s.inPhys && Ent(s.tables, v).ppage < |g.mem| then g.mem[Ent(s.tables, v).ppage]
    else Backing(g.disk, Id(s, v))
  }

  lemma NeedsFrame(s: State, v: VPage, write: bool)
    requires Inv(s) && Mapped(s, v) && HasEntry(s.tables, v)
    requires Id(s, v) !in s.inPhys || (write && Ent(s.tables, v).ppage == 0)
    ensures var g := GetFree(s);
      && Inv(g) && g.free != [] && g.free[0] < |g.frames| == |g.mem| && FramesOk(g)
      && Mapped(g, v) && HasEntry(g.tables, v) && Id(g, v) == Id(s, v)
      && Fillable(g, v, DataFor(s, g, v), write) && CacheOf(g) == MakeRoom(CacheOf(s))
      && DataFor(s, g, v) == if Id(s, v) in Zeros(s.inPhys) then ZeroPage() else Backing(g.disk, Id(s, v))
    ensures !Resident(CacheOf(s), Id(s, v)) && (Id(s, v) in Zeros(s.inPhys) ==> write)
    ensures Id(s, v) in s.inPhys <==> Id(s, v) in Zeros(s.inPhys)
  {
    GetFreeKeeps(s);
    GetFreeEntry(s, v);
    GetFreeIs(s);
    ResidentIs(s, Id(s, v));
    ZeroFrame(s, GetFree(s), v, Id(s, v));
    hide FramesOk, InverseOk, PeersOk, BitsOk, TablesOk, SwapOk, GetFree, CacheOf, MakeRoom, SameArenas, SameContents;
  }

  lemma FilledIs(s: State, v: VPage, write: bool, env: Env)
    requires Inv(s) && Mapped(s, v) && HasEntry(s.tables, v)
    requires Id(s, v) !in s.inPhys || (write && Ent(s.tables, v).ppage == 0)
    requires !ReadFails(s, Id(s, v), env)
    ensures GetFree(s).free != [] && GetFree(s).free[0] < |GetFree(s).frames| == |GetFree(s).mem|
    ensures Mapped(GetFree(s), v) && HasEntry(GetFree(s).tables, v)
    ensures (CacheOf(Fill(GetFree(s), v, DataFor(s, GetFree(s), v), write)), true) ==
      Refer(CacheOf(s), Id(s, v), write, env)
  {
    NeedsFrame(s, v, write);
    var g := GetFree(s);
    var data := DataFor(s, g, v);
    hide Inv, FramesOk, GetFree, MakeRoom, DataFor, Fill, SameArenas, SameContents, Resident, Fillable;
    FillKeeps(g, v, data, write);
    FillIs(g, Fill(g, v, data, write), Id(s, v), data, write);
    hide SlotOf;
  }

  lemma FailedIs(s: State, v: VPage, write: bool, env: Env)
    requires Inv(s) && Mapped(s, v) && HasEntry(s.tables, v) && ReadFails(s, Id(s, v), env)
    ensures GetFree(s).free != [] && GetFree(s).free[0] < |GetFree(s).mem|
    ensures var g := GetFree(s);
      (CacheOf(g.(mem := g.mem[g.free[0] := env.garbage])), false) == Refer(CacheOf(s), Id(s, v), write, env)
  {
    NeedsFrame(s, v, write);
    var g := GetFree(s);
    assert g.free[0] in g.free;
    SameSlots(g, g.(mem := g.mem[g.free[0] := env.garbage]));
    hide Inv, FramesOk, GetFree, MakeRoom, Resident, Fillable, SlotOf;
  }

  /** Every access is a reference to the block behind the page. */
  lemma AccessIs(s: State, vpn: nat, write: bool, env: Env)
    requires Ready(s) && vpn < |Arena(s)|
    ensures var (t, ok) := Access(s, vpn, write, env);
      (CacheOf(t), ok) == Refer(CacheOf(s), Arena(s)[vpn], write, env)
  {
    var v := Cur(s, vpn);
    CurMapped(s, vpn);
    if Allowed(s, vpn, write) {
      hide Inv, CacheOf;
      PermittedIs(s, vpn, write);
    } else {
      FaultIs(s, vpn, write, env);
    }
  }

  lemma FaultIs(s: State, vpn: nat, write: bool, env: Env)
    requires Ready(s) && vpn < |Arena(s)| && !Allowed(s, vpn, write)
    ensures var (t, ok) := Fault(s, vpn, write, env);
      (CacheOf(t), ok) == Refer(CacheOf(s), Arena(s)[vpn], write, env)
  {
    var v := Cur(s, vpn);
    CurMapped(s, vpn);
    var id := Id(s, v);
    if id !in s.inPhys || (write && Ent(s.tables, v).ppage == 0) {
      FaultFillsIs(s, vpn, write, env);
    } else {
      ResidentIs(s, id);
      assert FramesOk(s) && InverseOk(s);
      hide FramesOk, InverseOk, PeersOk, BitsOk, TablesOk, SwapOk, MemOk, Touch, CacheOf, SameArenas, SameContents;
      TouchKeeps(s, v, write);
      MarkIs(s, Touch(s, v, write), id, write);
    }
  }

  lemma FaultFillsIs(s: State, vpn: nat, write: bool, env: Env)
    requires Ready(s) && vpn < |Arena(s)|
    requires Arena(s)[vpn] !in s.inPhys || (write && s.inPhys[Arena(s)[vpn]] == 0)
    ensures var (t, ok) := Fault(s, vpn, write, env);
      (CacheOf(t), ok) == Refer(CacheOf(s), Arena(s)[vpn], write, env)
  {
    var v := Cur(s, vpn);
    CurMapped(s, vpn);
    GetFreeKeeps(s);
    GetFreeEntry(s, v);
    hide FramesOk, InverseOk, PeersOk, BitsOk, TablesOk, SwapOk, MemOk, GetFree, CacheOf, Fill, SameArenas,
      SameContents, Refer;
    if ReadFails(s, Id(s, v), env) { FailedIs(s, v, write, env); } else { FilledIs(s, v, write, env); }
  }

  lemma SameBooks(s: State, t: State)
    requires SameArenas(s, t)
    ensures BooksOf(t) == BooksOf(s)
  {
    var (a, b) := (BooksOf(s).arenas, BooksOf(t).arenas);
    assert a.Keys == s.tables.Keys && b.Keys == t.tables.Keys;
    forall p | p in a ensures a[p] == b[p] {
      assert p in s.tables && p in t.tables;
    }
  }

  // ---------------------------------------------------------------- loads, stores and names

  lemma LoadIs(s: State, a: nat, env: Env)
    requires Ready(s) && a / VM_PAGESIZE < |Arena(s)|
    ensures var ((t, b), id) := (Load(s, a, env), Arena(s)[a / VM_PAGESIZE]);
      && (CacheOf(t), b.Some?) == Refer(CacheOf(s), id, false, env)
      && (b.Some? ==> b.value == Shown(CacheOf(t), id)[a % VM_PAGESIZE])
  {
    AccessIs(s, a / VM_PAGESIZE, false, env);
    LoadKeeps(s, a, env);
    LoadAccess(s, a, env);
    var (t, b) := Load(s, a, env);
    var id := Arena(s)[a / VM_PAGESIZE];
    AccessKeeps(s, a / VM_PAGESIZE, false, env);
    ShownIs(t, id);
    assert SameContents(s, t);
    assert Content(t, id) == Content(s, id) by { hide Content; }
    hide Inv, CacheOf, Refer, Access, Content, SameContents, SameArenas, Shown;
  }

  lemma PutIs(s: State, v: VPage, offset: nat, b: Byte)
    requires Inv(s) && Mapped(s, v) && HasEntry(s.tables, v) && Ent(s.tables, v).writeEnable && offset < VM_PAGESIZE
    ensures Ent(s.tables, v).ppage < |s.mem|
    ensures CacheOf(PokeByte(s, v, offset, b)) == Put(CacheOf(s), Id(s, v), offset, b)
  {
    assert EntryOk(s, Id(s, v), Ent(s.tables, v));
    ResidentIs(s, Id(s, v));
    assert FramesOk(s) && InverseOk(s);
    hide Inv;
    assert CacheOf(PokeByte(s, v, offset, b)).slots == Put(CacheOf(s), Id(s, v), offset, b).slots;
  }

  lemma StoreIs(s: State, a: nat, b: Byte, env: Env)
    requires Ready(s) && a / VM_PAGESIZE < |Arena(s)|
    ensures var ((t, ok), id) := (Store(s, a, b, env), Arena(s)[a / VM_PAGESIZE]);
      var (c, yes) := Refer(CacheOf(s), id, true, env);
      ok == yes && CacheOf(t) == if ok then Put(c, id, a % VM_PAGESIZE, b) else c
  {
    var vpn := a / VM_PAGESIZE;
    AccessIs(s, vpn, true, env);
    AccessKeeps(s, vpn, true, env);
    var (t, ok) := Access(s, vpn, true, env);
    if ok {
      CurMapped(t, vpn);
      EnabledContent(t, vpn);
      hide FramesOk, InverseOk, PeersOk, BitsOk, TablesOk, SwapOk, MemOk, CacheOf, Refer, Access, Put;
      PutIs(t, Cur(t, vpn), a % VM_PAGESIZE, b);
    }
  }

  lemma {:induction false} NameIs(s: State, a: nat, env: Env)
    requires Ready(s)
    ensures var (t, name) := Scan(s, a, env); (CacheOf(t), name) == ReadName(CacheOf(s), Arena(s), a, env)
    decreases |Arena(s)| * VM_PAGESIZE - a
  {
    hide Inv, Load, CacheOf, Refer, Shown, Content, SameContents, SameArenas;
    if a / VM_PAGESIZE < |Arena(s)| {
      LoadKeeps(s, a, env);
      LoadIs(s, a, env);
      var (t, b) := Load(s, a, env);
      if b.Some? && b.value != 0 { NameIs(t, a + 1, env); }
    }
  }

  // ---------------------------------------------------------------- processes and new pages

  lemma MapIs(s: State)
    requires Ready(s) && |Arena(s)| < MAX_PAGE_NUM && s.reservable > 0
    ensures s.cur.value in s.tables && s.swapFree != [] && |Arena(s)| < |s.tables[s.cur.value].ptbr|
    ensures (RefOf(MapSwap(s)), Fresh(Swap(s.swapFree[0]))) == MapStep(RefOf(s), s.cur.value)
  {
    CurTable(s);
    MapSwapKeeps(s);
    var t := MapSwap(s);
    assert FramesOk(s);
    hide Inv;
    SameSlots(s, t) by {
      forall f | f in s.clock ensures f < |s.frames| {}
    }
    assert Zeros(t.inPhys) == Zeros(s.inPhys) + {Swap(s.swapFree[0])};
    assert BooksOf(t).arenas == BooksOf(s).arenas[s.cur.value := Arena(s) + [Swap(s.swapFree[0])]];
  }

  lemma MappedIs(s: State, id: FileId)
    requires s.cur.Some? && s.cur.value in s.tables && |s.tables[s.cur.value].vps| < |s.tables[s.cur.value].ptbr|
    ensures var (b, p) := (BooksOf(s), s.cur.value);
      RefOf(MapFile(s, id)) == Ref(CacheOf(s), b.(arenas := b.arenas[p := b.arenas[p] + [id]]))
  {
    var (b, p) := (BooksOf(s), s.cur.value);
    assert CacheOf(MapFile(s, id)).slots == CacheOf(s).slots;
    assert BooksOf(MapFile(s, id)).arenas == b.arenas[p := b.arenas[p] + [id]];
  }

  lemma MapFileIs(s: State, a: nat, block: nat, env: Env)
    requires Ready(s)
    ensures s.cur.value in s.tables
    ensures RefOf(MapNamed(s, a, block, env).0) == MapFileStep(RefOf(s), s.cur.value, a, block, env)
  {
    CurTable(s);
    CurMapped(s, 0);
    if |Arena(s)| < MAX_PAGE_NUM {
      NameIs(s, a, env);
      ScanKeeps(s, a, env);
      var (t, name) := Scan(s, a, env);
      SameBooks(s, t);
      CurTable(t);
      assert BooksOf(s).arenas[s.cur.value] == Arena(s);
      hide FramesOk, InverseOk, PeersOk, BitsOk, TablesOk, SwapOk, MemOk, Scan, ReadName, SameContents, NameIn, NameAt,
        CacheOf, MapFile, BooksOf;
      if name.Some? {
        MapFileKeeps(t, File(name.value, block));
        MappedIs(t, File(name.value, block));
      }
    }
  }

  lemma ForkIs(s: State, parent: int, child: int, env: Env)
    requires Sound(s) && child !in s.tables
    ensures var ((t, e), (b, f)) := (Do(s, Fork(parent, child), env), ForkStep(BooksOf(s), parent, child));
      CacheOf(t) == CacheOf(s) && BooksOf(t) == b && e == f
  {
    CreateKeeps(s, parent, child);
    if parent in s.tables { OccupiedIs(s, parent); }
    var (t, e) := Do(s, Fork(parent, child), env);
    hide Inv, SameContents, CountSwap;
    if Create(s, parent, child).Some? {
      assert BooksOf(t).arenas == BooksOf(s).arenas[child := []];
    }
  }

  lemma SwitchIs(s: State, pid: int)
    ensures RefOf(SwitchTo(s, pid)) ==
      if s.curPid == pid then RefOf(s) else RefOf(s).(books := BooksOf(s).(cur := Some(pid), last := pid))
  {
    var t := SwitchTo(s, pid);
    assert CacheOf(t).slots == CacheOf(s).slots && BooksOf(t).arenas == BooksOf(s).arenas;
  }

  // ---------------------------------------------------------------- exits

  lemma {:induction false} KeptNone(slots: seq<Slot>)
    ensures Kept(slots, []) == slots
  {
    if slots != [] {
      KeptNone(slots[..|slots| - 1]);
      assert slots == slots[..|slots| - 1] + [slots[|slots| - 1]];
    }
  }

  /** The slots of another page more are left out. */
  lemma {:induction false} KeptMore(slots: seq<Slot>, vps: seq<FileId>, id: FileId)
    ensures Kept(slots, vps + [id]) == Kept(Kept(slots, vps), [id])
  {
    if slots != [] {
      var (front, last) := (slots[..|slots| - 1], slots[|slots| - 1]);
      KeptMore(front, vps, id);
      assert last.id in vps + [id] <==> last.id in vps || last.id == id;
      if last.id.Swap? && last.id in vps {
        assert Kept(slots, vps) == Kept(front, vps);
      } else {
        var kept := Kept(front, vps) + [last];
        assert kept == Kept(slots, vps);
        assert kept[..|kept| - 1] == Kept(front, vps) && kept[|kept| - 1] == last;
      }
    }
  }

  /** Leaving out a frame of the clock queue leaves out its slot. */
  lemma SlotsMore(s: State, clock: seq<nat>, f: nat)
    ensures SlotsOf(s, clock + [f]) == SlotsOf(s, clock) + [SlotOf(s, f)]
  {
  }

  lemma KeptLast(slots: seq<Slot>, last: Slot, vps: seq<FileId>)
    ensures Kept(slots + [last], vps) == Kept(slots, vps) + if last.id.Swap? && last.id in vps then [] else [last]
  {
    assert (slots + [last])[..|slots|] == slots;
  }

  /** Taking a frame out of the clock queue leaves out its slot and keeps the order of the others. */
  lemma {:induction false} RemovedIs(s: State, clock: seq<nat>, f: nat, id: FileId)
    requires NoDup(clock) && id.Swap? && (forall g :: g in clock ==> (SlotOf(s, g).id == id <==> g == f))
    ensures SlotsOf(s, RemoveFirst(clock, f)) == Kept(SlotsOf(s, clock), [id])
  {
    if clock != [] {
      var (front, last) := (clock[..|clock| - 1], clock[|clock| - 1]);
      assert clock == front + [last] && last in clock;
      FrontSlots(s, clock, f, id);
      hide *;
      RemovedIs(s, front, f, id);
      RemoveLast(front, last, f);
      SlotsMore(s, front, last);
      SlotsMore(s, RemoveFirst(front, f), last);
      KeptLast(SlotsOf(s, front), SlotOf(s, last), [id]);
    } else {
      assert RemoveFirst(clock, f) == [];
      assert SlotsOf(s, []) == [] == Kept([], [id]);
    }
  }

  lemma FrontSlots(s: State, clock: seq<nat>, f: nat, id: FileId)
    requires clock != [] && NoDup(clock) && id.Swap? && forall g :: g in clock ==> (SlotOf(s, g).id == id <==> g == f)
    ensures var (front, last) := (clock[..|clock| - 1], clock[|clock| - 1]);
      && NoDup(front) && (forall g :: g in front ==> (SlotOf(s, g).id == id <==> g == f))
      && (SlotOf(s, last).id in [id] <==> last == f)
      && (last == f ==> Kept(SlotsOf(s, front), [id]) == SlotsOf(s, front))
  {
    var (front, last) := (clock[..|clock| - 1], clock[|clock| - 1]);
    assert last in clock;
    forall g | g in front ensures g in clock && g != last {
      var i :| 0 <= i < |front| && front[i] == g;
      assert clock[i] == g;
    }
    hide SlotOf, SlotsOf, Kept;
    if last == f { KeptAll(s, front, id); }
  }

  lemma {:induction false} KeptAll(s: State, clock: seq<nat>, id: FileId)
    requires forall g :: g in clock ==> SlotOf(s, g).id != id
    ensures Kept(SlotsOf(s, clock), [id]) == SlotsOf(s, clock)
  {
    if clock != [] {
      var (front, last) := (clock[..|clock| - 1], clock[|clock| - 1]);
      assert clock == front + [last] && last in clock;
      KeptAll(s, front, id);
      SlotsMore(s, front, last);
      KeptLast(SlotsOf(s, front), SlotOf(s, last), [id]);
      hide SlotsOf, SlotOf, Kept;
    }
  }

  lemma {:induction false} RemoveLast(front: seq<nat>, last: nat, f: nat)
    requires NoDup(front + [last])
    ensures RemoveFirst(front + [last], f) == if last == f then front else RemoveFirst(front, f) + [last]
  {
    var q := front + [last];
    assert q[|front|] == last;
    if front != [] && q[0] != f {
      assert q[1..] == front[1..] + [last];
      assert NoDup(q[1..]);
      RemoveLast(front[1..], last, f);
      assert front == [front[0]] + front[1..];
    } else if front != [] {
      assert q[1..] == front[1..] + [last];
    }
  }

  /** `d` is `c` without the private blocks of `vps`. */
  ghost predicate Leaves(c: Cache, d: Cache, vps: seq<FileId>) {
    && d.slots == Kept(c.slots, vps) && d.room + |d.slots| == c.room + |c.slots|
    && d.zero == c.zero && d.disk == c.disk
  }

  lemma DropIs(s: State, v: VPage)
    requires Inv(s) && Mapped(s, v)
    ensures HasEntry(s.tables, v) && (Id(s, v) in s.inPhys ==> Ent(s.tables, v).ppage < |s.frames|)
    ensures Leaves(CacheOf(s), CacheOf(DropPage(s, v)), [Id(s, v)])
  {
    DropPageKeeps(s, v);
    assert FramesOk(s) && InverseOk(s);
    hide Inv, FramesOk, InverseOk, CacheOf, Leaves, DropPage;
    if Id(s, v).Swap? && Id(s, v) in s.inPhys && s.inPhys[Id(s, v)] != 0 {
      DropsFrame(s, v);
    } else {
      DropsNoFrame(s, v);
    }
  }

  lemma DropsNoFrame(s: State, v: VPage)
    requires FramesOk(s) && InverseOk(s) && Mapped(s, v) && HasEntry(s.tables, v)
    requires !(Id(s, v).Swap? && Id(s, v) in s.inPhys && s.inPhys[Id(s, v)] != 0)
    requires Id(s, v) in s.inPhys ==> Ent(s.tables, v).ppage == s.inPhys[Id(s, v)] < |s.frames|
    ensures Leaves(CacheOf(s), CacheOf(DropPage(s, v)), [Id(s, v)])
  {
    KeptSame(s, Id(s, v));
    hide FramesOk, InverseOk, Kept;
    assert CacheOf(DropPage(s, v)).slots == CacheOf(s).slots;
  }

  lemma KeptSame(s: State, id: FileId)
    requires FramesOk(s) && InverseOk(s) && !(id.Swap? && id in s.inPhys && s.inPhys[id] != 0)
    ensures Kept(CacheOf(s).slots, [id]) == CacheOf(s).slots
  {
    if id.Swap? {
      forall g | g in s.clock ensures SlotOf(s, g).id != id { assert g < |s.frames|; }
      KeptAll(s, s.clock, id);
    } else {
      KeptFile(CacheOf(s).slots, id);
    }
  }

  lemma {:induction false} KeptFile(slots: seq<Slot>, id: FileId)
    requires id.File?
    ensures Kept(slots, [id]) == slots
  {
    if slots != [] {
      KeptFile(slots[..|slots| - 1], id);
      assert slots == slots[..|slots| - 1] + [slots[|slots| - 1]];
    }
  }

  lemma DropsFrame(s: State, v: VPage)
    requires FramesOk(s) && InverseOk(s) && Mapped(s, v) && HasEntry(s.tables, v)
    requires Id(s, v).Swap? && Id(s, v) in s.inPhys && s.inPhys[Id(s, v)] != 0
    requires Ent(s.tables, v).ppage == s.inPhys[Id(s, v)] < |s.frames|
    ensures Leaves(CacheOf(s), CacheOf(DropPage(s, v)), [Id(s, v)])
  {
    var (id, t) := (Id(s, v), DropPage(s, v));
    var f := s.inPhys[id];
    forall g | g in s.clock ensures SlotOf(s, g).id == id <==> g == f { assert g < |s.frames|; }
    RemovedIs(s, s.clock, f, id);
    RemoveFirstIs(s.clock, f);
    assert f in s.clock && t.clock == RemoveFirst(s.clock, f);
    assert SlotsOf(t, t.clock) == SlotsOf(s, t.clock) by {
      forall i | 0 <= i < |t.clock| ensures SlotOf(t, t.clock[i]) == SlotOf(s, t.clock[i]) {
        assert t.clock[i] in t.clock;
      }
    }
    assert Zeros(t.inPhys) == Zeros(s.inPhys);
  }

  lemma LeavesMore(c: Cache, d: Cache, e: Cache, vps: seq<FileId>, id: FileId)
    requires Leaves(c, d, vps) && Leaves(d, e, [id])
    ensures Leaves(c, e, vps + [id])
  {
    KeptMore(c.slots, vps, id);
  }

  lemma NextDropIs(s: State, p: int, n: nat)
    requires Inv(s) && s.gone == {} && p in s.tables && 0 < n <= |s.tables[p].vps|
    ensures Leaves(CacheOf(DropFirst(s, p, n - 1)), CacheOf(DropFirst(s, p, n)), [s.tables[p].vps[n - 1]])
  {
    hide Inv, DropPage, DropFirst, CacheOf, Leaves, HasEntry, Ent;
    DropFirstInv(s, p, n - 1);
    DropFirstInv(s, p, n);
    var (t, v) := (DropFirst(s, p, n - 1), VPage(p, n - 1));
    assert Mapped(t, v) && Id(t, v) == s.tables[p].vps[n - 1];
    hide *;
    DropIs(t, v);
  }

  lemma {:induction false} DropFirstIs(s: State, p: int, n: nat)
    requires Inv(s) && s.gone == {} && p in s.tables && n <= |s.tables[p].vps|
    ensures Leaves(CacheOf(s), CacheOf(DropFirst(s, p, n)), s.tables[p].vps[..n])
  {
    hide Inv, CacheOf, DropFirst, Leaves;
    if n == 0 {
      NoneLeave(s, p);
    } else {
      var vps := s.tables[p].vps;
      DropFirstIs(s, p, n - 1);
      NextDropIs(s, p, n);
      assert vps[..n] == vps[..n - 1] + [vps[n - 1]];
      LeavesMore(CacheOf(s), CacheOf(DropFirst(s, p, n - 1)), CacheOf(DropFirst(s, p, n)), vps[..n - 1], vps[n - 1]);
    }
  }

  lemma NoneLeave(s: State, p: int)
    ensures Leaves(CacheOf(s), CacheOf(DropFirst(s, p, 0)), [])
  {
    KeptNone(CacheOf(s).slots);
  }

  lemma ExitIs(s: State)
    requires Ready(s)
    ensures s.cur.value in s.tables && RefOf(ExitCurrent(s)) == ExitStep(RefOf(s), s.cur.value)
  {
    CurTable(s);
    ExitKeeps(s);
    var (p, vps) := (s.cur.value, Arena(s));
    assert vps[..|vps|] == vps;
    DropFirstIs(s, p, |vps|);
    DropFirstInv(s, p, |vps|);
    OccupiedIs(s, p);
    ExitBooks(s, DropFirst(s, p, |vps|), p);
    hide Inv, Kept, DropFirst, SwapBlocks, SameFileFrames, Content, SlotsOf, Zeros;
    assert ExitCurrent(s) == DropTable(DropFirst(s, p, |vps|));
  }

  lemma ExitBooks(s: State, d: State, p: int)
    requires d.tables == s.tables && d.cur == Some(p) && p in d.tables && d.curPid == s.curPid
    ensures CacheOf(DropTable(d)) == CacheOf(d)
    ensures BooksOf(DropTable(d)).arenas == BooksOf(s).arenas - {p}
    ensures var b := BooksOf(DropTable(d)); b.cur == None && b.last == s.curPid
  {
    assert SlotsOf(DropTable(d), d.clock) == SlotsOf(d, d.clock);
  }

  /** The frames behind the private pages that are in memory, in the order of the pages. */
  function FreedFrames(inPhys: map<FileId, nat>, vps: seq<FileId>): seq<nat> {
    if vps == [] then []
    else
      var last := vps[|vps| - 1];
      FreedFrames(inPhys, vps[..|vps| - 1]) +
        if last.Swap? && last in inPhys && inPhys[last] != 0 then [inPhys[last]] else []
  }

  lemma DropFrees(s: State, v: VPage)
    requires Mapped(s, v) && HasEntry(s.tables, v)
    requires Id(s, v) in s.inPhys ==> Ent(s.tables, v).ppage == s.inPhys[Id(s, v)] < |s.frames|
    ensures var (id, t) := (Id(s, v), DropPage(s, v));
      && t.free == s.free + (if id.Swap? && id in s.inPhys && s.inPhys[id] != 0 then [s.inPhys[id]] else [])
      && (forall i :: i != id ==> (i in t.inPhys <==> i in s.inPhys) && (i in s.inPhys ==> t.inPhys[i] == s.inPhys[i]))
  {
  }

  lemma OwnPages(s: State, p: int)
    requires Inv(s) && s.gone == {} && p in s.tables
    ensures forall i, j :: 0 <= i < j < |s.tables[p].vps| && s.tables[p].vps[i].Swap? ==>
      s.tables[p].vps[i] != s.tables[p].vps[j]
  {
    var vps := s.tables[p].vps;
    forall i, j | 0 <= i < j < |vps| && vps[i].Swap? ensures vps[i] != vps[j] {
      assert Mapped(s, VPage(p, i)) && Mapped(s, VPage(p, j));
      assert Id(s, VPage(p, i)) == vps[i] && Id(s, VPage(p, j)) == vps[j];
    }
    hide FramesOk, InverseOk, BitsOk, MemOk, PeersOk;
  }

  /** `inPhys` agrees with `other` on all blocks but those of `vps`. */
  ghost predicate SameBut(inPhys: map<FileId, nat>, other: map<FileId, nat>, vps: seq<FileId>) {
    forall id: FileId :: id !in vps ==>
      (id in inPhys <==> id in other) && (id in inPhys ==> inPhys[id] == other[id])
  }

  lemma NextFrees(s: State, p: int, n: nat)
    requires Inv(s) && s.gone == {} && p in s.tables && 0 < n <= |s.tables[p].vps|
    ensures var (t, u, id) := (DropFirst(s, p, n - 1), DropFirst(s, p, n), s.tables[p].vps[n - 1]);
      && u.free == t.free + (if id.Swap? && id in t.inPhys && t.inPhys[id] != 0 then [t.inPhys[id]] else [])
      && SameBut(t.inPhys, u.inPhys, [id])
  {
    hide Inv, DropPage, DropFirst, HasEntry, Ent;
    DropFirstInv(s, p, n - 1);
    DropFirstInv(s, p, n);
    var (t, v) := (DropFirst(s, p, n - 1), VPage(p, n - 1));
    assert Id(t, v) == s.tables[p].vps[n - 1];
    DropPageKeeps(t, v);
    DropFrees(t, v);
  }

  /** An exit puts the frames it frees at the back of the free queue, in the order of the pages. */
  lemma {:induction false} ExitFrees(s: State, p: int, n: nat)
    requires Inv(s) && s.gone == {} && p in s.tables && n <= |s.tables[p].vps|
    ensures var (t, vps) := (DropFirst(s, p, n), s.tables[p].vps[..n]);
      t.free == s.free + FreedFrames(s.inPhys, vps) && SameBut(s.inPhys, t.inPhys, vps)
  {
    hide Inv, DropFirst;
    if n == 0 {
      FreesNone(s, p);
    } else {
      var vps := s.tables[p].vps;
      ExitFrees(s, p, n - 1);
      OwnPages(s, p);
      NextFrees(s, p, n);
      assert vps[..n] == vps[..n - 1] + [vps[n - 1]];
      FreedMore(s.inPhys, DropFirst(s, p, n - 1).inPhys, DropFirst(s, p, n).inPhys, vps[..n - 1], vps[n - 1]);
    }
  }

  lemma FreedMore(a: map<FileId, nat>, b: map<FileId, nat>, c: map<FileId, nat>, vps: seq<FileId>, id: FileId)
    requires SameBut(a, b, vps) && SameBut(b, c, [id]) && (id.Swap? ==> id !in vps)
    ensures SameBut(a, c, vps + [id])
    ensures FreedFrames(a, vps + [id]) ==
      FreedFrames(a, vps) + if id.Swap? && id in b && b[id] != 0 then [b[id]] else []
  {
    assert (vps + [id])[..|vps|] == vps;
  }

  lemma FreesNone(s: State, p: int)
    ensures DropFirst(s, p, 0) == s
  {
  }

  // ---------------------------------------------------------------- runs

  lemma AccessStepIs(s: State, op: Op, env: Env)
    requires Ready(s) && (op.LoadByte? || op.StoreByte?)
    ensures s.cur.value in s.tables
    ensures var (t, e) := Do(s, op, env); (RefOf(t), e) == AccessStep(RefOf(s), s.cur.value, op, env)
  {
    CurTable(s);
    var vpn := op.a / VM_PAGESIZE;
    assert BooksOf(s).arenas[s.cur.value] == Arena(s);
    if op.LoadByte? {
      LoadKeeps(s, op.a, env);
      if vpn < |Arena(s)| { LoadIs(s, op.a, env); }
      SameBooks(s, Load(s, op.a, env).0);
    } else {
      StoreKeeps(s, op.a, op.b, env);
      if vpn < |Arena(s)| { StoreIs(s, op.a, op.b, env); }
      SameBooks(s, Store(s, op.a, op.b, env).0);
    }
    UnmappedIs(s, op, env);
    hide Inv, Load, Store, CacheOf, BooksOf, Refer, Put, Shown, Content, SameContents, SameArenas;
  }

  lemma UnmappedIs(s: State, op: Op, env: Env)
    requires Ready(s) && (op.LoadByte? || op.StoreByte?)
    ensures op.a / VM_PAGESIZE >= |Arena(s)| ==> Do(s, op, env) == (s, Other)
  {
    CurMapped(s, op.a / VM_PAGESIZE);
    hide Inv;
  }

  /** Every operation in every state that the pager can be in is the operation of PagerReference. */
  lemma StepRefines(s: State, op: Op, env: Env)
    requires Sound(s)
    ensures var (t, e) := Do(s, op, env); (RefOf(t), e) == RefStep(RefOf(s), op, env)
  {
    SensibleIs(s, op);
    hide Inv, CacheOf, SwitchTo, MapStep, MapFileStep, ExitStep, AccessStep, ForkStep, MapNamed, Load, Store,
      ExitCurrent, Create, MapSwap, BooksOf;
    if Legal(s, op) {
      match op
      case Fork(parent, child) => ForkIs(s, parent, child, env);
      case Switch(pid) => SwitchIs(s, pid);
      case MapPrivate => MapPrivateIs(s, env);
      case MapFileBlock(nameAt, block) => MapFileIs(s, nameAt, block, env);
      case LoadByte(_) => AccessStepIs(s, op, env);
      case StoreByte(_, _) => AccessStepIs(s, op, env);
      case Exit => ExitIs(s);
    }
  }

  lemma SensibleIs(s: State, op: Op)
    requires Sound(s)
    ensures Legal(s, op) <==> Sensible(BooksOf(s), op)
    ensures BooksOf(s).cur == s.cur && BooksOf(s).last == s.curPid
    ensures s.cur.Some? ==> s.cur.value in s.tables
  {
    assert TablesOk(s);
    hide Inv;
  }

  lemma MapPrivateIs(s: State, env: Env)
    requires Ready(s)
    ensures s.cur.value in s.tables
    ensures var (t, e) := Do(s, MapPrivate, env); (RefOf(t), e) == MapStep(RefOf(s), s.cur.value)
  {
    CurTable(s);
    CurMapped(s, 0);
    if |Arena(s)| < MAX_PAGE_NUM && s.reservable > 0 { MapIs(s); }
    hide Inv, MapSwap, CacheOf;
  }

  lemma StartIs(s: State, memoryPages: nat, swapBlocks: nat)
    requires Initial(s, memoryPages, swapBlocks)
    ensures memoryPages >= 1 && RefOf(s) == Start(memoryPages, swapBlocks, s.disk, s.curPid)
  {
    assert CacheOf(s).slots == [] && BooksOf(s).arenas == map[];
  }

  /** In every run from the start the pager stands for the cache and the books that the reference reaches, and every
      operation has the outcome it has there. */
  lemma {:induction false} RunsRefine(s: State, memoryPages: nat, swapBlocks: nat, steps: seq<Step>)
    requires Initial(s, memoryPages, swapBlocks)
    ensures Sound(s)
    ensures (RefOf(Exec(s, steps).0), Exec(s, steps).1) ==
      RefRun(Start(memoryPages, swapBlocks, s.disk, s.curPid), steps)
  {
    InitialInv(s, memoryPages, swapBlocks);
    if steps == [] {
      StartIs(s, memoryPages, swapBlocks);
    } else {
      hide Inv, Do, RefOf, RefStep, Start;
      var n := |steps| - 1;
      RunsRefine(s, memoryPages, swapBlocks, steps[..n]);
      var (t, es) := Exec(s, steps[..n]);
      DoKeeps(t, steps[n].op, steps[n].env);
      StepRefines(t, steps[n].op, steps[n].env);
    }
  }
}
