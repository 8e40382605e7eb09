/** The operations of the pager as seen by a process, and what every run of them looks like from outside: a flat
    memory in which each load sees the last store to the same backing block. */
module PagerRuns {
  import opened Common
  import opened PagerModel
  import opened PagerProofs
  import opened PagerArenaProofs

  /** What the outside world contributes to one operation: the file blocks that can be read right now, and what a
      failed read leaves in its buffer. */
  datatype Env = Env(readable: set<FileId>, garbage: Page)

  ghost predicate Ready(s: State) {
    Inv(s) && s.gone == {} && s.cur.Some?
  }

  ghost function Arena(s: State): seq<FileId>
    requires Ready(s)
  {
    s.tables[s.cur.value].vps
  }

  ghost function Cur(s: State, vpn: nat): VPage
    requires s.cur.Some?
  {
    VPage(s.cur.value, vpn)
  }

  lemma CurMapped(s: State, vpn: nat)
    requires Ready(s)
    ensures vpn < |Arena(s)| <==> Mapped(s, Cur(s, vpn))
    ensures vpn < MAX_PAGE_NUM <==> HasEntry(s.tables, Cur(s, vpn))
    ensures |Arena(s)| <= MAX_PAGE_NUM
    ensures vpn < |Arena(s)| ==>
      Id(s, Cur(s, vpn)) == Arena(s)[vpn] && EntryOk(s, Arena(s)[vpn], Ent(s.tables, Cur(s, vpn)))
    ensures |Arena(s)| <= vpn < MAX_PAGE_NUM ==>
      !Ent(s.tables, Cur(s, vpn)).readEnable && !Ent(s.tables, Cur(s, vpn)).writeEnable
  {
    assert TableOk(s.tables[s.cur.value]);
  }

  lemma CurTable(s: State)
    requires Ready(s)
    ensures s.cur.Some? && s.cur.value in s.tables && Arena(s) == s.tables[s.cur.value].vps
  {
  }

  /** `t` differs from `s` only in what no process can observe. */
  ghost predicate Quiet(s: State, t: State) {
    Inv(t) && SameArenas(s, t) && SameContents(s, t)
  }

  lemma QuietTrans(s: State, t: State, u: State)
    requires Quiet(s, t) && Quiet(t, u)
    ensures Quiet(s, u)
  {
    hide Inv, Content;
  }

  lemma QuietReady(s: State, t: State)
    requires Ready(s) && Quiet(s, t)
    ensures Ready(t) && Arena(t) == Arena(s) && t.cur == s.cur
  {
    hide FramesOk, InverseOk, PeersOk, BitsOk, SwapOk, MemOk, SameContents;
  }

  // ---------------------------------------------------------------- faults

  /** The page to be filled is on disk and its block cannot be read. */
  ghost predicate ReadFails(s: State, id: FileId, env: Env) {
    id !in s.inPhys && id.File? && id !in env.readable
  }

  /** `vm_fault` on page `vpn` of the current arena: the state it leaves, and whether it succeeds. */
  ghost function Fault(s: State, vpn: nat, write: bool, env: Env): (State, bool)
    requires Ready(s)
  {
    if vpn >= |Arena(s)| then (s, false)
    else
      CurMapped(s, vpn);
      var v := Cur(s, vpn);
      var id := Id(s, v);
      if id !in s.inPhys || (write && Ent(s.tables, v).ppage == 0) then
        GetFreeKeeps(s);
        GetFreeEntry(s, v);
        var t := GetFree(s);
        if ReadFails(s, id, env) then (t.(mem := t.mem[t.free[0] := env.garbage]), false)
        else (Fill(t, v, if id in s.inPhys then t.mem[Ent(s.tables, v).ppage] else Backing(t.disk, id), write), true)
      else (Touch(s, v, write), true)
  }

  lemma GetFreeEntry(s: State, v: VPage)
    requires Inv(s) && Mapped(s, v) && HasEntry(s.tables, v)
    requires Inv(GetFree(s)) && SameArenas(s, GetFree(s)) && GetFree(s).free != []
    ensures Mapped(GetFree(s), v) && HasEntry(GetFree(s).tables, v) && Id(GetFree(s), v) == Id(s, v)
    ensures GetFree(s).free[0] < |GetFree(s).frames| == |GetFree(s).mem| == |s.frames|
    ensures EntryOk(s, Id(s, v), Ent(s.tables, v))
  {
    var t := GetFree(s);
    assert t.free[0] in t.free;
    assert TableOk(t.tables[v.pid]);
  }

  lemma GarbageKeeps(s: State, garbage: Page)
    requires Inv(s) && s.free != []
    ensures s.free[0] < |s.mem|
    ensures var t := s.(mem := s.mem[s.free[0] := garbage]);
      Inv(t) && SameArenas(s, t) && SameContents(s, t)
  {
    assert s.free[0] in s.free;
    var t := s.(mem := s.mem[s.free[0] := garbage]);
    CarryPages(s, t);
    CarrySwap(s, t);
    GarbageRest(s, garbage);
  }

  lemma GarbageRest(s: State, garbage: Page)
    requires FramesOk(s) && InverseOk(s) && MemOk(s) && BitsOk(s) && s.free != [] && s.free[0] in s.free
    ensures var t := s.(mem := s.mem[s.free[0] := garbage]);
      FramesOk(t) && InverseOk(t) && MemOk(t) && BitsOk(t) && SameContents(s, t)
  {
    var t := s.(mem := s.mem[s.free[0] := garbage]);
    forall w | Mapped(t, w) && HasEntry(t.tables, w)
      ensures EntryOk(t, Id(t, w), Ent(t.tables, w))
    {
      assert EntryOk(s, Id(s, w), Ent(s.tables, w));
    }
  }

  /** The fault needs a frame and gets one. */
  lemma FaultFills(s: State, v: VPage, write: bool, env: Env)
    requires Inv(s) && Mapped(s, v) && HasEntry(s.tables, v)
    requires Id(s, v) !in s.inPhys || (write && Ent(s.tables, v).ppage == 0)
    ensures GetFree(s).free != [] && GetFree(s).free[0] < |GetFree(s).frames| == |GetFree(s).mem|
    ensures Mapped(GetFree(s), v) && HasEntry(GetFree(s).tables, v)
    ensures Id(s, v) in s.inPhys ==> Ent(s.tables, v).ppage < |GetFree(s).mem|
    ensures var t := GetFree(s);
      var data := if Id(s, v) in s.inPhys then t.mem[Ent(s.tables, v).ppage] else Backing(t.disk, Id(s, v));
      var u := Fill(t, v, data, write);
      && Quiet(s, u)
      && HasEntry(u.tables, v) && Ent(u.tables, v).readEnable && (write ==> Ent(u.tables, v).writeEnable)
  {
    GetFreeKeeps(s);
    GetFreeEntry(s, v);
    var t := GetFree(s);
    var id := Id(s, v);
    ZeroFrame(s, t, v, id);
    var data := if id in s.inPhys then t.mem[Ent(s.tables, v).ppage] else Backing(t.disk, id);
    hide Inv, GetFree, SameArenas, SameContents, Fill;
    FillKeeps(t, v, data, write);
    QuietTrans(s, t, Fill(t, v, data, write));
  }

  /** A fault keeps the invariant, the arenas and the whole flat memory.  It fails exactly for an unmapped page and
      for a file page that is not in memory and cannot be read; when it succeeds the access is permitted. */
  lemma FaultKeeps(s: State, vpn: nat, write: bool, env: Env)
    requires Ready(s)
    ensures var (t, ok) := Fault(s, vpn, write, env);
      && Quiet(s, t)
      && (ok <==> vpn < |Arena(s)| && !ReadFails(s, Arena(s)[vpn], env))
      && (ok ==>
        && HasEntry(t.tables, Cur(s, vpn)) && Ent(t.tables, Cur(s, vpn)).readEnable
        && (write ==> Ent(t.tables, Cur(s, vpn)).writeEnable))
  {
    if vpn < |Arena(s)| {
      CurMapped(s, vpn);
      var v := Cur(s, vpn);
      if Id(s, v) !in s.inPhys || (write && Ent(s.tables, v).ppage == 0) {
        hide EntryOk, FramesOk, InverseOk, PeersOk, BitsOk, SwapOk, MemOk, TablesOk, SameArenas, SameContents, Fill,
          GetFree;
        FaultFills(s, v, write, env);
        if ReadFails(s, Id(s, v), env) {
          GetFreeKeeps(s);
          GarbageKeeps(GetFree(s), env.garbage);
          QuietTrans(s, GetFree(s), Fault(s, vpn, write, env).0);
        }
      } else {
        hide FramesOk, InverseOk, PeersOk, BitsOk, SwapOk, MemOk, TablesOk, SameArenas, SameContents;
        TouchKeeps(s, v, write);
      }
    }
  }

  lemma ZeroFrame(s: State, t: State, v: VPage, id: FileId)
    requires MemOk(t) && HasEntry(s.tables, v) && EntryOk(s, id, Ent(s.tables, v))
    ensures id in s.inPhys && Ent(s.tables, v).ppage == 0 ==> s.inPhys[id] == 0 && t.mem[0] == ZeroPage()
    ensures id in s.inPhys ==> Ent(s.tables, v).ppage == s.inPhys[id]
  {
  }

  // ---------------------------------------------------------------- loads and stores

  ghost predicate Allowed(s: State, vpn: nat, write: bool)
    requires s.cur.Some?
  {
    && HasEntry(s.tables, Cur(s, vpn))
    && if write then Ent(s.tables, Cur(s, vpn)).writeEnable else Ent(s.tables, Cur(s, vpn)).readEnable
  }

  /** The memory management unit: an access the entry forbids faults once and is then retried. */
  ghost function Access(s: State, vpn: nat, write: bool, env: Env): (State, bool)
    requires Ready(s)
  {
    if Allowed(s, vpn, write) then (s, true) else Fault(s, vpn, write, env)
  }

  lemma AccessKeeps(s: State, vpn: nat, write: bool, env: Env)
    requires Ready(s)
    ensures var (t, ok) := Access(s, vpn, write, env);
      && Ready(t) && Quiet(s, t) && Arena(t) == Arena(s) && t.cur == s.cur
      && (ok ==> vpn < |Arena(s)| && Allowed(t, vpn, write) && Allowed(t, vpn, false))
      && (!ok <==> vpn >= |Arena(s)| || ReadFails(s, Arena(s)[vpn], env))
      && (ok ==>
        && Ent(t.tables, Cur(t, vpn)).ppage < |t.mem|
        && t.mem[Ent(t.tables, Cur(t, vpn)).ppage] == Content(s, Arena(s)[vpn]))
  {
    hide FramesOk, InverseOk, PeersOk, BitsOk, SwapOk, MemOk, TablesOk;
    FaultKeeps(s, vpn, write, env);
    CurMapped(s, vpn);
    EnabledContent(s, vpn);
    var (t, ok) := Access(s, vpn, write, env);
    assert Quiet(s, t);
    QuietReady(s, t);
    EnabledContent(t, vpn);
  }

  lemma EnabledContent(s: State, vpn: nat)
    requires Ready(s)
    ensures Allowed(s, vpn, false) ==>
      && vpn < |Arena(s)| && Arena(s)[vpn] in s.inPhys
      && Ent(s.tables, Cur(s, vpn)).ppage < |s.mem|
      && s.mem[Ent(s.tables, Cur(s, vpn)).ppage] == Content(s, Arena(s)[vpn])
    ensures Allowed(s, vpn, true) ==> Allowed(s, vpn, false)
  {
    CurMapped(s, vpn);
  }

  ghost function Load(s: State, a: nat, env: Env): (State, Option<Byte>)
    requires Ready(s)
  {
    var vpn := a / VM_PAGESIZE;
    AccessKeeps(s, vpn, false, env);
    var (t, ok) := Access(s, vpn, false, env);
    if ok then (t, Some(t.mem[Ent(t.tables, Cur(t, vpn)).ppage][a % VM_PAGESIZE])) else (t, None)
  }

  ghost function Store(s: State, a: nat, b: Byte, env: Env): (State, bool)
    requires Ready(s)
  {
    var vpn := a / VM_PAGESIZE;
    AccessKeeps(s, vpn, true, env);
    var (t, ok) := Access(s, vpn, true, env);
    if ok then
      EnabledContent(t, vpn);
      (PokeByte(t, Cur(t, vpn), a % VM_PAGESIZE, b), true)
    else (t, false)
  }

  /** A load returns the byte of the flat memory and changes nothing that can be observed. */
  lemma LoadKeeps(s: State, a: nat, env: Env)
    requires Ready(s)
    ensures var (t, r) := Load(s, a, env);
      && Ready(t) && Quiet(s, t) && Arena(t) == Arena(s)
      && (r.None? <==> a / VM_PAGESIZE >= |Arena(s)| || ReadFails(s, Arena(s)[a / VM_PAGESIZE], env))
      && (r.Some? ==> r.value == Content(s, Arena(s)[a / VM_PAGESIZE])[a % VM_PAGESIZE])
  {
    hide Inv, SameArenas, SameContents, Content;
    AccessKeeps(s, a / VM_PAGESIZE, false, env);
  }

  /** A store changes exactly one byte of the flat memory. */
  lemma StoreKeeps(s: State, a: nat, b: Byte, env: Env)
    requires Ready(s)
    ensures var (t, ok) := Store(s, a, b, env);
      && Ready(t) && SameArenas(s, t)
      && (!ok <==> a / VM_PAGESIZE >= |Arena(s)| || ReadFails(s, Arena(s)[a / VM_PAGESIZE], env))
      && (!ok ==> SameContents(s, t))
      && (ok ==> OneByte(s, t, Arena(s)[a / VM_PAGESIZE], a % VM_PAGESIZE, b))
  {
    hide FramesOk, InverseOk, PeersOk, BitsOk, SwapOk, MemOk, TablesOk, Content;
    var vpn := a / VM_PAGESIZE;
    AccessKeeps(s, vpn, true, env);
    var (t, ok) := Access(s, vpn, true, env);
    if ok {
      CurMapped(t, vpn);
      EnabledContent(t, vpn);
      PokeKeeps(t, Cur(t, vpn), a % VM_PAGESIZE, b);
    }
  }

  ghost predicate OneByte(s: State, t: State, id: FileId, offset: nat, b: Byte)
    requires offset < VM_PAGESIZE
  {
    && Content(t, id) == Content(s, id)[offset := b]
    && (forall other :: other != id ==> Content(t, other) == Content(s, other))
  }

  // ---------------------------------------------------------------- mapping a named file

  /** Reads the file name at address `a` of the current arena, faulting pages in as needed.  The terminating zero is
      part of the name. */
  ghost function Scan(s: State, a: nat, env: Env): (State, Option<seq<Byte>>)
    requires Ready(s)
    decreases |Arena(s)| * VM_PAGESIZE - a
  {
    if a / VM_PAGESIZE >= |Arena(s)| then (s, None)
    else
      LoadKeeps(s, a, env);
      var (t, b) := Load(s, a, env);
      if b.None? then (t, None)
      else if b.value == 0 then (t, Some([0]))
      else
        var (u, rest) := Scan(t, a + 1, env);
        (u, if rest.None? then None else Some([b.value] + rest.value))
  }

  /** The zero-terminated name that the flat memory shows at address `a`, if it ends inside the arena. */
  ghost function NameAt(s: State, a: nat): Option<seq<Byte>>
    requires Ready(s)
    decreases |Arena(s)| * VM_PAGESIZE - a
  {
    if a / VM_PAGESIZE >= |Arena(s)| then None
    else
      var b := Content(s, Arena(s)[a / VM_PAGESIZE])[a % VM_PAGESIZE];
      if b == 0 then Some([0])
      else
        var rest := NameAt(s, a + 1);
        if rest.None? then None else Some([b] + rest.value)
  }

  /** Pages `first` to `last` can be brought in one after the other: each is in memory, or can be read, when its turn
      comes.  One that is in memory now may have been evicted by then. */
  ghost predicate PagesIn(s: State, first: nat, last: nat, env: Env)
    requires Ready(s)
    decreases last + 1 - first
  {
    first > last || (
      && first < |Arena(s)| && !ReadFails(s, Arena(s)[first], env)
      && (AccessKeeps(s, first, false, env); PagesIn(Access(s, first, false, env).0, first + 1, last, env)))
  }

  /** The pages that the name at address `a` lies on. */
  ghost predicate NameIn(s: State, a: nat, env: Env)
    requires Ready(s)
  {
    var name := NameAt(s, a);
    name.Some? && PagesIn(s, a / VM_PAGESIZE, (a + |name.value| - 1) / VM_PAGESIZE, env)
  }

  lemma {:induction false} NameNotEmpty(s: State, a: nat)
    requires Ready(s) && NameAt(s, a).Some?
    ensures |NameAt(s, a).value| >= 1
  {
  }

  /** A page that was just read can be read again without a fault. */
  lemma ReadAgain(s: State, vpn: nat, last: nat, env: Env)
    requires Ready(s) && Allowed(s, vpn, false) && vpn <= last
    ensures PagesIn(s, vpn, last, env) <==> PagesIn(s, vpn + 1, last, env)
  {
    EnabledContent(s, vpn);
    hide Inv, Content;
  }

  /** Enough is that every page can be read whatever was evicted; needed is that each is in memory or can be read. */
  lemma {:induction false} PagesInBounds(s: State, first: nat, last: nat, env: Env)
    requires Ready(s) && last < |Arena(s)|
    ensures (forall p :: first <= p <= last && Arena(s)[p].File? ==> Arena(s)[p] in env.readable) ==>
      PagesIn(s, first, last, env)
    ensures PagesIn(s, first, last, env) ==> forall p :: first <= p <= last ==> !ReadFails(s, Arena(s)[p], env)
    decreases last + 1 - first
  {
    hide Inv, Content, Fault;
    if first <= last && !ReadFails(s, Arena(s)[first], env) {
      AccessKeeps(s, first, false, env);
      var t := Access(s, first, false, env).0;
      PagesInBounds(t, first + 1, last, env);
      forall p | first < p <= last && ReadFails(s, Arena(s)[p], env) ensures ReadFails(t, Arena(s)[p], env) {
        NothingElseComesIn(s, first, env, Arena(s)[p]);
      }
    }
  }

  /** An access brings in no other block than its own. */
  lemma NothingElseComesIn(s: State, vpn: nat, env: Env, id: FileId)
    requires Ready(s) && vpn < |Arena(s)| && id !in s.inPhys && id != Arena(s)[vpn]
    ensures id !in Access(s, vpn, false, env).0.inPhys
  {
    ClockBringsNothing(s, id);
    CurMapped(s, vpn);
    GetFreeKeeps(s);
    GetFreeEntry(s, Cur(s, vpn));
    hide Inv, Content, GetFree, Patch, PutEntry;
  }

  lemma ClockBringsNothing(s: State, id: FileId)
    requires id !in s.inPhys
    ensures id !in GetFree(s).inPhys
  {
    ChancesBringNothing(s, FirstUnreferenced(s.frames, s.clock));
  }

  lemma {:induction false} ChancesBringNothing(s: State, k: nat)
    ensures Chances(s, k).inPhys == s.inPhys
  {
    if k > 0 { ChancesBringNothing(s, k - 1); }
  }

  lemma {:induction false} NameAtSame(s: State, t: State, a: nat)
    requires Ready(s) && Ready(t) && Arena(s) == Arena(t) && SameContents(s, t)
    ensures NameAt(s, a) == NameAt(t, a)
    decreases |Arena(s)| * VM_PAGESIZE - a
  {
    hide Inv, Content;
    if a / VM_PAGESIZE < |Arena(s)| { NameAtSame(s, t, a + 1); }
  }

  lemma NameInHere(s: State, a: nat, env: Env)
    requires Ready(s) && a / VM_PAGESIZE < |Arena(s)| && !ReadFails(s, Arena(s)[a / VM_PAGESIZE], env)
    requires Content(s, Arena(s)[a / VM_PAGESIZE])[a % VM_PAGESIZE] == 0
    ensures NameIn(s, a, env)
  {
    hide Inv, Content, Access;
    assert NameAt(s, a) == Some([0]);
    var vpn := a / VM_PAGESIZE;
    AccessKeeps(s, vpn, false, env);
    assert PagesIn(Access(s, vpn, false, env).0, vpn + 1, vpn, env);
  }

  lemma NameNotIn(s: State, a: nat, env: Env)
    requires Ready(s) && (a / VM_PAGESIZE >= |Arena(s)| || ReadFails(s, Arena(s)[a / VM_PAGESIZE], env))
    ensures !NameIn(s, a, env)
  {
    hide Inv, Content, Access;
    if NameAt(s, a).Some? {
      NameNotEmpty(s, a);
      if |NameAt(s, a).value| > 1 { NextPage(a, |NameAt(s, a).value| - 1); }
    }
  }

  lemma NameInNext(s: State, a: nat, env: Env)
    requires Ready(s) && a / VM_PAGESIZE < |Arena(s)| && !ReadFails(s, Arena(s)[a / VM_PAGESIZE], env)
    requires Content(s, Arena(s)[a / VM_PAGESIZE])[a % VM_PAGESIZE] != 0
    ensures var t := Access(s, a / VM_PAGESIZE, false, env).0;
      Ready(t) && Arena(t) == Arena(s) && (NameIn(s, a, env) <==> NameIn(t, a + 1, env))
  {
    hide Inv, Content, Fault;
    var vpn := a / VM_PAGESIZE;
    AccessKeeps(s, vpn, false, env);
    var t := Access(s, vpn, false, env).0;
    NameAtSame(s, t, a + 1);
    if NameAt(s, a + 1).Some? {
      var last := (a + |NameAt(s, a + 1).value|) / VM_PAGESIZE;
      NameNotEmpty(s, a + 1);
      NextPage(a, |NameAt(s, a + 1).value|);
      ReadAgain(t, vpn, last, env);
    }
  }

  /** The next byte lies on the same page or on the next one. */
  lemma NextPage(a: nat, n: nat)
    requires n >= 1
    ensures (a + 1) / VM_PAGESIZE == a / VM_PAGESIZE || (a + 1) / VM_PAGESIZE == a / VM_PAGESIZE + 1
    ensures a / VM_PAGESIZE <= (a + n) / VM_PAGESIZE
  {
  }

  lemma LoadAccess(s: State, a: nat, env: Env)
    requires Ready(s)
    ensures Load(s, a, env).0 == Access(s, a / VM_PAGESIZE, false, env).0
  {
    hide Inv, Access;
    AccessKeeps(s, a / VM_PAGESIZE, false, env);
  }

  /** The scan finds the name the flat memory shows, exactly if that ends inside the arena and each of its pages is in
      memory or can be read when the scan comes to it. */
  lemma {:induction false} ScanKeeps(s: State, a: nat, env: Env)
    requires Ready(s)
    ensures var (t, r) := Scan(s, a, env);
      && Ready(t) && Quiet(s, t) && Arena(t) == Arena(s)
      && (r.Some? <==> NameIn(s, a, env)) && (r.Some? ==> r == NameAt(s, a))
    decreases |Arena(s)| * VM_PAGESIZE - a
  {
    hide Inv, Content, Load, NameIn, NameAt, SameContents, SameArenas;
    LoadKeeps(s, a, env);
    var (t, b) := Load(s, a, env);
    if b.None? {
      ScanStops(s, a, env);
    } else if b.value == 0 {
      ScanEnds(s, a, env);
    } else {
      ScanKeeps(t, a + 1, env);
      ScanGoesOn(s, a, env);
    }
  }

  lemma ScanStops(s: State, a: nat, env: Env)
    requires Ready(s) && (a / VM_PAGESIZE >= |Arena(s)| || ReadFails(s, Arena(s)[a / VM_PAGESIZE], env))
    ensures var (t, r) := Scan(s, a, env);
      Ready(t) && Quiet(s, t) && Arena(t) == Arena(s) && r.None? && !NameIn(s, a, env)
  {
    NameNotIn(s, a, env);
    LoadKeeps(s, a, env);
    hide Inv, Content, Load, NameIn;
  }

  lemma ScanEnds(s: State, a: nat, env: Env)
    requires Ready(s) && Load(s, a, env).1 == Some(0)
    ensures var (t, r) := Scan(s, a, env);
      Ready(t) && Quiet(s, t) && Arena(t) == Arena(s) && r == Some([0]) == NameAt(s, a) && NameIn(s, a, env)
  {
    LoadKeeps(s, a, env);
    NameInHere(s, a, env);
    hide Inv, Content, Load, NameIn;
  }

  lemma ScanGoesOn(s: State, a: nat, env: Env)
    requires Ready(s) && Load(s, a, env).1.Some? && Load(s, a, env).1.value != 0 && Ready(Load(s, a, env).0)
    requires var (u, r) := Scan(Load(s, a, env).0, a + 1, env);
      && Ready(u) && Quiet(Load(s, a, env).0, u) && Arena(u) == Arena(Load(s, a, env).0)
      && (r.Some? <==> NameIn(Load(s, a, env).0, a + 1, env)) && (r.Some? ==> r == NameAt(Load(s, a, env).0, a + 1))
    ensures var (t, r) := Scan(s, a, env);
      && Ready(t) && Quiet(s, t) && Arena(t) == Arena(s)
      && (r.Some? <==> NameIn(s, a, env)) && (r.Some? ==> r == NameAt(s, a))
  {
    hide *;
    LoadKeeps(s, a, env);
    LoadAccess(s, a, env);
    var (t, b) := Load(s, a, env);
    NameInNext(s, a, env);
    SameTrees(s, t);
    NameAtSame(s, t, a + 1);
    ScanMore(s, a, env);
    NameMore(s, a);
    QuietTrans(s, t, Scan(t, a + 1, env).0);
  }

  lemma SameTrees(s: State, t: State)
    requires Quiet(s, t)
    ensures SameContents(s, t)
  {
  }

  lemma ScanMore(s: State, a: nat, env: Env)
    requires Ready(s) && a / VM_PAGESIZE < |Arena(s)|
    requires Load(s, a, env).1.Some? && Load(s, a, env).1.value != 0 && Ready(Load(s, a, env).0)
    ensures var (t, b) := Load(s, a, env);
      var (u, rest) := Scan(t, a + 1, env);
      Scan(s, a, env) == (u, if rest.None? then None else Some([b.value] + rest.value))
  {
    hide Inv, Load;
    LoadKeeps(s, a, env);
  }

  lemma NameMore(s: State, a: nat)
    requires Ready(s) && a / VM_PAGESIZE < |Arena(s)|
    requires Content(s, Arena(s)[a / VM_PAGESIZE])[a % VM_PAGESIZE] != 0
    ensures var (b, rest) := (Content(s, Arena(s)[a / VM_PAGESIZE])[a % VM_PAGESIZE], NameAt(s, a + 1));
      NameAt(s, a) == if rest.None? then None else Some([b] + rest.value)
  {
    hide Inv, Content;
  }

  /** `vm_map` of a named file. */
  ghost function MapNamed(s: State, a: nat, block: nat, env: Env): (State, bool)
    requires Ready(s)
  {
    if |Arena(s)| >= MAX_PAGE_NUM then (s, false)
    else
      ScanKeeps(s, a, env);
      CurMapped(s, 0);
      var (t, name) := Scan(s, a, env);
      if name.None? then (t, false)
      else
        MapFileKeeps(t, File(name.value, block));
        (MapFile(t, File(name.value, block)), true)
  }

  /** Mapping a named file keeps the flat memory.  It succeeds exactly when the arena has room, the name ends inside it
      and its pages can be brought in, and the new page is backed by the block of the file so named. */
  lemma MapNamedKeeps(s: State, a: nat, block: nat, env: Env)
    requires Ready(s)
    ensures var (t, ok) := MapNamed(s, a, block, env);
      && Ready(t) && SameContents(s, t) && t.swapFree == s.swapFree && t.reservable == s.reservable
      && (ok <==> |Arena(s)| < MAX_PAGE_NUM && NameIn(s, a, env))
      && (ok ==> Arena(t) == Arena(s) + [File(NameAt(s, a).value, block)])
      && (!ok ==> Arena(t) == Arena(s))
  {
    hide FramesOk, InverseOk, PeersOk, BitsOk, SwapOk, MemOk, TablesOk, Content;
    if |Arena(s)| < MAX_PAGE_NUM {
      ScanKeeps(s, a, env);
      CurMapped(s, 0);
      var (t, name) := Scan(s, a, env);
      if name.Some? {
        MapFileKeeps(t, File(name.value, block));
      }
    }
  }

  // ---------------------------------------------------------------- runs

  datatype Op =
    | Fork(parent: int, child: int)
    | Switch(pid: int)
    | MapPrivate
    | MapFileBlock(nameAt: nat, block: nat)
    | LoadByte(a: nat)
    | StoreByte(a: nat, b: Byte)
    | Exit

  /** What an operation does to the flat memory, and what it costs in reservations. */
  datatype Event =
    | Loaded(id: FileId, offset: nat, b: Byte)
    | Stored(id: FileId, offset: nat, b: Byte)
    | Fresh(id: FileId)
    | Forked(pages: nat)
    | Other

  datatype Step = Step(op: Op, env: Env)

  ghost predicate Sound(s: State) {
    Inv(s) && s.gone == {}
  }

  /** The kernel gives a new process a pid that has no arena, switches only to a process that exists, and raises
      every other call for the process that is running. */
  ghost predicate Legal(s: State, op: Op) {
    match op
    case Fork(_, child) => child !in s.tables
    case Switch(pid) => pid in s.tables
    case _ => s.cur.Some?
  }

  /** `vm_switch`, `vm_map` without a file name, and `vm_destroy`. */
  function SwitchTo(s: State, pid: int): State {
    if s.curPid != pid then s.(cur := Some(pid), curPid := pid) else s
  }

  ghost function MapPrivately(s: State): (State, bool)
    requires Ready(s)
  {
    CurMapped(s, 0);
    if |Arena(s)| >= MAX_PAGE_NUM || s.reservable == 0 then (s, false)
    else
      MapSwapKeeps(s);
      (MapSwap(s), true)
  }

  /** `vm_map` without a file name succeeds exactly if the arena has room and a block may be reserved.  Then the new
      page comes last, is backed by the first free swap block and reads zero; otherwise nothing changes. */
  lemma MapPrivatelyKeeps(s: State)
    requires Ready(s)
    ensures var (t, ok) := MapPrivately(s);
      && (ok <==> |Arena(s)| < MAX_PAGE_NUM && s.reservable > 0)
      && (!ok ==> t == s)
      && (ok ==>
        && s.swapFree != [] && Ready(t) && Arena(t) == Arena(s) + [Swap(s.swapFree[0])]
        && t.swapFree == s.swapFree[1..] && t.reservable == s.reservable - 1
        && !Tracked(s, Swap(s.swapFree[0])) && Tracked(t, Swap(s.swapFree[0]))
        && Content(t, Swap(s.swapFree[0])) == ZeroPage())
  {
    hide Inv, Content, MapSwap, Tracked, Mapped, Id, HasEntry, NewPage, EntryOk, Ready, Arena;
    if |Arena(s)| < MAX_PAGE_NUM && s.reservable > 0 { MapsPrivately(s); }
  }

  lemma MapsPrivately(s: State)
    requires Ready(s) && |Arena(s)| < MAX_PAGE_NUM && s.reservable > 0
    ensures s.swapFree != [] && s.cur.value in s.tables && |Arena(s)| < |s.tables[s.cur.value].ptbr|
    ensures var (t, id) := (MapSwap(s), Swap(s.swapFree[0]));
      && Ready(t) && Arena(t) == Arena(s) + [id] && t.swapFree == s.swapFree[1..] && t.reservable == s.reservable - 1
      && !Tracked(s, id) && Tracked(t, id) && Content(t, id) == ZeroPage()
  {
    CurTable(s);
    SwapNoDup(s);
    hide Inv, Content, NoDup, Mapped, Id;
    MapSwapKeeps(s);
    FreshTracked(s);
  }

  ghost function ExitCurrent(s: State): State
    requires Ready(s)
  {
    ExitKeeps(s);
    DropTable(DropFirst(s, s.cur.value, |Arena(s)|))
  }

  /** One operation.  Calls the kernel never makes do nothing. */
  ghost function Do(s: State, op: Op, env: Env): (State, Event)
    requires Sound(s)
  {
    if !Legal(s, op) then (s, Other)
    else match op
      case Fork(parent, child) =>
        var r := Create(s, parent, child);
        if r.None? then (s, Other)
        else (r.value, Forked(if parent in s.tables then s.tables[parent].occupied else 0))
      case Switch(pid) => (SwitchTo(s, pid), Other)
      case MapPrivate =>
        var (t, ok) := MapPrivately(s);
        if ok then
          MapSwapKeeps(s);
          (t, Fresh(Swap(s.swapFree[0])))
        else (t, Other)
      case MapFileBlock(nameAt, block) => (MapNamed(s, nameAt, block, env).0, Other)
      case LoadByte(a) =>
        LoadKeeps(s, a, env);
        var (t, r) := Load(s, a, env);
        (t, if r.Some? then Loaded(Arena(s)[a / VM_PAGESIZE], a % VM_PAGESIZE, r.value) else Other)
      case StoreByte(a, b) =>
        StoreKeeps(s, a, b, env);
        var (t, ok) := Store(s, a, b, env);
        (t, if ok then Stored(Arena(s)[a / VM_PAGESIZE], a % VM_PAGESIZE, b) else Other)
      case Exit => (ExitCurrent(s), Other)
  }

  /** Which byte of the flat memory an event leaves at (id, offset), given the one before it. */
  function Next(e: Event, id: FileId, offset: nat, before: Byte): Byte {
    match e
    case Stored(i, o, b) => if i == id && o == offset then b else before
    case Fresh(i) => if i == id then 0 else before
    case _ => before
  }

  ghost predicate Effect(s: State, e: Event, t: State) {
    forall id, offset: nat :: Tracked(t, id) && offset < VM_PAGESIZE && (Tracked(s, id) || e == Fresh(id)) ==>
      Content(t, id)[offset] == Next(e, id, offset, Content(s, id)[offset])
  }

  ghost predicate Does(s: State, e: Event, t: State) {
    && Sound(t) && Effect(s, e, t)
    && (forall id :: Tracked(t, id) ==> Tracked(s, id) || e == Fresh(id))
    && (e.Fresh? ==> !Tracked(s, e.id) && Tracked(t, e.id))
    && |t.swapFree| - t.reservable == |s.swapFree| - s.reservable + (if e.Forked? then e.pages else 0)
    && (e.Loaded? ==> Tracked(s, e.id) && e.offset < VM_PAGESIZE && e.b == Content(s, e.id)[e.offset])
  }

  /** Every operation keeps the invariant, has exactly its event's effect on the flat memory, makes a swap block
      matter exactly by mapping it fresh, and loses reservations only by forking a process that owns private pages. */
  lemma DoKeeps(s: State, op: Op, env: Env)
    requires Sound(s)
    ensures Does(s, Do(s, op, env).1, Do(s, op, env).0)
  {
    hide FramesOk, InverseOk, PeersOk, BitsOk, SwapOk, MemOk, TablesOk, Content;
    hide Load, Store, Scan, MapNamed, NameAt, DropFirst, Mapped, Id;
    if Legal(s, op) {
      match op
      case Fork(parent, child) =>
        if Create(s, parent, child).Some? { CreateKeeps(s, parent, child); }
      case Switch(pid) => SwitchKeeps(s, pid);
      case MapPrivate =>
        CurMapped(s, 0);
        if |Arena(s)| < MAX_PAGE_NUM && s.reservable > 0 {
          MapSwapKeeps(s);
          assert NoDup(s.swapFree) by { SwapNoDup(s); }
          FreshTracked(s);
        }
      case MapFileBlock(nameAt, block) => MapNamedKeeps(s, nameAt, block, env);
      case LoadByte(a) =>
        LoadKeeps(s, a, env);
        ArenaTracked(s);
      case StoreByte(a, b) => StoreKeeps(s, a, b, env);
      case Exit => ExitKeeps(s);
    }
  }

  lemma ArenaTracked(s: State)
    requires Ready(s)
    ensures forall i :: 0 <= i < |Arena(s)| ==> Tracked(s, Arena(s)[i])
  {
    forall i | 0 <= i < |Arena(s)| ensures Tracked(s, Arena(s)[i]) {
      CurMapped(s, i);
    }
  }

  lemma SwapNoDup(s: State)
    requires Inv(s)
    ensures NoDup(s.swapFree)
  {
  }

  lemma FreshTracked(s: State)
    requires s.cur.Some? && s.reservable > 0 && s.swapFree != [] && s.cur.value in s.tables
    requires |s.tables[s.cur.value].vps| < |s.tables[s.cur.value].ptbr| && NoDup(s.swapFree)
    ensures forall id :: Tracked(MapSwap(s), id) ==> Tracked(s, id) || id == Swap(s.swapFree[0])
    ensures !Tracked(s, Swap(s.swapFree[0])) && Tracked(MapSwap(s), Swap(s.swapFree[0]))
  {
    assert forall b :: b in s.swapFree ==> b == s.swapFree[0] || b in s.swapFree[1..];
  }

  /** `vm_switch` makes `pid` current exactly when it was not already the last pid switched to, or its arena is still
      the current one: a pid that exits and comes back before any other process runs is not installed. */
  lemma SwitchKeeps(s: State, pid: int)
    requires Sound(s) && pid in s.tables
    ensures var t := SwitchTo(s, pid);
      && Sound(t) && SameContents(s, t) && t.swapFree == s.swapFree
      && (t.cur == Some(pid) <==> s.curPid != pid || s.cur.Some?)
      && t.curPid == pid && (s.curPid == pid ==> t == s) && t.tables == s.tables
  {
    var t := s.(cur := Some(pid), curPid := pid);
    hide FramesOk, InverseOk, MemOk;
    assert forall v :: Mapped(t, v) <==> Mapped(s, v);
    assert forall v :: Mapped(s, v) ==> Id(t, v) == Id(s, v);
    SwitchRest(s, pid);
  }

  lemma SwitchRest(s: State, pid: int)
    requires FramesOk(s) && InverseOk(s) && MemOk(s) && BitsOk(s)
    ensures var t := s.(cur := Some(pid), curPid := pid);
      FramesOk(t) && InverseOk(t) && MemOk(t) && BitsOk(t) && SameContents(s, t)
  {
    var t := s.(cur := Some(pid), curPid := pid);
    forall w | Mapped(t, w) && HasEntry(t.tables, w)
      ensures EntryOk(t, Id(t, w), Ent(t.tables, w))
    {
      assert EntryOk(s, Id(s, w), Ent(s.tables, w));
    }
  }

  /** Runs any sequence of operations. */
  ghost function Exec(s: State, steps: seq<Step>): (r: (State, seq<Event>))
    requires Sound(s)
    ensures Sound(r.0) && |r.1| == |steps|
  {
    if steps == [] then (s, [])
    else
      var n := |steps| - 1;
      var (t, es) := Exec(s, steps[..n]);
      DoKeeps(t, steps[n].op, steps[n].env);
      var (u, e) := Do(t, steps[n].op, steps[n].env);
      (u, es + [e])
  }

  /** The byte last put at (id, offset): by a store, by mapping the page fresh, or by the initial disk. */
  function LastByte(es: seq<Event>, id: FileId, offset: nat, disk: map<FileId, Page>): Byte
    requires offset < VM_PAGESIZE
  {
    if es == [] then Backing(disk, id)[offset]
    else Next(es[|es| - 1], id, offset, LastByte(es[..|es| - 1], id, offset, disk))
  }

  function ForkedPages(es: seq<Event>): nat {
    if es == [] then 0
    else ForkedPages(es[..|es| - 1]) + if es[|es| - 1].Forked? then es[|es| - 1].pages else 0
  }

  ghost predicate FlatAt(t: State, es: seq<Event>, disk: map<FileId, Page>) {
    && (forall id, offset: nat :: Tracked(t, id) && offset < VM_PAGESIZE ==>
      Content(t, id)[offset] == LastByte(es, id, offset, disk))
    && |t.swapFree| - t.reservable == ForkedPages(es)
  }

  lemma FlatStep(t: State, e: Event, u: State, es: seq<Event>, disk: map<FileId, Page>)
    requires FlatAt(t, es, disk) && Does(t, e, u)
    ensures FlatAt(u, es + [e], disk)
  {
    hide Inv, Content;
    assert (es + [e])[..|es|] == es;
  }

  /** The pager is a flat memory: after any run, every block that matters holds, at every offset, the byte last put
      there, whichever process put it and whatever was paged in or out meanwhile; and the swap blocks that are free
      but may not be reserved are exactly the private pages that forking parents owned. */
  lemma {:induction false} FlatMemory(s: State, memoryPages: nat, swapBlocks: nat, steps: seq<Step>)
    requires Initial(s, memoryPages, swapBlocks)
    ensures Sound(s)
    ensures FlatAt(Exec(s, steps).0, Exec(s, steps).1, s.disk)
  {
    InitialInv(s, memoryPages, swapBlocks);
    if steps == [] {
      InitialContents(s, memoryPages, swapBlocks);
    } else {
      hide Inv, Do, FlatAt, Does;
      var n := |steps| - 1;
      FlatMemory(s, memoryPages, swapBlocks, steps[..n]);
      var (t, es) := Exec(s, steps[..n]);
      DoKeeps(t, steps[n].op, steps[n].env);
      var (u, e) := Do(t, steps[n].op, steps[n].env);
      FlatStep(t, e, u, es, s.disk);
    }
  }

  lemma InitialContents(s: State, memoryPages: nat, swapBlocks: nat)
    requires Initial(s, memoryPages, swapBlocks)
    ensures forall id :: Content(s, id) == Backing(s.disk, id)
  {
  }

  /** Every load returns the byte last put at the place it reads, through whatever mapping that was done. */
  lemma {:induction false} LoadsSeeTheLastStore(s: State, memoryPages: nat, swapBlocks: nat, steps: seq<Step>, i: nat)
    requires Initial(s, memoryPages, swapBlocks) && i < |steps|
    ensures Sound(s)
    ensures var es := Exec(s, steps).1;
      es[i].Loaded? ==> es[i].offset < VM_PAGESIZE && es[i].b == LastByte(es[..i], es[i].id, es[i].offset, s.disk)
  {
    InitialInv(s, memoryPages, swapBlocks);
    var n := |steps| - 1;
    var (t, es) := Exec(s, steps[..n]);
    DoKeeps(t, steps[n].op, steps[n].env);
    var all := Exec(s, steps).1;
    assert all[..n] == es;
    if i < n {
      LoadsSeeTheLastStore(s, memoryPages, swapBlocks, steps[..n], i);
      assert all[..i] == es[..i];
    } else {
      FlatMemory(s, memoryPages, swapBlocks, steps[..n]);
    }
  }
}
