/** The state of the pager of Project3 as a value, its transitions, and the invariant that ties together the
    frame table, the clock queue, the residence map, the sharing map and every page table entry. */
module PagerModel {
  import opened Common

  newtype Byte = x: int | 0 <= x < 256

  const VM_PAGESIZE: nat := 65536
  const MAX_PAGE_NUM: nat := 256

  type Page = p: seq<Byte> | |p| == VM_PAGESIZE witness seq(VM_PAGESIZE, _ => 0)

  function ZeroPage(): (z: Page)
    ensures forall i :: 0 <= i < VM_PAGESIZE ==> z[i] == 0
  {
    seq(VM_PAGESIZE, _ => 0)
  }

  /** What backs a virtual page: a private block of the swap file, or a block of a named file. */
  datatype FileId = Swap(block: nat) | File(name: seq<Byte>, block: nat)

  datatype Entry = Entry(ppage: nat, readEnable: bool, writeEnable: bool)

  /** One row of the physical table.  `id` is stale while the frame is free. */
  datatype Frame = Frame(dirty: bool, referenced: bool, id: FileId)

  datatype VPage = VPage(pid: int, vpn: nat)

  /** One arena: the hardware table of MAX_PAGE_NUM entries and what backs each mapped page. */
  datatype Table = Table(ptbr: seq<Entry>, vps: seq<FileId>, occupied: nat)

  function EmptyTable(): Table {
    Table(seq(MAX_PAGE_NUM, _ => Entry(0, false, false)), [], 0)
  }

  /** `cur` names the table the hardware uses; `curPid` survives the exit of its process.
      `gone` holds the pages an exit has already cleaned up while their table is still there. */
  datatype State = State(
    frames: seq<Frame>, free: seq<nat>, clock: seq<nat>,
    inPhys: map<FileId, nat>, peers: map<FileId, set<VPage>>, tables: map<int, Table>,
    cur: Option<int>, curPid: int,
    swapFree: seq<nat>, swapBlocks: nat, reservable: nat,
    mem: seq<Page>, disk: map<FileId, Page>, gone: set<VPage>)

  // ---------------------------------------------------------------- small helpers

  function CountSwap(vps: seq<FileId>): (n: nat)
    ensures n <= |vps|
  {
    if vps == [] then 0 else CountSwap(vps[..|vps| - 1]) + if vps[|vps| - 1].Swap? then 1 else 0
  }

  function RemoveFirst(q: seq<nat>, f: nat): (r: seq<nat>)
    ensures f !in q ==> r == q
    ensures f in q ==> |r| == |q| - 1
  {
    if q == [] then [] else if q[0] == f then q[1..] else [q[0]] + RemoveFirst(q[1..], f)
  }

  /** A backing block that was never written holds what it held at the start; one absent from the map is all zero. */
  function Backing(disk: map<FileId, Page>, id: FileId): Page {
    if id in disk then disk[id] else ZeroPage()
  }

  function Sharers(peers: map<FileId, set<VPage>>, id: FileId): set<VPage> {
    if id in peers then peers[id] else {}
  }

  predicate Mapped(s: State, v: VPage) {
    v.pid in s.tables && v.vpn < |s.tables[v.pid].vps| && v !in s.gone
  }

  function Id(s: State, v: VPage): FileId
    requires Mapped(s, v)
  {
    s.tables[v.pid].vps[v.vpn]
  }

  predicate HasEntry(tables: map<int, Table>, v: VPage) {
    v.pid in tables && v.vpn < |tables[v.pid].ptbr|
  }

  function Ent(tables: map<int, Table>, v: VPage): Entry
    requires HasEntry(tables, v)
  {
    tables[v.pid].ptbr[v.vpn]
  }

  datatype Update = Disable | Assign(entry: Entry)

  function Apply(u: Update, e: Entry): Entry {
    match u
    case Disable => e.(readEnable := false, writeEnable := false)
    case Assign(n) => n
  }

  function PatchTable(t: Table, p: int, vs: set<VPage>, u: Update): (r: Table)
    ensures r.vps == t.vps && r.occupied == t.occupied && |r.ptbr| == |t.ptbr|
    ensures forall i :: 0 <= i < |r.ptbr| ==>
      r.ptbr[i] == if VPage(p, i) in vs then Apply(u, t.ptbr[i]) else t.ptbr[i]
  {
    var entries := seq(|t.ptbr|, i requires 0 <= i < |t.ptbr| =>
      if VPage(p, i) in vs then Apply(u, t.ptbr[i]) else t.ptbr[i]);
    t.(ptbr := entries)
  }

  /** Applies one update to every entry of a set of virtual pages, in whatever table it lies. */
  function Patch(tables: map<int, Table>, vs: set<VPage>, u: Update): map<int, Table> {
    map p | p in tables :: PatchTable(tables[p], p, vs, u)
  }

  function PutEntry(tables: map<int, Table>, v: VPage, e: Entry): map<int, Table>
    requires HasEntry(tables, v)
  {
    tables[v.pid := tables[v.pid].(ptbr := tables[v.pid].ptbr[v.vpn := e])]
  }

  // ---------------------------------------------------------------- the invariant

  /** Frames 1..n-1 are split, without repetition, between the free queue and the clock queue. */
  ghost predicate FramesOk(s: State) {
    && |s.frames| == |s.mem| >= 2
    && NoDup(s.free) && NoDup(s.clock)
    && (forall f :: f in s.free ==> 1 <= f < |s.frames| && f !in s.clock && !s.frames[f].dirty)
    && (forall f :: f in s.clock ==> 1 <= f < |s.frames|)
    && (forall f :: 1 <= f < |s.frames| ==> f in s.free || f in s.clock)
    && !s.frames[0].dirty
  }

  /** On frames other than 0, the residence map and the ids of the frame table are inverse to each other, over
      exactly the clock queue; only swap pages sit on the pinned frame. */
  ghost predicate InverseOk(s: State) {
    && (forall f :: f in s.clock && f < |s.frames| ==>
      s.frames[f].id in s.inPhys && s.inPhys[s.frames[f].id] == f)
    && (forall id :: id in s.inPhys ==>
      if s.inPhys[id] == 0 then id.Swap?
      else s.inPhys[id] in s.clock && s.inPhys[id] < |s.frames| && s.frames[s.inPhys[id]].id == id)
  }

  /** The sharing map lists, for each id, exactly the mapped pages backed by it. */
  ghost predicate PeersOk(s: State) {
    && (forall v :: Mapped(s, v) ==> v in Sharers(s.peers, Id(s, v)))
    && (forall id, v :: v in Sharers(s.peers, id) ==> Mapped(s, v) && Id(s, v) == id)
  }

  /** The protection bits are a function of the state of the frame the page sits on. */
  ghost predicate EntryOk(s: State, id: FileId, e: Entry) {
    if id !in s.inPhys then !e.readEnable && !e.writeEnable
    else
      && e.ppage == s.inPhys[id]
      && if e.ppage == 0 then e.readEnable && !e.writeEnable
         else
           && e.ppage < |s.frames|
           && e.readEnable == s.frames[e.ppage].referenced
           && e.writeEnable == (s.frames[e.ppage].referenced && s.frames[e.ppage].dirty)
  }

  ghost predicate BitsOk(s: State) {
    forall v :: Mapped(s, v) && HasEntry(s.tables, v) ==> EntryOk(s, Id(s, v), Ent(s.tables, v))
  }

  ghost predicate TableOk(t: Table) {
    && |t.ptbr| == MAX_PAGE_NUM && |t.vps| <= MAX_PAGE_NUM
    && (forall i :: |t.vps| <= i < MAX_PAGE_NUM ==> !t.ptbr[i].readEnable && !t.ptbr[i].writeEnable)
    && t.occupied == CountSwap(t.vps)
  }

  ghost predicate TablesOk(s: State) {
    && (forall p :: p in s.tables ==> TableOk(s.tables[p]))
    && (s.cur.Some? ==> s.cur.value in s.tables && s.cur.value == s.curPid)
  }

  /** Mapped swap pages own distinct blocks; these and the free blocks split 0..swapBlocks-1; and what may still
      be reserved never exceeds what is free. */
  ghost predicate SwapOk(s: State) {
    && NoDup(s.swapFree)
    && (forall b :: b in s.swapFree ==> b < s.swapBlocks)
    && (forall v :: Mapped(s, v) && Id(s, v).Swap? ==>
      Id(s, v).block < s.swapBlocks && Id(s, v).block !in s.swapFree)
    && (forall v, w :: Mapped(s, v) && Mapped(s, w) && Id(s, v).Swap? && Id(s, v) == Id(s, w) ==> v == w)
    && (forall b: nat :: b < s.swapBlocks && b !in s.swapFree ==> Sharers(s.peers, Swap(b)) != {})
    && s.reservable <= |s.swapFree|
    && (forall id :: id in s.inPhys && s.inPhys[id] != 0 && id.Swap? ==> id.block !in s.swapFree)
  }

  /** No lost writes: a clean resident frame equals its backing block, and the pinned frame is all zero. */
  ghost predicate MemOk(s: State) {
    && |s.mem| == |s.frames| && 0 < |s.mem| && s.mem[0] == ZeroPage()
    && (forall f :: f in s.clock && f < |s.frames| && !s.frames[f].dirty ==>
      s.mem[f] == Backing(s.disk, s.frames[f].id))
  }

  ghost predicate Inv(s: State) {
    FramesOk(s) && InverseOk(s) && PeersOk(s) && BitsOk(s) && TablesOk(s) && SwapOk(s) && MemOk(s)
  }

  /** The flat memory the pager stands for: the frame if the id is resident, otherwise the backing block. */
  ghost function Content(s: State, id: FileId): Page {
    if id in s.inPhys && s.inPhys[id] < |s.mem| then s.mem[s.inPhys[id]] else Backing(s.disk, id)
  }

  /** Ids whose contents matter: blocks of files, and swap blocks that some page owns. */
  ghost predicate Tracked(s: State, id: FileId) {
    id.File? || id.block !in s.swapFree
  }

  ghost predicate SameContents(s: State, t: State) {
    forall id :: Content(s, id) == Content(t, id)
  }

  /** The arenas: which process maps what, which process runs, and the swap accounting. */
  ghost predicate SameArenas(s: State, t: State) {
    && s.tables.Keys == t.tables.Keys
    && (forall p :: p in s.tables ==>
      s.tables[p].vps == t.tables[p].vps && s.tables[p].occupied == t.tables[p].occupied)
    && s.cur == t.cur && s.curPid == t.curPid
    && s.swapFree == t.swapFree && s.swapBlocks == t.swapBlocks && s.reservable == t.reservable
    && s.gone == t.gone && |s.frames| == |t.frames|
  }

  // ---------------------------------------------------------------- transitions

  /** The state `vm_init` leaves. */
  ghost predicate Initial(s: State, memoryPages: nat, swapBlocks: nat) {
    && |s.frames| == |s.mem| == memoryPages >= 2
    && (forall f :: 0 <= f < memoryPages ==> !s.frames[f].dirty && !s.frames[f].referenced)
    && s.free == seq(memoryPages - 1, i => i + 1) && s.clock == []
    && s.inPhys == map[] && s.peers == map[] && s.tables == map[] && s.cur == None
    && s.swapFree == seq(swapBlocks, i => i) && s.swapBlocks == s.reservable == swapBlocks
    && s.mem[0] == ZeroPage() && s.gone == {}
  }

  predicate ClockReady(s: State) {
    s.clock != [] && s.clock[0] < |s.frames| && |s.frames| == |s.mem|
  }

  /** The front of the clock queue was referenced: it goes to the back and all its sharers lose access. */
  function SecondChance(s: State): State {
    if !ClockReady(s) then s else
    var f := s.clock[0];
    s.(clock := s.clock[1..] + [f],
       frames := s.frames[f := s.frames[f].(referenced := false)],
       tables := Patch(s.tables, Sharers(s.peers, s.frames[f].id), Disable))
  }

  /** The front of the clock queue was not referenced: it is written back if dirty and becomes free. */
  function Evict(s: State): State {
    if !ClockReady(s) then s else
    var f := s.clock[0];
    var id := s.frames[f].id;
    s.(clock := s.clock[1..], free := s.free + [f], inPhys := s.inPhys - {id},
       frames := s.frames[f := s.frames[f].(dirty := false)],
       disk := if s.frames[f].dirty then s.disk[id := s.mem[f]] else s.disk)
  }

  /** `k` front frames in a row get a second chance. */
  function Chances(s: State, k: nat): State {
    if k == 0 then s else SecondChance(Chances(s, k - 1))
  }

  /** How far the clock turns: to the first frame that was not referenced, or once around. */
  function FirstUnreferenced(frames: seq<Frame>, q: seq<nat>): (k: nat)
    ensures k <= |q|
    ensures forall i :: 0 <= i < k ==> q[i] < |frames| && frames[q[i]].referenced
    ensures k < |q| && q[k] < |frames| ==> !frames[q[k]].referenced
  {
    if q == [] || q[0] >= |frames| || !frames[q[0]].referenced then 0
    else 1 + FirstUnreferenced(frames, q[1..])
  }

  /** What the eviction loop leaves. */
  function GetFree(s: State): State {
    if s.free != [] then s else Evict(Chances(s, FirstUnreferenced(s.frames, s.clock)))
  }

  /** Takes the first free frame for `v`, fills it with `data` and hangs it at the back of the clock queue. */
  function Install(s: State, v: VPage, data: Page): State
    requires Mapped(s, v) && HasEntry(s.tables, v)
    requires s.free != [] && s.free[0] < |s.frames| == |s.mem|
  {
    var f := s.free[0];
    s.(free := s.free[1..], clock := s.clock + [f],
       frames := s.frames[f := s.frames[f].(id := Id(s, v))],
       inPhys := s.inPhys[Id(s, v) := f], mem := s.mem[f := data],
       tables := PutEntry(s.tables, v, Ent(s.tables, v).(ppage := f)))
  }

  /** Marks the frame under `v` referenced (and dirty, for a write) and gives all sharers of `v` the same entry. */
  function Touch(s: State, v: VPage, write: bool): State
    requires Mapped(s, v) && HasEntry(s.tables, v) && Ent(s.tables, v).ppage < |s.frames|
  {
    var f := Ent(s.tables, v).ppage;
    var dirty := s.frames[f].dirty || write;
    s.(frames := s.frames[f := Frame(dirty, true, s.frames[f].id)],
       tables := Patch(s.tables, Sharers(s.peers, Id(s, v)), Assign(Entry(f, true, dirty))))
  }

  /** A store of one byte by the running process through an entry that permits it. */
  function PokeByte(s: State, v: VPage, offset: nat, b: Byte): State
    requires HasEntry(s.tables, v) && Ent(s.tables, v).ppage < |s.mem| && offset < VM_PAGESIZE
  {
    var f := Ent(s.tables, v).ppage;
    s.(mem := s.mem[f := s.mem[f][offset := b]])
  }

  /** Declares the next page of the current arena valid, private, and backed by the first free swap block. */
  function MapSwap(s: State): State
    requires s.cur.Some? && s.cur.value in s.tables && s.swapFree != [] && s.reservable > 0
    requires |s.tables[s.cur.value].vps| < |s.tables[s.cur.value].ptbr|
  {
    var t := s.tables[s.cur.value];
    var id := Swap(s.swapFree[0]);
    var v := VPage(s.cur.value, |t.vps|);
    s.(tables := s.tables[s.cur.value :=
         Table(t.ptbr[|t.vps| := Entry(0, true, false)], t.vps + [id], t.occupied + 1)],
       swapFree := s.swapFree[1..], reservable := s.reservable - 1,
       peers := s.peers[id := Sharers(s.peers, id) + {v}],
       inPhys := s.inPhys[id := 0])
  }

  /** The entry a new file page gets: that of an already resident page, or none. */
  function FileEntry(s: State, id: FileId): Entry {
    if id in s.inPhys && s.inPhys[id] < |s.frames| then
      var f := s.inPhys[id];
      Entry(f, s.frames[f].referenced, s.frames[f].referenced && s.frames[f].dirty)
    else Entry(|s.frames|, false, false)
  }

  /** Declares the next page of the current arena valid and backed by `id`. */
  function MapFile(s: State, id: FileId): State
    requires s.cur.Some? && s.cur.value in s.tables
    requires |s.tables[s.cur.value].vps| < |s.tables[s.cur.value].ptbr|
  {
    var t := s.tables[s.cur.value];
    var v := VPage(s.cur.value, |t.vps|);
    s.(tables := s.tables[s.cur.value := t.(ptbr := t.ptbr[|t.vps| := FileEntry(s, id)], vps := t.vps + [id])],
       peers := s.peers[id := Sharers(s.peers, id) + {v}])
  }

  /** Cleans up one page of an exiting process: a resident private page frees its frame, a private page its block. */
  function DropPage(s: State, v: VPage): State
    requires Mapped(s, v) && HasEntry(s.tables, v)
    requires Id(s, v) in s.inPhys ==> Ent(s.tables, v).ppage < |s.frames|
  {
    var id := Id(s, v);
    var t := s.(peers := s.peers[id := Sharers(s.peers, id) - {v}], gone := s.gone + {v});
    var t := if id in s.inPhys && Ent(s.tables, v).ppage != 0 && id.Swap? then
        var f := Ent(s.tables, v).ppage;
        t.(frames := t.frames[f := t.frames[f].(dirty := false)], free := t.free + [f],
           clock := RemoveFirst(t.clock, f), inPhys := t.inPhys - {id})
      else t;
    if id.Swap? then t.(swapFree := t.swapFree + [id.block]) else t
  }

  /** Forgets the table of the current process once all its pages are cleaned up. */
  function DropTable(s: State): State
    requires s.cur.Some? && s.cur.value in s.tables
  {
    var p := s.cur.value;
    s.(tables := s.tables - {p}, cur := None, reservable := s.reservable + s.tables[p].occupied,
       gone := set v | v in s.gone && v.pid != p)
  }
}
