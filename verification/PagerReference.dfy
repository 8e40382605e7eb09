/** What the pager should be, without frames, tables, entries and sharing maps: the arenas with their swap accounting,
    and one write-back cache of blocks that a clock keeps within the size of the memory. */
module PagerReference {
  import opened Common
  import opened PagerModel
  import opened PagerArenaProofs
  import opened PagerRuns

  // ---------------------------------------------------------------- the cache

  datatype Slot = Slot(id: FileId, referenced: bool, dirty: bool, page: Page)

  /** `slots` in the order of the clock, the hand at the front; `room` is how many more fit.  The blocks of `zero` were
      mapped and never stored to since, and need no slot. */
  datatype Cache = Cache(slots: seq<Slot>, room: nat, zero: set<FileId>, disk: map<FileId, Page>)

  function Referenced(slots: seq<Slot>): (n: nat)
    ensures n <= |slots|
  {
    if slots == [] then 0 else Referenced(slots[..|slots| - 1]) + if slots[|slots| - 1].referenced then 1 else 0
  }

  lemma {:induction false} ReferencedFirst(slots: seq<Slot>)
    requires slots != []
    ensures Referenced(slots) == Referenced(slots[1..]) + if slots[0].referenced then 1 else 0
  {
    var last := |slots| - 1;
    if last > 0 {
      ReferencedFirst(slots[..last]);
      assert slots[..last][1..] == slots[1..][..last - 1];
    }
  }

  lemma ReferencedTurn(slots: seq<Slot>)
    requires slots != [] && slots[0].referenced
    ensures Referenced(slots[1..] + [slots[0].(referenced := false)]) == Referenced(slots) - 1
  {
    var turned := slots[1..] + [slots[0].(referenced := false)];
    assert turned[..|turned| - 1] == slots[1..];
    ReferencedFirst(slots);
  }

  /** The hand turns until there is room: a referenced block gets another chance, and the first one that is not goes, to
      the disk if it is dirty. */
  function MakeRoom(c: Cache): Cache
    decreases Referenced(c.slots)
  {
    if c.room > 0 || c.slots == [] then c
    else
      var front := c.slots[0];
      if front.referenced then
        ReferencedTurn(c.slots);
        MakeRoom(c.(slots := c.slots[1..] + [front.(referenced := false)]))
      else
        c.(slots := c.slots[1..], room := 1, disk := if front.dirty then c.disk[front.id := front.page] else c.disk)
  }

  predicate Resident(c: Cache, id: FileId) {
    exists i :: 0 <= i < |c.slots| && c.slots[i].id == id
  }

  /** The page that a block shows: its slot's, or what is on the disk. */
  function PageIn(slots: seq<Slot>, zero: set<FileId>, disk: map<FileId, Page>, id: FileId): Page {
    if slots == [] then if id in zero then ZeroPage() else Backing(disk, id)
    else if slots[0].id == id then slots[0].page
    else PageIn(slots[1..], zero, disk, id)
  }

  function Shown(c: Cache, id: FileId): Page {
    PageIn(c.slots, c.zero, c.disk, id)
  }

  function Marked(slots: seq<Slot>, id: FileId, write: bool): seq<Slot> {
    seq(|slots|, i requires 0 <= i < |slots| =>
      if slots[i].id == id then slots[i].(referenced := true, dirty := slots[i].dirty || write) else slots[i])
  }

  /** A process reads or writes block `id`.  A block of a file that is not in the cache may be unreadable; then the
      reference fails, with room already made. */
  function Refer(c: Cache, id: FileId, write: bool, env: Env): (Cache, bool) {
    if Resident(c, id) then (c.(slots := Marked(c.slots, id, write)), true)
    else if id in c.zero && !write then (c, true)
    else
      var d := MakeRoom(c);
      if d.room == 0 || (id !in c.zero && id.File? && id !in env.readable) then (d, false)
      else
        var page := if id in c.zero then ZeroPage() else Backing(d.disk, id);
        (d.(slots := d.slots + [Slot(id, true, write, page)], room := d.room - 1, zero := d.zero - {id}), true)
  }

  function Put(c: Cache, id: FileId, offset: nat, b: Byte): Cache
    requires offset < VM_PAGESIZE
  {
    c.(slots := seq(|c.slots|, i requires 0 <= i < |c.slots| =>
      if c.slots[i].id == id then c.slots[i].(page := c.slots[i].page[offset := b]) else c.slots[i]))
  }

  /** The slots of all but the private blocks of `vps`, in their order. */
  function Kept(slots: seq<Slot>, vps: seq<FileId>): (r: seq<Slot>)
    ensures |r| <= |slots|
  {
    if slots == [] then []
    else
      var last := slots[|slots| - 1];
      Kept(slots[..|slots| - 1], vps) + if last.id.Swap? && last.id in vps then [] else [last]
  }

  // ---------------------------------------------------------------- the whole

  /** `blocks` are the free swap blocks; `last` is the pid last switched to. */
  datatype Books = Books(arenas: map<int, seq<FileId>>, cur: Option<int>, last: int, blocks: seq<nat>, reservable: nat)

  datatype Ref = Ref(cache: Cache, books: Books)

  function Start(memoryPages: nat, swapBlocks: nat, disk: map<FileId, Page>, last: int): Ref
    requires memoryPages >= 1
  {
    Ref(Cache([], memoryPages - 1, {}, disk), Books(map[], None, last, seq(swapBlocks, i => i), swapBlocks))
  }

  predicate Sensible(b: Books, op: Op) {
    match op
    case Fork(_, child) => child !in b.arenas
    case Switch(pid) => pid in b.arenas
    case _ => b.cur.Some? && b.cur.value in b.arenas
  }

  /** Reads the zero-terminated name at address `a`. */
  function ReadName(c: Cache, vps: seq<FileId>, a: nat, env: Env): (Cache, Option<seq<Byte>>)
    decreases |vps| * VM_PAGESIZE - a
  {
    if a / VM_PAGESIZE >= |vps| then (c, None)
    else
      var (d, ok) := Refer(c, vps[a / VM_PAGESIZE], false, env);
      if !ok then (d, None)
      else
        var b := Shown(d, vps[a / VM_PAGESIZE])[a % VM_PAGESIZE];
        if b == 0 then (d, Some([0]))
        else
          var (e, rest) := ReadName(d, vps, a + 1, env);
          (e, if rest.None? then None else Some([b] + rest.value))
  }

  function ForkStep(b: Books, parent: int, child: int): (Books, Event) {
    var pages := if parent in b.arenas then CountSwap(b.arenas[parent]) else 0;
    if pages > b.reservable then (b, Other)
    else (b.(arenas := b.arenas[child := []], reservable := b.reservable - pages), Forked(pages))
  }

  function MapStep(r: Ref, p: int): (Ref, Event)
    requires p in r.books.arenas
  {
    var b := r.books;
    if |b.arenas[p]| >= MAX_PAGE_NUM || b.reservable == 0 || b.blocks == [] then (r, Other)
    else
      var id := Swap(b.blocks[0]);
      (Ref(r.cache.(zero := r.cache.zero + {id}),
           b.(arenas := b.arenas[p := b.arenas[p] + [id]], blocks := b.blocks[1..], reservable := b.reservable - 1)),
       Fresh(id))
  }

  function MapFileStep(r: Ref, p: int, nameAt: nat, block: nat, env: Env): Ref
    requires p in r.books.arenas
  {
    var b := r.books;
    if |b.arenas[p]| >= MAX_PAGE_NUM then r
    else
      var (c, name) := ReadName(r.cache, b.arenas[p], nameAt, env);
      if name.None? then r.(cache := c)
      else Ref(c, b.(arenas := b.arenas[p := b.arenas[p] + [File(name.value, block)]]))
  }

  function AccessStep(r: Ref, p: int, op: Op, env: Env): (Ref, Event)
    requires p in r.books.arenas && (op.LoadByte? || op.StoreByte?)
  {
    var vps := r.books.arenas[p];
    var (vpn, offset) := (op.a / VM_PAGESIZE, op.a % VM_PAGESIZE);
    if vpn >= |vps| then (r, Other)
    else
      var (c, ok) := Refer(r.cache, vps[vpn], op.StoreByte?, env);
      if !ok then (r.(cache := c), Other)
      else if op.LoadByte? then (r.(cache := c), Loaded(vps[vpn], offset, Shown(c, vps[vpn])[offset]))
      else (r.(cache := Put(c, vps[vpn], offset, op.b)), Stored(vps[vpn], offset, op.b))
  }

  /** The private blocks of the process leave the cache without a trace and are free again, as is their reservation. */
  function ExitStep(r: Ref, p: int): Ref
    requires p in r.books.arenas
  {
    var (c, b, vps) := (r.cache, r.books, r.books.arenas[p]);
    var kept := Kept(c.slots, vps);
    Ref(c.(slots := kept, room := c.room + |c.slots| - |kept|),
        b.(arenas := b.arenas - {p}, cur := None, blocks := b.blocks + SwapBlocks(vps),
           reservable := b.reservable + CountSwap(vps)))
  }

  /** One operation of the kernel or of the running process. */
  function RefStep(r: Ref, op: Op, env: Env): (Ref, Event) {
    if !Sensible(r.books, op) then (r, Other)
    else
      match op
      case Fork(parent, child) =>
        var (b, e) := ForkStep(r.books, parent, child);
        (r.(books := b), e)
      case Switch(pid) =>
        (if r.books.last == pid then r else r.(books := r.books.(cur := Some(pid), last := pid)), Other)
      case MapPrivate => MapStep(r, r.books.cur.value)
      case MapFileBlock(nameAt, block) => (MapFileStep(r, r.books.cur.value, nameAt, block, env), Other)
      case Exit => (ExitStep(r, r.books.cur.value), Other)
      case _ => AccessStep(r, r.books.cur.value, op, env)
  }

  function RefRun(r: Ref, steps: seq<Step>): (Ref, seq<Event>) {
    if steps == [] then (r, [])
    else
      var last := |steps| - 1;
      var (t, es) := RefRun(r, steps[..last]);
      var (u, e) := RefStep(t, steps[last].op, steps[last].env);
      (u, es + [e])
  }

  // ---------------------------------------------------------------- which block goes

  /** In the order of the clock, no block that was not referenced comes after one that was. */
  predicate Sorted(slots: seq<Slot>) {
    forall i, j :: 0 <= i < j < |slots| ==> slots[i].referenced ==> slots[j].referenced
  }

  function Ids(slots: seq<Slot>): seq<FileId> {
    seq(|slots|, i requires 0 <= i < |slots| => slots[i].id)
  }

  /** `k` referenced blocks at the front get another chance. */
  function Cleared(slots: seq<Slot>): seq<Slot> {
    seq(|slots|, i requires 0 <= i < |slots| => slots[i].(referenced := false))
  }

  /** The hand passes over the referenced blocks at the front. */
  lemma {:induction false} TurnsPast(c: Cache, k: nat)
    requires c.room == 0 && k <= |c.slots| && forall i :: 0 <= i < k ==> c.slots[i].referenced
    ensures MakeRoom(c) == MakeRoom(c.(slots := c.slots[k..] + Cleared(c.slots[..k])))
    decreases k
  {
    if k == 0 {
      assert c.slots[0..] + Cleared(c.slots[..0]) == c.slots;
    } else {
      TurnsPast(c, k - 1);
      var d := c.(slots := c.slots[k - 1..] + Cleared(c.slots[..k - 1]));
      assert d.slots[0] == c.slots[k - 1];
      assert d.slots[1..] + [d.slots[0].(referenced := false)] == c.slots[k..] + Cleared(c.slots[..k]);
    }
  }

  /** A block at the front that was not referenced goes, and the order stays. */
  lemma FrontLeaves(c: Cache)
    requires c.room == 0 && c.slots != [] && Sorted(c.slots) && !c.slots[0].referenced
    ensures var d := MakeRoom(c);
      && d.room == 1 && Ids(d.slots) == Ids(c.slots)[1..] && Sorted(d.slots)
      && d.disk == if c.slots[0].dirty then c.disk[c.slots[0].id := c.slots[0].page] else c.disk
  {
    assert Ids(c.slots[1..]) == Ids(c.slots)[1..];
    forall i, j | 0 <= i < j < |c.slots[1..]|
      ensures c.slots[1..][i].referenced ==> c.slots[1..][j].referenced
    {
      assert c.slots[i + 1].referenced ==> c.slots[j + 1].referenced;
    }
  }

  /** If all are referenced the hand turns once around. */
  lemma AllTurn(c: Cache)
    requires c.room == 0 && c.slots != [] && forall i :: 0 <= i < |c.slots| ==> c.slots[i].referenced
    ensures var d := c.(slots := Cleared(c.slots));
      && MakeRoom(c) == MakeRoom(d) && Ids(d.slots) == Ids(c.slots) && Sorted(d.slots)
      && d.slots != [] && d.slots[0] == c.slots[0].(referenced := false)
  {
    TurnsPast(c, |c.slots|);
    assert c.slots[..|c.slots|] == c.slots && c.slots[|c.slots|..] + Cleared(c.slots) == Cleared(c.slots);
    hide MakeRoom;
  }

  /** If the blocks at the front were not referenced, or all were, the block at the front goes, and the order stays. */
  lemma FrontGoes(c: Cache)
    requires c.room == 0 && c.slots != [] && Sorted(c.slots)
    ensures var d := MakeRoom(c);
      && d.room == 1 && Ids(d.slots) == Ids(c.slots)[1..] && Sorted(d.slots)
      && d.disk == if c.slots[0].dirty then c.disk[c.slots[0].id := c.slots[0].page] else c.disk
  {
    if c.slots[0].referenced {
      forall i | 0 < i < |c.slots| ensures c.slots[i].referenced { assert c.slots[0].referenced; }
      hide MakeRoom, Cleared, Sorted, Ids;
      AllTurn(c);
      FrontLeaves(c.(slots := Cleared(c.slots)));
    } else {
      hide MakeRoom, Sorted, Ids;
      FrontLeaves(c);
    }
  }

  /** The cache after blocks of files were read, one after the other. */
  function ReadAll(c: Cache, ids: seq<FileId>, env: Env): Cache {
    if ids == [] then c else Refer(ReadAll(c, ids[..|ids| - 1], env), ids[|ids| - 1], false, env).0
  }

  /** The last of `n` elements of a list. */
  function Last(ids: seq<FileId>, n: nat): seq<FileId> {
    if |ids| <= n then ids else ids[|ids| - n..]
  }

  /** Readable blocks of files, each once, and none in the cache. */
  ghost predicate Unread(c: Cache, ids: seq<FileId>, env: Env) {
    && (forall id :: id in ids ==> id.File? && id in env.readable && id !in c.zero && id !in Ids(c.slots))
    && (forall i, j :: 0 <= i < j < |ids| ==> ids[i] != ids[j])
  }

  lemma UnreadFront(c: Cache, ids: seq<FileId>, env: Env)
    requires Unread(c, ids, env) && ids != []
    ensures var (front, id) := (ids[..|ids| - 1], ids[|ids| - 1]);
      && Unread(c, front, env) && id.File? && id in env.readable && id !in c.zero && id !in Ids(c.slots) + front
      && Ids(c.slots) + ids == Ids(c.slots) + front + [id]
  {
    assert ids[|ids| - 1] in ids && forall x :: x in ids[..|ids| - 1] ==> x in ids;
    assert ids == ids[..|ids| - 1] + [ids[|ids| - 1]];
    assert ids[|ids| - 1] !in ids[..|ids| - 1];
  }

  /** Blocks that are read once each leave the cache in the order they came in: it always holds the last ones read. */
  lemma {:induction false} FirstInFirstOut(c: Cache, ids: seq<FileId>, env: Env)
    requires c.room + |c.slots| >= 1 && Sorted(c.slots) && Unread(c, ids, env)
    ensures var d := ReadAll(c, ids, env);
      && d.room + |d.slots| == c.room + |c.slots| && d.zero == c.zero && Sorted(d.slots)
      && Ids(d.slots) == Last(Ids(c.slots) + ids, c.room + |c.slots|)
  {
    hide Refer, Resident, Sorted, MakeRoom, Unread, Ids;
    if ids == [] {
      assert Ids(c.slots) + ids == Ids(c.slots);
      IdsLength(c.slots);
    } else {
      var (front, id, n) := (ids[..|ids| - 1], ids[|ids| - 1], c.room + |c.slots|);
      UnreadFront(c, ids, env);
      FirstInFirstOut(c, front, env);
      var (d, all) := (ReadAll(c, front, env), Ids(c.slots) + front);
      hide ReadAll, Last;
      NotYet(d, id, all, n);
      ReadOne(d, id, env);
      LastMore(d, id, all, n);
      OneMoreRead(c, ids, env);
    }
  }

  lemma OneMoreRead(c: Cache, ids: seq<FileId>, env: Env)
    requires ids != []
    ensures ReadAll(c, ids, env) == Refer(ReadAll(c, ids[..|ids| - 1], env), ids[|ids| - 1], false, env).0
  {
  }

  lemma IdsLength(slots: seq<Slot>)
    ensures |Ids(slots)| == |slots|
  {
  }

  lemma NotYet(d: Cache, id: FileId, all: seq<FileId>, n: nat)
    requires Ids(d.slots) == Last(all, n) && id !in all
    ensures !Resident(d, id)
  {
    forall i | 0 <= i < |d.slots| ensures d.slots[i].id != id {
      assert Ids(d.slots)[i] in all;
    }
  }

  lemma LastMore(d: Cache, id: FileId, all: seq<FileId>, n: nat)
    requires Ids(d.slots) == Last(all, n) && d.room + |d.slots| == n >= 1
    ensures (if d.room == 0 then Ids(d.slots)[1..] else Ids(d.slots)) + [id] == Last(all + [id], n)
  {
  }

  lemma ReadOne(c: Cache, id: FileId, env: Env)
    requires c.room + |c.slots| >= 1 && Sorted(c.slots)
    requires id.File? && id in env.readable && id !in c.zero && !Resident(c, id)
    ensures var d := Refer(c, id, false, env).0;
      && d.room + |d.slots| == c.room + |c.slots| && d.zero == c.zero && Sorted(d.slots)
      && Ids(d.slots) == (if c.room == 0 then Ids(c.slots)[1..] else Ids(c.slots)) + [id]
  {
    if c.room == 0 { FrontGoes(c); }
    var d := MakeRoom(c);
    RoomOnly(c);
    var page := Backing(d.disk, id);
    assert Ids(d.slots + [Slot(id, true, false, page)]) == Ids(d.slots) + [id];
  }

  lemma {:induction false} RoomOnly(c: Cache)
    ensures var d := MakeRoom(c); d.zero == c.zero && d.room + |d.slots| == c.room + |c.slots|
    decreases Referenced(c.slots)
  {
    if c.room == 0 && c.slots != [] && c.slots[0].referenced {
      ReferencedTurn(c.slots);
      RoomOnly(c.(slots := c.slots[1..] + [c.slots[0].(referenced := false)]));
    }
  }
}
