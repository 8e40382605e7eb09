/** Stores, new pages, new processes and exits keep the pager's invariant and act on the flat memory as they should. */
module PagerArenaProofs {
  import opened Common
  import opened PagerModel
  import opened PagerProofs

  // ---------------------------------------------------------------- stores

  /** A store through an entry that permits it changes one byte of the flat memory and nothing else. */
  lemma PokeKeeps(s: State, v: VPage, offset: nat, b: Byte)
    requires Inv(s) && Mapped(s, v) && HasEntry(s.tables, v) && Ent(s.tables, v).writeEnable && offset < VM_PAGESIZE
    ensures Ent(s.tables, v).ppage < |s.mem|
    ensures var t := PokeByte(s, v, offset, b);
      && Inv(t) && SameArenas(s, t) && t.inPhys == s.inPhys
      && (forall id :: Content(t, id) == if id == Id(s, v) then Content(s, id)[offset := b] else Content(s, id))
  {
    assert EntryOk(s, Id(s, v), Ent(s.tables, v));
    PokeMemory(s, v, offset, b);
    PokeRest(s, v, offset, b);
  }

  lemma PokeMemory(s: State, v: VPage, offset: nat, b: Byte)
    requires FramesOk(s) && InverseOk(s) && MemOk(s) && HasEntry(s.tables, v) && offset < VM_PAGESIZE
    requires Mapped(s, v) && Id(s, v) in s.inPhys && EntryOk(s, Id(s, v), Ent(s.tables, v))
    requires Ent(s.tables, v).writeEnable
    ensures Ent(s.tables, v).ppage < |s.mem|
    ensures var t := PokeByte(s, v, offset, b);
      && FramesOk(t) && InverseOk(t) && MemOk(t)
      && (forall id :: Content(t, id) == if id == Id(s, v) then Content(s, id)[offset := b] else Content(s, id))
  {
  }

  lemma PokeRest(s: State, v: VPage, offset: nat, b: Byte)
    requires PeersOk(s) && BitsOk(s) && TablesOk(s) && SwapOk(s)
    requires HasEntry(s.tables, v) && Ent(s.tables, v).ppage < |s.mem| && offset < VM_PAGESIZE
    ensures var t := PokeByte(s, v, offset, b); PeersOk(t) && BitsOk(t) && TablesOk(t) && SwapOk(t)
  {
    var t := PokeByte(s, v, offset, b);
    CarryPages(s, t);
    CarrySwap(s, t);
    forall w | Mapped(t, w) && HasEntry(t.tables, w)
      ensures EntryOk(t, Id(t, w), Ent(t.tables, w))
    {
      assert EntryOk(s, Id(s, w), Ent(s.tables, w));
    }
  }

  // ---------------------------------------------------------------- new pages

  /** `t` is `s` with one more page, backed by `id`, at the end of the current arena. */
  ghost predicate OneMore(s: State, t: State, id: FileId, e: Entry) {
    && s.cur.Some? && s.cur.value in s.tables && t.cur == s.cur && t.curPid == s.curPid && s.gone == t.gone == {}
    && var p := s.cur.value;
    && |s.tables[p].vps| < |s.tables[p].ptbr|
    && t.tables == s.tables[p := Table(s.tables[p].ptbr[|s.tables[p].vps| := e], s.tables[p].vps + [id],
                                       s.tables[p].occupied + if id.Swap? then 1 else 0)]
    && t.peers == s.peers[id := Sharers(s.peers, id) + {NewPage(s)}]
  }

  ghost function NewPage(s: State): VPage
    requires s.cur.Some? && s.cur.value in s.tables
  {
    VPage(s.cur.value, |s.tables[s.cur.value].vps|)
  }

  lemma MoreMapped(s: State, t: State, id: FileId, e: Entry)
    requires OneMore(s, t, id, e)
    ensures forall v :: Mapped(t, v) <==> Mapped(s, v) || v == NewPage(s)
    ensures forall v :: Mapped(s, v) ==> Id(t, v) == Id(s, v) && v != NewPage(s)
    ensures Id(t, NewPage(s)) == id
    ensures HasEntry(t.tables, NewPage(s)) && Ent(t.tables, NewPage(s)) == e
    ensures forall v :: v != NewPage(s) && HasEntry(t.tables, v) ==>
      HasEntry(s.tables, v) && Ent(t.tables, v) == Ent(s.tables, v)
  {
  }

  lemma MorePeers(s: State, t: State, id: FileId, e: Entry)
    requires PeersOk(s) && OneMore(s, t, id, e)
    ensures PeersOk(t)
  {
    MoreMapped(s, t, id, e);
    forall i, w | w in Sharers(t.peers, i)
      ensures Mapped(t, w) && Id(t, w) == i
    {
      if !(i == id && w == NewPage(s)) { assert w in Sharers(s.peers, i); }
    }
  }

  lemma MoreTables(s: State, t: State, id: FileId, e: Entry)
    requires TablesOk(s) && OneMore(s, t, id, e)
    ensures TablesOk(t)
  {
    var vps := s.tables[s.cur.value].vps;
    assert (vps + [id])[..|vps|] == vps;
  }

  lemma MapSwapPages(s: State)
    requires PeersOk(s) && TablesOk(s) && SwapOk(s) && s.gone == {}
    requires s.cur.Some? && s.reservable > 0 && s.cur.value in s.tables
    requires |s.tables[s.cur.value].vps| < |s.tables[s.cur.value].ptbr|
    ensures s.swapFree != []
    ensures var t := MapSwap(s); PeersOk(t) && TablesOk(t) && OneMore(s, t, Swap(s.swapFree[0]), Entry(0, true, false))
    ensures forall v :: Mapped(s, v) ==> Id(s, v) != Swap(s.swapFree[0])
  {
    assert s.swapFree[0] in s.swapFree;
    MorePeers(s, MapSwap(s), Swap(s.swapFree[0]), Entry(0, true, false));
    MoreTables(s, MapSwap(s), Swap(s.swapFree[0]), Entry(0, true, false));
  }

  lemma MapSwapBlocks(s: State)
    requires SwapOk(s) && s.cur.Some? && s.reservable > 0 && s.cur.value in s.tables && s.swapFree != []
    requires |s.tables[s.cur.value].vps| < |s.tables[s.cur.value].ptbr|
    requires OneMore(s, MapSwap(s), Swap(s.swapFree[0]), Entry(0, true, false))
    requires forall v :: Mapped(s, v) ==> Id(s, v) != Swap(s.swapFree[0])
    ensures SwapOk(MapSwap(s))
  {
    var t := MapSwap(s);
    var b := s.swapFree[0];
    MoreMapped(s, t, Swap(b), Entry(0, true, false));
    assert forall c :: c in s.swapFree <==> c == b || c in t.swapFree;
    assert b in s.swapFree && b !in t.swapFree;
  }

  lemma MapSwapMemory(s: State)
    requires FramesOk(s) && InverseOk(s) && MemOk(s) && SwapOk(s)
    requires s.cur.Some? && s.reservable > 0 && s.cur.value in s.tables && s.swapFree != []
    requires |s.tables[s.cur.value].vps| < |s.tables[s.cur.value].ptbr|
    ensures var t := MapSwap(s);
      && FramesOk(t) && InverseOk(t) && MemOk(t)
      && (forall id :: Content(t, id) == if id == Swap(s.swapFree[0]) then ZeroPage() else Content(s, id))
  {
    assert s.swapFree[0] in s.swapFree;
  }

  lemma MapSwapBits(s: State)
    requires BitsOk(s) && s.cur.Some? && s.reservable > 0 && s.cur.value in s.tables && s.swapFree != []
    requires |s.tables[s.cur.value].vps| < |s.tables[s.cur.value].ptbr|
    requires OneMore(s, MapSwap(s), Swap(s.swapFree[0]), Entry(0, true, false))
    requires forall v :: Mapped(s, v) ==> Id(s, v) != Swap(s.swapFree[0])
    ensures BitsOk(MapSwap(s))
  {
    var t := MapSwap(s);
    MoreMapped(s, t, Swap(s.swapFree[0]), Entry(0, true, false));
    forall w | Mapped(t, w) && HasEntry(t.tables, w)
      ensures EntryOk(t, Id(t, w), Ent(t.tables, w))
    {
      if w != NewPage(s) { assert EntryOk(s, Id(s, w), Ent(s.tables, w)); }
    }
  }

  /** A new private page reads zero, whatever its swap block held before; nothing else in the flat memory changes. */
  lemma MapSwapKeeps(s: State)
    requires Inv(s) && s.gone == {} && s.cur.Some? && s.reservable > 0
    requires |s.tables[s.cur.value].vps| < MAX_PAGE_NUM
    ensures s.swapFree != [] && |s.tables[s.cur.value].ptbr| == MAX_PAGE_NUM
    ensures var t := MapSwap(s);
      && Inv(t) && t.gone == {}
      && Mapped(t, NewPage(s)) && !Mapped(s, NewPage(s)) && Id(t, NewPage(s)) == Swap(s.swapFree[0])
      && (forall v :: Mapped(s, v) ==> Mapped(t, v) && Id(t, v) == Id(s, v) && Id(s, v) != Swap(s.swapFree[0]))
      && (forall id :: Content(t, id) == if id == Swap(s.swapFree[0]) then ZeroPage() else Content(s, id))
  {
    assert TableOk(s.tables[s.cur.value]);
    MapSwapPages(s);
    MapSwapBlocks(s);
    MapSwapMemory(s);
    MapSwapBits(s);
    MoreMapped(s, MapSwap(s), Swap(s.swapFree[0]), Entry(0, true, false));
  }

  lemma MapFileBits(s: State, id: FileId)
    requires FramesOk(s) && InverseOk(s) && BitsOk(s) && id.File?
    requires s.cur.Some? && s.cur.value in s.tables && |s.tables[s.cur.value].vps| < |s.tables[s.cur.value].ptbr|
    requires OneMore(s, MapFile(s, id), id, FileEntry(s, id))
    ensures BitsOk(MapFile(s, id))
  {
    var t := MapFile(s, id);
    MoreMapped(s, t, id, FileEntry(s, id));
    forall w | Mapped(t, w) && HasEntry(t.tables, w)
      ensures EntryOk(t, Id(t, w), Ent(t.tables, w))
    {
      if w != NewPage(s) { assert EntryOk(s, Id(s, w), Ent(s.tables, w)); }
    }
  }

  lemma MapFileSwap(s: State, id: FileId)
    requires SwapOk(s) && id.File?
    requires s.cur.Some? && s.cur.value in s.tables && |s.tables[s.cur.value].vps| < |s.tables[s.cur.value].ptbr|
    requires OneMore(s, MapFile(s, id), id, FileEntry(s, id))
    ensures SwapOk(MapFile(s, id))
  {
    MoreMapped(s, MapFile(s, id), id, FileEntry(s, id));
  }

  /** A new file page shows the file block as every other page of that block shows it; the flat memory is unchanged. */
  lemma MapFileKeeps(s: State, id: FileId)
    requires Inv(s) && s.gone == {} && s.cur.Some? && id.File?
    requires |s.tables[s.cur.value].vps| < MAX_PAGE_NUM
    ensures |s.tables[s.cur.value].ptbr| == MAX_PAGE_NUM
    ensures var t := MapFile(s, id);
      && Inv(t) && t.gone == {} && SameContents(s, t)
      && Mapped(t, NewPage(s)) && !Mapped(s, NewPage(s)) && Id(t, NewPage(s)) == id
      && (forall v :: Mapped(s, v) ==> Mapped(t, v) && Id(t, v) == Id(s, v))
  {
    assert TableOk(s.tables[s.cur.value]);
    var t := MapFile(s, id);
    var e := FileEntry(s, id);
    MorePeers(s, t, id, e);
    MoreTables(s, t, id, e);
    MapFileSwap(s, id);
    MapFileBits(s, id);
    MoreMapped(s, t, id, e);
  }

  // ---------------------------------------------------------------- exits

  lemma RemoveFirstIs(q: seq<nat>, f: nat)
    requires NoDup(q)
    ensures NoDup(RemoveFirst(q, f))
    ensures forall g :: g in RemoveFirst(q, f) <==> g in q && g != f
  {
    if q != [] {
      assert NoDup(q[1..]);
      RemoveFirstIs(q[1..], f);
      assert q == [q[0]] + q[1..];
      assert forall i :: 1 <= i < |q| ==> q[i] != q[0];
      if q[0] != f {
        var r := RemoveFirst(q[1..], f);
        assert forall i :: 0 <= i < |r| ==> r[i] in r && r[i] in q[1..];
      }
    }
  }

  lemma DropFrames(s: State, v: VPage)
    requires FramesOk(s) && InverseOk(s) && Mapped(s, v) && HasEntry(s.tables, v)
    requires EntryOk(s, Id(s, v), Ent(s.tables, v))
    ensures FramesOk(DropPage(s, v))
    ensures var t := DropPage(s, v);
      var freed := Id(s, v) in s.inPhys && s.inPhys[Id(s, v)] != 0 && Id(s, v).Swap?;
      && t.inPhys == (if freed then s.inPhys - {Id(s, v)} else s.inPhys)
      && (forall g :: g in t.clock <==> g in s.clock && !(freed && g == s.inPhys[Id(s, v)]))
  {
    var id := Id(s, v);
    if id in s.inPhys && s.inPhys[id] != 0 && id.Swap? {
      var t := DropPage(s, v);
      var f := s.inPhys[id];
      RemoveFirstIs(s.clock, f);
      assert t.clock == RemoveFirst(s.clock, f) && t.free == s.free + [f];
      assert forall g :: g in t.free <==> g in s.free || g == f;
    }
  }

  lemma DropMemory(s: State, v: VPage)
    requires FramesOk(s) && InverseOk(s) && MemOk(s)
    requires Mapped(s, v) && HasEntry(s.tables, v) && EntryOk(s, Id(s, v), Ent(s.tables, v))
    requires var freed := Id(s, v) in s.inPhys && s.inPhys[Id(s, v)] != 0 && Id(s, v).Swap?;
      forall g :: g in DropPage(s, v).clock <==> g in s.clock && !(freed && g == s.inPhys[Id(s, v)])
    ensures InverseOk(DropPage(s, v)) && MemOk(DropPage(s, v))
  {
  }

  lemma DropContents(s: State, v: VPage)
    requires Mapped(s, v) && HasEntry(s.tables, v) && (Id(s, v) in s.inPhys ==> Ent(s.tables, v).ppage < |s.frames|)
    ensures forall id :: id != Id(s, v) || id.File? ==> Content(DropPage(s, v), id) == Content(s, id)
  {
  }

  lemma DropMapped(s: State, v: VPage)
    requires Mapped(s, v) && HasEntry(s.tables, v) && (Id(s, v) in s.inPhys ==> Ent(s.tables, v).ppage < |s.frames|)
    ensures var t := DropPage(s, v);
      && (forall w :: Mapped(t, w) <==> Mapped(s, w) && w != v)
      && (forall w :: Mapped(s, w) && w != v ==> Id(t, w) == Id(s, w))
      && t.tables == s.tables && t.cur == s.cur && t.curPid == s.curPid && t.reservable == s.reservable
      && t.swapFree == (if Id(s, v).Swap? then s.swapFree + [Id(s, v).block] else s.swapFree)
      && t.gone == s.gone + {v} && t.swapBlocks == s.swapBlocks
      && t.peers == s.peers[Id(s, v) := Sharers(s.peers, Id(s, v)) - {v}]
  {
  }

  lemma DropBits(s: State, v: VPage)
    requires FramesOk(s) && InverseOk(s) && PeersOk(s) && BitsOk(s) && SwapOk(s) && Mapped(s, v)
    requires HasEntry(s.tables, v)
    requires EntryOk(s, Id(s, v), Ent(s.tables, v))
    ensures BitsOk(DropPage(s, v))
  {
    var t := DropPage(s, v);
    DropMapped(s, v);
    forall w | Mapped(t, w) && HasEntry(t.tables, w)
      ensures EntryOk(t, Id(t, w), Ent(t.tables, w))
    {
      assert EntryOk(s, Id(s, w), Ent(s.tables, w));
      assert Id(s, v).Swap? ==> Id(s, w) != Id(s, v);
    }
  }

  lemma DropPages(s: State, v: VPage)
    requires PeersOk(s) && TablesOk(s) && SwapOk(s) && Mapped(s, v) && HasEntry(s.tables, v)
    requires Id(s, v) in s.inPhys ==> Ent(s.tables, v).ppage == s.inPhys[Id(s, v)] < |s.frames|
    ensures PeersOk(DropPage(s, v)) && TablesOk(DropPage(s, v))
    ensures SwapOk(DropPage(s, v))
  {
    DropMapped(s, v);
    var t := DropPage(s, v);
    var id := Id(s, v);
    forall i, w | w in Sharers(t.peers, i)
      ensures Mapped(t, w) && Id(t, w) == i
    {
      assert w in Sharers(s.peers, i);
    }
    assert id.Swap? ==> forall b :: b in t.swapFree <==> b in s.swapFree || b == id.block;
  }

  lemma DropPageKeeps(s: State, v: VPage)
    requires Inv(s) && Mapped(s, v)
    ensures HasEntry(s.tables, v)
    ensures Id(s, v) in s.inPhys ==> Ent(s.tables, v).ppage == s.inPhys[Id(s, v)] < |s.frames|
    ensures Inv(DropPage(s, v))
    ensures forall id :: id != Id(s, v) || id.File? ==> Content(DropPage(s, v), id) == Content(s, id)
  {
    assert TableOk(s.tables[v.pid]);
    assert HasEntry(s.tables, v) && EntryOk(s, Id(s, v), Ent(s.tables, v));
    DropFrames(s, v);
    DropMemory(s, v);
    DropContents(s, v);
    DropBits(s, v);
    DropPages(s, v);
  }

  /** The exit loop after its first `n` pages. */
  ghost function DropFirst(s: State, p: int, n: nat): State
  {
    if n == 0 then s
    else
      var t := DropFirst(s, p, n - 1);
      var v := VPage(p, n - 1);
      if Mapped(t, v) && HasEntry(t.tables, v) && (Id(t, v) in t.inPhys ==> Ent(t.tables, v).ppage < |t.frames|)
      then DropPage(t, v) else t
  }

  lemma {:induction false} DropFirstInv(s: State, p: int, n: nat)
    requires Inv(s) && s.gone == {} && p in s.tables && n <= |s.tables[p].vps|
    ensures var t := DropFirst(s, p, n);
      && Inv(t) && t.tables == s.tables && t.cur == s.cur && t.curPid == s.curPid && t.reservable == s.reservable
      && t.swapBlocks == s.swapBlocks
      && (forall v :: v in t.gone <==> v.pid == p && v.vpn < n)
    ensures n > 0 ==>
      var t := DropFirst(s, p, n - 1);
      var v := VPage(p, n - 1);
      && Mapped(t, v) && HasEntry(t.tables, v) && (Id(t, v) in t.inPhys ==> Ent(t.tables, v).ppage < |t.frames|)
      && DropFirst(s, p, n) == DropPage(t, v)
  {
    hide FramesOk, InverseOk, PeersOk, BitsOk, TablesOk, SwapOk, MemOk;
    if n > 0 {
      DropFirstInv(s, p, n - 1);
      var t := DropFirst(s, p, n - 1);
      var v := VPage(p, n - 1);
      assert Mapped(t, v);
      DropPageKeeps(t, v);
      DropMapped(t, v);
    }
  }

  /** The swap blocks behind a list of pages, in the order of the pages. */
  function SwapBlocks(vps: seq<FileId>): (r: seq<nat>)
    ensures |r| == CountSwap(vps)
    ensures forall b: nat :: b in r <==> Swap(b) in vps
  {
    if vps == [] then []
    else
      var last := |vps| - 1;
      assert vps == vps[..last] + [vps[last]];
      SwapBlocks(vps[..last]) + if vps[last].Swap? then [vps[last].block] else []
  }

  /** File blocks that are in memory stay where they are, and none comes in. */
  ghost predicate SameFileFrames(s: State, t: State) {
    forall id: FileId :: id.File? ==>
      (id in t.inPhys <==> id in s.inPhys) && (id in s.inPhys ==> t.inPhys[id] == s.inPhys[id])
  }

  lemma DropFiles(s: State, v: VPage)
    requires Mapped(s, v) && HasEntry(s.tables, v) && (Id(s, v) in s.inPhys ==> Ent(s.tables, v).ppage < |s.frames|)
    ensures SameFileFrames(s, DropPage(s, v))
  {
  }

  lemma {:induction false} DropFirstKeeps(s: State, p: int, n: nat)
    requires Inv(s) && s.gone == {} && p in s.tables && n <= |s.tables[p].vps|
    ensures var t := DropFirst(s, p, n);
      && t.swapFree == s.swapFree + SwapBlocks(s.tables[p].vps[..n])
      && SameFileFrames(s, t)
      && (forall id :: Tracked(t, id) ==> Content(t, id) == Content(s, id))
  {
    hide Inv, HasEntry;
    if n > 0 {
      DropFirstKeeps(s, p, n - 1);
      DropFirstInv(s, p, n - 1);
      DropFirstInv(s, p, n);
      var t := DropFirst(s, p, n - 1);
      DropContents(t, VPage(p, n - 1));
      DropMapped(t, VPage(p, n - 1));
      DropFiles(t, VPage(p, n - 1));
      assert s.tables[p].vps[..n][..n - 1] == s.tables[p].vps[..n - 1];
      hide DropPage;
      forall id | Tracked(DropFirst(s, p, n), id)
        ensures Content(DropFirst(s, p, n), id) == Content(s, id)
      {
        assert Tracked(t, id);
      }
    }
  }

  lemma DropTablePages(s: State)
    requires PeersOk(s) && BitsOk(s) && TablesOk(s) && SwapOk(s) && s.cur.Some? && s.cur.value in s.tables
    requires forall v :: v in s.gone <==> v.pid == s.cur.value && v.vpn < |s.tables[s.cur.value].vps|
    requires s.reservable + s.tables[s.cur.value].occupied <= |s.swapFree|
    ensures var t := DropTable(s); PeersOk(t) && BitsOk(t) && TablesOk(t) && SwapOk(t) && t.gone == {}
  {
    var t := DropTable(s);
    assert forall v :: Mapped(t, v) <==> Mapped(s, v);
    assert forall v :: Mapped(s, v) ==> Id(t, v) == Id(s, v);
    forall w | Mapped(t, w) && HasEntry(t.tables, w)
      ensures EntryOk(t, Id(t, w), Ent(t.tables, w))
    {
      assert EntryOk(s, Id(s, w), Ent(s.tables, w));
    }
  }

  lemma DropTableKeeps(s: State)
    requires Inv(s) && s.cur.Some? && s.cur.value in s.tables
    requires forall v :: v in s.gone <==> v.pid == s.cur.value && v.vpn < |s.tables[s.cur.value].vps|
    requires s.reservable + s.tables[s.cur.value].occupied <= |s.swapFree|
    ensures Inv(DropTable(s)) && DropTable(s).gone == {} && SameContents(s, DropTable(s))
  {
    DropTablePages(s);
    hide PeersOk, BitsOk, TablesOk, SwapOk;
  }

  /** An exit returns exactly the swap blocks and the reservation of the exiting process, and no other process notices:
      every file page and every private page that still has an owner keeps its contents, and file pages keep their
      frames even if nobody maps them any more. */
  lemma ExitKeeps(s: State)
    requires Inv(s) && s.gone == {} && s.cur.Some?
    ensures s.cur.value in s.tables
    ensures var d := DropFirst(s, s.cur.value, |s.tables[s.cur.value].vps|);
      d.cur == s.cur && d.tables == s.tables &&
      var t := DropTable(d);
      && Inv(t) && t.gone == {} && t.cur == None && t.tables == s.tables - {s.cur.value}
      && t.swapFree == s.swapFree + SwapBlocks(s.tables[s.cur.value].vps)
      && t.reservable == s.reservable + |SwapBlocks(s.tables[s.cur.value].vps)|
      && SameFileFrames(s, t)
      && (forall id :: Tracked(t, id) ==> Content(t, id) == Content(s, id))
  {
    var p := s.cur.value;
    var d := DropFirst(s, p, |s.tables[p].vps|);
    assert s.tables[p].vps[..|s.tables[p].vps|] == s.tables[p].vps;
    OccupiedIs(s, p);
    hide Inv, SameContents, SameFileFrames, Content, DropFirst, SwapBlocks;
    DropFirstInv(s, p, |s.tables[p].vps|);
    DropFirstKeeps(s, p, |s.tables[p].vps|);
    ExitTable(s, d, p);
  }

  lemma OccupiedIs(s: State, p: int)
    requires Inv(s) && p in s.tables
    ensures s.tables[p].occupied == |SwapBlocks(s.tables[p].vps)| && s.reservable <= |s.swapFree|
  {
    assert TableOk(s.tables[p]);
  }

  /** Forgetting the table once its pages are cleaned up. */
  lemma ExitTable(s: State, d: State, p: int)
    requires Inv(d) && d.cur == Some(p) && p in d.tables && d.tables == s.tables && d.reservable == s.reservable
    requires forall v :: v in d.gone <==> v.pid == p && v.vpn < |d.tables[p].vps|
    requires d.swapFree == s.swapFree + SwapBlocks(s.tables[p].vps) && SameFileFrames(s, d)
    requires s.tables[p].occupied == |SwapBlocks(s.tables[p].vps)| && s.reservable <= |s.swapFree|
    requires forall id :: Tracked(d, id) ==> Content(d, id) == Content(s, id)
    ensures var t := DropTable(d);
      && Inv(t) && t.gone == {} && SameFileFrames(s, t) && t.swapFree == d.swapFree
      && t.reservable == s.reservable + |SwapBlocks(s.tables[p].vps)|
      && (forall id :: Tracked(t, id) ==> Content(t, id) == Content(s, id))
  {
    hide Inv, SwapBlocks, Content;
    DropTableKeeps(d);
    assert SameContents(d, DropTable(d));
  }

  // ---------------------------------------------------------------- new processes

  /** `vm_create`: it reserves swap for the parent's pages, yet gives the child an empty arena. */
  function Create(s: State, parent: int, child: int): Option<State> {
    if parent in s.tables && s.tables[parent].occupied > s.reservable then None
    else Some(s.(tables := s.tables[child := EmptyTable()],
                 reservable := s.reservable - if parent in s.tables then s.tables[parent].occupied else 0))
  }

  /** A create fails exactly if the parent owns more private pages than may still be reserved.  Otherwise that many may
      be reserved less, the child maps nothing, and everybody else maps, and finds there, what they did. */
  lemma CreateKeeps(s: State, parent: int, child: int)
    requires Inv(s) && s.gone == {} && child !in s.tables
    ensures Create(s, parent, child).None? <==>
      parent in s.tables && |SwapBlocks(s.tables[parent].vps)| > s.reservable
    ensures Create(s, parent, child).Some? ==>
      var t := Create(s, parent, child).value;
      && Inv(t) && t.gone == {} && SameContents(s, t) && t.swapFree == s.swapFree
      && t.reservable == s.reservable - (if parent in s.tables then |SwapBlocks(s.tables[parent].vps)| else 0)
      && child in t.tables && t.tables[child].vps == [] && t.cur == s.cur && t.curPid == s.curPid
      && (forall p :: p in t.tables && p != child ==> p in s.tables && t.tables[p] == s.tables[p])
      && (forall v :: Mapped(t, v) <==> Mapped(s, v)) && (forall v :: Mapped(s, v) ==> Id(t, v) == Id(s, v))
  {
    assert parent in s.tables ==> TableOk(s.tables[parent]);
    if Create(s, parent, child).Some? { CreateDone(s, parent, child); }
    hide Inv, SameContents;
  }

  lemma CreateDone(s: State, parent: int, child: int)
    requires Inv(s) && s.gone == {} && child !in s.tables && Create(s, parent, child).Some?
    ensures var t := Create(s, parent, child).value;
      && Inv(t) && t.gone == {} && SameContents(s, t)
      && (forall v :: Mapped(t, v) <==> Mapped(s, v)) && (forall v :: Mapped(s, v) ==> Id(t, v) == Id(s, v))
  {
    var t := Create(s, parent, child).value;
    assert TableOk(EmptyTable());
    assert forall v :: Mapped(t, v) <==> Mapped(s, v);
    assert forall v :: Mapped(s, v) ==> Id(t, v) == Id(s, v);
    CreateBits(s, parent, child);
    CreateSwap(s, t);
  }

  lemma CreateSwap(s: State, t: State)
    requires SwapOk(s) && PeersOk(s) && t == s.(tables := t.tables, reservable := t.reservable)
    requires t.reservable <= s.reservable
    requires forall v :: Mapped(t, v) <==> Mapped(s, v)
    requires forall v :: Mapped(s, v) ==> Id(t, v) == Id(s, v)
    ensures SwapOk(t) && PeersOk(t)
  {
  }

  lemma CreateBits(s: State, parent: int, child: int)
    requires BitsOk(s) && child !in s.tables && Create(s, parent, child).Some?
    ensures BitsOk(Create(s, parent, child).value)
  {
    var t := Create(s, parent, child).value;
    forall w | Mapped(t, w) && HasEntry(t.tables, w)
      ensures EntryOk(t, Id(t, w), Ent(t.tables, w))
    {
      assert EntryOk(s, Id(s, w), Ent(s.tables, w));
    }
  }

  /** The state after `vm_init` satisfies the invariant. */
  lemma InitialInv(s: State, memoryPages: nat, swapBlocks: nat)
    requires Initial(s, memoryPages, swapBlocks)
    ensures Inv(s)
  {
    forall f | 1 <= f < memoryPages ensures f in s.free {
      assert s.free[f - 1] == f;
    }
    forall b | 0 <= b < swapBlocks ensures b in s.swapFree {
      assert s.swapFree[b] == b;
    }
  }
}
