/** Every transition of the pager keeps the invariant, and acts on the flat memory as it should. */
module PagerProofs {
  import opened PagerModel

  // ---------------------------------------------------------------- what does not depend on the frames

  /** Entries past the mapped pages are untouched, and every swap page that gained a frame is mapped. */
  ghost predicate EntriesOnly(s: State, t: State) {
    && SameArenas(s, t) && t.peers == s.peers
    && (forall p :: p in s.tables ==> |t.tables[p].ptbr| == |s.tables[p].ptbr|)
    && (forall p, i :: p in s.tables && |s.tables[p].vps| <= i < |s.tables[p].ptbr| ==>
      t.tables[p].ptbr[i] == s.tables[p].ptbr[i])
    && (forall id :: id in t.inPhys && t.inPhys[id] != 0 && id.Swap? ==>
      (id in s.inPhys && s.inPhys[id] != 0) || Sharers(s.peers, id) != {})
  }

  lemma SharersMapped(s: State, id: FileId)
    requires PeersOk(s)
    ensures forall w :: w in Sharers(s.peers, id) ==> w.pid in s.tables && w.vpn < |s.tables[w.pid].vps|
  {
    forall w | w in Sharers(s.peers, id)
      ensures w.pid in s.tables && w.vpn < |s.tables[w.pid].vps|
    {
      assert Mapped(s, w);
    }
  }

  /** Updating mapped pages leaves the entries past the mapped ones alone. */
  lemma PatchAbove(tables: map<int, Table>, vs: set<VPage>, u: Update)
    requires forall w :: w in vs ==> w.pid in tables && w.vpn < |tables[w.pid].vps|
    ensures forall p, i :: p in tables && |tables[p].vps| <= i < |tables[p].ptbr| ==>
      Patch(tables, vs, u)[p].ptbr[i] == tables[p].ptbr[i]
  {
    forall p, i | p in tables && |tables[p].vps| <= i < |tables[p].ptbr|
      ensures Patch(tables, vs, u)[p].ptbr[i] == tables[p].ptbr[i]
    {
      assert VPage(p, i) !in vs;
    }
  }

  lemma CarryPages(s: State, t: State)
    requires PeersOk(s) && EntriesOnly(s, t)
    ensures forall v :: Mapped(t, v) <==> Mapped(s, v)
    ensures forall v :: Mapped(s, v) ==> Id(t, v) == Id(s, v)
    ensures PeersOk(t)
    ensures TablesOk(s) ==> TablesOk(t)
  {
  }

  lemma CarrySwap(s: State, t: State)
    requires PeersOk(s) && SwapOk(s) && EntriesOnly(s, t)
    requires forall v :: Mapped(t, v) <==> Mapped(s, v)
    requires forall v :: Mapped(s, v) ==> Id(t, v) == Id(s, v)
    ensures SwapOk(t)
  {
    forall id | id in t.inPhys && t.inPhys[id] != 0 && id.Swap?
      ensures id.block !in t.swapFree
    {
      if !(id in s.inPhys && s.inPhys[id] != 0) {
        var v :| v in Sharers(s.peers, id);
        assert Mapped(s, v) && Id(s, v) == id;
      }
    }
  }

  // ---------------------------------------------------------------- the clock

  lemma SecondChanceFrames(s: State)
    requires FramesOk(s) && InverseOk(s) && MemOk(s) && s.clock != []
    ensures ClockReady(s)
    ensures FramesOk(SecondChance(s)) && InverseOk(SecondChance(s)) && MemOk(SecondChance(s))
  {
    assert s.clock[0] in s.clock;
    var t := SecondChance(s);
    assert forall g :: g in t.clock <==> g in s.clock;
  }

  lemma SecondChancePages(s: State)
    requires FramesOk(s) && PeersOk(s) && SwapOk(s) && TablesOk(s) && ClockReady(s)
    ensures PeersOk(SecondChance(s)) && SwapOk(SecondChance(s)) && TablesOk(SecondChance(s))
  {
    SharersMapped(s, s.frames[s.clock[0]].id);
    PatchAbove(s.tables, Sharers(s.peers, s.frames[s.clock[0]].id), Disable);
    CarryPages(s, SecondChance(s));
    CarrySwap(s, SecondChance(s));
  }

  lemma SecondChanceBits(s: State)
    requires FramesOk(s) && InverseOk(s) && PeersOk(s) && BitsOk(s) && ClockReady(s)
    ensures BitsOk(SecondChance(s))
  {
    var t := SecondChance(s);
    var f := s.clock[0];
    assert f in s.clock;
    forall v | Mapped(t, v) && HasEntry(t.tables, v)
      ensures EntryOk(t, Id(t, v), Ent(t.tables, v))
    {
      assert Mapped(s, v) && HasEntry(s.tables, v) && Id(t, v) == Id(s, v);
      assert v in Sharers(s.peers, Id(s, v));
    }
  }

  lemma SecondChanceKeeps(s: State)
    requires Inv(s) && s.clock != []
    ensures ClockReady(s) && Inv(SecondChance(s))
    ensures SameArenas(s, SecondChance(s)) && SameContents(s, SecondChance(s))
    ensures SecondChance(s).inPhys == s.inPhys
  {
    SecondChanceFrames(s);
    SecondChancePages(s);
    SecondChanceBits(s);
  }

  lemma EvictFrames(s: State)
    requires FramesOk(s) && s.clock != []
    ensures ClockReady(s) && FramesOk(Evict(s))
    ensures forall g :: g in Evict(s).clock <==> g in s.clock && g != s.clock[0]
  {
    assert s.clock[0] in s.clock;
    assert forall g :: g in Evict(s).clock <==> g in s.clock && g != s.clock[0];
  }

  lemma EvictMemory(s: State)
    requires FramesOk(s) && InverseOk(s) && MemOk(s) && ClockReady(s)
    requires forall g :: g in Evict(s).clock <==> g in s.clock && g != s.clock[0]
    ensures InverseOk(Evict(s)) && MemOk(Evict(s))
  {
    assert s.clock[0] in s.clock;
  }

  lemma EvictContents(s: State)
    requires FramesOk(s) && InverseOk(s) && MemOk(s) && ClockReady(s)
    ensures forall id :: id in Evict(s).inPhys <==> id in s.inPhys && s.inPhys[id] != s.clock[0]
    ensures SameContents(s, Evict(s))
  {
    assert s.clock[0] in s.clock;
  }

  lemma EvictPages(s: State)
    requires FramesOk(s) && PeersOk(s) && SwapOk(s) && TablesOk(s) && ClockReady(s)
    ensures PeersOk(Evict(s)) && SwapOk(Evict(s)) && TablesOk(Evict(s))
  {
    CarryPages(s, Evict(s));
    CarrySwap(s, Evict(s));
  }

  lemma EvictBits(s: State)
    requires FramesOk(s) && InverseOk(s) && BitsOk(s) && ClockReady(s)
    requires !s.frames[s.clock[0]].referenced
    ensures BitsOk(Evict(s))
  {
    var t := Evict(s);
    var f := s.clock[0];
    assert f in s.clock;
    forall v | Mapped(t, v) && HasEntry(t.tables, v)
      ensures EntryOk(t, Id(t, v), Ent(t.tables, v))
    {
      assert Mapped(s, v) && HasEntry(s.tables, v) && Id(t, v) == Id(s, v);
    }
  }

  lemma EvictKeeps(s: State)
    requires Inv(s) && s.clock != [] && ClockReady(s) && !s.frames[s.clock[0]].referenced
    ensures Inv(Evict(s)) && SameArenas(s, Evict(s)) && SameContents(s, Evict(s))
    ensures forall id :: id in Evict(s).inPhys <==> id in s.inPhys && s.inPhys[id] != s.clock[0]
  {
    EvictFrames(s);
    EvictMemory(s);
    EvictContents(s);
    EvictPages(s);
    EvictBits(s);
  }

  lemma SomeFrame(s: State)
    requires FramesOk(s)
    ensures s.free == [] ==> s.clock != []
  {
    assert 1 in s.free || 1 in s.clock;
  }

  lemma {:induction false} ChancesKeep(s: State, k: nat)
    requires Inv(s) && s.clock != []
    ensures Inv(Chances(s, k)) && Chances(s, k).clock != []
    ensures SameArenas(s, Chances(s, k)) && SameContents(s, Chances(s, k))
  {
    hide FramesOk, InverseOk, PeersOk, BitsOk, TablesOk, SwapOk, MemOk;
    if k > 0 {
      ChancesKeep(s, k - 1);
      SecondChanceKeeps(Chances(s, k - 1));
    }
  }

  /** After k chances the queue has turned by k, exactly the passed frames lost their referenced bit, and nothing
      moved in or out of memory. */
  lemma {:induction false} ChancesShape(s: State, k: nat)
    requires FramesOk(s) && s.clock != [] && k <= |s.clock|
    ensures var t := Chances(s, k);
      && t.clock == s.clock[k..] + s.clock[..k]
      && |t.frames| == |s.frames|
      && (forall f :: 0 <= f < |s.frames| ==>
        t.frames[f] == if f in s.clock[..k] then s.frames[f].(referenced := false) else s.frames[f])
      && t.free == s.free && t.inPhys == s.inPhys && t.mem == s.mem && t.disk == s.disk
  {
    if k > 0 {
      ChancesShape(s, k - 1);
      var r := Chances(s, k - 1);
      assert s.clock[k - 1] in s.clock;
      assert s.clock[..k] == s.clock[..k - 1] + [s.clock[k - 1]];
      assert r.clock[0] == s.clock[k - 1];
      assert r.clock[1..] + [r.clock[0]] == s.clock[k..] + s.clock[..k];
    }
  }

  /** The clock hand stops at the first frame that was not referenced, or back at the head; exactly the frames it
      passed lose their referenced bit, the victim is the only free frame, and the others keep their cyclic order.
      The victim's block is written back exactly if the frame is dirty. */
  lemma ClockEviction(s: State)
    requires FramesOk(s) && s.free == []
    ensures s.clock != [] && s.clock[0] in s.clock
    ensures var k := FirstUnreferenced(s.frames, s.clock);
      var victim := if k < |s.clock| then s.clock[k] else s.clock[0];
      var t := GetFree(s);
      && victim in s.clock && victim < |s.frames| == |s.mem|
      && t.free == [victim]
      && [victim] + t.clock == s.clock[k..] + s.clock[..k]
      && |t.frames| == |s.frames|
      && (forall f :: 0 <= f < |s.frames| ==>
        t.frames[f].referenced == (s.frames[f].referenced && f !in s.clock[..k]))
      && (forall f :: 0 <= f < |s.frames| ==>
        t.frames[f].id == s.frames[f].id && t.frames[f].dirty == (s.frames[f].dirty && f != victim))
      && t.mem == s.mem && t.inPhys == s.inPhys - {s.frames[victim].id}
      && t.disk == if s.frames[victim].dirty then s.disk[s.frames[victim].id := s.mem[victim]] else s.disk
  {
    SomeFrame(s);
    assert s.clock[0] in s.clock;
    var k := FirstUnreferenced(s.frames, s.clock);
    VictimUnreferenced(s);
    ChancesShape(s, k);
    EvictShape(Chances(s, k));
  }

  lemma EvictShape(r: State)
    requires r.clock != [] && r.clock[0] < |r.frames| == |r.mem|
    ensures Evict(r).free == r.free + [r.clock[0]] && Evict(r).clock == r.clock[1..]
    ensures |Evict(r).frames| == |r.frames| && Evict(r).mem == r.mem
    ensures forall f :: 0 <= f < |r.frames| ==>
      Evict(r).frames[f] == r.frames[f].(dirty := r.frames[f].dirty && f != r.clock[0])
    ensures var (f, id) := (r.clock[0], r.frames[r.clock[0]].id);
      && Evict(r).inPhys == r.inPhys - {id}
      && Evict(r).disk == if r.frames[f].dirty then r.disk[id := r.mem[f]] else r.disk
  {
  }

  lemma VictimUnreferenced(s: State)
    requires FramesOk(s) && s.clock != []
    ensures var r := Chances(s, FirstUnreferenced(s.frames, s.clock));
      && ClockReady(r) && !r.frames[r.clock[0]].referenced
      && r.inPhys == s.inPhys
      && r.clock[0] != 0
  {
    var k := FirstUnreferenced(s.frames, s.clock);
    ChancesShape(s, k);
    if k < |s.clock| {
      assert s.clock[k] in s.clock;
    } else {
      assert s.clock[0] in s.clock && s.clock[0] in s.clock[..k];
    }
  }

  /** After k chances the hand is on a referenced frame exactly while k is short of where the clock stops. */
  lemma HandAt(s: State, k: nat)
    requires Inv(s) && s.free == [] && k <= FirstUnreferenced(s.frames, s.clock)
    ensures var t := Chances(s, k);
      && Inv(t) && ClockReady(t) && t.free == []
      && (t.frames[t.clock[0]].referenced <==> k < FirstUnreferenced(s.frames, s.clock))
  {
    hide PeersOk, BitsOk, TablesOk, SwapOk, MemOk, InverseOk, SameContents, SameArenas;
    SomeFrame(s);
    ChancesKeep(s, k);
    ChancesShape(s, k);
    VictimUnreferenced(s);
    hide Chances, FirstUnreferenced;
    assert s.clock[0] in s.clock;
    var t := Chances(s, k);
    assert t.clock[0] in t.clock;
    if k < FirstUnreferenced(s.frames, s.clock) {
      assert t.clock[0] == s.clock[k] && s.clock[k] in s.clock;
    }
  }

  /** Making a frame free loses nothing: the invariant, every arena and the whole flat memory stay. */
  lemma GetFreeKeeps(s: State)
    requires Inv(s)
    ensures var t := GetFree(s);
      && t.free != [] && Inv(t) && SameArenas(s, t) && SameContents(s, t)
      && (forall id :: id in t.inPhys ==> id in s.inPhys && t.inPhys[id] == s.inPhys[id])
      && (forall id :: id in s.inPhys && s.inPhys[id] == 0 ==> id in t.inPhys)
  {
    if s.free == [] {
      SomeFrame(s);
      VictimUnreferenced(s);
      hide FramesOk, PeersOk, BitsOk, TablesOk, SwapOk, MemOk, InverseOk;
      var k := FirstUnreferenced(s.frames, s.clock);
      ChancesKeep(s, k);
      var r := Chances(s, k);
      EvictKeeps(r);
    }
  }

  // ---------------------------------------------------------------- faults

  /** `Install` then `Touch`, with the bits of the intermediate state left out: what a fault that needs a frame does. */
  ghost function Fill(s: State, v: VPage, data: Page, write: bool): State
    requires Mapped(s, v) && HasEntry(s.tables, v)
    requires s.free != [] && s.free[0] < |s.frames| == |s.mem|
  {
    Touch(Install(s, v, data), v, write)
  }

  /** Either the page is not in memory and `data` is its backing block, or it sits on the pinned zero page and is
      about to be written. */
  ghost predicate Fillable(s: State, v: VPage, data: Page, write: bool) {
    && Mapped(s, v) && HasEntry(s.tables, v) && s.free != []
    && if Id(s, v) in s.inPhys then s.inPhys[Id(s, v)] == 0 && write && data == ZeroPage()
       else data == Backing(s.disk, Id(s, v))
  }

  lemma FillFrames(s: State, v: VPage, data: Page, write: bool)
    requires FramesOk(s) && Fillable(s, v, data, write)
    ensures s.free[0] in s.free && FramesOk(Fill(s, v, data, write))
    ensures forall g :: g in Fill(s, v, data, write).clock <==> g in s.clock || g == s.free[0]
  {
    assert s.free[0] in s.free;
    var t := Fill(s, v, data, write);
    assert forall g :: g in t.clock <==> g in s.clock || g == s.free[0];
    assert forall g :: g in s.free <==> g in t.free || g == s.free[0];
  }

  lemma FillInverse(s: State, v: VPage, data: Page, write: bool)
    requires FramesOk(s) && InverseOk(s) && Fillable(s, v, data, write) && s.free[0] in s.free
    requires forall g :: g in Fill(s, v, data, write).clock <==> g in s.clock || g == s.free[0]
    ensures InverseOk(Fill(s, v, data, write))
    ensures Fill(s, v, data, write).inPhys == s.inPhys[Id(s, v) := s.free[0]]
  {
  }

  lemma FillMemory(s: State, v: VPage, data: Page, write: bool)
    requires FramesOk(s) && MemOk(s) && Fillable(s, v, data, write) && s.free[0] in s.free
    requires forall g :: g in Fill(s, v, data, write).clock <==> g in s.clock || g == s.free[0]
    ensures MemOk(Fill(s, v, data, write))
  {
  }

  lemma FillContents(s: State, v: VPage, data: Page, write: bool)
    requires FramesOk(s) && InverseOk(s) && MemOk(s) && Fillable(s, v, data, write) && s.free[0] in s.free
    ensures SameContents(s, Fill(s, v, data, write))
  {
    var t := Fill(s, v, data, write);
    forall id ensures Content(s, id) == Content(t, id) {
      if id in s.inPhys && id != Id(s, v) { assert s.inPhys[id] != s.free[0]; }
    }
  }

  lemma FillEntries(s: State, v: VPage, data: Page, write: bool)
    requires FramesOk(s) && PeersOk(s) && Fillable(s, v, data, write) && s.free[0] in s.free
    ensures EntriesOnly(s, Fill(s, v, data, write))
  {
    assert v in Sharers(s.peers, Id(s, v));
    var f := s.free[0];
    var tables := PutEntry(s.tables, v, Ent(s.tables, v).(ppage := f));
    SharersMapped(s, Id(s, v));
    PatchAbove(tables, Sharers(s.peers, Id(s, v)), Assign(Entry(f, true, write)));
    assert Fill(s, v, data, write).tables == Patch(tables, Sharers(s.peers, Id(s, v)), Assign(Entry(f, true, write)));
  }

  lemma FillPages(s: State, v: VPage, data: Page, write: bool)
    requires PeersOk(s) && TablesOk(s) && SwapOk(s) && Fillable(s, v, data, write) && s.free[0] < |s.frames| == |s.mem|
    requires EntriesOnly(s, Fill(s, v, data, write))
    ensures var t := Fill(s, v, data, write); PeersOk(t) && TablesOk(t) && SwapOk(t)
  {
    hide Fill;
    CarryPages(s, Fill(s, v, data, write));
    CarrySwap(s, Fill(s, v, data, write));
  }

  lemma FillBits(s: State, v: VPage, data: Page, write: bool)
    requires FramesOk(s) && InverseOk(s) && PeersOk(s) && BitsOk(s) && Fillable(s, v, data, write)
    requires s.free[0] in s.free
    ensures BitsOk(Fill(s, v, data, write))
    ensures HasEntry(Fill(s, v, data, write).tables, v)
    ensures Ent(Fill(s, v, data, write).tables, v) == Entry(s.free[0], true, write)
  {
    var t := Fill(s, v, data, write);
    forall w | Mapped(t, w) && HasEntry(t.tables, w)
      ensures EntryOk(t, Id(t, w), Ent(t.tables, w))
    {
      assert Mapped(s, w) && HasEntry(s.tables, w) && Id(t, w) == Id(s, w);
      assert w in Sharers(s.peers, Id(s, w));
    }
  }

  lemma FillShape(s: State, v: VPage, data: Page, write: bool)
    requires Fillable(s, v, data, write) && s.free[0] < |s.frames| == |s.mem| && !s.frames[s.free[0]].dirty
    ensures var t := Fill(s, v, data, write);
      && t.free == s.free[1..] && t.clock == s.clock + [s.free[0]]
      && t.frames == s.frames[s.free[0] := Frame(write, true, Id(s, v))]
      && t.mem == s.mem[s.free[0] := data] && t.disk == s.disk
  {
    hide Patch;
  }

  /** A page that needs a frame gets the first free one, which joins the clock queue at the back, referenced, and dirty
      exactly for a write. */
  lemma FillKeeps(s: State, v: VPage, data: Page, write: bool)
    requires Inv(s) && Fillable(s, v, data, write)
    ensures s.free[0] < |s.frames| == |s.mem|
    ensures var t := Fill(s, v, data, write);
      && Inv(t) && SameArenas(s, t) && SameContents(s, t)
      && HasEntry(t.tables, v) && Ent(t.tables, v) == Entry(s.free[0], true, write)
      && t.inPhys == s.inPhys[Id(s, v) := s.free[0]]
      && t.free == s.free[1..] && t.clock == s.clock + [s.free[0]]
      && t.frames == s.frames[s.free[0] := Frame(write, true, Id(s, v))]
      && t.mem == s.mem[s.free[0] := data] && t.disk == s.disk
  {
    assert s.free[0] in s.free && !s.frames[s.free[0]].dirty by { assert FramesOk(s); }
    FillShape(s, v, data, write);
    FillFrames(s, v, data, write);
    FillInverse(s, v, data, write);
    FillMemory(s, v, data, write);
    FillContents(s, v, data, write);
    FillEntries(s, v, data, write);
    FillPages(s, v, data, write);
    FillBits(s, v, data, write);
  }

  lemma TouchMemory(s: State, v: VPage, write: bool)
    requires FramesOk(s) && InverseOk(s) && MemOk(s)
    requires Mapped(s, v) && HasEntry(s.tables, v) && Id(s, v) in s.inPhys
    requires Ent(s.tables, v).ppage == s.inPhys[Id(s, v)]
    requires write ==> s.inPhys[Id(s, v)] != 0
    ensures Ent(s.tables, v).ppage < |s.frames|
    ensures var t := Touch(s, v, write);
      && FramesOk(t) && InverseOk(t) && MemOk(t) && SameContents(s, t) && t.inPhys == s.inPhys
  {
  }

  lemma TouchPages(s: State, v: VPage, write: bool)
    requires PeersOk(s) && TablesOk(s) && SwapOk(s)
    requires Mapped(s, v) && HasEntry(s.tables, v) && Ent(s.tables, v).ppage < |s.frames|
    ensures var t := Touch(s, v, write); SameArenas(s, t) && PeersOk(t) && TablesOk(t) && SwapOk(t)
  {
    var f := Ent(s.tables, v).ppage;
    SharersMapped(s, Id(s, v));
    PatchAbove(s.tables, Sharers(s.peers, Id(s, v)), Assign(Entry(f, true, s.frames[f].dirty || write)));
    CarryPages(s, Touch(s, v, write));
    CarrySwap(s, Touch(s, v, write));
  }

  lemma TouchBits(s: State, v: VPage, write: bool)
    requires FramesOk(s) && InverseOk(s) && PeersOk(s) && BitsOk(s)
    requires Mapped(s, v) && HasEntry(s.tables, v) && Id(s, v) in s.inPhys
    requires write ==> s.inPhys[Id(s, v)] != 0
    ensures Ent(s.tables, v).ppage < |s.frames|
    ensures BitsOk(Touch(s, v, write))
    ensures HasEntry(Touch(s, v, write).tables, v)
    ensures Ent(Touch(s, v, write).tables, v).readEnable
    ensures write ==> Ent(Touch(s, v, write).tables, v).writeEnable
  {
    assert EntryOk(s, Id(s, v), Ent(s.tables, v));
    var t := Touch(s, v, write);
    forall w | Mapped(t, w) && HasEntry(t.tables, w)
      ensures EntryOk(t, Id(t, w), Ent(t.tables, w))
    {
      assert Mapped(s, w) && HasEntry(s.tables, w) && Id(t, w) == Id(s, w);
      assert w in Sharers(s.peers, Id(s, w));
    }
  }

  /** A fault on a page in memory sets the referenced bit of its frame, and the dirty bit exactly for a write. */
  lemma TouchKeeps(s: State, v: VPage, write: bool)
    requires Inv(s) && Mapped(s, v) && HasEntry(s.tables, v) && Id(s, v) in s.inPhys
    requires write ==> s.inPhys[Id(s, v)] != 0
    ensures Ent(s.tables, v).ppage == s.inPhys[Id(s, v)] < |s.frames|
    ensures var t := Touch(s, v, write);
      && Inv(t) && SameArenas(s, t) && SameContents(s, t) && t.inPhys == s.inPhys
      && HasEntry(t.tables, v) && Ent(t.tables, v).readEnable && (write ==> Ent(t.tables, v).writeEnable)
      && t.free == s.free && t.clock == s.clock && t.mem == s.mem && t.disk == s.disk
      && var f := s.inPhys[Id(s, v)];
      t.frames == s.frames[f := Frame(s.frames[f].dirty || write, true, s.frames[f].id)]
  {
    assert EntryOk(s, Id(s, v), Ent(s.tables, v));
    TouchMemory(s, v, write);
    TouchPages(s, v, write);
    TouchBits(s, v, write);
  }
}
