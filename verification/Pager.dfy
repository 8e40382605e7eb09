/** The pager of Project3 with its global queues, maps and physical memory updated in place, each entry point proved
    to do to them what the transitions of PagerModel and PagerRuns say. */
module Pager {
  import opened Common
  import opened PagerModel
  import opened PagerProofs
  import opened PagerArenaProofs
  import opened PagerRuns

  // ---------------------------------------------------------------- updating entries one at a time

  lemma TablesEqual(a: map<int, Table>, b: map<int, Table>)
    requires a.Keys == b.Keys
    requires forall p :: p in a ==> a[p].vps == b[p].vps && a[p].occupied == b[p].occupied && |a[p].ptbr| == |b[p].ptbr|
    requires forall p, i :: p in a && 0 <= i < |a[p].ptbr| ==> a[p].ptbr[i] == b[p].ptbr[i]
    ensures a == b
  {
    forall p | p in a ensures a[p] == b[p] {
      assert a[p].ptbr == b[p].ptbr;
    }
  }

  lemma PatchNone(tables: map<int, Table>, u: Update)
    ensures Patch(tables, {}, u) == tables
  {
    TablesEqual(Patch(tables, {}, u), tables);
  }

  lemma PatchMore(tables: map<int, Table>, vs: set<VPage>, v: VPage, u: Update)
    requires v !in vs && HasEntry(tables, v)
    ensures HasEntry(Patch(tables, vs, u), v)
    ensures PutEntry(Patch(tables, vs, u), v, Apply(u, Ent(Patch(tables, vs, u), v))) == Patch(tables, vs + {v}, u)
  {
    TablesEqual(PutEntry(Patch(tables, vs, u), v, Apply(u, Ent(Patch(tables, vs, u), v))), Patch(tables, vs + {v}, u));
  }

  lemma PatchNext(tables: map<int, Table>, peer: set<VPage>, todo: set<VPage>, v: VPage, e: Entry)
    requires v in todo && todo <= peer && HasEntry(tables, v)
    ensures HasEntry(Patch(tables, peer - todo, Assign(e)), v)
    ensures PutEntry(Patch(tables, peer - todo, Assign(e)), v, e) == Patch(tables, peer - (todo - {v}), Assign(e))
  {
    hide Patch, HasEntry;
    PatchMore(tables, peer - todo, v, Assign(e));
    assert peer - (todo - {v}) == (peer - todo) + {v};
  }

  /** An entry about to be overwritten may be written first. */
  lemma PatchOver(tables: map<int, Table>, v: VPage, e: Entry, vs: set<VPage>, n: Entry)
    requires HasEntry(tables, v) && v in vs
    ensures Patch(PutEntry(tables, v, e), vs, Assign(n)) == Patch(tables, vs, Assign(n))
  {
    TablesEqual(Patch(PutEntry(tables, v, e), vs, Assign(n)), Patch(tables, vs, Assign(n)));
  }

  lemma SharersHaveEntries(s: State, id: FileId)
    requires PeersOk(s) && TablesOk(s)
    ensures forall w :: w in Sharers(s.peers, id) ==> HasEntry(s.tables, w)
  {
    forall w | w in Sharers(s.peers, id) ensures HasEntry(s.tables, w) {
      assert Mapped(s, w) && TableOk(s.tables[w.pid]);
    }
  }

  /** `s` as `vm_fault` leaves it just before the last step of a write. */
  ghost function Written(s: State, v: VPage): State
    requires HasEntry(s.tables, v) && Ent(s.tables, v).ppage < |s.frames|
  {
    var f := Ent(s.tables, v).ppage;
    s.(frames := s.frames[f := s.frames[f].(dirty := true)],
       tables := PutEntry(s.tables, v, Ent(s.tables, v).(writeEnable := true)))
  }

  lemma TouchWritten(s: State, v: VPage)
    requires Mapped(s, v) && HasEntry(s.tables, v) && Ent(s.tables, v).ppage < |s.frames|
    requires v in Sharers(s.peers, Id(s, v))
    ensures HasEntry(Written(s, v).tables, v) && Mapped(Written(s, v), v)
    ensures Touch(Written(s, v), v, false) == Touch(s, v, true)
  {
    PatchOver(s.tables, v, Ent(s.tables, v).(writeEnable := true), Sharers(s.peers, Id(s, v)),
      Entry(Ent(s.tables, v).ppage, true, true));
  }

  /** A read fault on a dirty resident page restores the write permission first. */
  lemma TouchRestored(s: State, v: VPage)
    requires Mapped(s, v) && HasEntry(s.tables, v) && Ent(s.tables, v).ppage < |s.frames|
    requires v in Sharers(s.peers, Id(s, v)) && s.frames[Ent(s.tables, v).ppage].dirty
    ensures var t := s.(tables := PutEntry(s.tables, v, Ent(s.tables, v).(writeEnable := true)));
      && Mapped(t, v) && HasEntry(t.tables, v) && Touch(t, v, false) == Touch(s, v, false)
  {
    PatchOver(s.tables, v, Ent(s.tables, v).(writeEnable := true), Sharers(s.peers, Id(s, v)),
      Entry(Ent(s.tables, v).ppage, true, true));
  }

  /** What a page that needs a frame is filled with, once a frame is free. */
  ghost function FillData(s: State, v: VPage): Page
    requires Mapped(s, v) && HasEntry(s.tables, v)
  {
    var t := GetFree(s);
    if Id(s, v) in s.inPhys && Ent(s.tables, v).ppage < |t.mem| then t.mem[Ent(s.tables, v).ppage]
    else Backing(t.disk, Id(s, v))
  }

  lemma InstallFacts(s: State, v: VPage, data: Page)
    requires Inv(s) && Mapped(s, v) && HasEntry(s.tables, v) && s.free != []
    ensures s.free[0] < |s.frames| == |s.mem|
    ensures var t := Install(s, v, data);
      && Mapped(t, v) && HasEntry(t.tables, v) && Id(t, v) == Id(s, v)
      && Ent(t.tables, v).ppage == s.free[0] < |t.frames|
      && v in Sharers(t.peers, Id(t, v))
      && (forall w :: w in Sharers(t.peers, Id(t, v)) ==> HasEntry(t.tables, w))
      && (Id(s, v) !in s.inPhys ==> !Ent(t.tables, v).writeEnable && !t.frames[s.free[0]].dirty)
  {
    assert s.free[0] in s.free;
    SharersHaveEntries(s, Id(s, v));
    if Id(s, v) !in s.inPhys { assert EntryOk(s, Id(s, v), Ent(s.tables, v)); }
  }

  lemma ZeroEntries(s: State, t: State, v: VPage)
    requires Inv(s) && Inv(t) && SameArenas(s, t) && Mapped(s, v) && HasEntry(s.tables, v) && HasEntry(t.tables, v)
    requires forall id :: id in t.inPhys ==> id in s.inPhys && t.inPhys[id] == s.inPhys[id]
    requires forall id :: id in s.inPhys && s.inPhys[id] == 0 ==> id in t.inPhys
    ensures Id(s, v) in s.inPhys && Ent(s.tables, v).ppage == 0 ==>
      Id(s, v) in t.inPhys && Ent(t.tables, v).ppage == 0
    ensures |t.mem| > 0
  {
    assert EntryOk(s, Id(s, v), Ent(s.tables, v)) && EntryOk(t, Id(t, v), Ent(t.tables, v));
  }

  lemma ResidentFacts(s: State, v: VPage)
    requires Inv(s) && Mapped(s, v) && HasEntry(s.tables, v) && Id(s, v) in s.inPhys
    ensures Ent(s.tables, v).ppage < |s.frames|
    ensures v in Sharers(s.peers, Id(s, v))
    ensures forall w :: w in Sharers(s.peers, Id(s, v)) ==> HasEntry(s.tables, w)
    ensures !s.frames[Ent(s.tables, v).ppage].dirty ==> !Ent(s.tables, v).writeEnable
  {
    SharersHaveEntries(s, Id(s, v));
    assert EntryOk(s, Id(s, v), Ent(s.tables, v));
  }

  function Prefixed(prefix: seq<Byte>, rest: Option<seq<Byte>>): Option<seq<Byte>> {
    if rest.None? then None else Some(prefix + rest.value)
  }

  lemma PrefixedEmpty(rest: Option<seq<Byte>>)
    ensures Prefixed([], rest) == rest
  {
    if rest.Some? { assert [] + rest.value == rest.value; }
  }

  lemma PrefixedMore(prefix: seq<Byte>, b: Byte, rest: Option<seq<Byte>>)
    ensures Prefixed(prefix + [b], rest) == Prefixed(prefix, Prefixed([b], rest))
  {
    if rest.Some? { assert prefix + [b] + rest.value == prefix + ([b] + rest.value); }
  }

  lemma ResidentFrame(s: State, id: FileId)
    requires FramesOk(s) && InverseOk(s)
    ensures id in s.inPhys ==> s.inPhys[id] < |s.frames|
  {
  }

  class Pager {
    const numMemoryPages: nat
    const swapBlocks: nat
    const physmem: array<Page>
    var physicalTable: seq<Frame>
    var availablePhysicalPages: seq<nat>
    var clockQueue: seq<nat>
    var peerInPhys: map<FileId, nat>
    var peerMap: map<FileId, set<VPage>>
    var tables: map<int, Table>
    var curTable: Option<int>
    var curPid: int
    var availableSwapBlocks: seq<nat>
    var numSwapBlocks: nat
    var disk: map<FileId, Page>
    ghost var gone: set<VPage>

    ghost function S(): State
      reads this, physmem
    {
      State(physicalTable, availablePhysicalPages, clockQueue, peerInPhys, peerMap, tables, curTable, curPid,
            availableSwapBlocks, swapBlocks, numSwapBlocks, physmem[..], disk, gone)
    }

    /** `vm_init` on a disk with the given contents. */
    constructor (memoryPages: nat, swapBlocks: nat, disk: map<FileId, Page>)
      requires memoryPages >= 2
      ensures Initial(S(), memoryPages, swapBlocks) && S().disk == disk
      ensures Sound(S()) && fresh(physmem)
    {
      numMemoryPages := memoryPages;
      this.swapBlocks := swapBlocks;
      numSwapBlocks := swapBlocks;
      physmem := new Page[memoryPages](_ => ZeroPage());
      physicalTable := seq(memoryPages, _ => Frame(false, false, Swap(0)));
      availablePhysicalPages := seq(memoryPages - 1, i => i + 1);
      clockQueue, peerInPhys, peerMap, tables := [], map[], map[], map[];
      curTable, curPid := None, -1;
      availableSwapBlocks := seq(swapBlocks, i => i);
      this.disk := disk;
      gone := {};
      new;
      InitialInv(S(), memoryPages, swapBlocks);
    }

    method DisableAll(victims: set<VPage>)
      requires forall w :: w in victims ==> HasEntry(tables, w)
      modifies this`tables
      ensures tables == Patch(old(tables), victims, PagerModel.Disable)
    {
      hide Patch, HasEntry;
      var todo := victims;
      PatchNone(tables, PagerModel.Disable);
      assert victims - todo == {};
      while todo != {}
        invariant todo <= victims
        invariant tables == Patch(old(tables), victims - todo, PagerModel.Disable)
        decreases |todo|
      {
        var victim :| victim in todo;
        PatchMore(old(tables), victims - todo, victim, PagerModel.Disable);
        var e := Ent(tables, victim);
        tables := PutEntry(tables, victim, e.(readEnable := false, writeEnable := false));
        assert victims - (todo - {victim}) == (victims - todo) + {victim};
        todo := todo - {victim};
      }
      assert victims - {} == victims;
    }

    /** The branch of the clock loop that takes the frame at the front. */
    method TakeFront()
      requires ClockReady(S())
      modifies this`clockQueue, this`availablePhysicalPages, this`peerInPhys, this`physicalTable, this`disk
      ensures S() == PagerModel.Evict(old(S()))
    {
      var ppage := clockQueue[0];
      clockQueue := clockQueue[1..];
      var id := physicalTable[ppage].id;
      if physicalTable[ppage].dirty {
        disk := disk[id := physmem[ppage]];
      }
      peerInPhys := peerInPhys - {id};
      physicalTable := physicalTable[ppage := physicalTable[ppage].(dirty := false)];
      availablePhysicalPages := availablePhysicalPages + [ppage];
    }

    /** The branch of the clock loop that passes over the frame at the front. */
    method PassFront()
      requires ClockReady(S())
      requires forall w :: w in Sharers(peerMap, physicalTable[clockQueue[0]].id) ==> HasEntry(tables, w)
      modifies this`clockQueue, this`physicalTable, this`tables
      ensures S() == SecondChance(old(S()))
    {
      var ppage := clockQueue[0];
      clockQueue := clockQueue[1..];
      DisableAll(Sharers(peerMap, physicalTable[ppage].id));
      physicalTable := physicalTable[ppage := physicalTable[ppage].(referenced := false)];
      clockQueue := clockQueue + [ppage];
    }

    /** `get_free_physical_page`: the clock turns until a frame is free, at most once around plus one step. */
    method GetFreePhysicalPage()
      requires Inv(S())
      modifies this`clockQueue, this`availablePhysicalPages, this`peerInPhys, this`physicalTable, this`disk, this`tables
      ensures S() == GetFree(old(S()))
    {
      ghost var s := S();
      ghost var stop := FirstUnreferenced(physicalTable, clockQueue);
      ghost var k := 0;
      hide FramesOk, InverseOk, PeersOk, BitsOk, TablesOk, SwapOk, MemOk, Patch, PagerModel.Evict, SecondChance,
        Sharers, HasEntry;
      while availablePhysicalPages == []
        invariant k <= stop <= |s.clock|
        invariant if availablePhysicalPages == [] then s.free == [] && S() == Chances(s, k) else S() == GetFree(s)
        decreases stop - k
      {
        HandAt(s, k);
        if !physicalTable[clockQueue[0]].referenced {
          TakeFront();
          EvictShape(Chances(s, k));
          break;
        }
        SharersHaveEntries(S(), physicalTable[clockQueue[0]].id);
        PassFront();
        k := k + 1;
        HandAt(s, k);
      }
    }

    /** Reads a block into a frame; a block of a file may be unreadable, and then the frame holds whatever it holds. */
    method FileRead(ppage: nat, id: FileId, env: Env) returns (ok: bool)
      requires ppage < physmem.Length
      modifies physmem
      ensures ok <==> id.Swap? || id in env.readable
      ensures physmem[..] == old(physmem[..])[ppage := if ok then Backing(disk, id) else env.garbage]
    {
      ok := id.Swap? || id in env.readable;
      physmem[ppage] := if ok then Backing(disk, id) else env.garbage;
    }

    /** `set_physical_page`: fills the first free frame from the disk, or from the zero page if `v` sits there. */
    method SetPhysicalPage(v: VPage, env: Env) returns (ok: bool)
      requires Mapped(S(), v) && HasEntry(tables, v)
      requires availablePhysicalPages != [] && availablePhysicalPages[0] < |physicalTable| == physmem.Length
      requires Id(S(), v) in peerInPhys ==> Ent(tables, v).ppage < physmem.Length
      modifies this`availablePhysicalPages, this`clockQueue, this`physicalTable, this`peerInPhys, this`tables, physmem
      ensures ok <==> !ReadFails(old(S()), Id(old(S()), v), env)
      ensures ok ==> S() == Install(old(S()), v,
        if Id(old(S()), v) in old(peerInPhys) then old(physmem[..])[Ent(old(tables), v).ppage]
        else Backing(old(disk), Id(old(S()), v)))
      ensures !ok ==> S() == old(S()).(mem := old(S()).mem[old(availablePhysicalPages)[0] := env.garbage])
    {
      var ppage := availablePhysicalPages[0];
      var id := tables[v.pid].vps[v.vpn];
      if id !in peerInPhys {
        var read := FileRead(ppage, id, env);
        if !read {
          return false;
        }
      } else {
        physmem[ppage] := physmem[Ent(tables, v).ppage];
      }
      physicalTable := physicalTable[ppage := physicalTable[ppage].(id := id)];
      availablePhysicalPages := availablePhysicalPages[1..];
      clockQueue := clockQueue + [ppage];
      peerInPhys := peerInPhys[id := ppage];
      tables := PutEntry(tables, v, Ent(tables, v).(ppage := ppage));
      ok := true;
    }

    /** `set_peer`: every page of the set gets the frame and the write permission of `v`, and may be read. */
    method SetPeer(peer: set<VPage>, v: VPage)
      requires HasEntry(tables, v) && forall w :: w in peer ==> HasEntry(tables, w)
      modifies this`tables
      ensures tables == Patch(old(tables), peer,
        Assign(Entry(Ent(old(tables), v).ppage, true, Ent(old(tables), v).writeEnable)))
    {
      var e := Entry(Ent(tables, v).ppage, true, Ent(tables, v).writeEnable);
      hide Patch, HasEntry;
      var todo := peer;
      PatchNone(tables, Assign(e));
      assert peer - todo == {};
      while todo != {}
        invariant todo <= peer
        invariant tables == Patch(old(tables), peer - todo, Assign(e))
        decreases |todo|
      {
        var vp :| vp in todo;
        PatchNext(old(tables), peer, todo, vp, e);
        tables := PutEntry(tables, vp, e);
        todo := todo - {vp};
      }
      assert peer - {} == peer;
    }

    /** The end of `vm_fault`: the page becomes readable, its frame referenced, and all sharers follow. */
    method Admit(v: VPage)
      requires Mapped(S(), v) && HasEntry(tables, v) && Ent(tables, v).ppage < |physicalTable|
      requires v in Sharers(peerMap, Id(S(), v))
      requires forall w :: w in Sharers(peerMap, Id(S(), v)) ==> HasEntry(tables, w)
      requires Ent(tables, v).writeEnable == physicalTable[Ent(tables, v).ppage].dirty
      modifies this`physicalTable, this`tables
      ensures S() == Touch(old(S()), v, false)
    {
      var id := tables[v.pid].vps[v.vpn];
      var f := Ent(tables, v).ppage;
      tables := PutEntry(tables, v, Ent(tables, v).(readEnable := true));
      physicalTable := physicalTable[f := physicalTable[f].(referenced := true)];
      SetPeer(Sharers(peerMap, id), v);
      PatchOver(old(tables), v, Ent(old(tables), v).(readEnable := true), Sharers(peerMap, id),
        Entry(f, true, Ent(old(tables), v).writeEnable));
    }

    /** The same for a write: the frame becomes dirty and the page writable. */
    method AdmitWrite(v: VPage)
      requires Mapped(S(), v) && HasEntry(tables, v) && Ent(tables, v).ppage < |physicalTable|
      requires v in Sharers(peerMap, Id(S(), v))
      requires forall w :: w in Sharers(peerMap, Id(S(), v)) ==> HasEntry(tables, w)
      modifies this`physicalTable, this`tables
      ensures S() == Touch(old(S()), v, true)
    {
      TouchWritten(S(), v);
      hide Touch;
      var f := Ent(tables, v).ppage;
      physicalTable := physicalTable[f := physicalTable[f].(dirty := true)];
      tables := PutEntry(tables, v, Ent(tables, v).(writeEnable := true));
      Admit(v);
    }

    /** `get_free_physical_page` followed by `set_physical_page`. */
    method PageIn(v: VPage, env: Env) returns (ok: bool)
      requires Inv(S()) && Mapped(S(), v) && HasEntry(tables, v)
      requires Id(S(), v) in peerInPhys ==> Ent(tables, v).ppage == 0
      modifies this`clockQueue, this`availablePhysicalPages, this`peerInPhys, this`physicalTable, this`disk, this`tables
      modifies physmem
      ensures Inv(GetFree(old(S()))) && GetFree(old(S())).free != []
      ensures Mapped(GetFree(old(S())), v) && HasEntry(GetFree(old(S())).tables, v)
      ensures GetFree(old(S())).free[0] < |GetFree(old(S())).frames| == |GetFree(old(S())).mem|
      ensures ok <==> !ReadFails(old(S()), Id(old(S()), v), env)
      ensures ok ==> S() == Install(GetFree(old(S())), v, FillData(old(S()), v))
      ensures !ok ==> S() == GetFree(old(S())).(mem := GetFree(old(S())).mem[GetFree(old(S())).free[0] := env.garbage])
      ensures Id(GetFree(old(S())), v) == Id(old(S()), v)
      ensures Id(old(S()), v) !in old(peerInPhys) ==> Id(old(S()), v) !in GetFree(old(S())).inPhys
    {
      GetFreeKeeps(S());
      GetFreeEntry(S(), v);
      ZeroEntries(S(), GetFree(S()), v);
      hide Inv, GetFree, EntryOk, Install;
      GetFreePhysicalPage();
      ok := SetPhysicalPage(v, env);
    }

    method WriteFault(v: VPage, env: Env) returns (ok: bool)
      requires Ready(S()) && v == Cur(S(), v.vpn) && v.vpn < |Arena(S())|
      modifies this`clockQueue, this`availablePhysicalPages, this`peerInPhys, this`physicalTable, this`disk, this`tables
      modifies physmem
      ensures (S(), ok) == Fault(old(S()), v.vpn, true, env)
    {
      CurMapped(S(), v.vpn);
      var id := tables[v.pid].vps[v.vpn];
      ghost var s := S();
      hide FramesOk, InverseOk, PeersOk, BitsOk, TablesOk, SwapOk, MemOk, EntryOk, GetFree, Touch, Install;
      if id !in peerInPhys || Ent(tables, v).ppage == 0 {
        ok := PageIn(v, env);
        if !ok {
          return;
        }
        InstallFacts(GetFree(s), v, FillData(s, v));
      } else {
        ResidentFacts(s, v);
      }
      AdmitWrite(v);
      return true;
    }

    method ReadFault(v: VPage, env: Env) returns (ok: bool)
      requires Ready(S()) && v == Cur(S(), v.vpn) && v.vpn < |Arena(S())|
      modifies this`clockQueue, this`availablePhysicalPages, this`peerInPhys, this`physicalTable, this`disk, this`tables
      modifies physmem
      ensures (S(), ok) == Fault(old(S()), v.vpn, false, env)
    {
      CurMapped(S(), v.vpn);
      var id := tables[v.pid].vps[v.vpn];
      ghost var s := S();
      hide FramesOk, InverseOk, PeersOk, BitsOk, TablesOk, SwapOk, MemOk, EntryOk, GetFree, Touch, Install;
      if id !in peerInPhys {
        ok := PageIn(v, env);
        if !ok {
          return;
        }
        InstallFacts(GetFree(s), v, FillData(s, v));
      } else {
        ResidentFacts(s, v);
        if physicalTable[Ent(tables, v).ppage].dirty {
          TouchRestored(S(), v);
          tables := PutEntry(tables, v, Ent(tables, v).(writeEnable := true));
        }
      }
      Admit(v);
      return true;
    }

    /** `vm_fault` at address `a` of the arena. */
    method VmFault(a: nat, write: bool, env: Env) returns (ok: bool)
      requires Ready(S())
      modifies this`clockQueue, this`availablePhysicalPages, this`peerInPhys, this`physicalTable, this`disk, this`tables
      modifies physmem
      ensures (S(), ok) == Fault(old(S()), a / VM_PAGESIZE, write, env)
    {
      var vpn := a / VM_PAGESIZE;
      CurMapped(S(), vpn);
      if vpn >= |tables[curTable.value].vps| {
        return false;
      }
      var v := VPage(curTable.value, vpn);
      hide Inv, Fault;
      if write {
        ok := WriteFault(v, env);
      } else {
        ok := ReadFault(v, env);
      }
    }

    /** The memory management unit: an access that the entry forbids faults, once. */
    method Access(a: nat, write: bool, env: Env) returns (ok: bool)
      requires Ready(S())
      modifies this`clockQueue, this`availablePhysicalPages, this`peerInPhys, this`physicalTable, this`disk, this`tables
      modifies physmem
      ensures (S(), ok) == PagerRuns.Access(old(S()), a / VM_PAGESIZE, write, env)
    {
      hide Inv, Fault;
      var v := VPage(curTable.value, a / VM_PAGESIZE);
      ok := HasEntry(tables, v) && if write then Ent(tables, v).writeEnable else Ent(tables, v).readEnable;
      if !ok {
        ok := VmFault(a, write, env);
      }
    }

    /** A load by the running process. */
    method Read(a: nat, env: Env) returns (r: Option<Byte>)
      requires Ready(S())
      modifies this`clockQueue, this`availablePhysicalPages, this`peerInPhys, this`physicalTable, this`disk, this`tables
      modifies physmem
      ensures (S(), r) == Load(old(S()), a, env)
    {
      hide Inv, PagerRuns.Access;
      AccessKeeps(S(), a / VM_PAGESIZE, false, env);
      var v := VPage(curTable.value, a / VM_PAGESIZE);
      var ok := Access(a, false, env);
      r := if ok then Some(physmem[Ent(tables, v).ppage][a % VM_PAGESIZE]) else None;
    }

    /** A store by the running process. */
    method Write(a: nat, b: Byte, env: Env) returns (ok: bool)
      requires Ready(S())
      modifies this`clockQueue, this`availablePhysicalPages, this`peerInPhys, this`physicalTable, this`disk, this`tables
      modifies physmem
      ensures (S(), ok) == Store(old(S()), a, b, env)
    {
      hide Inv, PagerRuns.Access;
      AccessKeeps(S(), a / VM_PAGESIZE, true, env);
      var v := VPage(curTable.value, a / VM_PAGESIZE);
      ok := Access(a, true, env);
      if ok {
        var f := Ent(tables, v).ppage;
        physmem[f] := physmem[f][a % VM_PAGESIZE := b];
      }
    }

    /** `vm_create`. */
    method VmCreate(parent: int, child: int) returns (ok: bool)
      requires Sound(S()) && child !in tables
      modifies this`tables, this`numSwapBlocks
      ensures ok <==> Create(old(S()), parent, child).Some?
      ensures S() == if ok then Create(old(S()), parent, child).value else old(S())
    {
      if parent in tables {
        if tables[parent].occupied > numSwapBlocks {
          return false;
        }
        numSwapBlocks := numSwapBlocks - tables[parent].occupied;
      }
      tables := tables[child := EmptyTable()];
      ok := true;
    }

    /** `vm_switch`. */
    method VmSwitch(pid: int)
      requires Sound(S()) && pid in tables
      modifies this`curTable, this`curPid
      ensures S() == SwitchTo(old(S()), pid)
    {
      if curPid != pid {
        curTable := Some(pid);
        curPid := pid;
      }
    }

    /** The part of `vm_map` that adds a private page. */
    method AddPrivate()
      requires curTable.Some? && curTable.value in tables && availableSwapBlocks != [] && numSwapBlocks > 0
      requires |tables[curTable.value].vps| < |tables[curTable.value].ptbr|
      modifies this`availableSwapBlocks, this`numSwapBlocks, this`tables, this`peerMap, this`peerInPhys
      ensures S() == MapSwap(old(S()))
    {
      var p := curTable.value;
      var t := tables[p];
      var cnt := |t.vps|;
      var block := availableSwapBlocks[0];
      availableSwapBlocks := availableSwapBlocks[1..];
      var id := Swap(block);
      tables := tables[p := Table(t.ptbr[cnt := Entry(0, true, false)], t.vps + [id], t.occupied + 1)];
      numSwapBlocks := numSwapBlocks - 1;
      peerMap := peerMap[id := Sharers(peerMap, id) + {VPage(p, cnt)}];
      peerInPhys := peerInPhys[id := 0];
    }

    /** `vm_map` without a file name: on success the result is the address of the new page. */
    method VmMapPrivate() returns (r: Option<nat>)
      requires Ready(S())
      modifies this`availableSwapBlocks, this`numSwapBlocks, this`tables, this`peerMap, this`peerInPhys
      ensures (S(), r.Some?) == MapPrivately(old(S()))
      ensures r.Some? <==> |Arena(old(S()))| < MAX_PAGE_NUM && old(numSwapBlocks) > 0
      ensures r.Some? ==> r.value == |Arena(old(S()))| * VM_PAGESIZE
    {
      CurTable(S());
      CurMapped(S(), 0);
      var cnt := |tables[curTable.value].vps|;
      if cnt >= MAX_PAGE_NUM || numSwapBlocks == 0 {
        return None;
      }
      MapSwapKeeps(S());
      hide Inv, MapSwap, Mapped, Id;
      AddPrivate();
      r := Some(cnt * VM_PAGESIZE);
    }

    /** The loop of `vm_map` that reads the file name out of the arena. */
    method ReadName(filename: nat, env: Env) returns (name: Option<seq<Byte>>)
      requires Ready(S())
      modifies this`clockQueue, this`availablePhysicalPages, this`peerInPhys, this`physicalTable, this`disk, this`tables
      modifies physmem
      ensures (S(), name) == Scan(old(S()), filename, env)
    {
      hide Inv, Load, Ready, Content, SameContents, SameArenas;
      ghost var s := S();
      var temp := 0;
      var prefix: seq<Byte> := [];
      PrefixedEmpty(Scan(s, filename, env).1);
      while true
        invariant Ready(S()) && Arena(S()) == Arena(s)
        invariant Scan(s, filename, env).0 == Scan(S(), filename + temp, env).0
        invariant Scan(s, filename, env).1 == Prefixed(prefix, Scan(S(), filename + temp, env).1)
        decreases |Arena(s)| * VM_PAGESIZE - filename - temp
      {
        CurTable(S());
        if (filename + temp) / VM_PAGESIZE >= |tables[curTable.value].vps| {
          return None;
        }
        LoadKeeps(S(), filename + temp, env);
        var b := Read(filename + temp, env);
        if b.None? {
          return None;
        }
        if b.value == 0 {
          return Some(prefix + [b.value]);
        }
        PrefixedMore(prefix, b.value, Scan(S(), filename + temp + 1, env).1);
        prefix := prefix + [b.value];
        temp := temp + 1;
      }
    }

    /** The part of `vm_map` that adds a page backed by a file. */
    method AddShared(id: FileId)
      requires curTable.Some? && curTable.value in tables
      requires |tables[curTable.value].vps| < |tables[curTable.value].ptbr|
      requires id in peerInPhys ==> peerInPhys[id] < |physicalTable|
      modifies this`tables, this`peerMap
      ensures S() == MapFile(old(S()), id)
    {
      var p := curTable.value;
      var t := tables[p];
      var cnt := |t.vps|;
      var e := Entry(|physicalTable|, false, false);
      if id in peerInPhys {
        var f := peerInPhys[id];
        e := Entry(f, false, false);
        if physicalTable[f].referenced {
          e := e.(readEnable := true);
          if physicalTable[f].dirty {
            e := e.(writeEnable := true);
          }
        }
      }
      tables := tables[p := t.(ptbr := t.ptbr[cnt := e], vps := t.vps + [id])];
      peerMap := peerMap[id := Sharers(peerMap, id) + {VPage(p, cnt)}];
    }

    /** `vm_map` with the name of a file at address `filename`. */
    method VmMapFile(filename: nat, block: nat, env: Env) returns (r: Option<nat>)
      requires Ready(S())
      modifies this`clockQueue, this`availablePhysicalPages, this`peerInPhys, this`physicalTable, this`disk, this`tables
      modifies this`peerMap, physmem
      ensures (S(), r.Some?) == MapNamed(old(S()), filename, block, env)
      ensures r.Some? ==> r.value == |Arena(old(S()))| * VM_PAGESIZE
    {
      CurTable(S());
      CurMapped(S(), 0);
      var cnt := |tables[curTable.value].vps|;
      if cnt >= MAX_PAGE_NUM {
        return None;
      }
      ScanKeeps(S(), filename, env);
      hide FramesOk, InverseOk, PeersOk, BitsOk, TablesOk, SwapOk, MemOk, EntryOk, Scan, NameAt, MapFile, Mapped, Id,
        SameArenas, SameContents;
      var name := ReadName(filename, env);
      if name.None? {
        return None;
      }
      MapFileKeeps(S(), File(name.value, block));
      CurTable(S());
      ResidentFrame(S(), File(name.value, block));
      AddShared(File(name.value, block));
      r := Some(cnt * VM_PAGESIZE);
    }

    /** Makes frame `f`, which holds the page backed by `id`, available again. */
    method FreeFrame(f: nat, id: FileId)
      requires f < |physicalTable|
      modifies this`physicalTable, this`availablePhysicalPages, this`clockQueue, this`peerInPhys
      ensures physicalTable == old(physicalTable)[f := old(physicalTable)[f].(dirty := false)]
      ensures availablePhysicalPages == old(availablePhysicalPages) + [f]
      ensures clockQueue == RemoveFirst(old(clockQueue), f) && peerInPhys == old(peerInPhys) - {id}
    {
      physicalTable := physicalTable[f := physicalTable[f].(dirty := false)];
      availablePhysicalPages := availablePhysicalPages + [f];
      clockQueue := RemoveFirst(clockQueue, f);
      peerInPhys := peerInPhys - {id};
    }

    /** The body of the loop of `vm_destroy`. */
    method DropOne(v: VPage)
      requires Mapped(S(), v) && HasEntry(tables, v)
      requires Id(S(), v) in peerInPhys ==> Ent(tables, v).ppage < |physicalTable|
      modifies this`peerMap, this`physicalTable, this`availablePhysicalPages, this`clockQueue, this`peerInPhys
      modifies this`availableSwapBlocks, this`gone
      ensures S() == DropPage(old(S()), v)
    {
      var id := tables[v.pid].vps[v.vpn];
      peerMap := peerMap[id := Sharers(peerMap, id) - {v}];
      if id in peerInPhys && Ent(tables, v).ppage != 0 {
        if id.Swap? {
          FreeFrame(Ent(tables, v).ppage, id);
        }
      }
      if id.Swap? {
        availableSwapBlocks := availableSwapBlocks + [id.block];
      }
      gone := gone + {v};
    }

    /** `vm_destroy`. */
    method VmDestroy()
      requires Ready(S())
      modifies this
      ensures S() == ExitCurrent(old(S()))
    {
      hide SwapBlocks, SameFileFrames;
      ghost var s := S();
      CurTable(s);
      ExitKeeps(s);
      var p := curTable.value;
      var vps := tables[p].vps;
      var i := 0;
      hide FramesOk, InverseOk, PeersOk, BitsOk, TablesOk, SwapOk, MemOk, DropPage, Mapped, HasEntry, Content, Tracked;
      while i < |vps|
        invariant i <= |vps|
        invariant curTable == Some(p) && tables == s.tables
        invariant S() == DropFirst(s, p, i)
      {
        DropFirstInv(s, p, i + 1);
        DropOne(VPage(p, i));
        i := i + 1;
      }
      numSwapBlocks := numSwapBlocks + tables[p].occupied;
      tables := tables - {p};
      curTable := None;
      gone := set v | v in gone && v.pid != p;
    }
  }
}
