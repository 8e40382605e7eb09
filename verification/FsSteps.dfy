/** The frame of one step: what has to be shown of it so that it keeps the invariant for every handler. */
module FsSteps {
  import opened Common
  import opened FsModel
  import opened FsCommits
  import opened FsThreads
  import opened FsInvariant

  // ---------------------------------------------------------------- the frame of one step

  ghost predicate MineOf(excl: map<nat, int>, t: int, mine: set<nat>) {
    forall i :: i in mine ==> i in excl && excl[i] == t
  }

  lemma LocksStep(excl: map<nat, int>, shared: set<Hold>, threads: map<int, Thread>, t: int, th: Thread,
                  excl': map<nat, int>, shared': set<Hold>)
    requires LocksOk(excl, shared, threads) && t in threads
    requires forall h :: h in shared' <==> if h.thread == t then h.ino in SharedBy(th) else h in shared
    requires forall i :: i in ExclBy(th) <==> i in excl' && excl'[i] == t
    requires forall i :: i in excl && excl[i] != t ==> i in excl' && excl'[i] == excl[i]
    requires forall i :: i in excl' && excl'[i] != t ==> i in excl && excl'[i] == excl[i]
    requires forall h :: h in shared' ==> h.ino !in excl'
    ensures LocksOk(excl', shared', threads[t := th])
  {
    hide SharedBy, ExclBy;
  }

  lemma StepFrame(s: State, t: int, th: Thread, g: Fs, free: seq<nat>, excl: map<nat, int>, shared: set<Hold>,
                  mine: set<nat>, gone: nat)
    requires Inv(s) && t in s.threads
    requires WellFormed(g) && FreeOk(g, free) && PrivateOk(g, s.threads[t := th])
    requires LocksOk(excl, shared, s.threads[t := th]) && PcOk(g, th)
    requires MineOf(s.excl, t, mine) && Stable(s.fs, g, t, mine, gone)
    ensures Inv(State(g, free, excl, shared, s.threads[t := th]))
  {
    forall u | u in s.threads && u != t ensures PcOk(g, s.threads[u]) {
      OthersDisjoint(s, t, u, mine);
      hide PcOk, Stable, WellFormed, FreeOk, LocksOk;
      assert PcOk(s.fs, s.threads[u]) && HeldOk(s.fs, u, s.threads[u].held);
      PcStable(s.fs, g, t, mine, gone, u, s.threads[u]);
    }
    hide PcOk, Stable, WellFormed, FreeOk, LocksOk, PrivateOk;
  }

  lemma OthersDisjoint(s: State, t: int, u: int, mine: set<nat>)
    requires LocksOk(s.excl, s.shared, s.threads) && u in s.threads && u != t && MineOf(s.excl, t, mine)
    ensures forall i :: i in SharedBy(s.threads[u]) + ExclBy(s.threads[u]) ==> i !in mine
  {
    hide SharedBy, ExclBy;
    forall i | i in SharedBy(s.threads[u]) ensures i !in mine {
      assert Hold(u, i) in s.shared;
    }
  }

  lemma StableSelf(f: Fs, t: int)
    requires InodesOk(f)
    ensures Stable(f, f, t, {}, 0)
  {
  }

  lemma PrivateSame(f: Fs, threads: map<int, Thread>, t: int, th: Thread)
    requires PrivateOk(f, threads) && t in threads && th.held == threads[t].held
    ensures PrivateOk(f, threads[t := th])
  {
    hide HeldOk;
  }

  /** A step that only moves the handler and its locks. */
  lemma LockFrame(s: State, t: int, pc: Pc, excl: map<nat, int>, shared: set<Hold>)
    requires Inv(s) && t in s.threads && PcOk(s.fs, s.threads[t].(pc := pc))
    requires LocksOk(excl, shared, s.threads[t := s.threads[t].(pc := pc)])
    ensures Inv(Go(s.(excl := excl, shared := shared), t, pc))
  {
    var th := s.threads[t].(pc := pc);
    assert WellFormed(s.fs) && InodesOk(s.fs);
    StableSelf(s.fs, t);
    PrivateSame(s.fs, s.threads, t, th);
    hide WellFormed, FreeOk, PrivateOk, LocksOk, ThreadsOk, PcOk, Stable;
    StepFrame(s, t, th, s.fs, s.free, excl, shared, {}, 0);
  }

  /** The same when no lock changes hands. */
  lemma PcFrame(s: State, t: int, pc: Pc)
    requires Inv(s) && t in s.threads && PcOk(s.fs, s.threads[t].(pc := pc))
    requires SharedBy(s.threads[t].(pc := pc)) == SharedBy(s.threads[t])
    requires ExclBy(s.threads[t].(pc := pc)) == ExclBy(s.threads[t])
    ensures Inv(Go(s, t, pc))
  {
    hide WellFormed, FreeOk, PrivateOk, ThreadsOk, PcOk, SharedBy, ExclBy;
    LocksStep(s.excl, s.shared, s.threads, t, s.threads[t].(pc := pc), s.excl, s.shared);
    hide LocksOk;
    LockFrame(s, t, pc, s.excl, s.shared);
  }

  lemma AddSharedFrame(s: State, t: int, i: nat, pc: Pc)
    requires Inv(s) && t in s.threads && PcOk(s.fs, s.threads[t].(pc := pc)) && CanShare(s, i)
    requires SharedBy(s.threads[t].(pc := pc)) == SharedBy(s.threads[t]) + {i}
    requires ExclBy(s.threads[t].(pc := pc)) == ExclBy(s.threads[t])
    ensures Inv(Go(AddShared(s, t, i), t, pc))
  {
    hide WellFormed, FreeOk, PrivateOk, ThreadsOk, PcOk, SharedBy, ExclBy;
    LocksStep(s.excl, s.shared, s.threads, t, s.threads[t].(pc := pc), s.excl, s.shared + {Hold(t, i)});
    hide LocksOk;
    LockFrame(s, t, pc, s.excl, s.shared + {Hold(t, i)});
  }

  lemma DropSharedFrame(s: State, t: int, i: nat, pc: Pc)
    requires Inv(s) && t in s.threads && PcOk(s.fs, s.threads[t].(pc := pc)) && i in SharedBy(s.threads[t])
    requires SharedBy(s.threads[t].(pc := pc)) == SharedBy(s.threads[t]) - {i}
    requires ExclBy(s.threads[t].(pc := pc)) == ExclBy(s.threads[t])
    ensures Inv(Go(DropShared(s, t, i), t, pc)) && Hold(t, i) in s.shared
  {
    hide WellFormed, FreeOk, PrivateOk, ThreadsOk, PcOk, SharedBy, ExclBy;
    LocksStep(s.excl, s.shared, s.threads, t, s.threads[t].(pc := pc), s.excl, s.shared - {Hold(t, i)});
    LockFrame(s, t, pc, s.excl, s.shared - {Hold(t, i)});
  }

  lemma AddExclFrame(s: State, t: int, i: nat, pc: Pc)
    requires Inv(s) && t in s.threads && PcOk(s.fs, s.threads[t].(pc := pc)) && CanOwn(s, i)
    requires SharedBy(s.threads[t].(pc := pc)) == SharedBy(s.threads[t])
    requires ExclBy(s.threads[t].(pc := pc)) == ExclBy(s.threads[t]) + {i}
    ensures Inv(Go(AddExcl(s, t, i), t, pc))
  {
    hide WellFormed, FreeOk, PrivateOk, ThreadsOk, PcOk, SharedBy, ExclBy;
    LocksStep(s.excl, s.shared, s.threads, t, s.threads[t].(pc := pc), s.excl[i := t], s.shared);
    hide LocksOk;
    LockFrame(s, t, pc, s.excl[i := t], s.shared);
  }

  lemma DropExclFrame(s: State, t: int, i: nat, pc: Pc)
    requires Inv(s) && t in s.threads && PcOk(s.fs, s.threads[t].(pc := pc)) && i in ExclBy(s.threads[t])
    requires SharedBy(s.threads[t].(pc := pc)) == SharedBy(s.threads[t])
    requires ExclBy(s.threads[t].(pc := pc)) == ExclBy(s.threads[t]) - {i}
    ensures Inv(Go(DropExcl(s, i), t, pc)) && i in s.excl && s.excl[i] == t
  {
    hide WellFormed, FreeOk, PrivateOk, ThreadsOk, PcOk, SharedBy, ExclBy;
    LocksStep(s.excl, s.shared, s.threads, t, s.threads[t].(pc := pc), s.excl - {i}, s.shared);
    LockFrame(s, t, pc, s.excl - {i}, s.shared);
  }

  // ---------------------------------------------------------------- blocks that change hands

  /** Blocks that belong to no inode may be handed around freely. */
  lemma HandOver(f: Fs, use: seq<Use>)
    requires WellFormed(f) && |use| == |f.use|
    requires forall b :: 0 <= b < |use| ==> use[b] == f.use[b] || (Loose(f, b) && (use[b].Free? || use[b].Private?))
    ensures WellFormed(f.(use := use))
  {
    var g := f.(use := use);
    HandOverBlocks(f, use);
    forall i | i in g.link && i != 0 ensures Hangs(g, i) {
      assert Hangs(f, i);
    }
    HandOverFull(f, use);
    hide InodesOk, UseOk, SlotAt, Blocks, IsDir;
  }

  lemma HandOverBlocks(f: Fs, use: seq<Use>)
    requires InodesOk(f) && UseOk(f) && |use| == |f.use|
    requires forall b :: 0 <= b < |use| ==> use[b] == f.use[b] || (Loose(f, b) && (use[b].Free? || use[b].Private?))
    ensures InodesOk(f.(use := use)) && UseOk(f.(use := use))
  {
  }

  lemma HandOverFull(f: Fs, use: seq<Use>)
    requires NoEmptyBlocks(f)
    ensures NoEmptyBlocks(f.(use := use))
  {
    hide SlotAt, Blocks, IsDir;
  }

  lemma HandOverStable(f: Fs, use: seq<Use>, t: int)
    requires InodesOk(f) && |use| == |f.use|
    requires Reassigned(f.use, use, t)
    ensures Stable(f, f.(use := use), t, {}, 0)
  {
  }

  /** Blocks went only between the free queue and handler `t`. */
  ghost predicate Reassigned(use: seq<Use>, use': seq<Use>, t: int) {
    && |use'| == |use|
    && (forall b :: 0 <= b < |use| ==> use'[b] == use[b] || (FreeOrOf(use[b], t) && FreeOrOf(use'[b], t)))
  }

  predicate FreeOrOf(u: Use, t: int) {
    u == Free || u == Private(t)
  }

  /** A step that only hands blocks around. */
  lemma UseFrame(s: State, t: int, th: Thread, use: seq<Use>, free: seq<nat>)
    requires Inv(s) && t in s.threads && Reassigned(s.fs.use, use, t)
    requires FreeOk(s.fs.(use := use), free) && PrivateOk(s.fs.(use := use), s.threads[t := th])
    requires SharedBy(th) == SharedBy(s.threads[t]) && ExclBy(th) == ExclBy(s.threads[t]) && PcOk(s.fs.(use := use), th)
    ensures Inv(State(s.fs.(use := use), free, s.excl, s.shared, s.threads[t := th]))
  {
    assert InodesOk(s.fs);
    hide FreeOk, PrivateOk, LocksOk, ThreadsOk, PcOk, Stable, SharedBy, ExclBy, InodesOk, UseOk, LinksOk, EntriesOk,
      KidsOk, NoEmptyBlocks;
    HandOver(s.fs, use);
    HandOverStable(s.fs, use, t);
    SameLocks(s, t, th);
    hide WellFormed;
    StepFrame(s, t, th, s.fs.(use := use), free, s.excl, s.shared, {}, 0);
  }

  lemma Sizes(s: State, t: int)
    requires Inv(s) && t in s.threads
    ensures |s.fs.d| == |s.fs.use| == FS_DISKSIZE && HeldOk(s.fs, t, s.threads[t].held)
    ensures FreeOk(s.fs, s.free) && PrivateOk(s.fs, s.threads) && InodesOk(s.fs) && PcOk(s.fs, s.threads[t])
  {
  }

  lemma SameLocks(s: State, t: int, th: Thread)
    requires LocksOk(s.excl, s.shared, s.threads) && t in s.threads
    requires SharedBy(th) == SharedBy(s.threads[t]) && ExclBy(th) == ExclBy(s.threads[t])
    ensures LocksOk(s.excl, s.shared, s.threads[t := th])
  {
    hide SharedBy, ExclBy;
    LocksStep(s.excl, s.shared, s.threads, t, th, s.excl, s.shared);
  }

  lemma TakeBlocks(f: Fs, free: seq<nat>, threads: map<int, Thread>, t: int, pc: Pc)
    requires FreeOk(f, free) && PrivateOk(f, threads) && t in threads && free != [] && |f.d| == |f.use|
    ensures free[0] < |f.use| && f.use[free[0]] == Free
    ensures var g := f.(use := f.use[free[0] := Private(t)]);
      FreeOk(g, free[1..]) && PrivateOk(g, threads[t := threads[t].(held := threads[t].held + [free[0]], pc := pc)])
  {
    assert free[0] in free;
    var b := free[0];
    var g := f.(use := f.use[b := Private(t)]);
    assert forall c :: c in free[1..] ==> c in free && c != b;
    assert forall c :: c in free && c != b ==> c in free[1..];
    assert b !in threads[t].held;
  }

  lemma TakeFrame(s: State, t: int, pc: Pc)
    requires Inv(s) && t in s.threads && s.free != []
    requires var th := s.threads[t].(held := s.threads[t].held + [s.free[0]], pc := pc);
      && SharedBy(th) == SharedBy(s.threads[t]) && ExclBy(th) == ExclBy(s.threads[t])
      && (s.free[0] < |s.fs.use| ==> PcOk(s.fs.(use := s.fs.use[s.free[0] := Private(t)]), th))
    ensures Inv(Go(Take(s, t), t, pc))
  {
    hide FreeOk, PrivateOk, PcOk, SharedBy, ExclBy, InodesOk, HeldOk;
    Sizes(s, t);
    hide Inv;
    var th := s.threads[t].(held := s.threads[t].held + [s.free[0]], pc := pc);
    TakeBlocks(s.fs, s.free, s.threads, t, pc);
    UseFrame(s, t, th, s.fs.use[s.free[0] := Private(t)], s.free[1..]);
    assert Go(Take(s, t), t, pc).threads == s.threads[t := th];
  }

  lemma GiveFree(f: Fs, free: seq<nat>, t: int, held: seq<nat>, n: nat)
    requires FreeOk(f, free) && HeldOk(f, t, held) && n <= |held|
    ensures FreeOk(f.(use := Freed(f.use, held[..n])), free + held[..n])
  {
    var g := f.(use := Freed(f.use, held[..n]));
    assert forall b :: b in held[..n] ==> b in held;
    assert forall b :: b in free + held[..n] <==> b in free || b in held[..n];
    NoDupAppend(free, held[..n]);
  }

  lemma NoDupAppend(a: seq<nat>, b: seq<nat>)
    requires NoDup(a) && NoDup(b) && forall x :: x in a ==> x !in b
    ensures NoDup(a + b)
  {
    forall i, j | 0 <= i < j < |a + b| ensures (a + b)[i] != (a + b)[j] {
      if i < |a| { assert (a + b)[i] in a; }
      if j >= |a| { assert (a + b)[j] in b; }
    }
  }

  lemma GivePrivate(f: Fs, threads: map<int, Thread>, t: int, n: nat, pc: Pc)
    requires PrivateOk(f, threads) && t in threads && n <= |threads[t].held|
    ensures PrivateOk(f.(use := Freed(f.use, threads[t].held[..n])),
      threads[t := threads[t].(held := threads[t].held[n..], pc := pc)])
  {
    var held := threads[t].held;
    var g := f.(use := Freed(f.use, held[..n]));
    assert HeldOk(f, t, held);
    assert forall b :: b in held[..n] ==> b in held;
    assert held == held[..n] + held[n..];
    forall b | b in held[n..] ensures b in held && b !in held[..n] {
      var i :| 0 <= i < |held[n..]| && held[n..][i] == b;
      assert held[n + i] == b;
    }
    assert HeldOk(g, t, held[n..]);
    forall u | u in threads && u != t ensures HeldOk(g, u, threads[u].held) {
      assert HeldOk(f, u, threads[u].held);
      assert forall b :: b in held[..n] ==> f.use[b] == Private(t);
    }
  }

  lemma GiveFrame(s: State, t: int, n: nat, pc: Pc)
    requires Inv(s) && t in s.threads && n <= |s.threads[t].held|
    requires var th := s.threads[t].(held := s.threads[t].held[n..], pc := pc);
      && SharedBy(th) == SharedBy(s.threads[t]) && ExclBy(th) == ExclBy(s.threads[t])
      && PcOk(s.fs.(use := Freed(s.fs.use, s.threads[t].held[..n])), th)
    ensures Inv(Go(Give(s, t, n), t, pc))
  {
    hide FreeOk, PrivateOk, PcOk, SharedBy, ExclBy, InodesOk;
    Sizes(s, t);
    hide Inv;
    var held := s.threads[t].held;
    assert forall b :: b in held[..n] ==> b in held;
    GiveFree(s.fs, s.free, t, held, n);
    GivePrivate(s.fs, s.threads, t, n, pc);
    UseFrame(s, t, s.threads[t].(held := held[n..], pc := pc), Freed(s.fs.use, held[..n]), s.free + held[..n]);
    assert Go(Give(s, t, n), t, pc).threads == s.threads[t := s.threads[t].(held := held[n..], pc := pc)];
  }

  lemma WriteStable(f: Fs, t: int, b: nat, x: Block)
    requires InodesOk(f) && b < |f.use| && f.use[b] == Private(t)
    ensures Stable(f, f.(d := f.d[b := x]), t, {}, 0)
  {
  }

  lemma WriteOwners(f: Fs, free: seq<nat>, threads: map<int, Thread>, b: nat, x: Block)
    requires FreeOk(f, free) && PrivateOk(f, threads) && b < |f.d|
    ensures FreeOk(f.(d := f.d[b := x]), free) && PrivateOk(f.(d := f.d[b := x]), threads)
  {
    forall t | t in threads ensures HeldOk(f.(d := f.d[b := x]), t, threads[t].held) {
      assert HeldOk(f, t, threads[t].held);
    }
  }

  lemma WriteFrame(s: State, t: int, b: nat, x: Block, pc: Pc)
    requires Inv(s) && t in s.threads && b in s.threads[t].held && b < |s.fs.d|
    requires var th := s.threads[t].(pc := pc);
      && SharedBy(th) == SharedBy(s.threads[t]) && ExclBy(th) == ExclBy(s.threads[t])
      && PcOk(s.fs.(d := s.fs.d[b := x]), th)
    ensures Inv(Go(WriteLoose(s, b, x), t, pc)) && SameView(s.fs.d, s.fs.d[b := x])
  {
    hide FreeOk, PrivateOk, PcOk, SharedBy, ExclBy, InodesOk, UseOk, LinksOk, EntriesOk, KidsOk, NoEmptyBlocks, LocksOk,
      ThreadsOk, SameView, Stable, NodeOf, SlotAt;
    Sizes(s, t);
    var th := s.threads[t].(pc := pc);
    var g := s.fs.(d := s.fs.d[b := x]);
    LooseWrite(s.fs, b, x);
    WriteStable(s.fs, t, b, x);
    WriteOwners(s.fs, s.free, s.threads, b, x);
    PrivateSame(g, s.threads, t, th);
    SameLocks(s, t, th);
    hide WellFormed;
    StepFrame(s, t, th, g, s.free, s.excl, s.shared, {}, 0);
  }

  // ---------------------------------------------------------------- commits leave the other handlers alone

  /** Inodes other than `i` and `x`, and the blocks they have, are the same in `g`. */
  ghost predicate Elsewhere(f: Fs, g: Fs, i: nat, x: nat) {
    forall y :: y in f.link && y != i && y != x ==> Untouched(f, g, y)
  }

  ghost predicate OthersKept(f: Fs, g: Fs, t: int) {
    && |g.use| == |f.use| && |g.d| == |f.d|
    && (forall b, u :: 0 <= b < |f.use| && u != t ==> (f.use[b] == Private(u) <==> g.use[b] == Private(u)))
    && (forall b :: 0 <= b < |f.use| && b < |f.d| && f.use[b].Private? && f.use[b].owner != t ==> g.d[b] == f.d[b])
  }

  lemma HungStable(f: Fs, g: Fs, t: int, i: nat, k: nat, j: nat, name: string, x: nat)
    requires LinksOk(f) && EntriesOk(f) && KidsOk(f) && Hung(f, g, i, k, j, name, x)
    requires OthersKept(f, g, t) && Elsewhere(f, g, i, x)
    requires forall y :: y in f.link ==> SameHead(f, g, y)
    ensures Stable(f, g, t, {i}, 0)
  {
    forall q | Follow(f.kid, q).Some? ensures Follow(g.kid, q) == Follow(f.kid, q) {
      FollowMonotone(f.kid, Key(i, name), x, q);
    }
    hide SlotAt, IsDir, Follow, SameHead, Untouched;
  }

  lemma {:induction false} FollowMonotone(kid: map<Key, nat>, key: Key, x: nat, q: seq<string>)
    requires key !in kid && Follow(kid, q).Some?
    ensures Follow(kid[key := x], q) == Follow(kid, q)
  {
    if q != [] { FollowMonotone(kid, key, x, q[..|q| - 1]); }
  }

  lemma CutStable(f: Fs, g: Fs, t: int, x: nat, whole: bool)
    requires LinksOk(f) && KidsOk(f) && Cut(f, g, x, whole)
    requires OthersKept(f, g, t) && Elsewhere(f, g, f.link[x].parent, x)
    requires forall y :: y in f.link && y != x ==> SameHead(f, g, y)
    ensures Stable(f, g, t, {f.link[x].parent, x}, x)
  {
    var at := Key(f.link[x].parent, f.link[x].name);
    forall key | key in f.kid ensures key.dir != x && (f.kid[key] == x ==> key == at) {
      KidParent(f, key);
    }
    forall q | Follow(f.kid, q).Some? && Follow(f.kid, q).value != x ensures Follow(g.kid, q) == Follow(f.kid, q) {
      FollowCut(f.kid, at, q);
    }
    hide SlotAt, IsDir, Follow, SameHead, Untouched;
  }

  lemma SameDirsStable(f: Fs, g: Fs, t: int, x: nat)
    requires SameDirs(f, g) && OthersKept(f, g, t) && Elsewhere(f, g, x, x)
    requires forall y :: y in f.link ==> SameHead(f, g, y)
    ensures Stable(f, g, t, {x}, 0)
  {
    hide SlotAt, IsDir, Follow, SameHead, Untouched;
  }
}
