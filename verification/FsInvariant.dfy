/** What holds between any two steps of any handlers: who holds which lock, who owns which block, and what each
    handler may still rely on. */
module FsInvariant {
  import opened Common
  import opened FsModel
  import opened FsThreads

  // ---------------------------------------------------------------- locks

  /** The locks a handler holds shared, and those it holds alone, as its position says. */
  function SharedBy(th: Thread): set<nat> {
    var r := th.req.ReadReq?;
    match th.pc
    case Start => {}
    case LockRoot => {}
    case Search(cur, _) => {cur}
    case LockNext(cur, _, _) => {cur}
    case DropPrevious(cur, _, next) => {cur, next}
    case CheckDir(cur, _) => {cur}
    case Abort(cur) => {cur}
    case GiveBack => {}
    case LockTarget(parent, target) => if target != 0 then {parent} else {}
    case DropParent(parent, target) => (if target != 0 then {parent} else {}) + (if r then {target} else {})
    case AtTarget(i) => if r then {i} else {}
    case Refuse(i) => if r then {i} else {}
    case Unlock(i, _, _) => if r then {i} else {}
    case NeedData(i, _) => if r then {i} else {}
    case PutData(i, _) => if r then {i} else {}
    case GrowData(i, _) => if r then {i} else {}
    case GrowFile(i, _) => if r then {i} else {}
    case _ => {}
  }

  function ExclBy(th: Thread): set<nat> {
    if th.req.ReadReq? then {} else
    match th.pc
    case DropParent(_, target) => {target}
    case AtTarget(i) => {i}
    case Refuse(i) => {i}
    case NeedEntries(i, _) => {i}
    case ReuseInode(i, _, _, _) => {i}
    case ReuseEntry(i, _, _, _) => {i}
    case GrowInode(i, _, _) => {i}
    case GrowEntries(i, _, _) => {i}
    case GrowParent(i, _, _) => {i}
    case LockChild(i, _, _, _, _, _) => {i}
    case AtChild(i, x, _, _, _, _) => {i, x}
    case FreeEntries(i, x) => {i, x}
    case UnlockChild(i, x, _) => {i, x}
    case NeedData(i, _) => {i}
    case PutData(i, _) => {i}
    case GrowData(i, _) => {i}
    case GrowFile(i, _) => {i}
    case Unlock(i, _, _) => {i}
    case _ => {}
  }

  ghost predicate LocksOk(excl: map<nat, int>, shared: set<Hold>, threads: map<int, Thread>) {
    && (forall h :: h in shared ==> h.thread in threads && h.ino in SharedBy(threads[h.thread]) && h.ino !in excl)
    && (forall t, i :: t in threads && i in SharedBy(threads[t]) ==> Hold(t, i) in shared)
    && (forall i :: i in excl ==> excl[i] in threads && i in ExclBy(threads[excl[i]]))
    && (forall t, i :: t in threads && i in ExclBy(threads[t]) ==> i in excl && excl[i] == t)
  }

  // ---------------------------------------------------------------- blocks

  /** The free queue holds exactly the free blocks, each once; what is private to a handler is what it holds. */
  ghost predicate FreeOk(f: Fs, free: seq<nat>) {
    && NoDup(free)
    && (forall b :: b in free ==> 0 < b < |f.use| && f.use[b] == Free)
    && (forall b :: 0 <= b < |f.use| && f.use[b] == Free ==> b in free)
  }

  ghost predicate HeldOk(f: Fs, t: int, held: seq<nat>) {
    && NoDup(held)
    && (forall b :: b in held ==> 0 < b < |f.use| && b < |f.d| && f.use[b] == Private(t))
  }

  ghost predicate PrivateOk(f: Fs, threads: map<int, Thread>) {
    && (forall t :: t in threads ==> HeldOk(f, t, threads[t].held))
    && (forall b :: 0 <= b < |f.use| && f.use[b].Private? ==>
      f.use[b].owner in threads && b in threads[f.use[b].owner].held)
  }

  // ---------------------------------------------------------------- handlers

  /** Inode `i` is live and is what the first `n` names of `p` lead to. */
  ghost predicate On(f: Fs, p: seq<string>, n: nat, i: nat) {
    n <= |p| && i in f.link && Follow(f.kid, p[..n]) == Some(i)
  }

  /** The first `n` directories below the root on the way belong to the user. */
  ghost predicate Passed(f: Fs, user: string, p: seq<string>, n: int) {
    forall m :: 0 < m <= n && m <= |p| ==> OwnDir(f, user, p[..m])
  }

  ghost predicate OwnDir(f: Fs, user: string, p: seq<string>) {
    var y := Follow(f.kid, p);
    y.Some? && y.value in f.link && y.value < |f.d| && IsDir(f.d, y.value) && f.d[y.value].owner == user
  }

  ghost predicate Arrived(f: Fs, r: Request, i: nat) {
    On(f, Walk(r), |Walk(r)|, i) && Passed(f, r.user, Walk(r), |Walk(r)| - 1)
  }

  ghost predicate OwnedDir(f: Fs, r: Request, i: nat) {
    i < |f.d| && IsDir(f.d, i) && (f.d[i].owner == r.user || f.d[i].owner == "")
  }

  ghost predicate NewName(f: Fs, r: Request, i: nat) {
    r.CreateReq? && OwnedDir(f, r, i) && Key(i, r.name) !in f.kid
  }

  /** Directory `i` has no entry that a create can fill in. */
  ghost predicate Packed(f: Fs, i: nat) {
    forall k, j :: !Reusable(f.d, i, k, j)
  }

  ghost predicate OwnedFile(f: Fs, r: Request, i: nat, inode: Block) {
    r.WriteReq? && i < |f.d| && IsFile(f.d, i) && f.d[i] == inode && inode.owner == r.user && r.k < FS_MAXFILEBLOCKS
  }

  ghost predicate EntryBuffer(f: Fs, i: nat, k: nat, j: nat, slots: seq<Slot>, s: Slot) {
    && k < |Blocks(f.d, i)| && IsEntries(f.d, Blocks(f.d, i)[k]) && f.d[Blocks(f.d, i)[k]].slots == slots
    && j < FS_DIRENTRIES && slots[j] == s
  }

  ghost predicate InodeReady(f: Fs, th: Thread) {
    && th.req.CreateReq? && th.held != [] && th.held[0] < |f.d|
    && f.d[th.held[0]] == Inode(th.req.kind, th.req.user, [])
  }

  ghost predicate EntriesReady(f: Fs, th: Thread, j: nat) {
    && th.req.CreateReq? && |th.held| == 2 && th.held[1] < |f.d|
    && f.d[th.held[1]] == Entries(OneSlot(j, Used(th.req.name, th.held[0])))
  }

  ghost predicate Growing(f: Fs, th: Thread, i: nat, j: nat, inode: Block) {
    && |th.held| == 2 && i < |f.d| && f.d[i] == inode && |Blocks(f.d, i)| < FS_MAXFILEBLOCKS && j < FS_DIRENTRIES
  }

  /** What a handler holds before its request took effect, and what it has checked at the start. */
  ghost predicate Waiting(th: Thread) {
    && !th.committed && |th.held| == (if th.req.CreateReq? && !th.pc.Start? then 1 else 0)
    && (th.req.ReadReq? || th.req.WriteReq? ==> th.pc.Start? || th.req.k < FS_MAXFILEBLOCKS)
  }

  ghost predicate Doomed(f: Fs, r: Request, i: nat, x: nat, k: nat, j: nat, slots: seq<Slot>, inode: Block) {
    && r.DeleteReq? && OwnedDir(f, r, i) && f.d[i] == inode
    && EntryBuffer(f, i, k, j, slots, Used(r.name, x)) && Key(i, r.name) in f.kid && f.kid[Key(i, r.name)] == x
  }

  /** What handler `th` may rely on where it stands. */
  ghost predicate PcOk(f: Fs, th: Thread) {
    var r := th.req;
    var p := Walk(r);
    match th.pc
    case Start => Waiting(th)
    case LockRoot => Waiting(th) && p != []
    case Search(cur, n) => Waiting(th) && n < |p| && On(f, p, n, cur) && Passed(f, r.user, p, n)
    case LockNext(cur, n, next) => Waiting(th) && n + 1 < |p| && Stepping(f, r, cur, n, next)
    case DropPrevious(cur, n, next) => Waiting(th) && n + 1 < |p| && Stepping(f, r, cur, n, next)
    case CheckDir(cur, n) => Waiting(th) && 0 < n < |p| && On(f, p, n, cur) && Passed(f, r.user, p, n - 1)
    case Abort(cur) => Waiting(th) && cur in f.link
    case GiveBack => Waiting(th)
    case LockTarget(parent, target) =>
      Waiting(th) && if target == 0 then p == [] else p != [] && Stepping(f, r, parent, |p| - 1, target)
    case DropParent(parent, target) =>
      Waiting(th) && if target == 0 then p == [] else p != [] && Stepping(f, r, parent, |p| - 1, target)
    case AtTarget(i) => Waiting(th) && Arrived(f, r, i)
    case Refuse(i) => Waiting(th) && Arrived(f, r, i) && r.CreateReq?
    case NeedEntries(i, j) => Waiting(th) && Arrived(f, r, i) && NewName(f, r, i) && j < FS_DIRENTRIES && Packed(f, i)
    case ReuseInode(i, k, j, slots) =>
      Waiting(th) && Arrived(f, r, i) && NewName(f, r, i) && EntryBuffer(f, i, k, j, slots, Unused)
    case ReuseEntry(i, k, j, slots) =>
      Waiting(th) && Arrived(f, r, i) && NewName(f, r, i) && EntryBuffer(f, i, k, j, slots, Unused) && InodeReady(f, th)
    case GrowInode(i, j, inode) =>
      !th.committed && Arrived(f, r, i) && NewName(f, r, i) && Growing(f, th, i, j, inode)
    case GrowEntries(i, j, inode) =>
      !th.committed && Arrived(f, r, i) && NewName(f, r, i) && Growing(f, th, i, j, inode) && InodeReady(f, th)
    case GrowParent(i, j, inode) =>
      && !th.committed && Arrived(f, r, i) && NewName(f, r, i) && Growing(f, th, i, j, inode)
      && InodeReady(f, th) && EntriesReady(f, th, j)
    case LockChild(i, x, k, j, slots, inode) =>
      Waiting(th) && Arrived(f, r, i) && Doomed(f, r, i, x, k, j, slots, inode)
    case AtChild(i, x, k, j, slots, inode) =>
      Waiting(th) && Arrived(f, r, i) && Doomed(f, r, i, x, k, j, slots, inode)
    case FreeEntries(i, x) => th.committed && r.DeleteReq? && Arrived(f, r, i) && x != i && |th.held| > 1
    case UnlockChild(i, x, ok) =>
      r.DeleteReq? && Arrived(f, r, i) && x != i && th.committed == ok == (th.held != [])
    case NeedData(i, inode) => Waiting(th) && Arrived(f, r, i) && OwnedFile(f, r, i, inode) && r.k == |inode.blocks|
    case PutData(i, inode) => Waiting(th) && Arrived(f, r, i) && OwnedFile(f, r, i, inode) && r.k < |inode.blocks|
    case GrowData(i, inode) =>
      !th.committed && |th.held| == 1 && Arrived(f, r, i) && OwnedFile(f, r, i, inode) && r.k == |inode.blocks|
    case GrowFile(i, inode) =>
      && !th.committed && |th.held| == 1 && Arrived(f, r, i) && OwnedFile(f, r, i, inode) && r.k == |inode.blocks|
      && th.held[0] < |f.d| && f.d[th.held[0]] == Data(r.bytes)
    case Unlock(i, ok, _) =>
      && Arrived(f, r, i) && th.committed == (ok && !r.ReadReq?) && ((th.held != []) == (r.DeleteReq? && ok))
    case FreeAll => r.DeleteReq? && th.committed && th.held != []
    case Finished(ok, _) => th.committed == (ok && !r.ReadReq?) && th.held == []
  }

  /** The next name on the way leads from directory `cur` to `next`. */
  ghost predicate Stepping(f: Fs, r: Request, cur: nat, n: nat, next: nat) {
    && n < |Walk(r)| && On(f, Walk(r), n, cur) && Passed(f, r.user, Walk(r), n)
    && Key(cur, Walk(r)[n]) in f.kid && f.kid[Key(cur, Walk(r)[n])] == next
  }

  ghost predicate ThreadsOk(f: Fs, threads: map<int, Thread>) {
    forall t :: t in threads ==> PcOk(f, threads[t])
  }

  ghost predicate Inv(s: State) {
    && WellFormed(s.fs) && FreeOk(s.fs, s.free) && PrivateOk(s.fs, s.threads)
    && LocksOk(s.excl, s.shared, s.threads) && ThreadsOk(s.fs, s.threads)
  }

  /** A file server that has just started on a well-formed disk. */
  ghost predicate Initial(s: State) {
    && WellFormed(s.fs) && FreeOk(s.fs, s.free) && (forall b :: 0 <= b < |s.fs.use| ==> !s.fs.use[b].Private?)
    && s.excl == map[] && s.shared == {}
    && (forall t :: t in s.threads ==> s.threads[t].pc.Start? && s.threads[t].held == [] && !s.threads[t].committed)
  }

  lemma InitialInv(s: State)
    requires Initial(s)
    ensures Inv(s)
  {
  }

  // ---------------------------------------------------------------- what other handlers do not disturb

  /** Going from `f` to `g`, handler `t`, which owns the locks of `mine`, removed at most inode `gone` (0 for none) and
      changed nothing that is not its own. */
  ghost predicate Stable(f: Fs, g: Fs, t: int, mine: set<nat>, gone: nat) {
    && |g.use| == |f.use| && |g.d| == |f.d|
    && (forall y :: y in f.link && y !in mine ==> y in g.link && Untouched(f, g, y))
    && (forall y :: y in f.link && (y != gone || gone == 0) ==> y in g.link && SameHead(f, g, y))
    && (forall key: Key :: key.dir !in mine ==>
      (key in f.kid <==> key in g.kid) && (key in f.kid ==> f.kid[key] == g.kid[key]))
    && (forall q :: Follow(f.kid, q).Some? && (Follow(f.kid, q).value != gone || gone == 0) ==>
      Follow(g.kid, q) == Follow(f.kid, q))
    && (forall b, u :: 0 <= b < |f.use| && u != t ==> (f.use[b] == Private(u) <==> g.use[b] == Private(u)))
    && (forall b :: 0 <= b < |f.use| && b < |f.d| && f.use[b].Private? && f.use[b].owner != t ==> g.d[b] == f.d[b])
    && (gone != 0 ==> gone in mine && forall key :: key in f.kid ==> key.dir != gone)
  }

  /** Inode `y` and all its blocks are the same in `f` and `g`. */
  ghost predicate Untouched(f: Fs, g: Fs, y: nat) {
    && y < |f.d| && y < |g.d| && g.d[y] == f.d[y]
    && (forall m :: 0 <= m < |Blocks(f.d, y)| ==>
      Blocks(f.d, y)[m] < |f.d| && Blocks(f.d, y)[m] < |g.d| && g.d[Blocks(f.d, y)[m]] == f.d[Blocks(f.d, y)[m]])
  }

  /** Inode `y` keeps its type and owner. */
  ghost predicate SameHead(f: Fs, g: Fs, y: nat) {
    && y < |f.d| && y < |g.d| && f.d[y].Inode? && g.d[y].Inode?
    && g.d[y].kind == f.d[y].kind && g.d[y].owner == f.d[y].owner
  }

  lemma OnStable(f: Fs, g: Fs, t: int, mine: set<nat>, gone: nat, p: seq<string>, n: nat, i: nat)
    requires Stable(f, g, t, mine, gone) && On(f, p, n, i) && (i != gone || gone == 0)
    ensures On(g, p, n, i)
  {
  }

  /** A directory on the way to a live directory is not the one that goes. */
  lemma {:induction false} PassedStable(f: Fs, g: Fs, t: int, mine: set<nat>, gone: nat, user: string,
                                        p: seq<string>, n: nat, i: nat, m: int)
    requires Stable(f, g, t, mine, gone) && On(f, p, n, i) && (i != gone || gone == 0) && m <= n
    requires Passed(f, user, p, m)
    ensures Passed(g, user, p, m)
  {
    forall l | 0 < l <= m && l <= |p| ensures OwnDir(g, user, p[..l]) {
      var y := Follow(f.kid, p[..l]);
      assert OwnDir(f, user, p[..l]);
      if l < n {
        FollowPrefix(f.kid, p, l, n);
      }
    }
  }

  /** If a longer prefix resolves, a shorter one leads to a directory with children. */
  lemma {:induction false} FollowPrefix(kid: map<Key, nat>, p: seq<string>, l: nat, n: nat)
    requires l < n <= |p| && Follow(kid, p[..n]).Some?
    ensures Follow(kid, p[..l]).Some? && Key(Follow(kid, p[..l]).value, p[l]) in kid
  {
    assert p[..n][..n - 1] == p[..n - 1];
    if l < n - 1 {
      FollowPrefix(kid, p, l, n - 1);
    }
  }

  lemma ArrivedStable(f: Fs, g: Fs, t: int, mine: set<nat>, gone: nat, r: Request, i: nat)
    requires Stable(f, g, t, mine, gone) && Arrived(f, r, i) && (i != gone || gone == 0)
    ensures Arrived(g, r, i)
  {
    hide Stable;
    OnStable(f, g, t, mine, gone, Walk(r), |Walk(r)|, i);
    PassedStable(f, g, t, mine, gone, r.user, Walk(r), |Walk(r)|, i, |Walk(r)| - 1);
  }

  lemma SteppingStable(f: Fs, g: Fs, t: int, mine: set<nat>, gone: nat, r: Request, cur: nat, n: nat, next: nat)
    requires Stable(f, g, t, mine, gone) && Stepping(f, r, cur, n, next) && cur !in mine
    ensures Stepping(g, r, cur, n, next)
  {
    OnStable(f, g, t, mine, gone, Walk(r), n, cur);
    PassedStable(f, g, t, mine, gone, r.user, Walk(r), n, cur, n);
  }

  lemma DirStable(f: Fs, g: Fs, t: int, mine: set<nat>, gone: nat, th: Thread, i: nat)
    requires Stable(f, g, t, mine, gone) && i in f.link && i !in mine
    ensures Untouched(f, g, i) && Blocks(g.d, i) == Blocks(f.d, i)
    ensures OwnedDir(f, th.req, i) ==> OwnedDir(g, th.req, i)
    ensures NewName(f, th.req, i) ==> NewName(g, th.req, i)
    ensures forall inode :: OwnedFile(f, th.req, i, inode) ==> OwnedFile(g, th.req, i, inode)
    ensures forall k, j, slots, s :: EntryBuffer(f, i, k, j, slots, s) ==> EntryBuffer(g, i, k, j, slots, s)
    ensures forall x, k, j, slots, inode :: Doomed(f, th.req, i, x, k, j, slots, inode) ==>
      Doomed(g, th.req, i, x, k, j, slots, inode)
    ensures forall j, inode :: Growing(f, th, i, j, inode) ==> Growing(g, th, i, j, inode)
  {
  }

  lemma PackedStable(f: Fs, g: Fs, i: nat)
    requires Untouched(f, g, i) && Packed(f, i)
    ensures Packed(g, i)
  {
    forall k, j ensures !Reusable(g.d, i, k, j) {
      assert !Reusable(f.d, i, k, j);
    }
  }

  lemma ReadyStable(f: Fs, g: Fs, t: int, mine: set<nat>, gone: nat, u: int, th: Thread)
    requires Stable(f, g, t, mine, gone) && u != t && HeldOk(f, u, th.held)
    ensures HeldOk(g, u, th.held)
    ensures forall b :: b in th.held ==> g.d[b] == f.d[b]
    ensures InodeReady(f, th) ==> InodeReady(g, th)
    ensures forall j :: EntriesReady(f, th, j) ==> EntriesReady(g, th, j)
  {
    assert th.held != [] ==> th.held[0] in th.held;
    assert |th.held| == 2 ==> th.held[1] in th.held;
  }

  /** What a handler relies on survives every step of every other handler, because it holds the locks it does. */
  lemma PcStable(f: Fs, g: Fs, t: int, mine: set<nat>, gone: nat, u: int, th: Thread)
    requires Stable(f, g, t, mine, gone) && u != t && HeldOk(f, u, th.held) && PcOk(f, th)
    requires forall i :: i in SharedBy(th) + ExclBy(th) ==> i !in mine
    ensures PcOk(g, th)
  {
    if AtTargetPc(th.pc) {
      TargetStable(f, g, t, mine, gone, u, th);
    } else {
      WalkStable(f, g, t, mine, gone, th);
    }
  }

  lemma WalkStable(f: Fs, g: Fs, t: int, mine: set<nat>, gone: nat, th: Thread)
    requires Stable(f, g, t, mine, gone) && PcOk(f, th) && !AtTargetPc(th.pc)
    requires forall i :: i in SharedBy(th) + ExclBy(th) ==> i !in mine
    ensures PcOk(g, th)
  {
    hide On, Passed, Waiting, Stepping;
    assert forall i :: i in SharedBy(th) ==> i != gone || gone == 0;
    hide Stable;
    match th.pc
    case Search(cur, n) =>
      OnStable(f, g, t, mine, gone, Walk(th.req), n, cur);
      PassedStable(f, g, t, mine, gone, th.req.user, Walk(th.req), n, cur, n);
    case LockNext(cur, n, next) => SteppingStable(f, g, t, mine, gone, th.req, cur, n, next);
    case DropPrevious(cur, n, next) => SteppingStable(f, g, t, mine, gone, th.req, cur, n, next);
    case CheckDir(cur, n) =>
      OnStable(f, g, t, mine, gone, Walk(th.req), n, cur);
      PassedStable(f, g, t, mine, gone, th.req.user, Walk(th.req), n, cur, n - 1);
    case Abort(cur) => LiveStable(f, g, t, mine, gone, cur);
    case LockTarget(parent, target) =>
      if target != 0 { SteppingStable(f, g, t, mine, gone, th.req, parent, |Walk(th.req)| - 1, target); }
    case DropParent(parent, target) =>
      if target != 0 { SteppingStable(f, g, t, mine, gone, th.req, parent, |Walk(th.req)| - 1, target); }
    case _ =>
  }

  /** The handler stands at its target, or is done with it. */
  ghost predicate AtTargetPc(pc: Pc) {
    !(pc.Start? || pc.LockRoot? || pc.Search? || pc.LockNext? || pc.DropPrevious? || pc.CheckDir? || pc.Abort?
      || pc.GiveBack? || pc.LockTarget? || pc.DropParent? || pc.FreeAll? || pc.Finished?)
  }

  lemma TargetStable(f: Fs, g: Fs, t: int, mine: set<nat>, gone: nat, u: int, th: Thread)
    requires Stable(f, g, t, mine, gone) && u != t && HeldOk(f, u, th.held) && PcOk(f, th) && AtTargetPc(th.pc)
    requires forall i :: i in SharedBy(th) + ExclBy(th) ==> i !in mine
    ensures PcOk(g, th)
  {
    var i := th.pc.target;
    ReadyStable(f, g, t, mine, gone, u, th);
    assert NewName(f, th.req, i) ==> th.req.CreateReq?;
    assert Arrived(f, th.req, i) && i in f.link;
    assert i in SharedBy(th) + ExclBy(th);
    ArrivedStable(f, g, t, mine, gone, th.req, i);
    DirStable(f, g, t, mine, gone, th, i);
    if Packed(f, i) { PackedStable(f, g, i); }
    assert HeldData(f, g, th);
    hide Packed, Stable, InodeReady, EntriesReady, Growing, Doomed, EntryBuffer, OwnedDir, NewName, OwnedFile, On,
      Passed, Untouched, HeldOk, Waiting, Arrived;
  }

  ghost predicate HeldData(f: Fs, g: Fs, th: Thread) {
    |th.held| == 1 && th.held[0] < |f.d| ==> th.held[0] < |g.d| && g.d[th.held[0]] == f.d[th.held[0]]
  }

  lemma LiveStable(f: Fs, g: Fs, t: int, mine: set<nat>, gone: nat, cur: nat)
    requires Stable(f, g, t, mine, gone) && cur in f.link && cur !in mine
    ensures cur in g.link
  {
  }
}
