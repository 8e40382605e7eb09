/** The file server with any number of handlers running at once: every lock operation, every use of the free queue
    and every disk write is a step of its own.  Reads happen in the step that uses them; the lock held then keeps what
    they read from changing (see FsGuarantees). */
module FsThreads {
  import opened Common
  import opened FsModel
  import opened FsCommits

  datatype Request =
    | CreateReq(user: string, dir: seq<string>, name: string, kind: Kind)
    | DeleteReq(user: string, dir: seq<string>, name: string)
    | ReadReq(user: string, path: seq<string>, k: nat)
    | WriteReq(user: string, path: seq<string>, k: nat, bytes: string)

  /** The path a handler walks before it locks its target. */
  function Walk(r: Request): seq<string> {
    if r.CreateReq? || r.DeleteReq? then r.dir else r.path
  }

  /** Where a handler is.  `cur` is locked shared; targets are locked shared by reads and exclusively otherwise; block
      and inode buffers are the handler's copies. */
  datatype Pc =
    | Start
    | LockRoot
    | Search(cur: nat, n: nat)
    | LockNext(cur: nat, n: nat, next: nat)
    | DropPrevious(cur: nat, n: nat, next: nat)
    | CheckDir(cur: nat, n: nat)
    | Abort(cur: nat)
    | GiveBack
    | LockTarget(parent: nat, target: nat)
    | DropParent(parent: nat, target: nat)
    | AtTarget(target: nat)
    | Refuse(target: nat)
    | NeedEntries(target: nat, j: nat)
    | ReuseInode(target: nat, k: nat, j: nat, slots: seq<Slot>)
    | ReuseEntry(target: nat, k: nat, j: nat, slots: seq<Slot>)
    | GrowInode(target: nat, j: nat, inode: Block)
    | GrowEntries(target: nat, j: nat, inode: Block)
    | GrowParent(target: nat, j: nat, inode: Block)
    | LockChild(target: nat, child: nat, k: nat, j: nat, slots: seq<Slot>, inode: Block)
    | AtChild(target: nat, child: nat, k: nat, j: nat, slots: seq<Slot>, inode: Block)
    | FreeEntries(target: nat, child: nat)
    | UnlockChild(target: nat, child: nat, ok: bool)
    | NeedData(target: nat, inode: Block)
    | PutData(target: nat, inode: Block)
    | GrowData(target: nat, inode: Block)
    | GrowFile(target: nat, inode: Block)
    | Unlock(target: nat, ok: bool, answer: string)
    | FreeAll
    | Finished(ok: bool, answer: string)

  /** `held` are the blocks the handler took from the free queue, or unlinked, and has not given away. */
  datatype Thread = Thread(req: Request, pc: Pc, held: seq<nat>, committed: bool)

  datatype Hold = Hold(thread: int, ino: nat)

  datatype State = State(fs: Fs, free: seq<nat>, excl: map<nat, int>, shared: set<Hold>, threads: map<int, Thread>)

  // ---------------------------------------------------------------- what the handlers read

  /** The number that stands for "no entry found yet", although it is also the number of a block. */
  const NO_BLOCK: nat := FS_MAXFILEBLOCKS + 1

  /** An entry that a create can fill in. */
  predicate Reusable(d: Disk, i: nat, k: nat, j: nat) {
    k < |Blocks(d, i)| && j < FS_DIRENTRIES && SlotAt(d, i, k, j).Unused? && Blocks(d, i)[k] != NO_BLOCK
  }

  /** The first such entry at or after (k, j). */
  function FreeSlotFrom(d: Disk, i: nat, k: nat, j: nat): Option<(nat, nat)>
    requires j <= FS_DIRENTRIES
    decreases |Blocks(d, i)| - k, FS_DIRENTRIES - j
  {
    if k >= |Blocks(d, i)| then None
    else if j == FS_DIRENTRIES then FreeSlotFrom(d, i, k + 1, 0)
    else if SlotAt(d, i, k, j).Unused? && Blocks(d, i)[k] != NO_BLOCK then Some((k, j))
    else FreeSlotFrom(d, i, k, j + 1)
  }

  /** The entry index the code uses in a block it adds: that of the last unused entry in block 125, or 0. */
  function LeftoverIndex(d: Disk, i: nat, k: nat, j: nat, so: nat): nat
    requires j <= FS_DIRENTRIES
    decreases |Blocks(d, i)| - k, FS_DIRENTRIES - j
  {
    if k >= |Blocks(d, i)| then so
    else if j == FS_DIRENTRIES then LeftoverIndex(d, i, k + 1, 0, so)
    else LeftoverIndex(d, i, k, j + 1, if SlotAt(d, i, k, j).Unused? then j else so)
  }

  function SlotsOf(d: Disk, i: nat, k: nat): seq<Slot> {
    if k < |Blocks(d, i)| && IsEntries(d, Blocks(d, i)[k]) then d[Blocks(d, i)[k]].slots
    else seq(FS_DIRENTRIES, _ => Unused)
  }

  function OneSlot(j: nat, s: Slot): seq<Slot> {
    seq(FS_DIRENTRIES, n => if n == j then s else Unused)
  }

  predicate AllUnused(slots: seq<Slot>) {
    forall j :: 0 <= j < |slots| ==> slots[j].Unused?
  }

  // ---------------------------------------------------------------- one step of one handler

  function Go(s: State, t: int, pc: Pc): State
    requires t in s.threads
  {
    s.(threads := s.threads[t := s.threads[t].(pc := pc)])
  }

  function AddShared(s: State, t: int, i: nat): State {
    s.(shared := s.shared + {Hold(t, i)})
  }

  function DropShared(s: State, t: int, i: nat): State {
    s.(shared := s.shared - {Hold(t, i)})
  }

  function AddExcl(s: State, t: int, i: nat): State {
    s.(excl := s.excl[i := t])
  }

  function DropExcl(s: State, i: nat): State {
    s.(excl := s.excl - {i})
  }

  predicate CanShare(s: State, i: nat) {
    i !in s.excl
  }

  ghost predicate CanOwn(s: State, i: nat) {
    i !in s.excl && forall t :: Hold(t, i) !in s.shared
  }

  /** Takes the front of the free queue. */
  function Take(s: State, t: int): State
    requires t in s.threads && s.free != []
  {
    var b := s.free[0];
    var th := s.threads[t];
    s.(free := s.free[1..], threads := s.threads[t := th.(held := th.held + [b])],
       fs := s.fs.(use := if b < |s.fs.use| then s.fs.use[b := Private(t)] else s.fs.use))
  }

  function Freed(use: seq<Use>, bs: seq<nat>): (r: seq<Use>)
    ensures |r| == |use|
    ensures forall b :: 0 <= b < |use| ==> r[b] == if b in bs then Free else use[b]
  {
    seq(|use|, b requires 0 <= b < |use| => if b in bs then Free else use[b])
  }

  /** Puts the first `n` blocks the handler holds at the back of the free queue. */
  function Give(s: State, t: int, n: nat): State
    requires t in s.threads && n <= |s.threads[t].held|
  {
    var th := s.threads[t];
    s.(free := s.free + th.held[..n], threads := s.threads[t := th.(held := th.held[n..])],
       fs := s.fs.(use := Freed(s.fs.use, th.held[..n])))
  }

  /** Writes a block that belongs to no inode. */
  function WriteLoose(s: State, b: nat, x: Block): State {
    if b < |s.fs.d| then s.(fs := s.fs.(d := s.fs.d[b := x])) else s
  }

  /** The write that makes a request take effect; the handler's loose blocks are now `held`. */
  ghost function Commit(s: State, t: int, fs: Fs, held: seq<nat>, pc: Pc): State
    requires t in s.threads
  {
    s.(fs := fs, threads := s.threads[t := s.threads[t].(pc := pc, held := held, committed := true)])
  }

  function UnlockTarget(s: State, t: int, i: nat): State
    requires t in s.threads
  {
    if s.threads[t].req.ReadReq? then DropShared(s, t, i) else DropExcl(s, i)
  }

  /** The walk: `traverse_dir` and the locking of its result. */
  ghost function StepWalk(s: State, t: int): Option<State>
    requires t in s.threads
  {
    var r := s.threads[t].req;
    var d := s.fs.d;
    match s.threads[t].pc
    case Start =>
      var next := if Walk(r) == [] then LockTarget(0, 0) else LockRoot;
      if (r.ReadReq? || r.WriteReq?) && r.k >= FS_MAXFILEBLOCKS then Some(Go(s, t, Finished(false, "")))
      else if !r.CreateReq? then Some(Go(s, t, next))
      else if s.free == [] then Some(Go(s, t, Finished(false, "")))
      else Some(Go(Take(s, t), t, next))
    case LockRoot => if CanShare(s, 0) then Some(Go(AddShared(s, t, 0), t, Search(0, 0))) else None
    case Search(cur, n) =>
      if n >= |Walk(r)| then None else
      var found := Lookup(d, cur, Walk(r)[n]);
      if found.None? then Some(Go(s, t, Abort(cur)))
      else if n + 1 == |Walk(r)| then Some(Go(s, t, LockTarget(cur, found.value)))
      else Some(Go(s, t, LockNext(cur, n, found.value)))
    case LockNext(cur, n, next) =>
      if CanShare(s, next) then Some(Go(AddShared(s, t, next), t, DropPrevious(cur, n, next))) else None
    case DropPrevious(cur, n, next) => Some(Go(DropShared(s, t, cur), t, CheckDir(next, n + 1)))
    case CheckDir(cur, n) =>
      if IsDir(d, cur) && d[cur].owner == r.user then Some(Go(s, t, Search(cur, n))) else Some(Go(s, t, Abort(cur)))
    case Abort(cur) => Some(Go(DropShared(s, t, cur), t, GiveBack))
    case GiveBack => Some(Go(Give(s, t, |s.threads[t].held|), t, Finished(false, "")))
    case LockTarget(parent, target) =>
      if r.ReadReq? then
        if CanShare(s, target) then Some(Go(AddShared(s, t, target), t, DropParent(parent, target))) else None
      else
        if CanOwn(s, target) then Some(Go(AddExcl(s, t, target), t, DropParent(parent, target))) else None
    case DropParent(parent, target) =>
      Some(Go(if target != 0 then DropShared(s, t, parent) else s, t, AtTarget(target)))
    case Unlock(target, ok, answer) =>
      Some(Go(UnlockTarget(s, t, target), t, if s.threads[t].held == [] then Finished(ok, answer) else FreeAll))
    case FreeAll => Some(Go(Give(s, t, |s.threads[t].held|), t, Finished(true, "")))
    case _ => None
  }

  /** `handle_create` once it owns the directory. */
  ghost function StepCreate(s: State, t: int): Option<State>
    requires t in s.threads && s.threads[t].req.CreateReq?
  {
    var r := s.threads[t].req;
    var d := s.fs.d;
    var held := s.threads[t].held;
    match s.threads[t].pc
    case AtTarget(i) =>
      if !IsDir(d, i) || (d[i].owner != r.user && d[i].owner != "") || Lookup(d, i, r.name).Some? then
        Some(Go(s, t, Refuse(i)))
      else
        var at := FreeSlotFrom(d, i, 0, 0);
        if at.Some? then Some(Go(s, t, ReuseInode(i, at.value.0, at.value.1, SlotsOf(d, i, at.value.0))))
        else Some(Go(s, t, NeedEntries(i, LeftoverIndex(d, i, 0, 0, 0))))
    case Refuse(i) => Some(Go(Give(s, t, |held|), t, Unlock(i, false, "")))
    case NeedEntries(i, j) =>
      if s.free == [] || |Blocks(d, i)| + 1 > FS_MAXFILEBLOCKS || i >= |d| then
        Some(Go(Give(s, t, |held|), t, Unlock(i, false, "")))
      else Some(Go(Take(s, t), t, GrowInode(i, j, d[i])))
    case ReuseInode(i, k, j, slots) =>
      if held == [] then None
      else Some(Go(WriteLoose(s, held[0], Inode(r.kind, r.user, [])), t, ReuseEntry(i, k, j, slots)))
    case ReuseEntry(i, k, j, slots) =>
      if || held == []
         || !(i in s.fs.link && k < |Blocks(d, i)| && IsEntries(d, Blocks(d, i)[k]) && j < FS_DIRENTRIES)
         || held[0] >= |s.fs.use|
      then None
      else
        var g := HangInSlot(s.fs, i, k, j, r.name, held[0]);
        if |slots| != FS_DIRENTRIES then None
        else
          var e := g.(d := d[Blocks(d, i)[k] := Entries(slots[j := Used(r.name, held[0])])]);
          Some(Commit(s, t, e, [], Unlock(i, true, "")))
    case GrowInode(i, j, inode) =>
      if |held| != 2 then None
      else Some(Go(WriteLoose(s, held[0], Inode(r.kind, r.user, [])), t, GrowEntries(i, j, inode)))
    case GrowEntries(i, j, inode) =>
      if |held| != 2 then None
      else Some(Go(WriteLoose(s, held[1], Entries(OneSlot(j, Used(r.name, held[0])))), t, GrowParent(i, j, inode)))
    case GrowParent(i, j, inode) =>
      if || |held| != 2 || !(i in s.fs.link && i < |d| && d[i].Inode? && inode.Inode?)
         || held[0] >= |s.fs.use| || held[1] >= |s.fs.use|
      then None
      else
        var g := HangInBlock(s.fs, i, held[1], j, r.name, held[0]);
        var e := g.(d := d[i := inode.(blocks := inode.blocks + [held[1]])]);
        Some(Commit(s, t, e, [], Unlock(i, true, "")))
    case _ => None
  }

  /** `handle_delete` once it owns the directory. */
  ghost function StepDelete(s: State, t: int): Option<State>
    requires t in s.threads && s.threads[t].req.DeleteReq?
  {
    var r := s.threads[t].req;
    var d := s.fs.d;
    var held := s.threads[t].held;
    match s.threads[t].pc
    case AtTarget(i) =>
      if !IsDir(d, i) || (d[i].owner != r.user && d[i].owner != "") then Some(Go(s, t, Unlock(i, false, "")))
      else
        var at := FindFrom(d, i, r.name, 0, 0);
        if at.None? || SlotAt(d, i, at.value.0, at.value.1).Unused? then Some(Go(s, t, Unlock(i, false, "")))
        else
          var (k, j) := at.value;
          Some(Go(s, t, LockChild(i, SlotAt(d, i, k, j).ino, k, j, SlotsOf(d, i, k), d[i])))
    case LockChild(i, x, k, j, slots, inode) =>
      if CanOwn(s, x) then Some(Go(AddExcl(s, t, x), t, AtChild(i, x, k, j, slots, inode))) else None
    case AtChild(i, x, k, j, slots, inode) =>
      if x >= |d| || !d[x].Inode? || d[x].owner != r.user || (d[x].kind == DirKind && |d[x].blocks| > 0) then
        Some(Go(s, t, UnlockChild(i, x, false)))
      else if !(x in s.fs.link && k < |Blocks(d, i)| && j < |slots| && inode.Inode? && k < |inode.blocks| && i < |d|
        && Blocks(d, i)[k] < |d|) then None
      else
        var left := slots[j := Unused];
        var link := s.fs.link[x];
        var kid := s.fs.kid - {Key(link.parent, link.name)};
        if AllUnused(left) then
          var e := Fs(d[i := inode.(blocks := inode.blocks[..k] + inode.blocks[k + 1..])],
                      CutLink(s.fs, x, true), kid, CutUse(s.fs, x, true, t));
          Some(Commit(s, t, e, [Blocks(d, i)[k]] + Blocks(d, x) + [x], FreeEntries(i, x)))
        else
          var e := Fs(d[Blocks(d, i)[k] := Entries(left)], CutLink(s.fs, x, false), kid, CutUse(s.fs, x, false, t));
          Some(Commit(s, t, e, Blocks(d, x) + [x], UnlockChild(i, x, true)))
    case FreeEntries(i, x) =>
      if held == [] then None else Some(Go(Give(s, t, 1), t, UnlockChild(i, x, true)))
    case UnlockChild(i, x, ok) => Some(Go(DropExcl(s, x), t, Unlock(i, ok, "")))
    case _ => None
  }

  /** `handle_readblock` and `handle_writeblock` once they own the file. */
  ghost function StepData(s: State, t: int): Option<State>
    requires t in s.threads && (s.threads[t].req.ReadReq? || s.threads[t].req.WriteReq?)
  {
    var r := s.threads[t].req;
    var d := s.fs.d;
    var held := s.threads[t].held;
    match s.threads[t].pc
    case AtTarget(i) =>
      if !IsFile(d, i) || d[i].owner != r.user || r.k > |Blocks(d, i)| || (r.ReadReq? && r.k == |Blocks(d, i)|) then
        Some(Go(s, t, Unlock(i, false, "")))
      else if r.ReadReq? then Some(Go(s, t, Unlock(i, true, Contents(d, i)[r.k])))
      else if r.k == |Blocks(d, i)| then Some(Go(s, t, NeedData(i, d[i])))
      else Some(Go(s, t, PutData(i, d[i])))
    case NeedData(i, inode) =>
      if s.free == [] || |Blocks(d, i)| == FS_MAXFILEBLOCKS then Some(Go(s, t, Unlock(i, false, "")))
      else Some(Go(Take(s, t), t, GrowData(i, inode)))
    case PutData(i, inode) =>
      if !(r.WriteReq? && inode.Inode? && r.k < |inode.blocks| && inode.blocks[r.k] < |d|) then None
      else Some(Commit(s, t, s.fs.(d := d[inode.blocks[r.k] := Data(r.bytes)]), [], Unlock(i, true, "")))
    case GrowData(i, inode) =>
      if held == [] || !r.WriteReq? then None
      else Some(Go(WriteLoose(s, held[0], Data(r.bytes)), t, GrowFile(i, inode)))
    case GrowFile(i, inode) =>
      if held == [] || !(inode.Inode? && i < |d| && d[i].Inode? && held[0] < |s.fs.use|) then None
      else
        var g := Appended(s.fs, i, held[0]);
        var e := g.(d := d[i := inode.(blocks := inode.blocks + [held[0]])]);
        Some(Commit(s, t, e, [], Unlock(i, true, "")))
    case _ => None
  }

  predicate Walking(pc: Pc) {
    || pc.Start? || pc.LockRoot? || pc.Search? || pc.LockNext? || pc.DropPrevious? || pc.CheckDir? || pc.Abort?
    || pc.GiveBack?
    || pc.LockTarget? || pc.DropParent? || pc.Unlock? || pc.FreeAll?
  }

  /** The next step of handler `t`, if it is not finished and not waiting for a lock. */
  ghost function Next(s: State, t: int): Option<State>
    requires t in s.threads
  {
    if Walking(s.threads[t].pc) then StepWalk(s, t)
    else if s.threads[t].req.CreateReq? then StepCreate(s, t)
    else if s.threads[t].req.DeleteReq? then StepDelete(s, t)
    else StepData(s, t)
  }
}
