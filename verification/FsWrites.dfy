/** Which blocks a handler that runs alone writes, in which order, and which blocks it takes from the free queue or puts
    there. */
module FsWrites {
  import opened FsModel
  import opened FsThreads

  datatype Write = Write(b: nat, x: Block)

  function Written(d: Disk, w: Write): Disk {
    if w.b < |d| then d[w.b := w.x] else d
  }

  /** The disk after each of the writes. */
  function Disks(d: Disk, ws: seq<Write>): seq<Disk>
    decreases |ws|
  {
    if ws == [] then []
    else
      var e := Written(d, ws[0]);
      [e] + Disks(e, ws[1..])
  }

  /** A create in directory `i` writes the inode to the first free block and fills the first usable entry; if there is
      none, it makes the second free block a block of the directory, with one entry at the left-over index. */
  function CreateWrites(d: Disk, r: Request, i: nat, free: seq<nat>): seq<Write>
    requires r.CreateReq?
  {
    var at := FreeSlotFrom(d, i, 0, 0);
    if free == [] then []
    else
      var inode := Write(free[0], Inode(r.kind, r.user, []));
      var entry := Used(r.name, free[0]);
      if at.Some? && at.value.0 < |Blocks(d, i)| && at.value.1 < |SlotsOf(d, i, at.value.0)| then
        var (k, j) := at.value;
        [inode, Write(Blocks(d, i)[k], Entries(SlotsOf(d, i, k)[j := entry]))]
      else if |free| >= 2 && i < |d| && d[i].Inode? then
        [inode, Write(free[1], Entries(OneSlot(LeftoverIndex(d, i, 0, 0, 0), entry))),
         Write(i, d[i].(blocks := d[i].blocks + [free[1]]))]
      else []
  }

  /** A write to file `i` writes the block, or the first free block and then the inode. */
  function DataWrites(d: Disk, r: Request, i: nat, free: seq<nat>): seq<Write>
    requires r.WriteReq?
  {
    if r.k < |Blocks(d, i)| then [Write(Blocks(d, i)[r.k], Data(r.bytes))]
    else if free != [] && i < |d| && d[i].Inode? then
      [Write(free[0], Data(r.bytes)), Write(i, d[i].(blocks := d[i].blocks + [free[0]]))]
    else []
  }

  /** The entries next to the one called `r.name`. */
  function LeftBy(d: Disk, r: Request, i: nat): seq<Slot>
    requires r.DeleteReq?
  {
    var at := FindFrom(d, i, r.name, 0, 0);
    if at.Some? && at.value.1 < |SlotsOf(d, i, at.value.0)| then SlotsOf(d, i, at.value.0)[at.value.1 := Unused] else []
  }

  /** A delete in directory `i` clears the entry, or takes its block out of the directory if it was the last. */
  function DeleteWrites(d: Disk, r: Request, i: nat): seq<Write>
    requires r.DeleteReq?
  {
    var at := FindFrom(d, i, r.name, 0, 0);
    if at.None? || at.value.0 >= |Blocks(d, i)| || i >= |d| || !d[i].Inode? then []
    else
      var (k, bs) := (at.value.0, Blocks(d, i));
      if AllUnused(LeftBy(d, r, i)) then [Write(i, d[i].(blocks := bs[..k] + bs[k + 1..]))]
      else [Write(bs[k], Entries(LeftBy(d, r, i)))]
  }

  /** And then frees that block, the blocks of the child `x`, and its inode. */
  function DeleteFrees(d: Disk, r: Request, i: nat, x: nat): seq<nat>
    requires r.DeleteReq?
  {
    var at := FindFrom(d, i, r.name, 0, 0);
    (if at.Some? && at.value.0 < |Blocks(d, i)| && AllUnused(LeftBy(d, r, i)) then [Blocks(d, i)[at.value.0]] else [])
    + Blocks(d, x) + [x]
  }

  /** The index left over after a scan from (k, j) is that of the last unused entry, or the one it came with. */
  lemma {:induction false} LeftoverIsLast(d: Disk, i: nat, k: nat, j: nat, so: nat)
    requires j <= FS_DIRENTRIES
    ensures var r := LeftoverIndex(d, i, k, j, so);
      || (r == so && forall k': nat, j': nat :: LeftIn(d, i, k', j') ==> k' < k || (k' == k && j' < j))
      || (r < FS_DIRENTRIES && exists k': nat ::
          && LeftIn(d, i, k', r) && (k' > k || (k' == k && r >= j))
          && forall k'': nat, j'': nat :: LeftIn(d, i, k'', j'') ==> k'' < k' || (k'' == k' && j'' <= r))
    decreases |Blocks(d, i)| - k, FS_DIRENTRIES - j
  {
    if k < |Blocks(d, i)| {
      if j == FS_DIRENTRIES {
        LeftoverIsLast(d, i, k + 1, 0, so);
      } else {
        LeftoverIsLast(d, i, k, j + 1, if SlotAt(d, i, k, j).Unused? then j else so);
        if SlotAt(d, i, k, j).Unused? { assert LeftIn(d, i, k, j); }
      }
    }
  }

  /** Entry (k, j) of directory `i` is not in use. */
  predicate LeftIn(d: Disk, i: nat, k: nat, j: nat) {
    k < |Blocks(d, i)| && j < FS_DIRENTRIES && SlotAt(d, i, k, j).Unused?
  }

  /** So a create that adds a block puts its entry where the last unused entry of the directory was, or first. */
  lemma LeftoverIs(d: Disk, i: nat)
    ensures var r := LeftoverIndex(d, i, 0, 0, 0);
      if forall k: nat, j: nat :: !LeftIn(d, i, k, j) then r == 0
      else exists k: nat ::
        LeftIn(d, i, k, r) && forall k': nat, j': nat :: LeftIn(d, i, k', j') ==> k' < k || (k' == k && j' <= r)
  {
    LeftoverIsLast(d, i, 0, 0, 0);
    hide LeftoverIndex, LeftIn;
  }

  lemma OneDisk(d: Disk, w: Write)
    requires w.b < |d|
    ensures Disks(d, [w]) == [d[w.b := w.x]]
  {
    assert Disks(d[w.b := w.x], [w][1..]) == [];
  }

  lemma TwoDisks(d: Disk, v: Write, w: Write)
    requires v.b < |d| && w.b < |d|
    ensures Disks(d, [v, w]) == [d[v.b := v.x], d[v.b := v.x][w.b := w.x]]
  {
    assert [v, w][1..] == [w];
    OneDisk(d[v.b := v.x], w);
  }

  lemma ThreeDisks(d: Disk, u: Write, v: Write, w: Write)
    requires u.b < |d| && v.b < |d| && w.b < |d|
    ensures Disks(d, [u, v, w]) == [d[u.b := u.x], d[u.b := u.x][v.b := v.x], d[u.b := u.x][v.b := v.x][w.b := w.x]]
  {
    assert [u, v, w][1..] == [v, w];
    TwoDisks(d[u.b := u.x], v, w);
  }
}
