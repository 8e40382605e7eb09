/** The thread library of Project2 on its one CPU.  Every library call runs with interrupts off, so it is one step of
    the running thread; `wait` is two, because another thread runs in the middle of it. */
module ThreadModel {
  import opened Common

  /** Where a thread goes on when it is dispatched: back into the program, into the second half of `wait`, or out of a
      `lock` or `wait` with a mutex that was handed to it. */
  datatype Point = Runs | Relocks(m: nat) | Granted(m: nat)

  datatype Place = OnCpu | InReady | OnMutex(m: nat) | OnCv(c: nat) | OnJoin(target: nat)

  datatype Inside = Inside(t: nat, m: nat)

  /** `owner` counts only while `status` holds. */
  datatype Lock = Lock(status: bool, owner: nat, queue: seq<nat>)

  /** `joins` has the join queue of every thread that is not finished; `next` is the number of threads created.  The
      rest is bookkeeping: where each thread goes on and stands, which mutexes it came to own and has not released, and
      how many dispatches there were. */
  datatype Cpu = Cpu(running: Option<nat>, ready: seq<nat>, joins: map<nat, seq<nat>>, next: nat,
                     points: map<nat, Point>, places: map<nat, Place>, inside: set<Inside>, dispatches: nat)

  datatype Machine = Machine(cpu: Cpu, locks: seq<Lock>, cvs: seq<seq<nat>>)

  // ---------------------------------------------------------------- switching

  /** Thread `t` becomes the running one. */
  function Resume(c: Cpu, t: nat): Cpu
    requires t in c.points
  {
    var granted := c.points[t].Granted?;
    c.(running := Some(t), places := c.places[t := OnCpu], dispatches := c.dispatches + 1,
       inside := if granted then c.inside + {Inside(t, c.points[t].m)} else c.inside,
       points := if granted then c.points[t := Runs] else c.points)
  }

  /** The front of the ready queue runs next; without one the CPU is suspended. */
  function Swap(c: Cpu): Cpu
    requires forall t :: t in c.ready ==> t in c.points
  {
    if c.ready == [] then c.(running := None) else Resume(c.(ready := c.ready[1..]), c.ready[0])
  }

  function MakeReady(c: Cpu, t: nat): Cpu {
    c.(ready := c.ready + [t], places := c.places[t := InReady])
  }

  /** Moves a whole queue to the end of the ready queue. */
  function MakeAllReady(c: Cpu, ts: seq<nat>): Cpu {
    c.(ready := c.ready + ts, places := map t | t in c.places :: if t in ts then InReady else c.places[t])
  }

  function Park(c: Cpu, place: Place, point: Point): Cpu
    requires c.running.Some?
  {
    c.(running := None, places := c.places[c.running.value := place], points := c.points[c.running.value := point])
  }

  /** The running thread goes to `place`, to go on at `point`, and another one runs. */
  function Leave(c: Cpu, place: Place, point: Point): Cpu
    requires c.running.Some? && forall t :: t in c.ready ==> t in c.points
  {
    Swap(Park(c, place, point))
  }

  predicate Ready(c: Cpu) {
    forall t :: t in c.ready ==> t in c.points
  }

  // ---------------------------------------------------------------- mutexes

  function Owns(c: Cpu, l: Lock): bool {
    l.status && l.owner in c.joins && c.running == Some(l.owner)
  }

  function LockOp(c: Cpu, m: nat, l: Lock): (Cpu, Lock)
    requires c.running.Some? && Ready(c)
  {
    var t := c.running.value;
    if l.status then (Leave(c, OnMutex(m), Granted(m)), l.(queue := l.queue + [t]))
    else (c.(inside := c.inside + {Inside(t, m)}), l.(status := true, owner := t))
  }

  /** Gives the mutex to the first waiter, or leaves it free. */
  function Release(c: Cpu, m: nat, l: Lock): (Cpu, Lock)
    requires c.running.Some?
  {
    var c' := c.(inside := c.inside - {Inside(c.running.value, m)});
    if l.queue == [] then (c', l.(status := false))
    else (MakeReady(c', l.queue[0]), Lock(true, l.queue[0], l.queue[1..]))
  }

  /** An `unlock` by a thread that does not own the mutex throws and changes nothing. */
  function UnlockOp(c: Cpu, m: nat, l: Lock): (Cpu, Lock)
    requires c.running.Some?
  {
    if Owns(c, l) then Release(c, m, l) else (c, l)
  }

  // ---------------------------------------------------------------- condition variables

  /** The first half of `wait`: queue up, release the mutex, and let another thread run. */
  function WaitOp(c: Cpu, v: nat, queue: seq<nat>, m: nat, l: Lock): (Cpu, seq<nat>, Lock)
    requires c.running.Some? && Ready(Release(c, m, l).0)
  {
    if !Owns(c, l) then (c, queue, l)
    else
      var (c', l') := Release(c, m, l);
      (Leave(c', OnCv(v), Relocks(m)), queue + [c.running.value], l')
  }

  /** The second half: take the mutex if it is free, or queue up for it. */
  function RelockOp(c: Cpu, m: nat, l: Lock): (Cpu, Lock)
    requires c.running.Some? && Ready(c)
  {
    var t := c.running.value;
    if !l.status then
      (c.(inside := c.inside + {Inside(t, m)}, points := c.points[t := Runs]), l.(status := true, owner := t))
    else (Leave(c, OnMutex(m), Granted(m)), l.(queue := l.queue + [t]))
  }

  function SignalOp(c: Cpu, queue: seq<nat>): (Cpu, seq<nat>) {
    if queue == [] then (c, queue) else (MakeReady(c, queue[0]), queue[1..])
  }

  function BroadcastOp(c: Cpu, queue: seq<nat>): (Cpu, seq<nat>) {
    (MakeAllReady(c, queue), [])
  }

  // ---------------------------------------------------------------- threads

  function CreateOp(c: Cpu): Cpu {
    MakeReady(c, c.next).(joins := c.joins[c.next := []], next := c.next + 1, points := c.points[c.next := Runs])
  }

  function YieldOp(c: Cpu): Cpu
    requires c.running.Some? && Ready(c) && c.running.value in c.points
  {
    if c.ready == [] then c else Swap(MakeReady(c, c.running.value).(running := None))
  }

  /** Waits for thread `u`, unless that is finished. */
  function JoinOp(c: Cpu, u: nat): Cpu
    requires c.running.Some? && Ready(c)
  {
    if u !in c.joins then c
    else Leave(c.(joins := c.joins[u := c.joins[u] + [c.running.value]]), OnJoin(u), Runs)
  }

  /** The end of a thread: whoever joined it becomes ready, and another thread runs. */
  function FinishOp(c: Cpu): Cpu
    requires c.running.Some? && c.running.value in c.joins
    requires Ready(Forget(MakeAllReady(c, c.joins[c.running.value]), c.running.value))
  {
    Swap(Forget(MakeAllReady(c, c.joins[c.running.value]), c.running.value))
  }

  function Forget(c: Cpu, t: nat): Cpu {
    c.(running := None, joins := c.joins - {t}, points := c.points - {t}, places := c.places - {t})
  }

  function Boot(locks: nat, cvs: nat): Machine {
    var c := CreateOp(Cpu(None, [], map[], 0, map[], map[], {}, 0));
    Machine(Swap(c), seq(locks, _ => Lock(false, 0, [])), seq(cvs, _ => []))
  }

  // ---------------------------------------------------------------- one call of the running thread

  datatype Call =
    | LockCall(m: nat) | UnlockCall(m: nat) | WaitCall(c: nat, m: nat) | RelockCall
    | SignalCall(c: nat) | BroadcastCall(c: nat) | CreateCall | YieldCall | JoinCall(target: nat) | FinishCall

  /** The calls that the running thread can make: after being signalled, only the rest of its `wait`. */
  predicate CanCall(s: Machine, call: Call) {
    && s.cpu.running.Some? && s.cpu.running.value in s.cpu.points && s.cpu.running.value in s.cpu.joins
    && (call.RelockCall? <==> s.cpu.points[s.cpu.running.value].Relocks?)
    && match call
       case LockCall(m) => m < |s.locks|
       case UnlockCall(m) => m < |s.locks|
       case WaitCall(c, m) => m < |s.locks| && c < |s.cvs|
       case RelockCall => s.cpu.points[s.cpu.running.value].m < |s.locks|
       case SignalCall(c) => c < |s.cvs|
       case BroadcastCall(c) => c < |s.cvs|
       case _ => true
  }

  // ---------------------------------------------------------------- the invariant

  function QueueAt(s: Machine, p: Place): seq<nat> {
    match p
    case OnCpu => if s.cpu.running.Some? then [s.cpu.running.value] else []
    case InReady => s.cpu.ready
    case OnMutex(m) => if m < |s.locks| then s.locks[m].queue else []
    case OnCv(c) => if c < |s.cvs| then s.cvs[c] else []
    case OnJoin(u) => if u in s.cpu.joins then s.cpu.joins[u] else []
  }

  /** `queue` has exactly the threads at `p`, each once. */
  ghost predicate Holds(c: Cpu, queue: seq<nat>, p: Place) {
    NoDup(queue) && forall t :: t in queue <==> t in c.places && c.places[t] == p
  }

  /** Each thread that is not finished is where its place says, once, and nothing else is there. */
  ghost predicate PlacesOk(s: Machine) {
    forall p :: Holds(s.cpu, QueueAt(s, p), p)
  }

  ghost predicate KeysOk(c: Cpu) {
    c.points.Keys == c.places.Keys == c.joins.Keys && forall t :: t in c.joins ==> t < c.next
  }

  predicate Fits(place: Place, point: Point, locks: nat) {
    && (point.Runs? || point.m < locks)
    && match place
       case OnCpu => !point.Granted?
       case InReady => true
       case OnMutex(m) => point == Granted(m)
       case OnCv(_) => point.Relocks?
       case OnJoin(_) => point.Runs?
  }

  ghost predicate PointsOk(c: Cpu, locks: nat) {
    forall t :: t in c.places && t in c.points ==> Fits(c.places[t], c.points[t], locks)
  }

  /** Thread `t` is being given mutex `m`. */
  predicate Given(c: Cpu, t: nat, m: nat) {
    t in c.places && t in c.points && c.places[t] == InReady && c.points[t] == Granted(m)
  }

  /** A free mutex has no waiters; a taken one belongs to the thread that came out of `lock` or `wait` with it, or to
      the one it was handed to. */
  ghost predicate LockOk(c: Cpu, m: nat, l: Lock) {
    && (!l.status ==> l.queue == [])
    && (forall t :: Inside(t, m) in c.inside || Given(c, t, m) ==> l.status && l.owner == t)
    && (l.status ==> Inside(l.owner, m) in c.inside || Given(c, l.owner, m))
    && (l.status && Given(c, l.owner, m) ==> Inside(l.owner, m) !in c.inside)
  }

  ghost predicate LocksOk(s: Machine) {
    && (forall m :: 0 <= m < |s.locks| ==> LockOk(s.cpu, m, s.locks[m]))
    && (forall x :: x in s.cpu.inside ==> x.m < |s.locks| && x.t < s.cpu.next)
  }

  ghost predicate Settled(s: Machine) {
    KeysOk(s.cpu) && PlacesOk(s) && PointsOk(s.cpu, |s.locks|) && LocksOk(s)
  }

  /** What holds between calls: the CPU is suspended only if nobody is ready. */
  ghost predicate Inv(s: Machine) {
    Settled(s) && (s.cpu.running.None? ==> s.cpu.ready == [])
  }
}
