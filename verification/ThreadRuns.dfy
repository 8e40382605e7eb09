/** Whole runs of the thread library: any sequence of calls by whatever threads are running. */
module ThreadRuns {
  import opened Common
  import opened ThreadModel
  import opened ThreadProofs
  import opened ThreadReference

  // ---------------------------------------------------------------- one call

  lemma ReleaseReady(s: Machine, m: nat)
    requires Settled(s) && m < |s.locks| && s.cpu.running.Some?
    ensures Ready(s.cpu) && Ready(Release(s.cpu, m, s.locks[m]).0)
  {
    ReadyKnown(s);
    assert Holds(s.cpu, QueueAt(s, OnMutex(m)), OnMutex(m));
  }

  lemma JoinersKnown(s: Machine)
    requires Settled(s) && s.cpu.running.Some? && s.cpu.running.value in s.cpu.joins
    ensures Ready(Forget(MakeAllReady(s.cpu, s.cpu.joins[s.cpu.running.value]), s.cpu.running.value))
  {
    var t := s.cpu.running.value;
    Running(s);
    ReadyKnown(s);
    assert Holds(s.cpu, QueueAt(s, OnJoin(t)), OnJoin(t));
  }

  /** The machine after the running thread made a call, and the next thread was dispatched if it gave up the CPU. */
  ghost function Do(s: Machine, call: Call): Machine
    requires Settled(s) && CanCall(s, call)
  {
    ReadyKnown(s);
    match call
    case LockCall(m) =>
      var (c, l) := LockOp(s.cpu, m, s.locks[m]);
      s.(cpu := c, locks := s.locks[m := l])
    case UnlockCall(m) =>
      var (c, l) := UnlockOp(s.cpu, m, s.locks[m]);
      s.(cpu := c, locks := s.locks[m := l])
    case WaitCall(v, m) =>
      ReleaseReady(s, m);
      var (c, queue, l) := WaitOp(s.cpu, v, s.cvs[v], m, s.locks[m]);
      s.(cpu := c, locks := s.locks[m := l], cvs := s.cvs[v := queue])
    case RelockCall =>
      var m := s.cpu.points[s.cpu.running.value].m;
      var (c, l) := RelockOp(s.cpu, m, s.locks[m]);
      s.(cpu := c, locks := s.locks[m := l])
    case SignalCall(v) =>
      var (c, queue) := SignalOp(s.cpu, s.cvs[v]);
      s.(cpu := c, cvs := s.cvs[v := queue])
    case BroadcastCall(v) =>
      var (c, queue) := BroadcastOp(s.cpu, s.cvs[v]);
      s.(cpu := c, cvs := s.cvs[v := queue])
    case CreateCall => s.(cpu := CreateOp(s.cpu))
    case YieldCall => s.(cpu := YieldOp(s.cpu))
    case JoinCall(u) => s.(cpu := JoinOp(s.cpu, u))
    case FinishCall =>
      JoinersKnown(s);
      s.(cpu := FinishOp(s.cpu))
  }

  lemma LockKeeps(s: Machine, m: nat)
    requires Settled(s) && CanCall(s, LockCall(m))
    ensures Inv(Do(s, LockCall(m)))
  {
    ReadyKnown(s);
    var t := s.cpu.running.value;
    Running(s);
    if s.locks[m].status {
      hide Settled;
      ParkOnMutex(s, m);
      SwapKeeps(s.(cpu := Park(s.cpu, OnMutex(m), Granted(m)),
        locks := s.locks[m := s.locks[m].(queue := s.locks[m].queue + [t])]));
    } else {
      assert s.cpu.points[t] == Runs && s.cpu.points[t := Runs] == s.cpu.points by {
        assert Fits(OnCpu, s.cpu.points[t], |s.locks|);
      }
      TakesLock(s, m, s.cpu.points);
    }
  }

  lemma RelockKeeps(s: Machine)
    requires Settled(s) && CanCall(s, RelockCall)
    ensures Inv(Do(s, RelockCall))
  {
    ReadyKnown(s);
    var t := s.cpu.running.value;
    var m := s.cpu.points[t].m;
    hide Settled;
    if s.locks[m].status {
      ParkOnMutex(s, m);
      SwapKeeps(s.(cpu := Park(s.cpu, OnMutex(m), Granted(m)),
        locks := s.locks[m := s.locks[m].(queue := s.locks[m].queue + [t])]));
    } else {
      TakesLock(s, m, s.cpu.points[t := Runs]);
    }
  }

  lemma UnlockKeeps(s: Machine, m: nat)
    requires Settled(s) && CanCall(s, UnlockCall(m))
    ensures Inv(Do(s, UnlockCall(m)))
  {
    hide Settled;
    if Owns(s.cpu, s.locks[m]) {
      ReleaseKeeps(s, m);
    } else {
      assert s.locks[m := s.locks[m]] == s.locks;
    }
  }

  lemma WaitKeeps(s: Machine, v: nat, m: nat)
    requires Settled(s) && CanCall(s, WaitCall(v, m))
    ensures Inv(Do(s, WaitCall(v, m)))
  {
    ReleaseReady(s, m);
    hide Settled;
    if Owns(s.cpu, s.locks[m]) {
      ReleaseKeeps(s, m);
      var (c, l) := Release(s.cpu, m, s.locks[m]);
      var n := s.(cpu := c, locks := s.locks[m := l]);
      ParkOnCv(n, v, m);
      SwapKeeps(n.(cpu := Park(c, OnCv(v), Relocks(m)), cvs := s.cvs[v := s.cvs[v] + [s.cpu.running.value]]));
    } else {
      assert s.locks[m := s.locks[m]] == s.locks && s.cvs[v := s.cvs[v]] == s.cvs;
    }
  }

  lemma JoinKeeps(s: Machine, u: nat)
    requires Settled(s) && CanCall(s, JoinCall(u))
    ensures Inv(Do(s, JoinCall(u)))
  {
    ReadyKnown(s);
    hide Settled;
    if u in s.cpu.joins {
      ParkOnJoin(s, u);
      var c := s.cpu.(joins := s.cpu.joins[u := s.cpu.joins[u] + [s.cpu.running.value]]);
      SwapKeeps(s.(cpu := Park(c, OnJoin(u), Runs)));
    }
  }

  lemma YieldKeeps(s: Machine)
    requires Settled(s) && CanCall(s, YieldCall)
    ensures Inv(Do(s, YieldCall))
  {
    ReadyKnown(s);
    hide Settled;
    if s.cpu.ready != [] {
      ParkReady(s);
      SwapKeeps(s.(cpu := MakeReady(s.cpu, s.cpu.running.value).(running := None)));
    }
  }

  lemma FinishKeeps(s: Machine)
    requires Settled(s) && CanCall(s, FinishCall)
    ensures Inv(Do(s, FinishCall))
  {
    JoinersKnown(s);
    hide Settled;
    var t := s.cpu.running.value;
    JoinersKeep(s, t);
    var n := s.(cpu := MakeAllReady(s.cpu, s.cpu.joins[t]).(joins := s.cpu.joins[t := []]));
    ForgetKeeps(n);
    assert s.cpu.joins[t := []] - {t} == s.cpu.joins - {t};
    assert Forget(n.cpu, t) == Forget(MakeAllReady(s.cpu, s.cpu.joins[t]), t);
    SwapKeeps(n.(cpu := Forget(n.cpu, t)));
  }

  lemma WakeKeeps(s: Machine, call: Call)
    requires Settled(s) && CanCall(s, call) && (call.SignalCall? || call.BroadcastCall? || call.CreateCall?)
    ensures Inv(Do(s, call))
  {
    hide Settled;
    match call
    case SignalCall(v) => SignalKeeps(s, v);
    case BroadcastCall(v) => BroadcastKeeps(s, v);
    case CreateCall => CreateKeeps(s);
  }

  /** Every call of every thread keeps the invariant. */
  lemma CallKeeps(s: Machine, call: Call)
    requires Inv(s) && CanCall(s, call)
    ensures Inv(Do(s, call))
  {
    assert Settled(s);
    hide Inv, Settled, Do, CanCall;
    match call
    case LockCall(m) => LockKeeps(s, m);
    case UnlockCall(m) => UnlockKeeps(s, m);
    case WaitCall(v, m) => WaitKeeps(s, v, m);
    case RelockCall => RelockKeeps(s);
    case SignalCall(_) => WakeKeeps(s, call);
    case BroadcastCall(_) => WakeKeeps(s, call);
    case CreateCall => WakeKeeps(s, call);
    case YieldCall => YieldKeeps(s);
    case JoinCall(u) => JoinKeeps(s, u);
    case FinishCall => FinishKeeps(s);
  }

  /** After boot the first thread runs, nobody else exists, and every mutex is free. */
  lemma BootInv(locks: nat, cvs: nat)
    ensures Inv(Boot(locks, cvs))
    ensures var s := Boot(locks, cvs);
      && s.cpu.running == Some(0) && s.cpu.next == 1 && |s.locks| == locks && |s.cvs| == cvs
      && (forall p :: QueueAt(s, p) == if p == OnCpu then [0] else [])
      && (forall m :: 0 <= m < locks ==> !s.locks[m].status)
  {
    var empty := Machine(Cpu(None, [], map[], 0, map[], map[], {}, 0), seq(locks, _ => Lock(false, 0, [])),
      seq(cvs, _ => []));
    assert Settled(empty);
    hide Settled;
    CreateKeeps(empty);
    SwapKeeps(empty.(cpu := CreateOp(empty.cpu)));
  }

  // ---------------------------------------------------------------- what the invariant says

  /** At most one thread is between its return from `lock` or `wait` and its next release of mutex `m`, and the mutex
      names it as the owner; a free mutex has no waiters; and a mutex is taken only while its owner is there, or ready
      to go there. */
  lemma MutualExclusion(s: Machine, m: nat)
    requires Inv(s) && m < |s.locks|
    ensures forall t :: Inside(t, m) in s.cpu.inside ==> s.locks[m].status && s.locks[m].owner == t
    ensures forall t, u :: Inside(t, m) in s.cpu.inside && Inside(u, m) in s.cpu.inside ==> t == u
    ensures !s.locks[m].status ==> s.locks[m].queue == []
    ensures s.locks[m].status ==> Inside(s.locks[m].owner, m) in s.cpu.inside || Given(s.cpu, s.locks[m].owner, m)
  {
    assert LockOk(s.cpu, m, s.locks[m]);
  }

  /** Each unfinished thread is in exactly one place, once, and a finished one nowhere. */
  lemma OnePlace(s: Machine, t: nat, p: Place)
    requires Inv(s)
    ensures NoDup(QueueAt(s, p))
    ensures t in QueueAt(s, p) <==> t in s.cpu.joins && p == s.cpu.places[t]
  {
    assert Holds(s.cpu, QueueAt(s, p), p);
  }

  /** The CPU stops only when every unfinished thread waits for a mutex, a condition variable or another thread. */
  lemma StoppedMeansBlocked(s: Machine, t: nat)
    requires Inv(s) && s.cpu.running.None? && t in s.cpu.joins
    ensures t in s.cpu.places && !s.cpu.places[t].OnCpu? && !s.cpu.places[t].InReady?
    ensures forall call :: !CanCall(s, call)
  {
    OnePlace(s, t, OnCpu);
    OnePlace(s, t, InReady);
  }

  // ---------------------------------------------------------------- what one call may do

  ghost predicate Known(s: Machine) {
    && s.cpu.running.Some? && s.cpu.running.value in s.cpu.places && s.cpu.places[s.cpu.running.value] == OnCpu
    && (forall t :: t in s.cpu.ready ==> t in s.cpu.points && t in s.cpu.places && s.cpu.places[t] == InReady)
  }

  lemma Knows(s: Machine)
    requires Inv(s) && s.cpu.running.Some?
    ensures Known(s)
  {
    Running(s);
    assert Holds(s.cpu, QueueAt(s, InReady), InReady);
    ReadyKnown(s);
  }

  /** A `lock` of a free mutex returns with it; of a taken one it waits last in line. */
  lemma LockTakesOrWaits(s: Machine, m: nat)
    requires Inv(s) && CanCall(s, LockCall(m))
    ensures m < |Do(s, LockCall(m)).locks|
    ensures var (t, n) := (s.cpu.running.value, Do(s, LockCall(m)));
      if s.locks[m].status then
        && n.cpu.running != Some(t) && n.locks[m].queue == s.locks[m].queue + [t]
        && t in n.cpu.points && n.cpu.points[t] == Granted(m)
      else n.cpu.running == Some(t) && n.locks[m].owner == t && Inside(t, m) in n.cpu.inside
  {
    Running(s);
    ReadyKnown(s);
    hide Settled;
  }

  /** An `unlock` by the owner gives the mutex up: the first waiter is its owner now and ready, or it is free.  By
      anybody else it changes nothing. */
  lemma UnlockGivesUp(s: Machine, m: nat)
    requires Inv(s) && CanCall(s, UnlockCall(m))
    ensures m < |Do(s, UnlockCall(m)).locks|
    ensures var (t, l, n) := (s.cpu.running.value, s.locks[m], Do(s, UnlockCall(m)));
      if !Owns(s.cpu, l) then n == s
      else
        && Inside(t, m) !in n.cpu.inside && n.cpu.running == Some(t)
        && if l.queue == [] then !n.locks[m].status && n.cpu.ready == s.cpu.ready
           else n.locks[m].status && n.locks[m].owner == l.queue[0] && n.cpu.ready == s.cpu.ready + [l.queue[0]]
  {
    assert s.locks[m := s.locks[m]] == s.locks;
    hide Inv;
  }

  /** A `wait` by the owner queues it, gives the mutex up and gives the CPU away; by anybody else it changes nothing. */
  lemma WaitGivesUp(s: Machine, v: nat, m: nat)
    requires Inv(s) && CanCall(s, WaitCall(v, m))
    ensures v < |Do(s, WaitCall(v, m)).cvs|
    ensures var (t, n) := (s.cpu.running.value, Do(s, WaitCall(v, m)));
      if !Owns(s.cpu, s.locks[m]) then n == s
      else n.cvs[v] == s.cvs[v] + [t] && Inside(t, m) !in n.cpu.inside && n.cpu.running != Some(t)
  {
    Running(s);
    assert s.locks[m := s.locks[m]] == s.locks && s.cvs[v := s.cvs[v]] == s.cvs;
    ReleaseReady(s, m);
    QueuePlaces(s, OnMutex(m));
    if Owns(s.cpu, s.locks[m]) { WaiterElsewhere(s, m); }
    hide Settled, Holds;
  }

  lemma WaiterElsewhere(s: Machine, m: nat)
    requires Settled(s) && m < |s.locks| && s.cpu.running.Some?
    ensures s.cpu.running.value !in s.locks[m].queue && s.cpu.running.value !in Release(s.cpu, m, s.locks[m]).0.ready
  {
    Running(s);
    assert Holds(s.cpu, QueueAt(s, OnMutex(m)), OnMutex(m));
  }

  /** A mutex passes from waiter to waiter in the order of its queue; nobody overtakes. */
  lemma HandOffInOrder(s: Machine, call: Call, m: nat)
    requires Inv(s) && CanCall(s, call) && m < |s.locks|
    ensures m < |Do(s, call).locks|
    ensures var (l, l') := (s.locks[m], Do(s, call).locks[m]);
      || (l'.queue == l.queue && (l.queue != [] ==> l'.status && l'.owner == l.owner))
      || (l'.queue == l.queue + [s.cpu.running.value] && l'.status && l'.owner == l.owner)
      || (l.queue != [] && l'.queue == l.queue[1..] && l'.status && l'.owner == l.queue[0])
  {
    MutualExclusion(s, m);
    hide Settled, Swap, MakeAllReady, Owns;
  }

  /** A thread stops waiting on a condition variable only when it is signalled first in line, or broadcast to. */
  lemma OnlySignalsWake(s: Machine, call: Call, v: nat, t: nat)
    requires Inv(s) && CanCall(s, call) && v < |s.cvs| && t in s.cvs[v]
    ensures v < |Do(s, call).cvs|
    ensures t !in Do(s, call).cvs[v] ==> (call == SignalCall(v) && s.cvs[v][0] == t) || call == BroadcastCall(v)
  {
    hide Settled, Swap, MakeAllReady, Owns, Release;
  }

  /** A thread that goes on in its program after `wait`, or after a `lock` it had to wait for, owns the mutex. */
  lemma ReturnsAsOwner(s: Machine, call: Call, t: nat)
    requires Inv(s) && CanCall(s, call) && t in s.cpu.points && !s.cpu.points[t].Runs?
    requires t in Do(s, call).cpu.points && Do(s, call).cpu.points[t].Runs?
    ensures var m := s.cpu.points[t].m;
      && m < |Do(s, call).locks| && Inside(t, m) in Do(s, call).cpu.inside
      && Do(s, call).locks[m].status && Do(s, call).locks[m].owner == t
  {
    var m := s.cpu.points[t].m;
    var n := Do(s, call);
    CallKeeps(s, call);
    Knows(s);
    assert Settled(n);
    BecomesInside(s, call, t);
    MutualExclusion(n, m) by { assert LocksOk(n); }
    hide Inv, Settled, Do;
  }

  /** A switch changes where a thread goes on only if it hands the thread its mutex. */
  lemma SwapPoints(c: Cpu, t: nat)
    requires Ready(c) && t in c.points
    ensures t in Swap(c).points
    ensures Swap(c).points[t] != c.points[t] ==> c.points[t].Granted? && Inside(t, c.points[t].m) in Swap(c).inside
    ensures c.inside <= Swap(c).inside
  {
  }

  lemma BecomesInside(s: Machine, call: Call, t: nat)
    requires Settled(s) && CanCall(s, call) && Known(s) && t in s.cpu.points && !s.cpu.points[t].Runs?
    requires t in Do(s, call).cpu.points && Do(s, call).cpu.points[t].Runs?
    ensures Inside(t, s.cpu.points[t].m) in Do(s, call).cpu.inside
  {
    Running(s);
    ReadyKnown(s);
    var r := s.cpu.running.value;
    if t == r {
      RelocksInside(s, call);
    } else {
      match call
      case LockCall(m) => if s.locks[m].status { SwapPoints(Park(s.cpu, OnMutex(m), Granted(m)), t); }
      case WaitCall(v, m) =>
        ReleaseReady(s, m);
        if Owns(s.cpu, s.locks[m]) { SwapPoints(Park(Release(s.cpu, m, s.locks[m]).0, OnCv(v), Relocks(m)), t); }
      case RelockCall =>
        var m := s.cpu.points[r].m;
        if s.locks[m].status { SwapPoints(Park(s.cpu, OnMutex(m), Granted(m)), t); }
      case YieldCall => if s.cpu.ready != [] { SwapPoints(MakeReady(s.cpu, r).(running := None), t); }
      case JoinCall(u) =>
        if u in s.cpu.joins {
          SwapPoints(Park(s.cpu.(joins := s.cpu.joins[u := s.cpu.joins[u] + [r]]), OnJoin(u), Runs), t);
        }
      case FinishCall =>
        JoinersKnown(s);
        SwapPoints(Forget(MakeAllReady(s.cpu, s.cpu.joins[r]), r), t);
      case CreateCall => NewIsNew(s, t);
      case _ =>
      hide Settled, Swap;
    }
  }

  lemma NewIsNew(s: Machine, t: nat)
    requires Settled(s) && t in s.cpu.points
    ensures t != s.cpu.next
  {
  }

  lemma RelocksInside(s: Machine, call: Call)
    requires Settled(s) && CanCall(s, call) && Known(s) && !s.cpu.points[s.cpu.running.value].Runs?
    requires var t := s.cpu.running.value; t in Do(s, call).cpu.points && Do(s, call).cpu.points[t].Runs?
    ensures var t := s.cpu.running.value; Inside(t, s.cpu.points[t].m) in Do(s, call).cpu.inside
  {
    var t := s.cpu.running.value;
    Running(s);
    ReadyKnown(s);
    var m := s.cpu.points[t].m;
    assert call.RelockCall?;
    if s.locks[m].status { SwapPoints(Park(s.cpu, OnMutex(m), Granted(m)), t); }
    hide Settled, Swap;
  }

  /** A thread gives a mutex up only by its own `unlock` or `wait`. */
  lemma OnlyOwnerReleases(s: Machine, call: Call, t: nat, m: nat)
    requires Inv(s) && CanCall(s, call) && Inside(t, m) in s.cpu.inside
    ensures Inside(t, m) in Do(s, call).cpu.inside
      || (s.cpu.running == Some(t) && (call == UnlockCall(m) || (call.WaitCall? && call.m == m)))
  {
    Knows(s);
    var r := s.cpu.running.value;
    ReadyKnown(s);
    Running(s);
    match call
    case LockCall(k) => if s.locks[k].status { SwapPoints(Park(s.cpu, OnMutex(k), Granted(k)), r); }
    case WaitCall(v, k) =>
      ReleaseReady(s, k);
      if Owns(s.cpu, s.locks[k]) { SwapPoints(Park(Release(s.cpu, k, s.locks[k]).0, OnCv(v), Relocks(k)), r); }
    case RelockCall =>
      var k := s.cpu.points[r].m;
      if s.locks[k].status { SwapPoints(Park(s.cpu, OnMutex(k), Granted(k)), r); }
    case YieldCall => if s.cpu.ready != [] { SwapPoints(MakeReady(s.cpu, r).(running := None), r); }
    case JoinCall(u) =>
      if u in s.cpu.joins {
        SwapPoints(Park(s.cpu.(joins := s.cpu.joins[u := s.cpu.joins[u] + [r]]), OnJoin(u), Runs), r);
      }
    case FinishCall =>
      JoinersKnown(s);
      SwapKeepsInside(Forget(MakeAllReady(s.cpu, s.cpu.joins[r]), r));
    case _ =>
    hide Settled, Inv, Swap;
  }

  lemma SwapKeepsInside(c: Cpu)
    requires Ready(c)
    ensures c.inside <= Swap(c).inside
  {
  }

  // ---------------------------------------------------------------- join

  /** A thread that waits for another one becomes ready, or runs, exactly when that one finishes. */
  lemma JoinersWokenByFinish(s: Machine, call: Call, u: nat, t: nat)
    requires Inv(s) && CanCall(s, call) && u in s.cpu.joins && t in s.cpu.joins[u]
    ensures var n := Do(s, call).cpu;
      if call == FinishCall && s.cpu.running == Some(u) then u !in n.joins && (t in n.ready || n.running == Some(t))
      else u in n.joins && t in n.joins[u]
  {
    Knows(s);
    NewIsNew(s, u) by { assert KeysOk(s.cpu); }
    if call.FinishCall? {
      JoinersKnown(s);
      hide Inv, Settled;
      FinishWakes(s.cpu, u, t);
    } else {
      hide Inv, Settled, MakeAllReady;
    }
  }

  lemma FinishWakes(c: Cpu, u: nat, t: nat)
    requires c.running.Some? && c.running.value in c.joins && u in c.joins && t in c.joins[u]
    requires Ready(Forget(MakeAllReady(c, c.joins[c.running.value]), c.running.value))
    ensures var n := FinishOp(c);
      if c.running == Some(u) then u !in n.joins && (t in n.ready || n.running == Some(t))
      else u in n.joins && t in n.joins[u]
  {
    if c.running == Some(u) {
      var ready := c.ready + c.joins[u];
      assert t in ready;
      assert forall x :: x in ready ==> x == ready[0] || x in ready[1..];
    }
  }

  /** A `join` on a thread that is not finished queues the caller on it and gives the CPU away; on a finished one it
      changes nothing. */
  lemma JoinParks(s: Machine, u: nat)
    requires Inv(s) && CanCall(s, JoinCall(u))
    ensures var (t, n) := (s.cpu.running.value, Do(s, JoinCall(u)));
      if u !in s.cpu.joins then n == s
      else
        && u in n.cpu.joins && n.cpu.joins[u] == s.cpu.joins[u] + [t]
        && t in n.cpu.places && n.cpu.places[t] == OnJoin(u) && n.cpu.running != Some(t)
  {
    Knows(s);
    ReadyKnown(s);
    hide Inv;
  }

  lemma FinishedStays(s: Machine, call: Call, u: nat)
    requires Inv(s) && CanCall(s, call) && u !in s.cpu.joins && u < s.cpu.next
    ensures u !in Do(s, call).cpu.joins && u < Do(s, call).cpu.next
  {
    ReadyKnown(s);
    if call.FinishCall? { JoinersKnown(s); }
    hide Inv, Settled;
  }

  // ---------------------------------------------------------------- fairness

  /** The ready queue is first in, first out: a call appends to it, and a dispatch takes its front. */
  ghost predicate Queues(c: Cpu, n: Cpu, added: seq<nat>) {
    var ready := c.ready + added;
    if n.dispatches == c.dispatches then n.ready == ready
    else n.dispatches == c.dispatches + 1 && ready != [] && n.running == Some(ready[0]) && n.ready == ready[1..]
  }

  lemma SwapQueues(c: Cpu, d: Cpu, added: seq<nat>)
    requires Ready(d) && d.ready == c.ready + added && d.dispatches == c.dispatches
    ensures Queues(c, Swap(d), added)
  {
  }

  lemma SwapQueuesNone(c: Cpu, d: Cpu)
    requires Ready(d) && d.ready == c.ready && d.dispatches == c.dispatches
    ensures Queues(c, Swap(d), [])
  {
    assert c.ready + [] == c.ready;
  }

  /** Who becomes ready by a call. */
  ghost function Readied(s: Machine, call: Call): seq<nat>
    requires CanCall(s, call)
  {
    Arrivals(Moving(s, call), InReady)
  }

  lemma ReadiedIs(s: Machine, call: Call)
    requires CanCall(s, call)
    ensures Readied(s, call) ==
      match call
      case UnlockCall(m) => if Owns(s.cpu, s.locks[m]) then FirstOf(s.locks[m].queue) else []
      case WaitCall(_, m) => if Owns(s.cpu, s.locks[m]) then FirstOf(s.locks[m].queue) else []
      case SignalCall(v) => FirstOf(s.cvs[v])
      case BroadcastCall(v) => s.cvs[v]
      case CreateCall => [s.cpu.next]
      case YieldCall => if s.cpu.ready == [] then [] else [s.cpu.running.value]
      case FinishCall => s.cpu.joins[s.cpu.running.value]
      case _ => []
  {
    var moves := Moving(s, call);
    if |moves| == 1 { ArrivalsOne(moves[0], InReady); }
    match call
    case UnlockCall(m) => ArrivalsReady(FirstOf(s.locks[m].queue), InReady);
    case WaitCall(v, m) =>
      ArrivalsReady(FirstOf(s.locks[m].queue), InReady);
      ArrivalsMore(ToReady(FirstOf(s.locks[m].queue)), Move(s.cpu.running.value, OnCv(v)), InReady);
    case SignalCall(v) => ArrivalsReady(FirstOf(s.cvs[v]), InReady);
    case BroadcastCall(v) => ArrivalsReady(s.cvs[v], InReady);
    case FinishCall => ArrivalsReady(s.cpu.joins[s.cpu.running.value], InReady);
    case _ => assert moves == [] || moves == [moves[0]];
    hide ToReady;
  }

  /** Every call adds to the ready queue exactly those it makes ready, in order, and a dispatch takes the front. */
  lemma CallQueues(s: Machine, call: Call)
    requires Inv(s) && CanCall(s, call)
    ensures Queues(s.cpu, Do(s, call).cpu, Readied(s, call))
  {
    Knows(s);
    var r := s.cpu.running.value;
    ReadyKnown(s);
    var c := s.cpu;
    assert c.ready + [] == c.ready;
    ReadiedIs(s, call);
    hide Readied;
    match call
    case LockCall(m) => if s.locks[m].status { SwapQueuesNone(c, Park(c, OnMutex(m), Granted(m))); }
    case RelockCall =>
      var m := c.points[r].m;
      if s.locks[m].status { SwapQueuesNone(c, Park(c, OnMutex(m), Granted(m))); }
    case WaitCall(v, m) =>
      ReleaseReady(s, m);
      if Owns(c, s.locks[m]) {
        SwapQueues(c, Park(Release(c, m, s.locks[m]).0, OnCv(v), Relocks(m)), FirstOf(s.locks[m].queue));
      }
    case YieldCall => if c.ready != [] { SwapQueues(c, MakeReady(c, r).(running := None), [r]); }
    case JoinCall(u) =>
      if u in c.joins { SwapQueuesNone(c, Park(c.(joins := c.joins[u := c.joins[u] + [r]]), OnJoin(u), Runs)); }
    case FinishCall =>
      JoinersKnown(s);
      SwapQueues(c, Forget(MakeAllReady(c, c.joins[r]), r), c.joins[r]);
    case _ =>
    hide Inv, Settled, Swap;
  }

  /** The machine after the calls that its threads made one after the other; impossible ones are passed over. */
  ghost function Exec(s: Machine, calls: seq<Call>): (n: Machine)
    requires Inv(s)
    ensures Inv(n)
    decreases |calls|
  {
    if calls == [] then s
    else if CanCall(s, calls[0]) then
      CallKeeps(s, calls[0]);
      Exec(Do(s, calls[0]), calls[1..])
    else Exec(s, calls[1..])
  }

  /** From boot on, whatever the threads do, the invariant holds. */
  lemma RunsKeep(locks: nat, cvs: nat, calls: seq<Call>)
    ensures Inv(Boot(locks, cvs)) && Inv(Exec(Boot(locks, cvs), calls))
  {
    BootInv(locks, cvs);
  }

  /** A thread that waits for `u` waits until `u` has finished, whatever happens meanwhile. */
  lemma {:induction false} WaitsForFinish(s: Machine, calls: seq<Call>, u: nat, t: nat)
    requires Inv(s) && u < s.cpu.next && (u in s.cpu.joins ==> t in s.cpu.joins[u])
    ensures var n := Exec(s, calls); u < n.cpu.next && (u in n.cpu.joins ==> t in n.cpu.joins[u])
    decreases |calls|
  {
    hide Inv, CanCall, Do;
    if calls != [] {
      var n := First(s, calls);
      if CanCall(s, calls[0]) {
        if u in s.cpu.joins {
          JoinersWokenByFinish(s, calls[0], u, t);
          NextGrows(s, calls[0]);
        } else {
          FinishedStays(s, calls[0], u);
        }
      }
      WaitsForFinish(n, calls[1..], u, t);
    }
  }

  lemma NextGrows(s: Machine, call: Call)
    requires Inv(s) && CanCall(s, call)
    ensures Do(s, call).cpu.next == s.cpu.next + if call.CreateCall? then 1 else 0
  {
    ReadyKnown(s);
    if call.FinishCall? { JoinersKnown(s); }
    hide Inv, Settled;
  }

  /** After `join` on a thread that is not finished, the caller runs again only when that thread has finished. */
  lemma JoinWaits(s: Machine, u: nat, calls: seq<Call>)
    requires Inv(s) && CanCall(s, JoinCall(u)) && u in s.cpu.joins
    ensures Inv(Do(s, JoinCall(u)))
    ensures var (t, n) := (s.cpu.running.value, Exec(Do(s, JoinCall(u)), calls));
      n.cpu.running == Some(t) ==> u !in n.cpu.joins
  {
    CallKeeps(s, JoinCall(u));
    JoinParks(s, u);
    NextGrows(s, JoinCall(u));
    assert u < s.cpu.next by { assert KeysOk(s.cpu); }
    var (t, n) := (s.cpu.running.value, Exec(Do(s, JoinCall(u)), calls));
    hide Inv, Do, CanCall;
    WaitsForFinish(Do(s, JoinCall(u)), calls, u, t);
    if u in n.cpu.joins && n.cpu.running == Some(t) {
      OnePlace(n, t, OnCpu);
      OnePlace(n, t, OnJoin(u));
    }
  }

  /** A `yield` with others ready runs the first of them and puts the caller behind them all; with nobody ready it
      changes nothing. */
  lemma YieldGoesLast(s: Machine)
    requires Inv(s) && CanCall(s, YieldCall)
    ensures var (t, n) := (s.cpu.running.value, Do(s, YieldCall));
      if s.cpu.ready == [] then n == s
      else n.cpu.running == Some(s.cpu.ready[0]) && n.cpu.ready == s.cpu.ready[1..] + [t]
  {
    ReadyKnown(s);
    hide Inv;
  }

  /** Thread `t` runs, as the `d`-th one dispatched. */
  ghost predicate Turn(c: Cpu, t: nat, d: nat) {
    c.running == Some(t) && c.dispatches == d
  }

  lemma {:induction false} DispatchesGrow(s: Machine, calls: seq<Call>)
    requires Inv(s)
    ensures Exec(s, calls).cpu.dispatches >= s.cpu.dispatches
    decreases |calls|
  {
    hide Inv, CanCall, Do;
    if calls != [] {
      var m := First(s, calls);
      if CanCall(s, calls[0]) { CallQueues(s, calls[0]); }
      DispatchesGrow(m, calls[1..]);
    }
  }

  /** The machine after the first call. */
  lemma First(s: Machine, calls: seq<Call>) returns (m: Machine)
    requires Inv(s) && calls != []
    ensures Inv(m) && m == if CanCall(s, calls[0]) then Do(s, calls[0]) else s
    ensures Exec(s, calls) == Exec(m, calls[1..])
    ensures forall i :: 0 <= i < |calls| ==> Exec(s, calls[..i + 1]) == Exec(m, calls[1..][..i])
  {
    if CanCall(s, calls[0]) {
      CallKeeps(s, calls[0]);
      m := Do(s, calls[0]);
    } else {
      m := s;
    }
    hide Inv, CanCall, Do;
    forall i | 0 <= i < |calls| ensures Exec(s, calls[..i + 1]) == Exec(m, calls[1..][..i]) {
      assert calls[..i + 1][1..] == calls[1..][..i];
    }
  }

  /** After at most `k` dispatches a ready thread with `k` threads before it has moved up by that many places. */
  lemma {:induction false} MovesUp(s: Machine, calls: seq<Call>, k: nat)
    requires Inv(s) && k < |s.cpu.ready| && Exec(s, calls).cpu.dispatches <= s.cpu.dispatches + k
    ensures var n := Exec(s, calls).cpu;
      && s.cpu.dispatches <= n.dispatches
      && k - (n.dispatches - s.cpu.dispatches) < |n.ready|
      && n.ready[k - (n.dispatches - s.cpu.dispatches)] == s.cpu.ready[k]
    decreases |calls|
  {
    hide Inv, CanCall, Do;
    if calls != [] {
      var m := First(s, calls);
      DispatchesGrow(m, calls[1..]);
      if CanCall(s, calls[0]) { CallQueues(s, calls[0]); }
      MovesUp(m, calls[1..], k - (m.cpu.dispatches - s.cpu.dispatches));
    }
  }

  /** A ready thread with `k` threads before it is the one that the (k + 1)-th dispatch from now picks. */
  lemma {:induction false} TurnComes(s: Machine, calls: seq<Call>, k: nat)
    requires Inv(s) && k < |s.cpu.ready| && Exec(s, calls).cpu.dispatches > s.cpu.dispatches + k
    ensures exists i :: 0 <= i <= |calls| && Turn(Exec(s, calls[..i]).cpu, s.cpu.ready[k], s.cpu.dispatches + k + 1)
    decreases |calls|
  {
    hide Inv, CanCall, Do;
    if calls != [] {
      var m := First(s, calls);
      if CanCall(s, calls[0]) { CallQueues(s, calls[0]); }
      if m.cpu.dispatches == s.cpu.dispatches + 1 && k == 0 {
        assert calls[1..][..0] == [];
        assert Turn(Exec(s, calls[..0 + 1]).cpu, s.cpu.ready[k], s.cpu.dispatches + k + 1);
      } else {
        var j := k - (m.cpu.dispatches - s.cpu.dispatches);
        TurnComes(m, calls[1..], j);
        var i :| 0 <= i <= |calls[1..]| && Turn(Exec(m, calls[1..][..i]).cpu, m.cpu.ready[j], m.cpu.dispatches + j + 1);
        assert Turn(Exec(s, calls[..i + 1]).cpu, s.cpu.ready[k], s.cpu.dispatches + k + 1);
      }
    }
  }

  /** So a thread that yields to `k` others runs again as the `k`-th one dispatched after the switch, not before. */
  lemma YieldComesBack(s: Machine, calls: seq<Call>)
    requires Inv(s) && CanCall(s, YieldCall) && s.cpu.ready != []
    ensures Inv(Do(s, YieldCall))
    ensures var (t, k, n) := (s.cpu.running.value, |s.cpu.ready|, Do(s, YieldCall));
      && n.cpu.dispatches == s.cpu.dispatches + 1
      && if Exec(n, calls).cpu.dispatches < n.cpu.dispatches + k then Exec(n, calls).cpu.running != Some(t)
         else exists i :: 0 <= i <= |calls| && Turn(Exec(n, calls[..i]).cpu, t, n.cpu.dispatches + k)
  {
    CallKeeps(s, YieldCall);
    YieldGoesLast(s);
    CallQueues(s, YieldCall);
    var (t, k, n) := (s.cpu.running.value, |s.cpu.ready|, Do(s, YieldCall));
    assert n.cpu.ready[k - 1] == t;
    hide Inv, Do, CanCall, Readied;
    if Exec(n, calls).cpu.dispatches < n.cpu.dispatches + k {
      MovesUp(n, calls, k - 1);
      var e := Exec(n, calls);
      if e.cpu.running == Some(t) {
        OnePlace(e, t, OnCpu);
        OnePlace(e, t, InReady);
      }
    } else {
      TurnComes(n, calls, k - 1);
    }
  }
}
