/** Every call keeps the invariant of the thread library. */
module ThreadProofs {
  import opened Common
  import opened ThreadModel

  // ---------------------------------------------------------------- one thread changes its place

  ghost predicate Without(q: seq<nat>, t: nat, q': seq<nat>) {
    NoDup(q') && forall x :: x in q' <==> x in q && x != t
  }

  lemma HeadGone(q: seq<nat>)
    requires q != [] && NoDup(q)
    ensures Without(q, q[0], q[1..])
  {
    assert forall x :: x in q[1..] ==> exists i :: 1 <= i < |q| && q[i] == x;
  }

  lemma OneGone(t: nat)
    ensures Without([t], t, [])
  {
  }

  /** If thread `t` leaves one queue for the end of another, every thread still has its one place. */
  lemma Moves(s: Machine, n: Machine, t: nat, from: Place, to: Place)
    requires PlacesOk(s) && t in s.cpu.places && s.cpu.places[t] == from != to
    requires n.cpu.places == s.cpu.places[t := to]
    requires QueueAt(n, to) == QueueAt(s, to) + [t] && Without(QueueAt(s, from), t, QueueAt(n, from))
    requires forall p :: p != from && p != to ==> QueueAt(n, p) == QueueAt(s, p)
    ensures PlacesOk(n)
  {
    hide QueueAt;
    forall p ensures Holds(n.cpu, QueueAt(n, p), p) {
      assert Holds(s.cpu, QueueAt(s, p), p);
      if p == to {
        assert forall x :: x in QueueAt(s, to) + [t] <==> x in QueueAt(s, to) || x == t;
      }
    }
  }

  lemma PointMoved(c: Cpu, n: Cpu, t: nat, to: Place, point: Point, locks: nat)
    requires PointsOk(c, locks) && n.places == c.places[t := to] && n.points == c.points[t := point]
    requires Fits(to, point, locks)
    ensures PointsOk(n, locks)
  {
  }

  // ---------------------------------------------------------------- switching

  lemma AtHead(s: Machine)
    requires PlacesOk(s) && s.cpu.ready != []
    ensures s.cpu.ready[0] in s.cpu.places && s.cpu.places[s.cpu.ready[0]] == InReady
    ensures Without(s.cpu.ready, s.cpu.ready[0], s.cpu.ready[1..])
  {
    assert Holds(s.cpu, QueueAt(s, InReady), InReady);
    assert s.cpu.ready[0] in s.cpu.ready;
    HeadGone(s.cpu.ready);
  }

  lemma ReadyKnown(s: Machine)
    requires KeysOk(s.cpu) && PlacesOk(s)
    ensures Ready(s.cpu)
  {
    assert Holds(s.cpu, QueueAt(s, InReady), InReady);
  }

  lemma ResumePlaces(s: Machine)
    requires KeysOk(s.cpu) && PlacesOk(s) && s.cpu.running.None? && s.cpu.ready != [] && Ready(s.cpu)
    ensures PlacesOk(s.(cpu := Swap(s.cpu))) && KeysOk(Swap(s.cpu))
  {
    AtHead(s);
    Moves(s, s.(cpu := Swap(s.cpu)), s.cpu.ready[0], InReady, OnCpu);
  }

  lemma ResumePoints(s: Machine)
    requires KeysOk(s.cpu) && PlacesOk(s) && PointsOk(s.cpu, |s.locks|) && s.cpu.ready != [] && Ready(s.cpu)
    ensures PointsOk(Swap(s.cpu), |s.locks|)
  {
    AtHead(s);
    hide PlacesOk;
  }

  lemma ResumeLock(c: Cpu, m: nat, l: Lock)
    requires LockOk(c, m, l) && c.ready != [] && Ready(c) && c.ready[0] in c.places && c.places[c.ready[0]] == InReady
    ensures LockOk(Swap(c), m, l)
  {
  }

  lemma ResumeLocks(s: Machine)
    requires KeysOk(s.cpu) && PlacesOk(s) && PointsOk(s.cpu, |s.locks|) && LocksOk(s) && s.cpu.ready != []
    requires Ready(s.cpu)
    ensures LocksOk(s.(cpu := Swap(s.cpu)))
  {
    AtHead(s);
    assert Fits(InReady, s.cpu.points[s.cpu.ready[0]], |s.locks|);
    hide PlacesOk, PointsOk, LockOk;
    forall m | 0 <= m < |s.locks| ensures LockOk(Swap(s.cpu), m, s.locks[m]) {
      ResumeLock(s.cpu, m, s.locks[m]);
    }
  }

  /** Once the running thread is parked, switching to the next one settles the machine again. */
  lemma SwapKeeps(s: Machine)
    requires Settled(s) && s.cpu.running.None?
    ensures Ready(s.cpu) && Inv(s.(cpu := Swap(s.cpu)))
  {
    ReadyKnown(s);
    if s.cpu.ready != [] {
      ResumePlaces(s);
      ResumePoints(s);
      ResumeLocks(s);
    }
    hide KeysOk, PlacesOk, PointsOk, LocksOk;
    assert s.cpu.ready == [] ==> Swap(s.cpu) == s.cpu;
  }

  // ---------------------------------------------------------------- the running thread parks

  lemma Running(s: Machine)
    requires Settled(s) && s.cpu.running.Some?
    ensures var t := s.cpu.running.value;
      && t in s.cpu.places && s.cpu.places[t] == OnCpu && t in s.cpu.points && t in s.cpu.joins && t < s.cpu.next
      && !s.cpu.points[t].Granted? && t !in s.cpu.ready
  {
    assert Holds(s.cpu, QueueAt(s, OnCpu), OnCpu);
    assert Holds(s.cpu, QueueAt(s, InReady), InReady);
    assert s.cpu.running.value in QueueAt(s, OnCpu);
  }

  /** Parking changes no lock that is taken, and gives nobody a mutex. */
  lemma ParkLocks(s: Machine, n: Machine, t: nat, to: Place, point: Point)
    requires LocksOk(s) && t in s.cpu.places && s.cpu.places[t] == OnCpu && !(to.InReady? && point.Granted?)
    requires n.cpu.places == s.cpu.places[t := to] && n.cpu.points == s.cpu.points[t := point]
    requires n.cpu.inside == s.cpu.inside && n.cpu.next == s.cpu.next && |n.locks| == |s.locks|
    requires forall m :: 0 <= m < |s.locks| ==>
      && n.locks[m].status == s.locks[m].status && n.locks[m].owner == s.locks[m].owner
      && (!s.locks[m].status ==> n.locks[m].queue == s.locks[m].queue)
    ensures LocksOk(n)
  {
    forall m | 0 <= m < |s.locks| ensures LockOk(n.cpu, m, n.locks[m]) {
      assert LockOk(s.cpu, m, s.locks[m]);
      forall x ensures Given(n.cpu, x, m) <==> Given(s.cpu, x, m) {
      }
      hide Given;
    }
  }

  lemma ParkOnMutex(s: Machine, m: nat)
    requires Settled(s) && m < |s.locks| && s.cpu.running.Some? && s.locks[m].status
    ensures var l := s.locks[m].(queue := s.locks[m].queue + [s.cpu.running.value]);
      Settled(s.(cpu := Park(s.cpu, OnMutex(m), Granted(m)), locks := s.locks[m := l]))
  {
    var t := s.cpu.running.value;
    Running(s);
    OneGone(t);
    var n := s.(cpu := Park(s.cpu, OnMutex(m), Granted(m)),
      locks := s.locks[m := s.locks[m].(queue := s.locks[m].queue + [t])]);
    Moves(s, n, t, OnCpu, OnMutex(m));
    PointMoved(s.cpu, n.cpu, t, OnMutex(m), Granted(m), |s.locks|);
    hide PlacesOk, PointsOk;
    ParkLocks(s, n, t, OnMutex(m), Granted(m));
    hide LocksOk;
  }

  lemma ParkOnCv(s: Machine, v: nat, m: nat)
    requires Settled(s) && v < |s.cvs| && m < |s.locks| && s.cpu.running.Some?
    ensures Settled(s.(cpu := Park(s.cpu, OnCv(v), Relocks(m)), cvs := s.cvs[v := s.cvs[v] + [s.cpu.running.value]]))
  {
    var t := s.cpu.running.value;
    Running(s);
    OneGone(t);
    var n := s.(cpu := Park(s.cpu, OnCv(v), Relocks(m)), cvs := s.cvs[v := s.cvs[v] + [t]]);
    Moves(s, n, t, OnCpu, OnCv(v));
    PointMoved(s.cpu, n.cpu, t, OnCv(v), Relocks(m), |s.locks|);
    hide PlacesOk, PointsOk;
    ParkLocks(s, n, t, OnCv(v), Relocks(m));
    hide LocksOk;
  }

  lemma ParkOnJoin(s: Machine, u: nat)
    requires Settled(s) && u in s.cpu.joins && s.cpu.running.Some?
    ensures var c := s.cpu.(joins := s.cpu.joins[u := s.cpu.joins[u] + [s.cpu.running.value]]);
      Settled(s.(cpu := Park(c, OnJoin(u), Runs)))
  {
    var t := s.cpu.running.value;
    Running(s);
    OneGone(t);
    var c := s.cpu.(joins := s.cpu.joins[u := s.cpu.joins[u] + [t]]);
    var n := s.(cpu := Park(c, OnJoin(u), Runs));
    Moves(s, n, t, OnCpu, OnJoin(u));
    PointMoved(s.cpu, n.cpu, t, OnJoin(u), Runs, |s.locks|);
    hide PlacesOk, PointsOk;
    ParkLocks(s, n, t, OnJoin(u), Runs);
    hide LocksOk;
  }

  lemma ParkReady(s: Machine)
    requires Settled(s) && s.cpu.running.Some?
    ensures Settled(s.(cpu := MakeReady(s.cpu, s.cpu.running.value).(running := None)))
  {
    var t := s.cpu.running.value;
    Running(s);
    OneGone(t);
    var n := s.(cpu := MakeReady(s.cpu, t).(running := None));
    Moves(s, n, t, OnCpu, InReady);
    assert Fits(OnCpu, s.cpu.points[t], |s.locks|);
    assert n.cpu.points == s.cpu.points[t := s.cpu.points[t]];
    PointMoved(s.cpu, n.cpu, t, InReady, s.cpu.points[t], |s.locks|);
    hide PlacesOk, PointsOk;
    ParkLocks(s, n, t, InReady, s.cpu.points[t]);
    hide LocksOk;
  }

  // ---------------------------------------------------------------- mutexes change hands

  lemma TakesLock(s: Machine, m: nat, points: map<nat, Point>)
    requires Settled(s) && m < |s.locks| && s.cpu.running.Some? && !s.locks[m].status
    requires s.cpu.running.value in s.cpu.points && points == s.cpu.points[s.cpu.running.value := Runs]
    ensures var t := s.cpu.running.value;
      var c := s.cpu.(inside := s.cpu.inside + {Inside(t, m)}, points := points);
      Settled(s.(cpu := c, locks := s.locks[m := s.locks[m].(status := true, owner := t)]))
  {
    var t := s.cpu.running.value;
    Running(s);
    var c := s.cpu.(inside := s.cpu.inside + {Inside(t, m)}, points := points);
    var n := s.(cpu := c, locks := s.locks[m := s.locks[m].(status := true, owner := t)]);
    forall p ensures Holds(n.cpu, QueueAt(n, p), p) {
      assert Holds(s.cpu, QueueAt(s, p), p);
      assert QueueAt(n, p) == QueueAt(s, p);
    }
    hide PlacesOk;
    forall k | 0 <= k < |n.locks| ensures LockOk(n.cpu, k, n.locks[k]) {
      assert LockOk(s.cpu, k, s.locks[k]);
    }
  }

  lemma FreeLockOk(c: Cpu, m: nat, k: nat, l: Lock)
    requires LockOk(c, k, l) && c.running.Some? && c.running.value in c.places && c.places[c.running.value] == OnCpu
    requires k == m ==> l.status && l.owner == c.running.value && l.queue == []
    ensures LockOk(c.(inside := c.inside - {Inside(c.running.value, m)}), k, if k == m then l.(status := false) else l)
  {
    var n := c.(inside := c.inside - {Inside(c.running.value, m)});
    assert !Given(c, c.running.value, m);
    forall x ensures Given(n, x, k) <==> Given(c, x, k) {
    }
    hide Given;
  }

  lemma FreesLock(s: Machine, m: nat)
    requires Settled(s) && m < |s.locks| && Owns(s.cpu, s.locks[m]) && s.locks[m].queue == []
    ensures Settled(s.(cpu := Release(s.cpu, m, s.locks[m]).0, locks := s.locks[m := Release(s.cpu, m, s.locks[m]).1]))
  {
    Running(s);
    var n := s.(cpu := Release(s.cpu, m, s.locks[m]).0, locks := s.locks[m := Release(s.cpu, m, s.locks[m]).1]);
    forall p ensures Holds(n.cpu, QueueAt(n, p), p) {
      assert Holds(s.cpu, QueueAt(s, p), p);
      assert QueueAt(n, p) == QueueAt(s, p);
    }
    hide PlacesOk, LockOk;
    forall k | 0 <= k < |n.locks| ensures LockOk(n.cpu, k, n.locks[k]) {
      FreeLockOk(s.cpu, m, k, s.locks[k]);
    }
  }

  lemma HandLockOk(c: Cpu, m: nat, k: nat, l: Lock, u: nat)
    requires LockOk(c, k, l) && c.running.Some? && c.running.value in c.places && c.places[c.running.value] == OnCpu
    requires u in c.places && u in c.points && c.places[u] == OnMutex(m) && c.points[u] == Granted(m)
    requires k == m ==> l.status && l.owner == c.running.value && l.queue != [] && l.queue[0] == u
    ensures LockOk(MakeReady(c.(inside := c.inside - {Inside(c.running.value, m)}), u), k,
      if k == m then Lock(true, u, l.queue[1..]) else l)
  {
    var n := MakeReady(c.(inside := c.inside - {Inside(c.running.value, m)}), u);
    assert !Given(c, c.running.value, m);
    forall x ensures Given(n, x, k) <==> Given(c, x, k) || (k == m && x == u) {
    }
    hide Given;
  }

  lemma HandsLock(s: Machine, m: nat)
    requires Settled(s) && m < |s.locks| && Owns(s.cpu, s.locks[m]) && s.locks[m].queue != []
    ensures Settled(s.(cpu := Release(s.cpu, m, s.locks[m]).0, locks := s.locks[m := Release(s.cpu, m, s.locks[m]).1]))
  {
    var l := s.locks[m];
    var u := l.queue[0];
    Running(s);
    assert Holds(s.cpu, QueueAt(s, OnMutex(m)), OnMutex(m));
    assert u in l.queue && Fits(OnMutex(m), s.cpu.points[u], |s.locks|);
    HeadGone(l.queue);
    var n := s.(cpu := Release(s.cpu, m, l).0, locks := s.locks[m := Release(s.cpu, m, l).1]);
    Moves(s, n, u, OnMutex(m), InReady);
    assert n.cpu.points == s.cpu.points[u := Granted(m)];
    PointMoved(s.cpu, n.cpu, u, InReady, Granted(m), |s.locks|);
    hide PlacesOk, PointsOk, LockOk;
    forall k | 0 <= k < |n.locks| ensures LockOk(n.cpu, k, n.locks[k]) {
      HandLockOk(s.cpu, m, k, s.locks[k], u);
    }
  }

  lemma ReleaseKeeps(s: Machine, m: nat)
    requires Settled(s) && m < |s.locks| && Owns(s.cpu, s.locks[m])
    ensures Settled(s.(cpu := Release(s.cpu, m, s.locks[m]).0, locks := s.locks[m := Release(s.cpu, m, s.locks[m]).1]))
    ensures Release(s.cpu, m, s.locks[m]).0.running == s.cpu.running
  {
    hide Settled;
    if s.locks[m].queue == [] { FreesLock(s, m); } else { HandsLock(s, m); }
  }

  // ---------------------------------------------------------------- waking

  /** Making a thread ready that was given no mutex changes no lock. */
  lemma WakeLocks(s: Machine, n: Machine, t: nat)
    requires LocksOk(s) && t in s.cpu.points && !s.cpu.points[t].Granted? && n.locks == s.locks
    requires n.cpu.places == s.cpu.places[t := InReady] && n.cpu.points == s.cpu.points
    requires n.cpu.inside == s.cpu.inside && n.cpu.next == s.cpu.next
    ensures LocksOk(n)
  {
    forall m | 0 <= m < |s.locks| ensures LockOk(n.cpu, m, n.locks[m]) {
      assert LockOk(s.cpu, m, s.locks[m]);
      forall x ensures Given(n.cpu, x, m) <==> Given(s.cpu, x, m) {
      }
      hide Given;
    }
  }

  /** The first thread of a queue of waiters that hold no promise of a mutex becomes ready. */
  lemma Wakes(s: Machine, n: Machine, from: Place)
    requires Settled(s) && (from.OnCv? || from.OnJoin?) && QueueAt(s, from) != []
    requires n.cpu == MakeReady(s.cpu, QueueAt(s, from)[0]).(joins := n.cpu.joins) && n.locks == s.locks
    requires n.cpu.joins.Keys == s.cpu.joins.Keys && QueueAt(n, from) == QueueAt(s, from)[1..]
    requires forall p :: p != from && p != InReady ==> QueueAt(n, p) == QueueAt(s, p)
    ensures Settled(n)
  {
    var t := QueueAt(s, from)[0];
    WaiterIs(s, from);
    assert KeysOk(n.cpu) && n.cpu.points == s.cpu.points[t := s.cpu.points[t]];
    assert QueueAt(n, InReady) == QueueAt(s, InReady) + [t];
    hide QueueAt, KeysOk;
    Moves(s, n, t, from, InReady);
    hide PlacesOk;
    PointMoved(s.cpu, n.cpu, t, InReady, s.cpu.points[t], |s.locks|);
    WakeLocks(s, n, t);
    hide PointsOk, LocksOk;
  }

  /** The first of those that wait for a signal or for a thread was promised no mutex. */
  lemma WaiterIs(s: Machine, from: Place)
    requires Settled(s) && (from.OnCv? || from.OnJoin?) && QueueAt(s, from) != []
    ensures var t := QueueAt(s, from)[0];
      && t in s.cpu.places && s.cpu.places[t] == from && t in s.cpu.points && !s.cpu.points[t].Granted?
      && Fits(InReady, s.cpu.points[t], |s.locks|)
    ensures Without(QueueAt(s, from), QueueAt(s, from)[0], QueueAt(s, from)[1..])
  {
    assert Holds(s.cpu, QueueAt(s, from), from);
    assert QueueAt(s, from)[0] in QueueAt(s, from);
    HeadGone(QueueAt(s, from));
  }

  lemma SignalKeeps(s: Machine, v: nat)
    requires Settled(s) && v < |s.cvs|
    ensures var (c, queue) := SignalOp(s.cpu, s.cvs[v]);
      Settled(s.(cpu := c, cvs := s.cvs[v := queue])) && c.running == s.cpu.running
  {
    if s.cvs[v] == [] {
      assert s.cvs[v := []] == s.cvs;
    } else {
      hide Settled;
      Wakes(s, s.(cpu := MakeReady(s.cpu, s.cvs[v][0]), cvs := s.cvs[v := s.cvs[v][1..]]), OnCv(v));
    }
  }

  /** Making a queue ready is making its threads ready one after the other. */
  lemma AllReadyStep(c: Cpu, ts: seq<nat>)
    requires ts != [] && forall t :: t in ts ==> t in c.places
    ensures MakeAllReady(c, ts) == MakeAllReady(MakeReady(c, ts[0]), ts[1..])
  {
    assert ts == [ts[0]] + ts[1..];
    assert c.ready + ts == c.ready + [ts[0]] + ts[1..];
    var n := MakeReady(c, ts[0]);
    assert n.places.Keys == c.places.Keys;
    assert MakeAllReady(c, ts).places == MakeAllReady(n, ts[1..]).places;
  }

  lemma QueuePlaces(s: Machine, p: Place)
    requires PlacesOk(s)
    ensures forall t :: t in QueueAt(s, p) ==> t in s.cpu.places
  {
    assert Holds(s.cpu, QueueAt(s, p), p);
  }

  lemma NothingReady(c: Cpu)
    ensures MakeAllReady(c, []) == c
  {
    assert MakeAllReady(c, []).places == c.places;
    assert c.ready + [] == c.ready;
  }

  lemma {:induction false} BroadcastKeeps(s: Machine, v: nat)
    requires Settled(s) && v < |s.cvs|
    ensures Settled(s.(cpu := MakeAllReady(s.cpu, s.cvs[v]), cvs := s.cvs[v := []]))
    decreases |s.cvs[v]|
  {
    if s.cvs[v] == [] {
      NothingReady(s.cpu);
      assert s.cvs[v := []] == s.cvs;
    } else {
      QueuePlaces(s, OnCv(v));
      hide Settled;
      AllReadyStep(s.cpu, s.cvs[v]);
      var n := s.(cpu := MakeReady(s.cpu, s.cvs[v][0]), cvs := s.cvs[v := s.cvs[v][1..]]);
      Wakes(s, n, OnCv(v));
      BroadcastKeeps(n, v);
      assert n.cvs[v := []] == s.cvs[v := []];
    }
  }

  lemma {:induction false} JoinersKeep(s: Machine, u: nat)
    requires Settled(s) && u in s.cpu.joins
    ensures Settled(s.(cpu := MakeAllReady(s.cpu, s.cpu.joins[u]).(joins := s.cpu.joins[u := []])))
    decreases |s.cpu.joins[u]|
  {
    if s.cpu.joins[u] == [] {
      NothingReady(s.cpu);
      assert s.cpu.joins[u := []] == s.cpu.joins;
    } else {
      QueuePlaces(s, OnJoin(u));
      hide Settled;
      var q := s.cpu.joins[u];
      AllReadyStep(s.cpu, q);
      var n := s.(cpu := MakeReady(s.cpu, q[0]).(joins := s.cpu.joins[u := q[1..]]));
      Wakes(s, n, OnJoin(u));
      JoinersKeep(n, u);
      assert n.cpu.joins[u := []] == s.cpu.joins[u := []];
      assert MakeAllReady(n.cpu, q[1..]).(joins := s.cpu.joins[u := []])
        == MakeAllReady(s.cpu, q).(joins := s.cpu.joins[u := []]);
    }
  }

  // ---------------------------------------------------------------- threads come and go

  lemma CreateKeeps(s: Machine)
    requires Settled(s)
    ensures Settled(s.(cpu := CreateOp(s.cpu)))
  {
    var t := s.cpu.next;
    var n := s.(cpu := CreateOp(s.cpu));
    assert t !in s.cpu.joins;
    forall p ensures Holds(n.cpu, QueueAt(n, p), p) {
      assert Holds(s.cpu, QueueAt(s, p), p);
      if p == OnJoin(t) {
        assert QueueAt(n, p) == [] && QueueAt(s, p) == [];
      } else if p == InReady {
        assert QueueAt(n, p) == QueueAt(s, p) + [t];
      } else {
        assert QueueAt(n, p) == QueueAt(s, p);
      }
    }
    hide PlacesOk, QueueAt, Holds;
    CreateLocks(s);
  }

  lemma CreateLocks(s: Machine)
    requires KeysOk(s.cpu) && LocksOk(s)
    ensures LocksOk(s.(cpu := CreateOp(s.cpu)))
  {
    var n := s.(cpu := CreateOp(s.cpu));
    forall m | 0 <= m < |s.locks| ensures LockOk(n.cpu, m, n.locks[m]) {
      assert LockOk(s.cpu, m, s.locks[m]);
      forall x ensures Given(n.cpu, x, m) <==> Given(s.cpu, x, m) {
      }
      hide Given;
    }
  }

  /** The running thread is gone for good; nobody waits for it any more. */
  lemma ForgetKeeps(s: Machine)
    requires Settled(s) && s.cpu.running.Some? && s.cpu.running.value in s.cpu.joins
    requires s.cpu.joins[s.cpu.running.value] == []
    ensures Settled(s.(cpu := Forget(s.cpu, s.cpu.running.value)))
  {
    var t := s.cpu.running.value;
    Running(s);
    var n := s.(cpu := Forget(s.cpu, t));
    forall p ensures Holds(n.cpu, QueueAt(n, p), p) {
      assert Holds(s.cpu, QueueAt(s, p), p);
      if p == OnCpu {
        assert QueueAt(s, p) == [t] && QueueAt(n, p) == [];
      } else {
        assert QueueAt(n, p) == QueueAt(s, p);
        assert t !in QueueAt(s, p);
      }
    }
    hide PlacesOk, QueueAt, Holds;
    ForgetLocks(s);
  }

  lemma ForgetLocks(s: Machine)
    requires LocksOk(s) && s.cpu.running.Some? && s.cpu.running.value in s.cpu.places
    requires s.cpu.places[s.cpu.running.value] == OnCpu
    ensures LocksOk(s.(cpu := Forget(s.cpu, s.cpu.running.value)))
  {
    var n := s.(cpu := Forget(s.cpu, s.cpu.running.value));
    forall m | 0 <= m < |s.locks| ensures LockOk(n.cpu, m, n.locks[m]) {
      assert LockOk(s.cpu, m, s.locks[m]);
      forall x ensures Given(n.cpu, x, m) <==> Given(s.cpu, x, m) {
      }
      hide Given;
    }
  }
}
