/** The calls of the thread library do what ThreadReference says, on every line, and what follows for runs: who waits
    stays where it is until what it waits for has happened. */
module ThreadLines {
  import opened Common
  import opened ThreadModel
  import opened ThreadReference
  import opened ThreadProofs
  import opened ThreadRuns

  // ---------------------------------------------------------------- lines without some threads

  lemma {:induction false} ExceptNone(line: seq<nat>, gone: set<nat>)
    requires forall t :: t in line ==> t !in gone
    ensures Except(line, gone) == line
  {
    if line != [] {
      ExceptNone(line[..|line| - 1], gone);
      assert line == line[..|line| - 1] + [line[|line| - 1]];
    }
  }

  lemma {:induction false} ExceptAll(line: seq<nat>, gone: set<nat>)
    requires forall t :: t in line ==> t in gone
    ensures Except(line, gone) == []
  {
    if line != [] {
      ExceptAll(line[..|line| - 1], gone);
    }
  }

  lemma {:induction false} ExceptFirst(line: seq<nat>, gone: set<nat>)
    requires line != [] && line[0] in gone && forall t :: t in line[1..] ==> t !in gone
    ensures Except(line, gone) == line[1..]
  {
    var last := |line| - 1;
    if last > 0 {
      var front := line[..last];
      assert front[1..] == line[1..][..last - 1];
      ExceptFirst(front, gone);
      assert line[last] == line[1..][last - 1];
      assert line[1..] == front[1..] + [line[last]];
    }
  }

  // ---------------------------------------------------------------- who stands where

  /** Nobody stands in two lines. */
  lemma Apart(s: Machine, p: Place, q: Place, t: nat)
    requires Inv(s) && p != q && t in QueueAt(s, p)
    ensures t !in QueueAt(s, q)
  {
    OnePlace(s, t, p);
    OnePlace(s, t, q);
  }

  lemma OthersStay(s: Machine, from: Place, p: Place, gone: set<nat>)
    requires Inv(s) && p != from && forall t :: t in gone ==> t in QueueAt(s, from)
    ensures Except(QueueAt(s, p), gone) == QueueAt(s, p)
  {
    forall t | t in QueueAt(s, p) ensures t !in gone {
      if t in gone { Apart(s, from, p, t); }
    }
    ExceptNone(QueueAt(s, p), gone);
  }

  lemma FirstLeaves(s: Machine, p: Place, gone: set<nat>)
    requires Inv(s) && QueueAt(s, p) != [] && gone == {QueueAt(s, p)[0]}
    ensures Except(QueueAt(s, p), gone) == QueueAt(s, p)[1..]
  {
    OnePlace(s, QueueAt(s, p)[0], p);
    var line := QueueAt(s, p);
    forall t | t in line[1..] ensures t !in gone {
      var i :| 1 <= i < |line| && line[i] == t;
    }
    ExceptFirst(line, gone);
  }

  // ---------------------------------------------------------------- the moves of a call

  lemma Nobody(s: Machine, call: Call, p: Place)
    requires Inv(s) && CanCall(s, call) && Moving(s, call) == [] && !call.FinishCall?
    ensures Moved(s, call, p) == QueueAt(s, p)
  {
    hide Inv, QueueAt, Moving;
    ExceptNone(QueueAt(s, p), Leaving(s, call));
  }

  lemma OneLeaves(s: Machine, call: Call, t: nat, q: Place)
    requires CanCall(s, call) && !call.FinishCall? && Moving(s, call) == [Move(t, q)]
    ensures Leaving(s, call) == {t} && forall p :: Arrivals(Moving(s, call), p) == if p == q then [t] else []
  {
    hide Moving, CanCall;
    assert Moving(s, call)[0] in Moving(s, call);
    forall p ensures Arrivals(Moving(s, call), p) == if p == q then [t] else [] {
      ArrivalsOne(Move(t, q), p);
    }
  }

  /** The running thread goes to `q`. */
  lemma Runner(s: Machine, call: Call, q: Place, p: Place)
    requires Inv(s) && CanCall(s, call) && !call.FinishCall? && q != OnCpu
    requires Moving(s, call) == [Move(s.cpu.running.value, q)]
    ensures Moved(s, call, p) ==
      if p == OnCpu then [] else QueueAt(s, p) + if p == q then [s.cpu.running.value] else []
  {
    var r := s.cpu.running.value;
    assert QueueAt(s, OnCpu) == [r];
    OneLeaves(s, call, r, q);
    hide Inv, QueueAt, Moving, Leaving, Arrivals, CanCall;
    if p == OnCpu { FirstLeaves(s, OnCpu, {r}); } else { OthersStay(s, OnCpu, p, {r}); }
  }

  /** The first of the line at `from`, if there is one, becomes ready. */
  lemma FirstReady(s: Machine, call: Call, from: Place, p: Place)
    requires Inv(s) && CanCall(s, call) && !call.FinishCall? && from != InReady
    requires Moving(s, call) == ToReady(FirstOf(QueueAt(s, from)))
    ensures var line := QueueAt(s, from);
      Moved(s, call, p) ==
        if p == from && line != [] then line[1..] else QueueAt(s, p) + if p == InReady then FirstOf(line) else []
  {
    var line := QueueAt(s, from);
    hide Inv, QueueAt, Moving;
    ArrivalsReady(FirstOf(line), p);
    if line == [] {
      ExceptNone(QueueAt(s, p), Leaving(s, call));
    } else {
      assert Leaving(s, call) == {line[0]} by { assert Moving(s, call)[0] in Moving(s, call); }
      if p == from { FirstLeaves(s, from, {line[0]}); } else { OthersStay(s, from, p, {line[0]}); }
    }
  }

  lemma ToReadyLeaving(line: seq<nat>)
    ensures forall t :: t in (set m | m in ToReady(line) :: m.t) <==> t in line
  {
    forall t | t in line ensures t in (set m | m in ToReady(line) :: m.t) {
      var i :| 0 <= i < |line| && line[i] == t;
      assert ToReady(line)[i] in ToReady(line);
    }
  }

  /** The whole line at `from` becomes ready. */
  lemma AllReady(s: Machine, call: Call, from: Place, p: Place)
    requires Inv(s) && CanCall(s, call) && !call.FinishCall? && from != InReady
    requires Moving(s, call) == ToReady(QueueAt(s, from))
    ensures Moved(s, call, p) ==
      if p == from then [] else QueueAt(s, p) + if p == InReady then QueueAt(s, from) else []
  {
    var line := QueueAt(s, from);
    hide Inv, QueueAt, Moving;
    ArrivalsReady(line, p);
    ToReadyLeaving(line);
    if p == from { ExceptAll(line, Leaving(s, call)); } else { OthersStay(s, from, p, Leaving(s, call)); }
  }

  lemma NewNowhere(s: Machine, p: Place)
    requires Inv(s)
    ensures s.cpu.next !in QueueAt(s, p)
  {
    OnePlace(s, s.cpu.next, p);
    assert KeysOk(s.cpu);
  }

  /** The new thread becomes ready. */
  lemma NewReady(s: Machine, p: Place)
    requires Inv(s) && CanCall(s, CreateCall)
    ensures Moved(s, CreateCall, p) == QueueAt(s, p) + if p == InReady then [s.cpu.next] else []
  {
    NewNowhere(s, p);
    OneLeaves(s, CreateCall, s.cpu.next, InReady);
    hide Inv, QueueAt, Moving, Leaving, Arrivals, CanCall;
    ExceptNone(QueueAt(s, p), {s.cpu.next});
  }

  lemma WaitArrives(s: Machine, v: nat, m: nat, p: Place)
    requires CanCall(s, WaitCall(v, m)) && Owns(s.cpu, s.locks[m])
    ensures Arrivals(Moving(s, WaitCall(v, m)), p) ==
      if p == InReady then FirstOf(s.locks[m].queue) else if p == OnCv(v) then [s.cpu.running.value] else []
  {
    ArrivalsReady(FirstOf(s.locks[m].queue), p);
    ArrivalsMore(ToReady(FirstOf(s.locks[m].queue)), Move(s.cpu.running.value, OnCv(v)), p);
    hide Arrivals;
  }

  /** A `wait` by the owner: the first waiter for the mutex becomes ready, and the owner goes to the line of `v`. */
  lemma WaitMoves(s: Machine, v: nat, m: nat, p: Place)
    requires Inv(s) && CanCall(s, WaitCall(v, m)) && Owns(s.cpu, s.locks[m])
    ensures var (r, line) := (s.cpu.running.value, s.locks[m].queue);
      Moved(s, WaitCall(v, m), p) ==
        if p == OnCpu then []
        else if p == OnMutex(m) && line != [] then line[1..]
        else QueueAt(s, p) + if p == InReady then FirstOf(line) else if p == OnCv(v) then [r] else []
  {
    assert QueueAt(s, OnMutex(m)) == s.locks[m].queue;
    WaitLeaves(s, v, m);
    WaitArrives(s, v, m, p);
    hide Inv, QueueAt, Leaving, Moving, Arrivals, Except;
    ExceptUnion(s, WaitCall(v, m), OnMutex(m), p);
  }

  lemma WaitLeaves(s: Machine, v: nat, m: nat)
    requires CanCall(s, WaitCall(v, m)) && Owns(s.cpu, s.locks[m])
    ensures forall t :: t in Leaving(s, WaitCall(v, m)) <==> t in FirstOf(s.locks[m].queue) || t == s.cpu.running.value
  {
    var moves := Moving(s, WaitCall(v, m));
    var ready := ToReady(FirstOf(s.locks[m].queue));
    ToReadyLeaving(FirstOf(s.locks[m].queue));
    assert moves[|moves| - 1] == Move(s.cpu.running.value, OnCv(v)) && moves[|moves| - 1] in moves;
    assert forall x :: x in moves <==> x in ready || x == Move(s.cpu.running.value, OnCv(v));
  }

  /** The running thread leaves, and the first of the line at `from`. */
  lemma ExceptUnion(s: Machine, call: Call, from: Place, p: Place)
    requires Inv(s) && CanCall(s, call) && from != OnCpu
    requires forall t :: t in Leaving(s, call) <==> t in FirstOf(QueueAt(s, from)) || t == s.cpu.running.value
    ensures Except(QueueAt(s, p), Leaving(s, call)) ==
      if p == OnCpu then []
      else if p == from && QueueAt(s, p) != [] then QueueAt(s, p)[1..] else QueueAt(s, p)
  {
    var (r, gone, line) := (s.cpu.running.value, Leaving(s, call), QueueAt(s, p));
    assert QueueAt(s, OnCpu) == [r];
    hide Inv, QueueAt, Leaving;
    if p == OnCpu {
      ExceptAll(line, gone);
    } else {
      forall t | t in line ensures t != r && (p != from ==> t !in FirstOf(QueueAt(s, from))) {
        Apart(s, p, OnCpu, t);
        if p != from { Apart(s, p, from, t); }
      }
      if p == from && line != [] {
        OnePlace(s, line[0], p);
        forall t | t in line[1..] ensures t !in gone {
          var i :| 1 <= i < |line| && line[i] == t;
        }
        ExceptFirst(line, gone);
      } else {
        ExceptNone(line, gone);
      }
    }
  }

  /** The end of a thread: it leaves the CPU, and those who joined it become ready. */
  lemma FinishMoves(s: Machine, p: Place)
    requires Inv(s) && CanCall(s, FinishCall)
    ensures var r := s.cpu.running.value;
      Moved(s, FinishCall, p) ==
        if p == OnCpu || p == OnJoin(r) then [] else QueueAt(s, p) + if p == InReady then s.cpu.joins[r] else []
  {
    var r := s.cpu.running.value;
    var (gone, line) := (Leaving(s, FinishCall), QueueAt(s, p));
    ToReadyLeaving(s.cpu.joins[r]);
    ArrivalsReady(s.cpu.joins[r], p);
    assert QueueAt(s, OnCpu) == [r] && QueueAt(s, OnJoin(r)) == s.cpu.joins[r];
    assert forall t :: t in gone <==> t in s.cpu.joins[r] || t == r;
    hide Inv, QueueAt, Leaving;
    if p == OnCpu || p == OnJoin(r) {
      ExceptAll(line, gone);
    } else {
      forall t | t in line ensures t !in gone {
        Apart(s, p, OnCpu, t);
        Apart(s, p, OnJoin(r), t);
      }
      ExceptNone(line, gone);
    }
  }

  // ---------------------------------------------------------------- every line after a call

  ghost predicate LinesAre(s: Machine, call: Call, n: Machine)
    requires CanCall(s, call)
  {
    && (forall p :: QueueAt(n, p) == Line(s, call, p))
    && n.cpu.dispatches == s.cpu.dispatches + if Dispatches(s, call) then 1 else 0
  }

  /** `c` is the machine before the next thread is dispatched. */
  lemma Ends(s: Machine, call: Call, c: Machine)
    requires CanCall(s, call) && (forall p :: QueueAt(c, p) == Moved(s, call, p)) && Ready(c.cpu)
    requires c.cpu.dispatches == s.cpu.dispatches
    ensures LinesAre(s, call, if c.cpu.running.Some? then c else c.(cpu := Swap(c.cpu)))
  {
    hide Moved, CanCall;
    assert QueueAt(c, OnCpu) == Moved(s, call, OnCpu) && QueueAt(c, InReady) == Moved(s, call, InReady);
    var n := if c.cpu.running.Some? then c else c.(cpu := Swap(c.cpu));
    forall p ensures QueueAt(n, p) == Line(s, call, p) {
      assert QueueAt(c, p) == Moved(s, call, p);
    }
  }

  lemma LockLines(s: Machine, m: nat, relock: bool)
    requires var call := if relock then RelockCall else LockCall(m);
      Inv(s) && CanCall(s, call) && (relock ==> s.cpu.points[s.cpu.running.value].m == m)
    ensures var call := if relock then RelockCall else LockCall(m); LinesAre(s, call, Do(s, call))
  {
    var call := if relock then RelockCall else LockCall(m);
    ReadyKnown(s);
    var r := s.cpu.running.value;
    if s.locks[m].status {
      forall p
        ensures Moved(s, call, p) == if p == OnCpu then [] else QueueAt(s, p) + if p == OnMutex(m) then [r] else []
      {
        Runner(s, call, OnMutex(m), p);
      }
      hide Inv, Moved;
      Ends(s, call, s.(cpu := Park(s.cpu, OnMutex(m), Granted(m)),
        locks := s.locks[m := s.locks[m].(queue := s.locks[m].queue + [r])]));
    } else {
      forall p ensures Moved(s, call, p) == QueueAt(s, p) { Nobody(s, call, p); }
      hide Inv, Moved;
      Ends(s, call, Do(s, call));
    }
  }

  lemma UnlockDoes(s: Machine, m: nat)
    requires Inv(s) && CanCall(s, UnlockCall(m)) && Owns(s.cpu, s.locks[m])
    ensures var (n, line) := (Do(s, UnlockCall(m)), s.locks[m].queue);
      && n.cpu.running == s.cpu.running && n.cpu.dispatches == s.cpu.dispatches && Ready(n.cpu)
      && (forall p ::
        QueueAt(n, p) ==
          if p == OnMutex(m) && line != [] then line[1..]
          else QueueAt(s, p) + if p == InReady then FirstOf(line) else [])
  {
    ReadyKnown(s);
    ReleaseReady(s, m);
    hide Inv, Swap;
  }

  lemma UnlockLines(s: Machine, m: nat)
    requires Inv(s) && CanCall(s, UnlockCall(m))
    ensures LinesAre(s, UnlockCall(m), Do(s, UnlockCall(m)))
  {
    var call := UnlockCall(m);
    if Owns(s.cpu, s.locks[m]) {
      assert QueueAt(s, OnMutex(m)) == s.locks[m].queue && Moving(s, call) == ToReady(FirstOf(QueueAt(s, OnMutex(m))));
      UnlockDoes(s, m);
      hide Inv, Moved, LinesAre, Do, QueueAt, Moving;
      forall p ensures QueueAt(Do(s, call), p) == Moved(s, call, p) {
        FirstReady(s, call, OnMutex(m), p);
      }
      Ends(s, call, Do(s, call));
    } else {
      ReadyKnown(s);
      assert s.locks[m := s.locks[m]] == s.locks;
      forall p ensures Moved(s, call, p) == QueueAt(s, p) { Nobody(s, call, p); }
      hide Inv, Moved, LinesAre, Swap;
      Ends(s, call, s);
    }
  }

  lemma WaitLines(s: Machine, v: nat, m: nat)
    requires Inv(s) && CanCall(s, WaitCall(v, m))
    ensures LinesAre(s, WaitCall(v, m), Do(s, WaitCall(v, m)))
  {
    var call := WaitCall(v, m);
    ReadyKnown(s);
    ReleaseReady(s, m);
    if Owns(s.cpu, s.locks[m]) {
      var (r, line) := (s.cpu.running.value, s.locks[m].queue);
      forall p ensures Moved(s, call, p) ==
        if p == OnCpu then []
        else if p == OnMutex(m) && line != [] then line[1..]
        else QueueAt(s, p) + if p == InReady then FirstOf(line) else if p == OnCv(v) then [r] else []
      {
        WaitMoves(s, v, m, p);
      }
      hide Inv, Moved;
      var (c, l) := Release(s.cpu, m, s.locks[m]);
      Ends(s, call,
        s.(cpu := Park(c, OnCv(v), Relocks(m)), locks := s.locks[m := l], cvs := s.cvs[v := s.cvs[v] + [r]]));
    } else {
      forall p ensures Moved(s, call, p) == QueueAt(s, p) { Nobody(s, call, p); }
      assert s.locks[m := s.locks[m]] == s.locks && s.cvs[v := s.cvs[v]] == s.cvs;
      hide Inv, Moved;
      Ends(s, call, Do(s, call));
    }
  }

  lemma SignalLines(s: Machine, v: nat)
    requires Inv(s) && CanCall(s, SignalCall(v))
    ensures LinesAre(s, SignalCall(v), Do(s, SignalCall(v)))
  {
    var (call, line) := (SignalCall(v), s.cvs[v]);
    forall p ensures Moved(s, call, p) ==
      if p == OnCv(v) && line != [] then line[1..] else QueueAt(s, p) + if p == InReady then FirstOf(line) else []
    {
      FirstReady(s, call, OnCv(v), p);
    }
    ReadyKnown(s);
    LineKnown(s, OnCv(v));
    hide Inv, Moved, LinesAre, Swap;
    Ends(s, call, Do(s, call));
  }

  lemma BroadcastDoes(s: Machine, v: nat)
    requires Inv(s) && CanCall(s, BroadcastCall(v))
    ensures var (n, line) := (Do(s, BroadcastCall(v)), s.cvs[v]);
      && n.cpu.running == s.cpu.running && n.cpu.dispatches == s.cpu.dispatches && Ready(n.cpu)
      && (forall p ::
        QueueAt(n, p) == if p == OnCv(v) then [] else QueueAt(s, p) + if p == InReady then line else [])
  {
    ReadyKnown(s);
    LineKnown(s, OnCv(v));
    hide Inv, Swap;
  }

  lemma BroadcastLines(s: Machine, v: nat)
    requires Inv(s) && CanCall(s, BroadcastCall(v))
    ensures LinesAre(s, BroadcastCall(v), Do(s, BroadcastCall(v)))
  {
    var call := BroadcastCall(v);
    assert QueueAt(s, OnCv(v)) == s.cvs[v] && Moving(s, call) == ToReady(QueueAt(s, OnCv(v)));
    BroadcastDoes(s, v);
    assert Do(s, call).cpu.running.Some?;
    hide Inv, Moved, LinesAre, Do, QueueAt, Moving, CanCall;
    forall p ensures QueueAt(Do(s, call), p) == Moved(s, call, p) {
      AllReady(s, call, OnCv(v), p);
    }
    Ends(s, call, Do(s, call));
  }

  lemma LineKnown(s: Machine, p: Place)
    requires Inv(s)
    ensures forall t :: t in QueueAt(s, p) ==> t in s.cpu.points
  {
    forall t | t in QueueAt(s, p) ensures t in s.cpu.points {
      OnePlace(s, t, p);
    }
  }

  lemma CreateLines(s: Machine)
    requires Inv(s) && CanCall(s, CreateCall)
    ensures LinesAre(s, CreateCall, Do(s, CreateCall))
  {
    ReadyKnown(s);
    forall p ensures Moved(s, CreateCall, p) == QueueAt(s, p) + if p == InReady then [s.cpu.next] else [] {
      NewReady(s, p);
    }
    assert s.cpu.next !in s.cpu.joins by { assert KeysOk(s.cpu); }
    hide Inv, Moved, LinesAre, Swap;
    Ends(s, CreateCall, Do(s, CreateCall));
  }

  lemma YieldLines(s: Machine)
    requires Inv(s) && CanCall(s, YieldCall)
    ensures LinesAre(s, YieldCall, Do(s, YieldCall))
  {
    var call := YieldCall;
    ReadyKnown(s);
    var r := s.cpu.running.value;
    if s.cpu.ready != [] {
      forall p
        ensures Moved(s, call, p) == if p == OnCpu then [] else QueueAt(s, p) + if p == InReady then [r] else []
      {
        Runner(s, call, InReady, p);
      }
      hide Inv, Moved, LinesAre, Swap;
      Ends(s, call, s.(cpu := MakeReady(s.cpu, r).(running := None)));
    } else {
      forall p ensures Moved(s, call, p) == QueueAt(s, p) { Nobody(s, call, p); }
      hide Inv, Moved, LinesAre, Swap;
      Ends(s, call, s);
    }
  }

  lemma JoinLines(s: Machine, u: nat)
    requires Inv(s) && CanCall(s, JoinCall(u))
    ensures LinesAre(s, JoinCall(u), Do(s, JoinCall(u)))
  {
    var call := JoinCall(u);
    ReadyKnown(s);
    var r := s.cpu.running.value;
    if u in s.cpu.joins {
      forall p
        ensures Moved(s, call, p) == if p == OnCpu then [] else QueueAt(s, p) + if p == OnJoin(u) then [r] else []
      {
        Runner(s, call, OnJoin(u), p);
      }
      hide Inv, Moved, LinesAre, Swap;
      Ends(s, call, s.(cpu := Park(s.cpu.(joins := s.cpu.joins[u := s.cpu.joins[u] + [r]]), OnJoin(u), Runs)));
    } else {
      forall p ensures Moved(s, call, p) == QueueAt(s, p) { Nobody(s, call, p); }
      hide Inv, Moved, LinesAre, Swap;
      Ends(s, call, s);
    }
  }

  /** The machine after a finished thread is forgotten and before the next one is dispatched. */
  ghost function Finished(s: Machine): Machine
    requires s.cpu.running.Some? && s.cpu.running.value in s.cpu.joins
  {
    s.(cpu := Forget(MakeAllReady(s.cpu, s.cpu.joins[s.cpu.running.value]), s.cpu.running.value))
  }

  lemma FinishedLines(s: Machine, p: Place)
    requires s.cpu.running.Some? && s.cpu.running.value in s.cpu.joins
    ensures var r := s.cpu.running.value;
      QueueAt(Finished(s), p) ==
        if p == OnCpu || p == OnJoin(r) then [] else QueueAt(s, p) + if p == InReady then s.cpu.joins[r] else []
  {
  }

  lemma FinishLines(s: Machine)
    requires Inv(s) && CanCall(s, FinishCall)
    ensures LinesAre(s, FinishCall, Do(s, FinishCall))
  {
    JoinersKnown(s);
    assert Do(s, FinishCall) == Finished(s).(cpu := Swap(Finished(s).cpu));
    hide Inv, Moved, LinesAre, QueueAt, Do, MakeAllReady;
    forall p ensures QueueAt(Finished(s), p) == Moved(s, FinishCall, p) {
      FinishMoves(s, p);
      FinishedLines(s, p);
    }
    Ends(s, FinishCall, Finished(s));
  }

  lemma Sizes(s: Machine, call: Call)
    requires Inv(s) && CanCall(s, call)
    ensures |Do(s, call).locks| == |s.locks| && |Do(s, call).cvs| == |s.cvs|
  {
    hide Inv, Settled, Owns, Release, Swap, MakeAllReady, Leave;
  }

  /** Every call of every thread does to every line exactly what its moves say, and dispatches the first ready thread
      exactly if that leaves the CPU empty. */
  lemma CallLines(s: Machine, call: Call)
    requires Inv(s) && CanCall(s, call)
    ensures forall p :: QueueAt(Do(s, call), p) == Line(s, call, p)
    ensures Do(s, call).cpu.dispatches == s.cpu.dispatches + if Dispatches(s, call) then 1 else 0
    ensures Do(s, call).cpu.next == s.cpu.next + if call.CreateCall? then 1 else 0
    ensures |Do(s, call).locks| == |s.locks| && |Do(s, call).cvs| == |s.cvs|
  {
    NextGrows(s, call);
    Sizes(s, call);
    hide Inv, Do, Line, Dispatches, QueueAt;
    match call
    case LockCall(m) => LockLines(s, m, false);
    case UnlockCall(m) => UnlockLines(s, m);
    case WaitCall(v, m) => WaitLines(s, v, m);
    case RelockCall => LockLines(s, s.cpu.points[s.cpu.running.value].m, true);
    case SignalCall(v) => SignalLines(s, v);
    case BroadcastCall(v) => BroadcastLines(s, v);
    case FinishCall => FinishLines(s);
    case CreateCall => CreateLines(s);
    case YieldCall => YieldLines(s);
    case JoinCall(u) => JoinLines(s, u);
  }

  // ---------------------------------------------------------------- who owns a mutex, and where a thread goes on

  /** A switch to the next ready thread takes it out of `lock` or `wait` if it was handed its mutex. */
  lemma SwapInside(c: Cpu)
    requires Ready(c) && c.running.None?
    ensures var n := Swap(c);
      && (forall t: nat, m: nat :: Inside(t, m) in n.inside <==>
        Inside(t, m) in c.inside || (n.running == Some(t) && t in c.points && c.points[t] == Granted(m)))
      && n.points.Keys == c.points.Keys
      && (forall t :: t in c.points ==>
        n.points[t] == if n.running == Some(t) && c.points[t].Granted? then Runs else c.points[t])
  {
  }

  ghost predicate InsideAre(s: Machine, call: Call, n: Cpu)
    requires CanCall(s, call)
  {
    forall t: nat, m: nat :: m < |s.locks| ==> (Inside(t, m) in n.inside <==> StaysOrComesInside(s, call, n, t, m))
  }

  ghost predicate PointsAre(s: Machine, call: Call, n: Cpu)
    requires CanCall(s, call)
  {
    forall t :: t in n.points ==> n.points[t] == PointAfter(s, call, n, t)
  }

  /** The running thread was not handed a mutex that it has not come out with. */
  lemma RunnerPoint(s: Machine)
    requires Inv(s) && s.cpu.running.Some?
    ensures s.cpu.running.value in s.cpu.points && !s.cpu.points[s.cpu.running.value].Granted?
  {
    Knows(s);
    assert Fits(OnCpu, s.cpu.points[s.cpu.running.value], |s.locks|) by { assert KeysOk(s.cpu); }
  }

  /** The call gives the CPU up: `c` is what it leaves before the next thread is dispatched. */
  lemma SwitchedPoints(s: Machine, call: Call, c: Cpu)
    requires CanCall(s, call) && Ready(c) && c.running.None? && Swap(c).running != s.cpu.running
    requires forall t :: t in c.points ==>
      if t in s.cpu.points && s.cpu.running != Some(t) then c.points[t] == s.cpu.points[t]
      else c.points[t] == PointAfter(s, call, Swap(c), t)
    ensures PointsAre(s, call, Swap(c))
  {
    SwapInside(c);
    hide Swap;
  }

  lemma SwitchedInside(s: Machine, call: Call, c: Cpu)
    requires CanCall(s, call) && Ready(c) && c.running.None? && Swap(c).running != s.cpu.running
    requires !s.cpu.points[s.cpu.running.value].Granted?
    requires forall t :: t in s.cpu.points && s.cpu.running != Some(t) ==>
      t in c.points && c.points[t] == s.cpu.points[t]
    requires forall t :: t in c.points && s.cpu.running != Some(t) ==> t in s.cpu.points
    requires forall t: nat, m: nat :: m < |s.locks| ==> (Inside(t, m) in c.inside <==>
      Inside(t, m) in s.cpu.inside
      && !(s.cpu.running == Some(t) && (call == UnlockCall(m) || (call.WaitCall? && call.m == m))))
    requires call.LockCall? ==> s.locks[call.m].status
    requires call.RelockCall? ==> s.locks[s.cpu.points[s.cpu.running.value].m].status
    ensures InsideAre(s, call, Swap(c))
  {
    SwapInside(c);
    hide Swap;
  }

  lemma NotReady(s: Machine)
    requires Inv(s) && s.cpu.running.Some?
    ensures s.cpu.running.value !in s.cpu.ready
  {
    Apart(s, OnCpu, InReady, s.cpu.running.value);
  }

  ghost predicate OwnersAre(s: Machine, call: Call)
    requires Settled(s) && CanCall(s, call)
  {
    PointsAre(s, call, Do(s, call).cpu) && InsideAre(s, call, Do(s, call).cpu)
  }

  /** The call leaves the CPU for `c`, in which nobody's mutex and nobody else's point has changed. */
  lemma Switches(s: Machine, call: Call, c: Cpu)
    requires Inv(s) && CanCall(s, call) && Ready(c) && c.running.None?
    requires c.ready != [] ==> c.ready[0] != s.cpu.running.value
    requires Do(s, call).cpu == Swap(c)
    requires forall t :: t in c.points ==>
      if t in s.cpu.points && s.cpu.running != Some(t) then c.points[t] == s.cpu.points[t]
      else c.points[t] == PointAfter(s, call, Swap(c), t)
    requires forall t :: t in s.cpu.points && s.cpu.running != Some(t) ==> t in c.points
    requires forall t :: t in c.points ==> t in s.cpu.points
    requires forall t: nat, m: nat :: m < |s.locks| ==> (Inside(t, m) in c.inside <==>
      Inside(t, m) in s.cpu.inside
      && !(s.cpu.running == Some(t) && (call == UnlockCall(m) || (call.WaitCall? && call.m == m))))
    requires call.LockCall? ==> s.locks[call.m].status
    requires call.RelockCall? ==> s.locks[s.cpu.points[s.cpu.running.value].m].status
    ensures OwnersAre(s, call)
  {
    assert Swap(c).running != s.cpu.running;
    RunnerPoint(s);
    hide Inv, Do, CanCall, Swap, PointAfter;
    SwitchedPoints(s, call, c);
    SwitchedInside(s, call, c);
  }

  lemma LockOwners(s: Machine, m: nat, relock: bool)
    requires var call := if relock then RelockCall else LockCall(m);
      Inv(s) && CanCall(s, call) && (relock ==> s.cpu.points[s.cpu.running.value].m == m)
    ensures OwnersAre(s, if relock then RelockCall else LockCall(m))
  {
    var call := if relock then RelockCall else LockCall(m);
    ReadyKnown(s);
    NotReady(s);
    RunnerPoint(s);
    hide Inv;
    if s.locks[m].status {
      hide Swap;
      Switches(s, call, Park(s.cpu, OnMutex(m), Granted(m)));
    }
  }

  lemma YieldOwners(s: Machine)
    requires Inv(s) && CanCall(s, YieldCall)
    ensures OwnersAre(s, YieldCall)
  {
    ReadyKnown(s);
    NotReady(s);
    RunnerPoint(s);
    hide Inv;
    if s.cpu.ready != [] {
      hide Swap;
      Switches(s, YieldCall, MakeReady(s.cpu, s.cpu.running.value).(running := None));
    }
  }

  lemma JoinOwners(s: Machine, u: nat)
    requires Inv(s) && CanCall(s, JoinCall(u))
    ensures OwnersAre(s, JoinCall(u))
  {
    ReadyKnown(s);
    NotReady(s);
    RunnerPoint(s);
    hide Inv;
    if u in s.cpu.joins {
      var joined := s.cpu.(joins := s.cpu.joins[u := s.cpu.joins[u] + [s.cpu.running.value]]);
      hide Swap;
      Switches(s, JoinCall(u), Park(joined, OnJoin(u), Runs));
    }
  }

  lemma WaitOwners(s: Machine, v: nat, m: nat)
    requires Inv(s) && CanCall(s, WaitCall(v, m))
    ensures OwnersAre(s, WaitCall(v, m))
  {
    ReleaseReady(s, m);
    RunnerPoint(s);
    OwnerInside(s, m);
    if Owns(s.cpu, s.locks[m]) {
      WaiterElsewhere(s, m);
      NotReady(s);
      hide Inv, Swap;
      Switches(s, WaitCall(v, m), Park(Release(s.cpu, m, s.locks[m]).0, OnCv(v), Relocks(m)));
    } else {
      hide Inv;
    }
  }

  /** The running thread is inside exactly the mutexes it owns. */
  lemma OwnerInside(s: Machine, m: nat)
    requires Inv(s) && s.cpu.running.Some? && m < |s.locks|
    ensures Owns(s.cpu, s.locks[m]) <==> Inside(s.cpu.running.value, m) in s.cpu.inside
  {
    Knows(s);
    assert LockOk(s.cpu, m, s.locks[m]) && KeysOk(s.cpu);
  }

  lemma UnlockOwners(s: Machine, m: nat)
    requires Inv(s) && CanCall(s, UnlockCall(m))
    ensures OwnersAre(s, UnlockCall(m))
  {
    RunnerPoint(s);
    OwnerInside(s, m);
    hide Inv;
  }

  lemma FinishOwners(s: Machine)
    requires Inv(s) && CanCall(s, FinishCall)
    ensures OwnersAre(s, FinishCall)
  {
    JoinersKnown(s);
    RunnerPoint(s);
    NotReady(s);
    var r := s.cpu.running.value;
    assert r !in s.cpu.joins[r] by {
      if r in QueueAt(s, OnJoin(r)) { Apart(s, OnJoin(r), OnCpu, r); }
    }
    hide Inv, Swap;
    Switches(s, FinishCall, Forget(MakeAllReady(s.cpu, s.cpu.joins[r]), r));
  }

  lemma WakeOwners(s: Machine, call: Call)
    requires Inv(s) && CanCall(s, call) && (call.SignalCall? || call.BroadcastCall? || call.CreateCall?)
    ensures OwnersAre(s, call)
  {
    RunnerPoint(s);
    NewNowhere(s, OnCpu);
    assert s.cpu.next !in s.cpu.points by { assert KeysOk(s.cpu); }
    hide Inv;
  }

  /** Every call lets threads in and out of mutexes, and sets where they go on, exactly as ThreadReference says. */
  lemma CallOwners(s: Machine, call: Call)
    requires Inv(s) && CanCall(s, call)
    ensures forall t: nat, m: nat :: m < |s.locks| ==>
      (Inside(t, m) in Do(s, call).cpu.inside <==> StaysOrComesInside(s, call, Do(s, call).cpu, t, m))
    ensures forall t :: t in Do(s, call).cpu.points ==>
      Do(s, call).cpu.points[t] == PointAfter(s, call, Do(s, call).cpu, t)
  {
    assert Settled(s);
    assert OwnersAre(s, call) by {
      hide Inv, Settled, Do, OwnersAre;
      match call
      case LockCall(m) => LockOwners(s, m, false);
      case UnlockCall(m) => UnlockOwners(s, m);
      case WaitCall(v, m) => WaitOwners(s, v, m);
      case RelockCall => LockOwners(s, s.cpu.points[s.cpu.running.value].m, true);
      case YieldCall => YieldOwners(s);
      case JoinCall(u) => JoinOwners(s, u);
      case FinishCall => FinishOwners(s);
      case _ => WakeOwners(s, call);
    }
    hide Inv, Do, StaysOrComesInside, PointAfter;
  }

  // ---------------------------------------------------------------- coming back with the mutex

  /** Thread `t` is on its way back to its program with mutex `m`. */
  ghost predicate OnItsWay(c: Cpu, t: nat, m: nat) {
    t in c.points && (c.points[t] == Relocks(m) || c.points[t] == Granted(m))
  }

  /** Thread `t` goes on in its program as the owner of mutex `m`. */
  ghost predicate BackWith(s: Machine, t: nat, m: nat) {
    && s.cpu.running == Some(t) && t in s.cpu.points && s.cpu.points[t] == Runs && Inside(t, m) in s.cpu.inside
    && m < |s.locks| && s.locks[m].status && s.locks[m].owner == t
  }

  lemma SwapKeys(c: Cpu)
    requires Ready(c)
    ensures Swap(c).points.Keys == c.points.Keys
  {
  }

  /** Only a finished thread is forgotten. */
  lemma PointsStay(s: Machine, call: Call, t: nat)
    requires Inv(s) && CanCall(s, call) && t in s.cpu.points && (call.FinishCall? ==> s.cpu.running != Some(t))
    ensures t in Do(s, call).cpu.points
  {
    ReadyKnown(s);
    var c := s.cpu;
    var r := c.running.value;
    match call
    case LockCall(m) => SwapKeysIf(s.locks[m].status, Park(c, OnMutex(m), Granted(m)));
    case RelockCall =>
      var m := c.points[r].m;
      SwapKeysIf(s.locks[m].status, Park(c, OnMutex(m), Granted(m)));
    case WaitCall(v, m) =>
      ReleaseReady(s, m);
      SwapKeysIf(true, Park(Release(c, m, s.locks[m]).0, OnCv(v), Relocks(m)));
    case YieldCall => SwapKeysIf(true, MakeReady(c, r).(running := None));
    case JoinCall(u) =>
      if u in c.joins { SwapKeys(Park(c.(joins := c.joins[u := c.joins[u] + [r]]), OnJoin(u), Runs)); }
    case FinishCall =>
      JoinersKnown(s);
      SwapKeys(Forget(MakeAllReady(c, c.joins[r]), r));
    case _ =>
    hide Inv, Settled, Swap, Owns;
  }

  lemma SwapKeysIf(on: bool, c: Cpu)
    requires on ==> Ready(c)
    ensures on ==> Swap(c).points.Keys == c.points.Keys
  {
  }

  /** A running thread that is on its way takes the mutex if it is free and keeps the CPU, or waits for it. */
  lemma RunnerStays(s: Machine, call: Call, t: nat)
    requires Inv(s) && CanCall(s, call) && s.cpu.running == Some(t) && t in s.cpu.points && !s.cpu.points[t].Runs?
    ensures call.RelockCall? && s.cpu.points[t].m < |s.locks|
    ensures !s.locks[s.cpu.points[t].m].status ==> Do(s, call).cpu.running == Some(t)
  {
    RunnerPoint(s);
    hide Inv, Swap;
  }

  lemma WayStep(s: Machine, call: Call, t: nat, m: nat)
    requires Inv(s) && CanCall(s, call) && OnItsWay(s.cpu, t, m)
    ensures OnItsWay(Do(s, call).cpu, t, m) || BackWith(Do(s, call), t, m)
  {
    var n := Do(s, call);
    if s.cpu.running == Some(t) { RunnerStays(s, call, t); }
    PointsStay(s, call, t);
    CallOwners(s, call);
    assert n.cpu.points[t] == PointAfter(s, call, n.cpu, t);
    hide Inv, Settled, Do, CanCall, StaysOrComesInside;
    if n.cpu.points[t].Runs? {
      ReturnsAsOwner(s, call, t);
    }
  }

  /** A thread that waits for mutex `m`, in `lock` or in either half of `wait`, goes on in its program only as its
      owner: as long as it has not, it is still on its way. */
  lemma {:induction false} ComesBackAsOwner(s: Machine, calls: seq<Call>, t: nat, m: nat)
    requires Inv(s) && OnItsWay(s.cpu, t, m)
    ensures OnItsWay(Exec(s, calls).cpu, t, m) || exists i :: 0 <= i <= |calls| && BackWith(Exec(s, calls[..i]), t, m)
    decreases |calls|
  {
    hide Inv, CanCall, Do, OnItsWay, BackWith;
    if calls != [] {
      var n := First(s, calls);
      if CanCall(s, calls[0]) { WayStep(s, calls[0], t, m); }
      var rest := calls[1..];
      assert rest[..0] == [];
      if BackWith(n, t, m) {
        assert BackWith(Exec(s, calls[..0 + 1]), t, m);
      } else {
        ComesBackAsOwner(n, rest, t, m);
        if !OnItsWay(Exec(s, calls).cpu, t, m) {
          var i :| 0 <= i <= |rest| && BackWith(Exec(n, rest[..i]), t, m);
          assert BackWith(Exec(s, calls[..i + 1]), t, m);
        }
      }
    }
  }

  /** A `wait` by the owner comes back with the mutex it was called with, if it comes back. */
  lemma WaitComesBack(s: Machine, v: nat, m: nat, calls: seq<Call>)
    requires Inv(s) && CanCall(s, WaitCall(v, m)) && Owns(s.cpu, s.locks[m])
    ensures Inv(Do(s, WaitCall(v, m)))
    ensures var (t, n) := (s.cpu.running.value, Do(s, WaitCall(v, m)));
      OnItsWay(Exec(n, calls).cpu, t, m) || exists i :: 0 <= i <= |calls| && BackWith(Exec(n, calls[..i]), t, m)
  {
    var (call, t, n) := (WaitCall(v, m), s.cpu.running.value, Do(s, WaitCall(v, m)));
    CallKeeps(s, call);
    RunnerPoint(s);
    PointsStay(s, call, t);
    CallOwners(s, call);
    assert n.cpu.points[t] == PointAfter(s, call, n.cpu, t) == Relocks(m);
    hide Inv, Do, CanCall;
    ComesBackAsOwner(n, calls, t, m);
  }
}
