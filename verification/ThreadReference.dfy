/** What the calls of the thread library do, told by thread instead of by data structure: each call sends some threads,
    in order, to the end of some line, and if that leaves the CPU empty the first ready thread goes there. */
module ThreadReference {
  import opened Common
  import opened ThreadModel

  datatype Move = Move(t: nat, to: Place)

  /** The threads of a line, sent to the ready queue. */
  function ToReady(line: seq<nat>): seq<Move> {
    seq(|line|, i requires 0 <= i < |line| => Move(line[i], InReady))
  }

  function FirstOf(line: seq<nat>): seq<nat> {
    if line == [] then [] else [line[0]]
  }

  /** Who goes where by a call: whoever has to wait to the line it waits in, whoever may go on to the ready queue. */
  function Moving(s: Machine, call: Call): seq<Move>
    requires CanCall(s, call)
  {
    var r := s.cpu.running.value;
    match call
    case LockCall(m) => if s.locks[m].status then [Move(r, OnMutex(m))] else []
    case RelockCall =>
      var m := s.cpu.points[r].m;
      if s.locks[m].status then [Move(r, OnMutex(m))] else []
    case UnlockCall(m) => if Owns(s.cpu, s.locks[m]) then ToReady(FirstOf(s.locks[m].queue)) else []
    case WaitCall(v, m) =>
      if Owns(s.cpu, s.locks[m]) then ToReady(FirstOf(s.locks[m].queue)) + [Move(r, OnCv(v))] else []
    case SignalCall(v) => ToReady(FirstOf(s.cvs[v]))
    case BroadcastCall(v) => ToReady(s.cvs[v])
    case CreateCall => [Move(s.cpu.next, InReady)]
    case YieldCall => if s.cpu.ready == [] then [] else [Move(r, InReady)]
    case JoinCall(u) => if u in s.cpu.joins then [Move(r, OnJoin(u))] else []
    case FinishCall => ToReady(s.cpu.joins[r])
  }

  /** The threads that moves send to place `p`, in order. */
  function Arrivals(moves: seq<Move>, p: Place): seq<nat> {
    if moves == [] then []
    else Arrivals(moves[..|moves| - 1], p) + if moves[|moves| - 1].to == p then [moves[|moves| - 1].t] else []
  }

  /** The threads that leave where they are: those that move, and one that finishes. */
  function Leaving(s: Machine, call: Call): set<nat>
    requires CanCall(s, call)
  {
    (set m | m in Moving(s, call) :: m.t) + if call.FinishCall? then {s.cpu.running.value} else {}
  }

  /** A line without some of its threads; the others keep their order. */
  function Except(line: seq<nat>, gone: set<nat>): seq<nat> {
    if line == [] then []
    else Except(line[..|line| - 1], gone) + if line[|line| - 1] in gone then [] else [line[|line| - 1]]
  }

  /** The line at `p` once everybody has moved. */
  function Moved(s: Machine, call: Call, p: Place): seq<nat>
    requires CanCall(s, call)
  {
    Except(QueueAt(s, p), Leaving(s, call)) + Arrivals(Moving(s, call), p)
  }

  /** The CPU was given up, and somebody is ready to take it. */
  predicate Dispatches(s: Machine, call: Call)
    requires CanCall(s, call)
  {
    Moved(s, call, OnCpu) == [] && Moved(s, call, InReady) != []
  }

  /** The line at `p` after the call. */
  function Line(s: Machine, call: Call, p: Place): seq<nat>
    requires CanCall(s, call)
  {
    if !Dispatches(s, call) then Moved(s, call, p)
    else if p == OnCpu then [Moved(s, call, InReady)[0]]
    else if p == InReady then Moved(s, call, InReady)[1..]
    else Moved(s, call, p)
  }

  /** Whether thread `t` is between its return with mutex `m` and its next release of it, after the call: it was and
      does not release it, or it takes it free, or it comes to the CPU with the mutex handed to it. */
  ghost predicate StaysOrComesInside(s: Machine, call: Call, n: Cpu, t: nat, m: nat)
    requires CanCall(s, call) && m < |s.locks|
  {
    var runs := s.cpu.running == Some(t);
    || (Inside(t, m) in s.cpu.inside && !(runs && (call == UnlockCall(m) || (call.WaitCall? && call.m == m))))
    || (runs && !s.locks[m].status && (call == LockCall(m) || (call.RelockCall? && s.cpu.points[t].m == m)))
    || (t in s.cpu.points && s.cpu.points[t] == Granted(m) && n.running == Some(t))
  }

  /** Where thread `t` goes on after the call. */
  ghost function PointAfter(s: Machine, call: Call, n: Cpu, t: nat): Point
    requires CanCall(s, call)
  {
    if t !in s.cpu.points then Runs
    else if s.cpu.points[t].Granted? && n.running == Some(t) then Runs
    else if s.cpu.running != Some(t) then s.cpu.points[t]
    else
      match call
      case LockCall(m) => if s.locks[m].status then Granted(m) else Runs
      case RelockCall => if s.locks[s.cpu.points[t].m].status then Granted(s.cpu.points[t].m) else Runs
      case WaitCall(_, m) => if Owns(s.cpu, s.locks[m]) then Relocks(m) else Runs
      case _ => Runs
  }

  lemma {:induction false} ArrivalsReady(line: seq<nat>, p: Place)
    ensures Arrivals(ToReady(line), p) == if p == InReady then line else []
  {
    if line != [] {
      var last := |line| - 1;
      assert ToReady(line)[..last] == ToReady(line[..last]);
      ArrivalsReady(line[..last], p);
      assert line == line[..last] + [line[last]];
    }
  }

  lemma ArrivalsMore(moves: seq<Move>, m: Move, p: Place)
    ensures Arrivals(moves + [m], p) == Arrivals(moves, p) + if m.to == p then [m.t] else []
  {
    assert (moves + [m])[..|moves|] == moves;
  }

  lemma ArrivalsOne(m: Move, p: Place)
    ensures Arrivals([m], p) == if m.to == p then [m.t] else []
  {
    ArrivalsMore([], m, p);
    assert [] + [m] == [m];
  }
}
