/** Who gets a mutex and who is woken, over whole runs: waiters come first in, first out, one for each release or
    signal, whatever happens in between. */
module ThreadFairness {
  import opened Common
  import opened ThreadModel
  import opened ThreadRuns

  ghost function After(s: Machine, call: Call): (n: Machine)
    requires Inv(s)
    ensures Inv(n)
  {
    if CanCall(s, call) then
      CallKeeps(s, call);
      Do(s, call)
    else s
  }

  // ---------------------------------------------------------------- mutexes

  /** The call is one by which the owner of mutex `m` gives it up. */
  ghost predicate Gives(s: Machine, call: Call, m: nat) {
    && CanCall(s, call) && m < |s.locks| && Owns(s.cpu, s.locks[m])
    && (call == UnlockCall(m) || (call.WaitCall? && call.m == m))
  }

  /** How often mutex `m` was given up in a run. */
  ghost function Releases(s: Machine, calls: seq<Call>, m: nat): nat
    requires Inv(s)
    decreases |calls|
  {
    if calls == [] then 0
    else (if Gives(s, calls[0], m) then 1 else 0) + Releases(After(s, calls[0]), calls[1..], m)
  }

  /** Thread `t` was handed mutex `m`. */
  ghost predicate Handed(s: Machine, m: nat, t: nat) {
    && m < |s.locks| && s.locks[m].status && s.locks[m].owner == t
    && (t in s.cpu.ready || s.cpu.running == Some(t))
  }

  /** The front of the ready queue runs after a switch, and the others stay ready. */
  lemma SwapFinds(c: Cpu, t: nat)
    requires Ready(c) && t in c.ready
    ensures t in Swap(c).ready || Swap(c).running == Some(t)
  {
    assert forall x :: x in c.ready ==> x == c.ready[0] || x in c.ready[1..];
  }

  /** With waiters in line, a release hands the mutex to the first of them; any other call leaves the line, but for new
      arrivals at its end, and the owner. */
  lemma LineMoves(s: Machine, call: Call, m: nat)
    requires Inv(s) && m < |s.locks| && s.locks[m].queue != []
    ensures var (l, n) := (s.locks[m], After(s, call));
      && m < |n.locks|
      && if Gives(s, call, m) then n.locks[m].queue == l.queue[1..] && Handed(n, m, l.queue[0])
         else l.queue <= n.locks[m].queue && n.locks[m].owner == l.owner
  {
    MutualExclusion(s, m);
    if CanCall(s, call) {
      if Gives(s, call, m) && call.WaitCall? { WaitHands(s, call.c, m); }
      hide Settled, Swap, MakeAllReady, Owns;
    }
  }

  lemma WaitHands(s: Machine, v: nat, m: nat)
    requires Inv(s) && Gives(s, WaitCall(v, m), m) && s.locks[m].queue != []
    ensures var n := Do(s, WaitCall(v, m)).cpu; s.locks[m].queue[0] in n.ready || n.running == Some(s.locks[m].queue[0])
  {
    ReleaseReady(s, m);
    hide Settled, Swap;
    SwapFinds(Park(Release(s.cpu, m, s.locks[m]).0, OnCv(v), Relocks(m)), s.locks[m].queue[0]);
  }

  /** A thread that waits for mutex `m` behind `k` others moves up by one place with each release, and stays in line
      until `k` + 1 releases have happened. */
  lemma {:induction false} MutexMovesUp(s: Machine, calls: seq<Call>, m: nat, k: nat)
    requires Inv(s) && m < |s.locks| && k < |s.locks[m].queue| && Releases(s, calls, m) <= k
    ensures var n := Exec(s, calls);
      && m < |n.locks| && k - Releases(s, calls, m) < |n.locks[m].queue|
      && n.locks[m].queue[k - Releases(s, calls, m)] == s.locks[m].queue[k]
    decreases |calls|
  {
    hide Inv, CanCall, Do, Handed, Gives;
    if calls != [] {
      var n := First(s, calls);
      LineMoves(s, calls[0], m);
      MutexMovesUp(n, calls[1..], m, if Gives(s, calls[0], m) then k - 1 else k);
    }
  }

  /** And the (`k` + 1)-th release makes it the owner, ready to go on. */
  lemma {:induction false} MutexTurnComes(s: Machine, calls: seq<Call>, m: nat, k: nat)
    requires Inv(s) && m < |s.locks| && k < |s.locks[m].queue| && Releases(s, calls, m) > k
    ensures exists i ::
      && 0 <= i <= |calls| && Releases(s, calls[..i], m) == k + 1
      && Handed(Exec(s, calls[..i]), m, s.locks[m].queue[k])
    decreases |calls|
  {
    hide Inv, CanCall, Do, Handed, Gives;
    var t := s.locks[m].queue[k];
    if calls != [] {
      var n := First(s, calls);
      var rest := calls[1..];
      LineMoves(s, calls[0], m);
      if Gives(s, calls[0], m) && k == 0 {
        assert rest[..0] == [] && calls[..1][1..] == [];
        assert Releases(s, calls[..0 + 1], m) == k + 1 && Handed(Exec(s, calls[..0 + 1]), m, t);
      } else {
        var j := if Gives(s, calls[0], m) then k - 1 else k;
        MutexTurnComes(n, rest, m, j);
        var i :|
          0 <= i <= |rest| && Releases(n, rest[..i], m) == j + 1 && Handed(Exec(n, rest[..i]), m, n.locks[m].queue[j]);
        assert calls[..i + 1][1..] == rest[..i];
        assert Releases(s, calls[..i + 1], m) == k + 1 && Handed(Exec(s, calls[..i + 1]), m, t);
      }
    }
  }

  // ---------------------------------------------------------------- condition variables

  /** How many waiters of condition variable `v` a call wakes, at most. */
  ghost function WakesBy(s: Machine, call: Call, v: nat): nat {
    if !CanCall(s, call) || v >= |s.cvs| then 0
    else if call == SignalCall(v) then 1
    else if call == BroadcastCall(v) then |s.cvs[v]|
    else 0
  }

  ghost function Wakes(s: Machine, calls: seq<Call>, v: nat): nat
    requires Inv(s)
    decreases |calls|
  {
    if calls == [] then 0 else WakesBy(s, calls[0], v) + Wakes(After(s, calls[0]), calls[1..], v)
  }

  /** The call takes thread `t` off condition variable `v`: a signal that finds it first in line, or a broadcast. */
  ghost predicate Woken(s: Machine, call: Call, v: nat, t: nat)
    requires Inv(s)
  {
    && CanCall(s, call) && v < |s.cvs| && t in s.cvs[v]
    && ((call == SignalCall(v) && s.cvs[v][0] == t) || call == BroadcastCall(v))
    && v < |After(s, call).cvs| && t !in After(s, call).cvs[v] && t in After(s, call).cpu.ready
  }

  /** The waiters that a call reaches become ready; the others keep their order. */
  lemma WaitersMove(s: Machine, call: Call, v: nat, k: nat)
    requires Inv(s) && v < |s.cvs| && k < |s.cvs[v]|
    ensures var (w, n) := (WakesBy(s, call, v), After(s, call));
      && v < |n.cvs|
      && if k < w then Woken(s, call, v, s.cvs[v][k])
         else k - w < |n.cvs[v]| && n.cvs[v][k - w] == s.cvs[v][k]
  {
    OnePlace(s, s.cvs[v][k], OnCv(v));
    hide Settled, Swap, Owns, Release;
  }

  /** A thread that waits on `v` behind `k` others stays in line until `k` + 1 wake-ups have happened. */
  lemma {:induction false} WaiterMovesUp(s: Machine, calls: seq<Call>, v: nat, k: nat)
    requires Inv(s) && v < |s.cvs| && k < |s.cvs[v]| && Wakes(s, calls, v) <= k
    ensures var n := Exec(s, calls);
      v < |n.cvs| && k - Wakes(s, calls, v) < |n.cvs[v]| && n.cvs[v][k - Wakes(s, calls, v)] == s.cvs[v][k]
    decreases |calls|
  {
    hide Inv, CanCall, Do, WakesBy, Woken;
    if calls != [] {
      var n := First(s, calls);
      WaitersMove(s, calls[0], v, k);
      WaiterMovesUp(n, calls[1..], v, k - WakesBy(s, calls[0], v));
    }
  }

  /** And then it is woken: by a signal that finds it first in line, or by a broadcast. */
  lemma {:induction false} WaiterTurnComes(s: Machine, calls: seq<Call>, v: nat, k: nat)
    requires Inv(s) && v < |s.cvs| && k < |s.cvs[v]| && Wakes(s, calls, v) > k
    ensures exists i :: 0 <= i < |calls| && Woken(Exec(s, calls[..i]), calls[i], v, s.cvs[v][k])
    decreases |calls|
  {
    hide Inv, CanCall, Do, WakesBy, Woken;
    var t := s.cvs[v][k];
    if calls != [] {
      var n := First(s, calls);
      var rest := calls[1..];
      WaitersMove(s, calls[0], v, k);
      if k < WakesBy(s, calls[0], v) {
        assert calls[..0] == [] && Woken(Exec(s, calls[..0]), calls[0], v, t);
      } else {
        WaiterTurnComes(n, rest, v, k - WakesBy(s, calls[0], v));
        var i :| 0 <= i < |rest| && Woken(Exec(n, rest[..i]), rest[i], v, t);
        assert Woken(Exec(s, calls[..i + 1]), calls[i + 1], v, t);
      }
    }
  }

  /** So a thread that no longer waits on `v` after a run was signalled as the first in line, or broadcast to. */
  lemma OnlyWokenLeave(s: Machine, calls: seq<Call>, v: nat, t: nat)
    requires Inv(s) && v < |s.cvs| && t in s.cvs[v]
    requires v >= |Exec(s, calls).cvs| || t !in Exec(s, calls).cvs[v]
    ensures exists i :: 0 <= i < |calls| && Woken(Exec(s, calls[..i]), calls[i], v, t)
  {
    hide Inv, Woken;
    var k :| 0 <= k < |s.cvs[v]| && s.cvs[v][k] == t;
    if Wakes(s, calls, v) <= k {
      WaiterMovesUp(s, calls, v, k);
    } else {
      WaiterTurnComes(s, calls, v, k);
    }
  }
}
