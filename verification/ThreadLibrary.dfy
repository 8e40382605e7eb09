/** The thread library as the source has it: a mutex, a condition variable and the CPU's queues as objects updated in
    place.  A method that switches returns where the next thread goes on; `Cv.Reacquire` is the second half of `wait`.
    */
module ThreadLibrary {
  import opened Common
  import opened ThreadModel
  import opened ThreadProofs

  /** The threads' side: who runs, who is ready, and who joined whom. */
  class Processor {
    var runningThread: Option<nat>
    var readyQueue: seq<nat>
    /** The join queue of each thread whose control block still exists. */
    var joinQueues: map<nat, seq<nat>>
    var created: nat
    ghost var points: map<nat, Point>
    ghost var places: map<nat, Place>
    ghost var inside: set<Inside>
    ghost var dispatches: nat

    ghost function C(): Cpu
      reads this
    {
      Cpu(runningThread, readyQueue, joinQueues, created, points, places, inside, dispatches)
    }

    /** One ready thread, the initial one, which then runs. */
    constructor ()
      ensures C() == Boot(0, 0).cpu
    {
      runningThread, readyQueue, joinQueues, created := None, [], map[], 0;
      points, places, inside, dispatches := map[], map[], {}, 0;
      new;
      var first := Create();
      assert readyQueue == [0];
      SwapHelper();
    }

    /** Switches to the front of the ready queue, or suspends the CPU. */
    method SwapHelper()
      requires Ready(C())
      modifies this
      ensures C() == Swap(old(C()))
    {
      if readyQueue != [] {
        var next := readyQueue[0];
        runningThread := Some(next);
        readyQueue := readyQueue[1..];
        if points[next].Granted? {
          inside := inside + {Inside(next, points[next].m)};
          points := points[next := Runs];
        }
        places := places[next := OnCpu];
        dispatches := dispatches + 1;
      } else {
        runningThread := None;
      }
    }

    method PushReady(t: nat)
      modifies `readyQueue, `places
      ensures C() == MakeReady(old(C()), t)
    {
      readyQueue := readyQueue + [t];
      places := places[t := InReady];
    }

    /** Leaves the CPU to the next ready thread. */
    method Block(ghost place: Place, ghost point: Point)
      requires runningThread.Some? && Ready(C())
      modifies this
      ensures C() == Leave(old(C()), place, point)
    {
      places := places[runningThread.value := place];
      points := points[runningThread.value := point];
      runningThread := None;
      SwapHelper();
    }

    method Create() returns (t: nat)
      modifies this
      ensures t == old(created) && C() == CreateOp(old(C()))
    {
      t := created;
      joinQueues := joinQueues[t := []];
      points := points[t := Runs];
      created := created + 1;
      PushReady(t);
    }

    method Yield()
      requires runningThread.Some? && Ready(C()) && runningThread.value in points
      modifies this
      ensures C() == YieldOp(old(C()))
    {
      if readyQueue != [] {
        PushReady(runningThread.value);
        runningThread := None;
        SwapHelper();
      }
    }

    method Join(target: nat)
      requires runningThread.Some? && Ready(C())
      modifies this
      ensures C() == JoinOp(old(C()), target)
    {
      if target in joinQueues {
        joinQueues := joinQueues[target := joinQueues[target] + [runningThread.value]];
        Block(OnJoin(target), Runs);
      }
    }

    /** The end of `starter`: the running thread's function has returned. */
    method Finish()
      requires runningThread.Some? && runningThread.value in joinQueues
      requires forall t :: t in joinQueues[runningThread.value] ==> t in places
      requires Ready(Forget(MakeAllReady(C(), joinQueues[runningThread.value]), runningThread.value))
      modifies this
      ensures C() == FinishOp(old(C()))
    {
      var self := runningThread.value;
      var joiners := joinQueues[self];
      ghost var before := C();
      NothingReady(before);
      var i := 0;
      while i < |joiners|
        invariant i <= |joiners| && C() == MakeAllReady(before, joiners[..i])
      {
        OneMoreReady(before, joiners, i);
        PushReady(joiners[i]);
        i := i + 1;
      }
      assert joiners[..i] == joiners;
      joinQueues, points, places := joinQueues - {self}, points - {self}, places - {self};
      runningThread := None;
      SwapHelper();
    }
  }

  lemma OneMoreReady(c: Cpu, ts: seq<nat>, i: nat)
    requires i < |ts| && ts[i] in c.places
    ensures MakeAllReady(c, ts[..i + 1]) == MakeReady(MakeAllReady(c, ts[..i]), ts[i])
  {
    assert ts[..i + 1] == ts[..i] + [ts[i]];
    assert c.ready + ts[..i + 1] == c.ready + ts[..i] + [ts[i]];
    assert MakeAllReady(c, ts[..i + 1]).places == MakeReady(MakeAllReady(c, ts[..i]), ts[i]).places;
  }

  class Mutex {
    const id: nat
    var status: bool
    var occupyThread: nat
    var mutexQueue: seq<nat>

    function L(): Lock
      reads this
    {
      Lock(status, occupyThread, mutexQueue)
    }

    constructor (id: nat)
      ensures this.id == id && L() == Lock(false, 0, [])
    {
      this.id, status, occupyThread, mutexQueue := id, false, 0, [];
    }

    /** The mutex is taken, and by the running thread. */
    method CheckOwnership(cpu: Processor) returns (owned: bool)
      ensures owned == Owns(cpu.C(), L())
    {
      owned := occupyThread in cpu.joinQueues && status && cpu.runningThread == Some(occupyThread);
    }

    method Acquire(cpu: Processor)
      requires cpu.runningThread.Some? && Ready(cpu.C())
      modifies this, cpu
      ensures (cpu.C(), L()) == LockOp(old(cpu.C()), id, old(L()))
    {
      if status {
        mutexQueue := mutexQueue + [cpu.runningThread.value];
        cpu.Block(OnMutex(id), Granted(id));
      } else {
        status := true;
        occupyThread := cpu.runningThread.value;
        cpu.inside := cpu.inside + {Inside(occupyThread, id)};
      }
    }

    /** Hands the mutex to its first waiter, or frees it. */
    method HandOff(cpu: Processor)
      requires cpu.runningThread.Some? && status
      modifies this, cpu
      ensures (cpu.C(), L()) == Release(old(cpu.C()), id, old(L()))
    {
      cpu.inside := cpu.inside - {Inside(cpu.runningThread.value, id)};
      status := false;
      if mutexQueue != [] {
        occupyThread := mutexQueue[0];
        cpu.PushReady(mutexQueue[0]);
        mutexQueue := mutexQueue[1..];
        status := true;
      }
    }

    /** False stands for the exception thrown at a thread that does not own the mutex. */
    method Unlock(cpu: Processor) returns (ok: bool)
      requires cpu.runningThread.Some?
      modifies this, cpu
      ensures ok == Owns(old(cpu.C()), old(L()))
      ensures (cpu.C(), L()) == UnlockOp(old(cpu.C()), id, old(L()))
    {
      ok := CheckOwnership(cpu);
      if ok { HandOff(cpu); }
    }
  }

  class Cv {
    const id: nat
    var cvQueue: seq<nat>

    constructor (id: nat)
      ensures this.id == id && cvQueue == []
    {
      this.id, cvQueue := id, [];
    }

    /** `wait` up to its first switch; false stands for the exception. */
    method Wait(cpu: Processor, m: Mutex) returns (ok: bool)
      requires cpu.runningThread.Some? && Ready(Release(cpu.C(), m.id, m.L()).0)
      modifies this, cpu, m
      ensures ok == Owns(old(cpu.C()), old(m.L()))
      ensures (cpu.C(), cvQueue, m.L()) == WaitOp(old(cpu.C()), id, old(cvQueue), m.id, old(m.L()))
    {
      ok := m.CheckOwnership(cpu);
      if ok {
        cvQueue := cvQueue + [cpu.runningThread.value];
        m.HandOff(cpu);
        cpu.Block(OnCv(id), Relocks(m.id));
      }
    }

    /** `wait` from the point where a signalled thread is dispatched again. */
    method Reacquire(cpu: Processor, m: Mutex)
      requires cpu.runningThread.Some? && Ready(cpu.C())
      modifies cpu, m
      ensures (cpu.C(), m.L()) == RelockOp(old(cpu.C()), m.id, old(m.L()))
    {
      if !m.status {
        m.occupyThread := cpu.runningThread.value;
        m.status := true;
        cpu.inside := cpu.inside + {Inside(m.occupyThread, m.id)};
        cpu.points := cpu.points[m.occupyThread := Runs];
      } else {
        m.mutexQueue := m.mutexQueue + [cpu.runningThread.value];
        cpu.Block(OnMutex(m.id), Granted(m.id));
      }
    }

    method Signal(cpu: Processor)
      modifies this, cpu
      ensures (cpu.C(), cvQueue) == SignalOp(old(cpu.C()), old(cvQueue))
    {
      if cvQueue != [] {
        cpu.PushReady(cvQueue[0]);
        cvQueue := cvQueue[1..];
      }
    }

    method Broadcast(cpu: Processor)
      requires forall t :: t in cvQueue ==> t in cpu.places
      modifies this, cpu
      ensures (cpu.C(), cvQueue) == BroadcastOp(old(cpu.C()), old(cvQueue))
    {
      ghost var before, all := cpu.C(), cvQueue;
      NothingReady(before);
      ghost var i := 0;
      while cvQueue != []
        invariant i <= |all| && cvQueue == all[i..] && cpu.C() == MakeAllReady(before, all[..i])
        decreases |cvQueue|
      {
        OneMoreReady(before, all, i);
        cpu.PushReady(cvQueue[0]);
        cvQueue := cvQueue[1..];
        i := i + 1;
      }
      assert all[..i] == all;
    }
  }
}
