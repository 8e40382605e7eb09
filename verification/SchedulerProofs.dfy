/** The monitor of the disk scheduler: its invariant, its progress, and what its runs amount to. */
module SchedulerProofs {
  import opened SchedulerModel

  // ---------------------------------------------------------------- the invariant is kept

  lemma InitialInv(files: seq<seq<nat>>, maxQueue: nat)
    requires maxQueue >= 1 && |files| >= 1
    requires forall i, j :: 0 <= i < |files| && 0 <= j < |files[i]| ==> files[i][j] < TRACKS
    ensures Idle(files) <= |files| && Inv(Start(files, maxQueue), Idle(files))
  {
    var s := Start(files, maxQueue);
    ActiveAtStart(files, |files|);
    assert files[..|files|] == files;
    assert Active(s) == set i: nat | i < |files| && files[i] != [];
  }

  /** The number of requesters whose file is empty. */
  function Idle(files: seq<seq<nat>>): nat {
    if files == [] then 0 else Idle(files[..|files| - 1]) + if files[|files| - 1] == [] then 1 else 0
  }

  lemma IdleLast(files: seq<seq<nat>>, n: nat)
    requires 0 < n <= |files|
    ensures Idle(files[..n]) == Idle(files[..n - 1]) + if files[n - 1] == [] then 1 else 0
  {
    assert files[..n][..n - 1] == files[..n - 1];
  }

  lemma {:induction false} ActiveAtStart(files: seq<seq<nat>>, n: nat)
    requires n <= |files|
    ensures Idle(files[..n]) <= n && |set i: nat | i < n && files[i] != []| + Idle(files[..n]) == n
  {
    var before := set i: nat | i < n && files[i] != [];
    if n == 0 {
      assert before == {};
    } else {
      ActiveAtStart(files, n - 1);
      var rest := set i: nat | i < n - 1 && files[i] != [];
      hide Idle;
      if files[n - 1] == [] {
        assert before == rest;
      } else {
        assert before == rest + {n - 1};
      }
      IdleLast(files, n);
    }
  }

  lemma QueuedAppend(queue: seq<Entry>, e: Entry, i: nat)
    ensures QueuedBy(queue + [e], i) <==> QueuedBy(queue, i) || i == e.who
  {
    if QueuedBy(queue, i) {
      var k :| 0 <= k < |queue| && queue[k].who == i;
      assert (queue + [e])[k].who == i;
    }
    assert (queue + [e])[|queue|].who == e.who;
  }

  lemma QueuedRemove(queue: seq<Entry>, k: nat, i: nat)
    requires k < |queue| && forall m, n :: 0 <= m < n < |queue| ==> queue[m].who != queue[n].who
    ensures QueuedBy(queue[..k] + queue[k + 1..], i) <==> QueuedBy(queue, i) && i != queue[k].who
  {
    var rest := queue[..k] + queue[k + 1..];
    if QueuedBy(rest, i) {
      var m :| 0 <= m < |rest| && rest[m].who == i;
      assert rest[m] == queue[if m < k then m else m + 1];
    }
    if QueuedBy(queue, i) && i != queue[k].who {
      var m :| 0 <= m < |queue| && queue[m].who == i;
      assert rest[if m < k then m else m - 1] == queue[m];
    }
  }

  ghost predicate QueueInv(s: State) {
    Sizes(s) && OneEach(s) && FlagsOk(s)
  }

  lemma SubmitActive(s: State, i: nat)
    requires QueueInv(s) && i < |s.tracks| && s.tracks[i] != [] && !s.full && s.done[i] != 0
    ensures Active(RequesterStep(s, i)) == Active(s)
  {
    var n := RequesterStep(s, i);
    forall j: nat ensures QueuedBy(n.queue, j) <==> QueuedBy(s.queue, j) || j == i {
      QueuedAppend(s.queue, Entry(i, s.tracks[i][0]), j);
    }
    hide QueuedBy;
  }

  lemma SubmitKeeps(s: State, i: nat, idle: nat)
    requires Inv(s, idle) && i < |s.tracks| && s.tracks[i] != [] && !s.asleep[i]
    ensures Inv(RequesterStep(s, i), idle)
  {
    var n := RequesterStep(s, i);
    if !s.full && s.done[i] != 0 {
      SubmitActive(s, i);
      forall j: nat ensures QueuedBy(n.queue, j) <==> QueuedBy(s.queue, j) || j == i {
        QueuedAppend(s.queue, Entry(i, s.tracks[i][0]), j);
      }
      assert !QueuedBy(s.queue, i);
      assert forall k :: 0 <= k < |s.queue| ==> s.queue[k].who != i;
      hide QueuedBy, Active;
      SubmitCounts(s, i, idle);
    }
  }

  /** Before a requester submits, it is not among those queued, so the queue has room for one more. */
  lemma SubmitCounts(s: State, i: nat, idle: nat)
    requires Inv(s, idle) && i < |s.tracks| && s.tracks[i] != [] && !s.full && s.done[i] != 0
    requires Active(RequesterStep(s, i)) == Active(s)
    ensures CountsOk(RequesterStep(s, i), idle)
  {
    hide Active;
  }

  lemma ServeActive(s: State, k: nat)
    requires QueueInv(s) && k < |s.queue|
    ensures var e := s.queue[k];
      var queue := s.queue[..k] + s.queue[k + 1..];
      && e.who in Active(s)
      && Active(s.(queue := queue)) == if s.done[e.who] == -1 then Active(s) - {e.who} else Active(s)
  {
    var e := s.queue[k];
    var queue := s.queue[..k] + s.queue[k + 1..];
    assert QueuedBy(s.queue, e.who);
    forall j: nat ensures QueuedBy(queue, j) <==> QueuedBy(s.queue, j) && j != e.who {
      QueuedRemove(s.queue, k, j);
    }
    hide QueuedBy;
  }

  lemma ServeCounts(s: State, idle: nat)
    requires Inv(s, idle) && s.full && !s.serverDone
    ensures Safe(s, Server) && CountsOk(ServerStep(s), idle)
  {
    var k := Nearest(s.curTrack, s.queue);
    hide Nearest;
    var queue := s.queue[..k] + s.queue[k + 1..];
    ServeActive(s, k);
    assert Active(ServerStep(s)) == Active(s.(queue := queue));
    hide QueuedBy, Active, SleepersOk, TracksOk;
  }

  lemma ServeQueue(s: State)
    requires QueueInv(s) && s.full && Safe(s, Server)
    ensures QueueInv(ServerStep(s))
  {
    var k := Nearest(s.curTrack, s.queue);
    hide Nearest;
    var e := s.queue[k];
    var queue := s.queue[..k] + s.queue[k + 1..];
    forall j: nat ensures QueuedBy(queue, j) <==> QueuedBy(s.queue, j) && j != e.who {
      QueuedRemove(s.queue, k, j);
    }
    RemoveOneEach(s, k);
    assert OneEach(ServerStep(s));
    hide QueuedBy, OneEach, IsNearest;
  }

  lemma RemoveOneEach(s: State, k: nat)
    requires OneEach(s) && k < |s.queue|
    ensures OneEach(s.(queue := s.queue[..k] + s.queue[k + 1..]))
  {
    var queue := s.queue[..k] + s.queue[k + 1..];
    assert forall m :: 0 <= m < |queue| ==> queue[m] == s.queue[if m < k then m else m + 1];
  }

  lemma ServeRest(s: State)
    requires Sizes(s) && SleepersOk(s) && TracksOk(s) && OneEach(s) && s.full && !s.serverAsleep && Safe(s, Server)
    ensures Sizes(ServerStep(s)) && SleepersOk(ServerStep(s)) && TracksOk(ServerStep(s))
  {
    var k := Nearest(s.curTrack, s.queue);
    hide Nearest;
    var queue := s.queue[..k] + s.queue[k + 1..];
    assert forall m :: 0 <= m < |queue| ==> queue[m] == s.queue[if m < k then m else m + 1];
    hide OneEach;
  }

  lemma ServeKeeps(s: State, idle: nat)
    requires Inv(s, idle) && s.full && !s.serverDone
    ensures Safe(s, Server) && Inv(ServerStep(s), idle)
  {
    ServeCounts(s, idle);
    hide OneEach, FlagsOk, CountsOk, TracksOk;
    ServeQueue(s);
    ServeRest(s);
    hide SleepersOk, ServerStep;
  }

  /** Every step of every thread keeps the invariant. */
  lemma StepKeeps(s: State, w: Who, idle: nat)
    requires Inv(s, idle)
    ensures Inv(Step(s, w), idle)
    ensures CanRun(s, w) ==> Safe(s, w)
  {
    if CanRun(s, w) {
      match w
      case Server => if s.full { ServeKeeps(s, idle); }
      case Requester(i) => SubmitKeeps(s, i, idle);
    }
  }

  // ---------------------------------------------------------------- progress

  /** Thread `w` is awake and would not go to sleep: its wait condition is false. */
  predicate Works(s: State, w: Who) {
    CanRun(s, w) && match w case Server => s.full case Requester(i) => i < |s.done| && !s.full && s.done[i] != 0
  }

  /** While the server is not done, some thread is awake and need not wait, if no requester was idle from the start. */
  lemma Progress(s: State) returns (w: Who)
    requires Inv(s, 0) && !s.serverDone
    ensures Works(s, w)
  {
    if s.full {
      w := Server;
    } else {
      var i := Unqueued(s, |s.queue|);
      w := Requester(i);
    }
  }

  function Queued(queue: seq<Entry>, n: nat): set<nat>
    requires n <= |queue|
  {
    set k: nat | k < n :: queue[k].who
  }

  lemma {:induction false} QueuedCount(queue: seq<Entry>, n: nat)
    requires n <= |queue|
    ensures |Queued(queue, n)| <= n
  {
    if n == 0 {
      assert Queued(queue, 0) == {};
    } else {
      QueuedCount(queue, n - 1);
      assert Queued(queue, n) == Queued(queue, n - 1) + {queue[n - 1].who};
    }
  }

  /** More requesters are active than queued, so one of them has something to submit. */
  lemma Unqueued(s: State, n: nat) returns (i: nat)
    requires Inv(s, 0) && n == |s.queue| && !s.full
    ensures i < |s.tracks| && s.tracks[i] != [] && s.done[i] == 1
  {
    var queued := Queued(s.queue, n);
    QueuedCount(s.queue, n);
    if Active(s) <= queued {
      Subset(Active(s), queued);
      assert false;
    }
    i :| i in Active(s) && i !in queued;
    forall k: nat | k < |s.queue| ensures s.queue[k].who != i {
      assert s.queue[k].who in queued;
    }
  }

  lemma {:induction false} Subset(a: set<nat>, b: set<nat>)
    requires a <= b
    ensures |a| <= |b|
  {
    if a != {} {
      var x :| x in a;
      Subset(a - {x}, b - {x});
    }
  }

  // ---------------------------------------------------------------- every run comes to its end

  function Unsubmitted(tracks: seq<seq<nat>>): nat {
    if tracks == [] then 0 else Unsubmitted(tracks[..|tracks| - 1]) + |tracks[|tracks| - 1]|
  }

  function Awake(asleep: seq<bool>): (n: nat)
    ensures n <= |asleep|
  {
    if asleep == [] then 0 else Awake(asleep[..|asleep| - 1]) + if asleep[|asleep| - 1] then 0 else 1
  }

  /** Twice the requests not yet submitted, plus those in the queue. */
  function Pending(s: State): nat {
    2 * Unsubmitted(s.tracks) + |s.queue|
  }

  function Measure(s: State): nat {
    Pending(s) * (|s.asleep| + 2) + Awake(s.asleep) + if s.serverAsleep then 0 else 1
  }

  lemma {:induction false} SubmittedOne(tracks: seq<seq<nat>>, i: nat)
    requires i < |tracks| && tracks[i] != []
    ensures Unsubmitted(tracks[i := tracks[i][1..]]) == Unsubmitted(tracks) - 1
  {
    var last := |tracks| - 1;
    if i < last {
      assert tracks[i := tracks[i][1..]][..last] == tracks[..last][i := tracks[i][1..]];
      SubmittedOne(tracks[..last], i);
    } else {
      assert tracks[i := tracks[i][1..]][..last] == tracks[..last];
    }
  }

  lemma {:induction false} OneAsleep(asleep: seq<bool>, i: nat)
    requires i < |asleep| && !asleep[i]
    ensures Awake(asleep[i := true]) == Awake(asleep) - 1
  {
    var last := |asleep| - 1;
    if i < last {
      assert asleep[i := true][..last] == asleep[..last][i := true];
      OneAsleep(asleep[..last], i);
    } else {
      assert asleep[i := true][..last] == asleep[..last];
    }
  }

  lemma ServeShortens(s: State, idle: nat)
    requires Inv(s, idle) && Works(s, Server)
    ensures Safe(s, Server) && Pending(ServerStep(s)) == Pending(s) - 1
    ensures Measure(ServerStep(s)) < Measure(s) && |ServerStep(s).asleep| == |s.asleep|
  {
    StepKeeps(s, Server, idle);
    assert s.queue != [];
    hide Inv, Nearest, Unsubmitted, Awake;
    assert |ServerStep(s).queue| == |s.queue| - 1;
    Shorter(Pending(s), |s.asleep| + 2);
  }

  lemma SubmitShortens(s: State, i: nat, idle: nat)
    requires Inv(s, idle) && Works(s, Requester(i))
    ensures Pending(RequesterStep(s, i)) == Pending(s) - 1
    ensures Measure(RequesterStep(s, i)) < Measure(s) && |RequesterStep(s, i).asleep| == |s.asleep|
  {
    assert Sizes(s);
    hide Inv;
    SubmittedOne(s.tracks, i);
    hide Unsubmitted, Awake;
    Shorter(Pending(s), |s.asleep| + 2);
  }

  lemma SleepShortens(s: State, w: Who, idle: nat)
    requires Inv(s, idle) && CanRun(s, w) && !Works(s, w)
    ensures Pending(Step(s, w)) == Pending(s) && Measure(Step(s, w)) == Measure(s) - 1
    ensures |Step(s, w).asleep| == |s.asleep|
  {
    StepKeeps(s, w, idle);
    assert Sizes(s);
    hide Inv, Unsubmitted;
    if w.Requester? { OneAsleep(s.asleep, w.i); }
    hide Awake;
  }

  /** A submit or a serve brings the pending work down by one; going to sleep leaves it, with one thread fewer awake. */
  lemma StepShortens(s: State, w: Who, idle: nat)
    requires Inv(s, idle) && CanRun(s, w)
    ensures if Works(s, w) then Pending(Step(s, w)) == Pending(s) - 1
      else Pending(Step(s, w)) == Pending(s) && Measure(Step(s, w)) == Measure(s) - 1
    ensures Measure(Step(s, w)) < Measure(s) && |Step(s, w).asleep| == |s.asleep|
  {
    StepKeeps(s, w, idle);
    hide Inv, Pending, Measure, ServerStep, RequesterStep;
    if !Works(s, w) {
      SleepShortens(s, w, idle);
    } else {
      match w
      case Server => ServeShortens(s, idle);
      case Requester(i) => SubmitShortens(s, i, idle);
    }
  }

  lemma Shorter(p: nat, k: nat)
    requires p >= 1
    ensures (p - 1) * k == p * k - k
  {
  }

  function Exec(s: State, sched: seq<Who>): State
    decreases |sched|
  {
    if sched == [] then s else Exec(Step(s, sched[0]), sched[1..])
  }

  /** Whenever `sched` names a thread, that thread is awake and not done. */
  predicate Enabled(s: State, sched: seq<Who>)
    decreases |sched|
  {
    sched == [] || (CanRun(s, sched[0]) && Enabled(Step(s, sched[0]), sched[1..]))
  }

  lemma {:induction false} RunKeeps(s: State, sched: seq<Who>, idle: nat)
    requires Inv(s, idle)
    ensures Inv(Exec(s, sched), idle)
    decreases |sched|
  {
    hide Inv, Step;
    if sched != [] {
      StepKeeps(s, sched[0], idle);
      RunKeeps(Step(s, sched[0]), sched[1..], idle);
    }
  }

  /** No run is longer than the measure of the state it starts from. */
  lemma {:induction false} RunsEnd(s: State, sched: seq<Who>, idle: nat)
    requires Inv(s, idle) && Enabled(s, sched)
    ensures |sched| <= Measure(s)
    decreases |sched|
  {
    hide Inv, Step, Measure, CanRun;
    if sched != [] {
      StepKeeps(s, sched[0], idle);
      StepShortens(s, sched[0], idle);
      RunsEnd(Step(s, sched[0]), sched[1..], idle);
    }
  }

  /** Once the server is done, every requester is, and nothing is queued. */
  lemma DoneMeansAllDone(s: State, idle: nat)
    requires Inv(s, idle) && s.serverDone
    ensures s.queue == [] && forall i :: 0 <= i < |s.tracks| ==> s.tracks[i] == []
  {
    assert Active(s) == {};
    forall i | 0 <= i < |s.tracks| ensures s.tracks[i] == [] {
      assert i !in Active(s);
    }
  }

  // ---------------------------------------------------------------- what is served, and in which order

  function Served(log: seq<Event>, i: nat): seq<nat> {
    if log == [] then []
    else
      var e := log[|log| - 1];
      Served(log[..|log| - 1], i) + if e.Serviced? && e.entry.who == i then [e.entry.track] else []
  }

  function Asked(log: seq<Event>, i: nat): seq<nat> {
    if log == [] then []
    else
      var e := log[|log| - 1];
      Asked(log[..|log| - 1], i) + if e.Requested? && e.entry.who == i then [e.entry.track] else []
  }

  function InQueue(queue: seq<Entry>, i: nat): seq<nat> {
    if queue == [] then []
    else InQueue(queue[..|queue| - 1], i) + if queue[|queue| - 1].who == i then [queue[|queue| - 1].track] else []
  }

  /** What a requester was served, has in the queue and has still to ask for is its file, in order. */
  ghost predicate HistoryOk(s: State, files: seq<seq<nat>>) {
    |s.tracks| == |files| && forall i :: 0 <= i < |files| ==> Accounted(s, i, files[i])
  }

  ghost predicate Accounted(s: State, i: nat, file: seq<nat>)
    requires i < |s.tracks|
  {
    Served(s.log, i) + InQueue(s.queue, i) + s.tracks[i] == file && Asked(s.log, i) + s.tracks[i] == file
  }

  lemma {:induction false} InQueueNone(queue: seq<Entry>, i: nat)
    requires !QueuedBy(queue, i)
    ensures InQueue(queue, i) == []
  {
    if queue != [] {
      var last := |queue| - 1;
      assert queue[last].who != i;
      forall k | 0 <= k < last ensures queue[..last][k].who != i {
        assert queue[k].who != i;
      }
      InQueueNone(queue[..last], i);
    }
  }

  lemma {:induction false} InQueueRemove(queue: seq<Entry>, k: nat, i: nat)
    requires k < |queue| && forall m, n :: 0 <= m < n < |queue| ==> queue[m].who != queue[n].who
    ensures InQueue(queue[..k] + queue[k + 1..], i) == if queue[k].who == i then [] else InQueue(queue, i)
    ensures queue[k].who == i ==> InQueue(queue, i) == [queue[k].track]
  {
    var last := |queue| - 1;
    var rest := queue[..k] + queue[k + 1..];
    if k == last {
      assert rest == queue[..last];
      if queue[k].who == i {
        QueuedRemove(queue, k, i);
        InQueueNone(rest, i);
      }
    } else {
      InQueueRemove(queue[..last], k, i);
      assert rest[..|rest| - 1] == queue[..last][..k] + queue[..last][k + 1..];
      assert rest[|rest| - 1] == queue[last];
    }
  }

  lemma AppendLog(log: seq<Event>, e: Event, i: nat)
    ensures Served(log + [e], i) == Served(log, i) + if e.Serviced? && e.entry.who == i then [e.entry.track] else []
    ensures Asked(log + [e], i) == Asked(log, i) + if e.Requested? && e.entry.who == i then [e.entry.track] else []
  {
    assert (log + [e])[..|log|] == log;
  }

  lemma SubmitAccounts(s: State, i: nat, j: nat, file: seq<nat>)
    requires i < |s.tracks| == |s.done| == |s.asleep| && s.tracks[i] != [] && !s.full && s.done[i] != 0
    requires !QueuedBy(s.queue, i)
    requires j < |s.tracks| && Accounted(s, j, file)
    ensures Accounted(RequesterStep(s, i), j, file)
  {
    var e := Entry(i, s.tracks[i][0]);
    AppendLog(s.log, Requested(e), j);
    assert (s.queue + [e])[..|s.queue|] == s.queue;
    if j == i {
      InQueueNone(s.queue, i);
      assert s.tracks[i] == [s.tracks[i][0]] + s.tracks[i][1..];
    }
  }

  lemma SubmitHistory(s: State, i: nat, files: seq<seq<nat>>, idle: nat)
    requires Inv(s, idle) && HistoryOk(s, files) && i < |s.tracks| && s.tracks[i] != [] && !s.full && s.done[i] != 0
    ensures HistoryOk(RequesterStep(s, i), files)
  {
    assert !QueuedBy(s.queue, i);
    hide Inv, Accounted, QueuedBy;
    forall j | 0 <= j < |files| ensures Accounted(RequesterStep(s, i), j, files[j]) {
      SubmitAccounts(s, i, j, files[j]);
    }
  }

  lemma ServeAccounts(s: State, j: nat, file: seq<nat>)
    requires s.full && Safe(s, Server) && OneEach(s) && j < |s.tracks| && Accounted(s, j, file)
    ensures Accounted(ServerStep(s), j, file)
  {
    var k := Nearest(s.curTrack, s.queue);
    hide Nearest;
    var e := s.queue[k];
    AppendLog(s.log, Serviced(e), j);
    InQueueRemove(s.queue, k, j);
    hide Served, Asked, InQueue;
    assert Asked(s.log, j) + [] == Asked(s.log, j) && Served(s.log, j) + [] == Served(s.log, j);
    assert Served(s.log, j) + [e.track] + [] == Served(s.log, j) + [e.track];
    hide OneEach, Safe, IsNearest;
  }

  lemma ServeHistory(s: State, files: seq<seq<nat>>, idle: nat)
    requires Inv(s, idle) && HistoryOk(s, files) && s.full && !s.serverDone
    ensures Safe(s, Server) && HistoryOk(ServerStep(s), files)
  {
    assert !s.serverAsleep;
    StepKeeps(s, Server, idle);
    assert OneEach(s);
    hide Inv, Accounted, Nearest, OneEach;
    forall j | 0 <= j < |files| ensures Accounted(ServerStep(s), j, files[j]) {
      ServeAccounts(s, j, files[j]);
    }
  }

  lemma {:induction false} RunHistory(s: State, sched: seq<Who>, files: seq<seq<nat>>, idle: nat)
    requires Inv(s, idle) && HistoryOk(s, files)
    ensures HistoryOk(Exec(s, sched), files)
    decreases |sched|
  {
    hide HistoryOk;
    if sched != [] {
      var w := sched[0];
      StepKeeps(s, w, idle);
      if Works(s, w) {
        match w
        case Server => ServeHistory(s, files, idle);
        case Requester(i) => SubmitHistory(s, i, files, idle);
      } else {
        SleepHistory(s, w, files);
      }
      hide Inv, Step;
      RunHistory(Step(s, w), sched[1..], files, idle);
    }
  }

  lemma SleepHistory(s: State, w: Who, files: seq<seq<nat>>)
    requires HistoryOk(s, files) && !Works(s, w)
    ensures HistoryOk(Step(s, w), files)
  {
    var n := Step(s, w);
    forall i | 0 <= i < |files| ensures Accounted(n, i, files[i]) {
      assert Accounted(s, i, files[i]);
    }
  }

  /** The server serves only when the queue is as full as it can get, and then the first request nearest to its head. */
  lemma ServesNearestOfFull(s: State, idle: nat)
    requires Inv(s, idle) && CanRun(s, Server) && Step(s, Server).log != s.log
    ensures |s.queue| == Min(|Active(s)| + idle, s.maxQueue)
    ensures exists k: nat ::
      && IsNearest(s.curTrack, s.queue, k) && Step(s, Server).log == s.log + [Serviced(s.queue[k])]
      && Step(s, Server).queue == s.queue[..k] + s.queue[k + 1..] && Step(s, Server).curTrack == s.queue[k].track
  {
    StepKeeps(s, Server, idle);
    var k := Nearest(s.curTrack, s.queue);
    assert IsNearest(s.curTrack, s.queue, k);
    hide Nearest;
  }

  // ---------------------------------------------------------------- when the server comes to its end

  predicate WellPosed(files: seq<seq<nat>>, maxQueue: nat) {
    |files| >= 1 && maxQueue >= 1 && forall i :: 0 <= i < |files| ==> files[i] != []
  }

  predicate OnDisk(files: seq<seq<nat>>) {
    forall i, j :: 0 <= i < |files| && 0 <= j < |files[i]| ==> files[i][j] < TRACKS
  }

  lemma {:induction false} IdleNone(files: seq<seq<nat>>)
    ensures Idle(files) == 0 <==> forall i :: 0 <= i < |files| ==> files[i] != []
  {
    if files != [] {
      var last := |files| - 1;
      IdleNone(files[..last]);
      assert forall i :: 0 <= i < last ==> files[..last][i] == files[i];
    }
  }

  /** Any run that cannot go on has served every request exactly once, each requester's in the order of its file. */
  lemma StuckMeansServed(files: seq<seq<nat>>, maxQueue: nat, sched: seq<Who>)
    requires WellPosed(files, maxQueue) && OnDisk(files)
    requires forall w :: !CanRun(Exec(Start(files, maxQueue), sched), w)
    ensures var s := Exec(Start(files, maxQueue), sched);
      && s.serverDone && s.queue == []
      && |s.tracks| == |files| && (forall i :: 0 <= i < |files| ==> s.tracks[i] == [])
      && (forall i :: 0 <= i < |files| ==> Served(s.log, i) == files[i] && Asked(s.log, i) == files[i])
  {
    IdleNone(files);
    InitialInv(files, maxQueue);
    var s := Exec(Start(files, maxQueue), sched);
    RunKeeps(Start(files, maxQueue), sched, 0);
    assert HistoryOk(Start(files, maxQueue), files) by {
      assert forall i :: 0 <= i < |files| ==> [] + files[i] == files[i];
    }
    RunHistory(Start(files, maxQueue), sched, files, 0);
    if !s.serverDone { var w := Progress(s); assert false; }
    DoneMeansAllDone(s, 0);
    forall i | 0 <= i < |files| ensures Served(s.log, i) == files[i] && Asked(s.log, i) == files[i] {
      assert Accounted(s, i, files[i]);
    }
  }

  /** From any state of a well-posed run some schedule leads to the end. */
  lemma {:induction false} Completion(s: State) returns (sched: seq<Who>)
    requires Inv(s, 0)
    ensures Enabled(s, sched) && Exec(s, sched).serverDone
    decreases Measure(s)
  {
    if s.serverDone {
      sched := [];
    } else {
      var w := Progress(s);
      StepKeeps(s, w, 0);
      StepShortens(s, w, 0);
      hide Inv, Step, Measure, CanRun;
      var rest := Completion(Step(s, w));
      sched := [w] + rest;
      assert sched[1..] == rest;
    }
  }

  lemma {:induction false} NeverFull(s: State, sched: seq<Who>)
    requires !s.full && !s.serverDone && (s.maxQueue == 0 || s.tracks == [])
    ensures !Exec(s, sched).serverDone
    decreases |sched|
  {
    if sched != [] { NeverFull(Step(s, sched[0]), sched[1..]); }
  }

  /** The server can come to its end exactly if there are requesters, the queue has room, and no file is empty. */
  lemma EndsExactlyIf(files: seq<seq<nat>>, maxQueue: nat)
    requires OnDisk(files)
    ensures (exists sched :: Exec(Start(files, maxQueue), sched).serverDone) <==> WellPosed(files, maxQueue)
  {
    var s := Start(files, maxQueue);
    IdleNone(files);
    if WellPosed(files, maxQueue) {
      InitialInv(files, maxQueue);
      var sched := Completion(s);
    } else {
      forall sched ensures !Exec(s, sched).serverDone {
        if maxQueue == 0 || files == [] {
          NeverFull(s, sched);
        } else {
          InitialInv(files, maxQueue);
          RunKeeps(s, sched, Idle(files));
          hide Exec;
        }
      }
    }
  }
}
