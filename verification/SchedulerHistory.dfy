/** What the disk scheduler prints, and everything it could print: a log is one of some run exactly if it is a schedule
    by the rule of serving the nearest request of a queue as full as it can get. */
module SchedulerHistory {
  import opened SchedulerModel
  import opened SchedulerProofs

  // ---------------------------------------------------------------- what a log says

  function Without(queue: seq<Entry>, e: Entry): seq<Entry> {
    if queue == [] then [] else if queue[0] == e then queue[1..] else [queue[0]] + Without(queue[1..], e)
  }

  /** The requests not served yet, in the order in which they were made. */
  function Outstanding(log: seq<Event>): seq<Entry> {
    if log == [] then []
    else
      var before := Outstanding(log[..|log| - 1]);
      match log[|log| - 1]
      case Requested(e) => before + [e]
      case Serviced(e) => Without(before, e)
  }

  /** Where the last service left the head. */
  function Head(log: seq<Event>): nat {
    if log == [] then 0
    else if log[|log| - 1].Serviced? then log[|log| - 1].entry.track else Head(log[..|log| - 1])
  }

  /** The requesters that have not been served their whole file. */
  function Unserved(log: seq<Event>, files: seq<seq<nat>>): set<nat> {
    set i: nat | i < |files| && |Served(log, i)| < |files[i]|
  }

  /** How many requests the queue can get to hold.  A requester with an empty file counts for ever. */
  function Room(log: seq<Event>, files: seq<seq<nat>>, maxQueue: nat): nat {
    Min(|Unserved(log, files)| + Idle(files), maxQueue)
  }

  /** The event may come next: a requester asks for the next track of its file, having been served the one before, while
      there is room; or the server serves the nearest request, the earliest of equals, when there is none. */
  ghost predicate MayFollow(files: seq<seq<nat>>, maxQueue: nat, log: seq<Event>, e: Event) {
    var queue := Outstanding(log);
    match e
    case Requested(x) =>
      && x.who < |files| && !QueuedBy(queue, x.who) && |queue| < Room(log, files, maxQueue)
      && |Asked(log, x.who)| < |files[x.who]| && files[x.who][|Asked(log, x.who)|] == x.track
    case Serviced(x) =>
      |queue| == Room(log, files, maxQueue) && exists k: nat :: IsNearest(Head(log), queue, k) && queue[k] == x
  }

  ghost predicate Schedule(files: seq<seq<nat>>, maxQueue: nat, log: seq<Event>) {
    log == [] || (
      && Schedule(files, maxQueue, log[..|log| - 1])
      && MayFollow(files, maxQueue, log[..|log| - 1], log[|log| - 1]))
  }

  // ---------------------------------------------------------------- what a state remembers of its log

  ghost predicate Remembers(s: State, files: seq<seq<nat>>, maxQueue: nat) {
    && s.maxQueue == maxQueue && HistoryOk(s, files)
    && s.queue == Outstanding(s.log) && s.curTrack == Head(s.log) && Schedule(files, maxQueue, s.log)
  }

  lemma {:induction false} WithoutAt(queue: seq<Entry>, k: nat)
    requires k < |queue| && forall l :: 0 <= l < k ==> queue[l] != queue[k]
    ensures Without(queue, queue[k]) == queue[..k] + queue[k + 1..]
  {
    if k > 0 {
      WithoutAt(queue[1..], k - 1);
      assert queue[..k] == [queue[0]] + queue[1..][..k - 1];
    }
  }

  lemma {:induction false} InQueueSome(queue: seq<Entry>, i: nat)
    ensures InQueue(queue, i) != [] <==> QueuedBy(queue, i)
  {
    if queue != [] {
      var last := |queue| - 1;
      InQueueSome(queue[..last], i);
      if QueuedBy(queue, i) && queue[last].who != i {
        var k :| 0 <= k < |queue| && queue[k].who == i;
        assert queue[..last][k].who == i;
      }
      if QueuedBy(queue[..last], i) {
        var k :| 0 <= k < last && queue[..last][k].who == i;
        assert queue[k].who == i;
      }
    }
  }

  /** The requesters at work are those that the log has not seen through. */
  lemma UnservedIs(s: State, files: seq<seq<nat>>)
    requires HistoryOk(s, files)
    ensures Unserved(s.log, files) == Active(s)
  {
    forall i: nat | i < |files| ensures |Served(s.log, i)| < |files[i]| <==> s.tracks[i] != [] || QueuedBy(s.queue, i) {
      assert Accounted(s, i, files[i]);
      InQueueSome(s.queue, i);
    }
    hide Served, InQueue, QueuedBy;
  }

  lemma OneMore(log: seq<Event>, e: Event, files: seq<seq<nat>>, maxQueue: nat)
    ensures Outstanding(log + [e]) == match e case Requested(x) => Outstanding(log) + [x]
                                              case Serviced(x) => Without(Outstanding(log), x)
    ensures Head(log + [e]) == if e.Serviced? then e.entry.track else Head(log)
    ensures Schedule(files, maxQueue, log + [e]) <==>
      Schedule(files, maxQueue, log) && MayFollow(files, maxQueue, log, e)
  {
    assert (log + [e])[..|log|] == log;
  }

  lemma SubmitRemembers(s: State, i: nat, files: seq<seq<nat>>, maxQueue: nat)
    requires Inv(s, Idle(files)) && Remembers(s, files, maxQueue) && Works(s, Requester(i))
    ensures Remembers(RequesterStep(s, i), files, maxQueue)
    ensures RequesterStep(s, i).log == s.log + [Requested(Entry(i, s.tracks[i][0]))]
  {
    SubmitHistory(s, i, files, Idle(files));
    var e := Requested(Entry(i, s.tracks[i][0]));
    OneMore(s.log, e, files, maxQueue);
    SubmitFollows(s, i, files, maxQueue);
    hide Inv, Schedule, MayFollow, HistoryOk, Outstanding, Head;
  }

  lemma SubmitFollows(s: State, i: nat, files: seq<seq<nat>>, maxQueue: nat)
    requires Inv(s, Idle(files)) && Remembers(s, files, maxQueue) && Works(s, Requester(i))
    ensures MayFollow(files, maxQueue, s.log, Requested(Entry(i, s.tracks[i][0])))
  {
    assert Accounted(s, i, files[i]);
    UnservedIs(s, files);
    hide Active, Schedule, Outstanding, Asked, Served, QueuedBy;
  }

  lemma ServeFollows(s: State, files: seq<seq<nat>>, maxQueue: nat)
    requires Inv(s, Idle(files)) && Remembers(s, files, maxQueue) && Works(s, Server)
    ensures Safe(s, Server) && s.queue != []
    ensures var k := Nearest(s.curTrack, s.queue);
      && MayFollow(files, maxQueue, s.log, Serviced(s.queue[k]))
      && Without(s.queue, s.queue[k]) == s.queue[..k] + s.queue[k + 1..]
  {
    StepKeeps(s, Server, Idle(files));
    var k := Nearest(s.curTrack, s.queue);
    assert OneEach(s) && CountsOk(s, Idle(files)) && IsNearest(s.curTrack, s.queue, k);
    UnservedIs(s, files);
    hide Inv, Nearest, IsNearest, Schedule, HistoryOk, Active, Served, Outstanding, Head;
    WithoutAt(s.queue, k);
    hide OneEach, Without;
  }

  lemma ServeRemembers(s: State, files: seq<seq<nat>>, maxQueue: nat)
    requires Inv(s, Idle(files)) && Remembers(s, files, maxQueue) && Works(s, Server)
    ensures Safe(s, Server) && Remembers(ServerStep(s), files, maxQueue)
  {
    ServeHistory(s, files, Idle(files));
    ServeFollows(s, files, maxQueue);
    OneMore(s.log, Serviced(s.queue[Nearest(s.curTrack, s.queue)]), files, maxQueue);
    hide Inv, Nearest, IsNearest, MayFollow, Schedule, HistoryOk, Outstanding, Head, Without;
  }

  /** Every step adds to the log what may follow there, or nothing. */
  lemma StepRemembers(s: State, w: Who, files: seq<seq<nat>>, maxQueue: nat)
    requires Inv(s, Idle(files)) && Remembers(s, files, maxQueue)
    ensures Remembers(Step(s, w), files, maxQueue)
  {
    StepKeeps(s, w, Idle(files));
    if Works(s, w) {
      match w
      case Server => ServeRemembers(s, files, maxQueue);
      case Requester(i) => SubmitRemembers(s, i, files, maxQueue);
    } else {
      SleepHistory(s, w, files);
      hide Inv, Schedule, HistoryOk, Outstanding, Head;
    }
  }

  lemma {:induction false} RunRemembers(s: State, sched: seq<Who>, files: seq<seq<nat>>, maxQueue: nat)
    requires Inv(s, Idle(files)) && Remembers(s, files, maxQueue)
    ensures Inv(Exec(s, sched), Idle(files)) && Remembers(Exec(s, sched), files, maxQueue)
    decreases |sched|
  {
    hide Inv, Step, Remembers;
    if sched != [] {
      StepKeeps(s, sched[0], Idle(files));
      StepRemembers(s, sched[0], files, maxQueue);
      RunRemembers(Step(s, sched[0]), sched[1..], files, maxQueue);
    }
  }

  lemma StartRemembers(files: seq<seq<nat>>, maxQueue: nat)
    requires |files| >= 1 && maxQueue >= 1 && OnDisk(files)
    ensures Inv(Start(files, maxQueue), Idle(files)) && Remembers(Start(files, maxQueue), files, maxQueue)
  {
    InitialInv(files, maxQueue);
    hide Inv, Idle;
    forall i | 0 <= i < |files| ensures Accounted(Start(files, maxQueue), i, files[i]) {
      assert [] + files[i] == files[i];
    }
    hide Accounted;
  }

  // ---------------------------------------------------------------- every schedule can happen

  lemma {:induction false} ExecMore(s: State, sched: seq<Who>, w: Who)
    ensures Exec(s, sched + [w]) == Step(Exec(s, sched), w)
    decreases |sched|
  {
    hide Step;
    if sched == [] {
      assert [] + [w] == [w] && [w][1..] == [];
    } else {
      assert (sched + [w])[1..] == sched[1..] + [w];
      ExecMore(Step(s, sched[0]), sched[1..], w);
    }
  }

  /** Nobody has gone to sleep yet. */
  predicate AllAwake(s: State) {
    !s.serverAsleep && forall i :: 0 <= i < |s.asleep| ==> !s.asleep[i]
  }

  lemma RequestFollows(s: State, files: seq<seq<nat>>, maxQueue: nat, x: Entry)
    requires Inv(s, Idle(files)) && Remembers(s, files, maxQueue) && AllAwake(s)
    requires MayFollow(files, maxQueue, s.log, Requested(x))
    ensures var w := Requester(x.who);
      Works(s, w) && Step(s, w).log == s.log + [Requested(x)] && AllAwake(Step(s, w))
  {
    UnservedIs(s, files);
    assert Accounted(s, x.who, files[x.who]);
    hide Active, Schedule, Outstanding, Asked, Served, QueuedBy, Head, InQueue;
  }

  lemma OneNearest(cur: nat, queue: seq<Entry>, k: nat, l: nat)
    requires IsNearest(cur, queue, k) && IsNearest(cur, queue, l)
    ensures k == l
  {
    assert Distance(cur, queue[k].track) <= Distance(cur, queue[l].track) <= Distance(cur, queue[k].track);
  }

  lemma ServiceFollows(s: State, files: seq<seq<nat>>, maxQueue: nat, x: Entry)
    requires Inv(s, Idle(files)) && Remembers(s, files, maxQueue) && AllAwake(s)
    requires MayFollow(files, maxQueue, s.log, Serviced(x))
    ensures Works(s, Server) && Step(s, Server).log == s.log + [Serviced(x)] && AllAwake(Step(s, Server))
  {
    UnservedIs(s, files);
    StepKeeps(s, Server, Idle(files));
    var k: nat :| IsNearest(Head(s.log), Outstanding(s.log), k) && Outstanding(s.log)[k] == x;
    OneNearest(s.curTrack, s.queue, k, Nearest(s.curTrack, s.queue));
    assert CountsOk(s, Idle(files));
    hide Inv, Active, Schedule, Outstanding, Served, Nearest, IsNearest, Head, HistoryOk;
  }

  /** Somebody can do what may follow. */
  lemma CanFollow(s: State, files: seq<seq<nat>>, maxQueue: nat, e: Event) returns (w: Who)
    requires Inv(s, Idle(files)) && Remembers(s, files, maxQueue) && AllAwake(s)
    requires MayFollow(files, maxQueue, s.log, e)
    ensures Works(s, w) && Step(s, w).log == s.log + [e] && AllAwake(Step(s, w))
  {
    hide Inv, Remembers, MayFollow, AllAwake, Works, Step;
    match e
    case Requested(x) =>
      w := Requester(x.who);
      RequestFollows(s, files, maxQueue, x);
    case Serviced(x) =>
      w := Server;
      ServiceFollows(s, files, maxQueue, x);
  }

  lemma HappensNext(files: seq<seq<nat>>, maxQueue: nat, sched: seq<Who>, e: Event) returns (w: Who)
    requires |files| >= 1 && maxQueue >= 1 && OnDisk(files) && AllAwake(Exec(Start(files, maxQueue), sched))
    requires MayFollow(files, maxQueue, Exec(Start(files, maxQueue), sched).log, e)
    ensures var (s, n) := (Exec(Start(files, maxQueue), sched), Exec(Start(files, maxQueue), sched + [w]));
      n.log == s.log + [e] && AllAwake(n)
  {
    hide *;
    StartRemembers(files, maxQueue);
    RunRemembers(Start(files, maxQueue), sched, files, maxQueue);
    w := CanFollow(Exec(Start(files, maxQueue), sched), files, maxQueue, e);
    ExecMore(Start(files, maxQueue), sched, w);
  }

  lemma {:induction false} Happens(files: seq<seq<nat>>, maxQueue: nat, log: seq<Event>) returns (sched: seq<Who>)
    requires |files| >= 1 && maxQueue >= 1 && OnDisk(files) && Schedule(files, maxQueue, log)
    ensures var s := Exec(Start(files, maxQueue), sched); s.log == log && AllAwake(s)
  {
    hide Exec, MayFollow, AllAwake, OnDisk;
    if log == [] {
      sched := [];
      StartAwake(files, maxQueue);
    } else {
      var last := |log| - 1;
      var before := Happens(files, maxQueue, log[..last]);
      var w := HappensNext(files, maxQueue, before, log[last]);
      sched := before + [w];
      assert log == log[..last] + [log[last]];
    }
  }

  lemma StartAwake(files: seq<seq<nat>>, maxQueue: nat)
    ensures var s := Exec(Start(files, maxQueue), []); s.log == [] && AllAwake(s)
  {
  }

  /** The logs of all runs, of whatever interleaving and stopped wherever, are exactly the schedules by the rule. */
  lemma LogsAreSchedules(files: seq<seq<nat>>, maxQueue: nat, log: seq<Event>)
    requires |files| >= 1 && maxQueue >= 1 && OnDisk(files)
    ensures (exists sched :: Exec(Start(files, maxQueue), sched).log == log) <==> Schedule(files, maxQueue, log)
  {
    StartRemembers(files, maxQueue);
    if Schedule(files, maxQueue, log) {
      var sched := Happens(files, maxQueue, log);
    }
    forall sched | Exec(Start(files, maxQueue), sched).log == log ensures Schedule(files, maxQueue, log) {
      RunRemembers(Start(files, maxQueue), sched, files, maxQueue);
    }
    hide Inv, Schedule, Start, HistoryOk;
  }

  // ---------------------------------------------------------------- who sleeps and who wakes

  /** A thread goes to sleep exactly if its wait condition holds, and changes nothing else then; a submit wakes the
      server and nobody else, a service all requesters. */
  lemma SleepsAndWakes(s: State, w: Who, idle: nat)
    requires Inv(s, idle) && CanRun(s, w)
    ensures var n := Step(s, w);
      && n.maxQueue == s.maxQueue && |n.asleep| == |s.asleep|
      && match w
         case Server =>
           if Works(s, w) then !n.serverAsleep && forall i :: 0 <= i < |n.asleep| ==> !n.asleep[i]
           else n == s.(serverAsleep := true)
         case Requester(i) =>
           if Works(s, w) then !n.serverAsleep && n.asleep == s.asleep
           else i < |s.asleep| && n == s.(asleep := s.asleep[i := true])
  {
    StepKeeps(s, w, idle);
    hide Inv, Nearest;
  }
}
