/** The disk scheduler of Project1: a server and any number of requesters around one monitor.  A thread's stretch from
    taking the monitor's lock to giving it up, or to waiting, is one step. */
module SchedulerModel {

  const TRACKS: nat := 1000

  datatype Entry = Entry(who: nat, track: nat)

  datatype Event = Requested(entry: Entry) | Serviced(entry: Entry)

  /** `tracks[i]` is what requester `i` has still to ask for; `done` is the source's three-valued flag. */
  datatype State = State(
    maxQueue: nat, curTrack: nat, requesterNum: nat, queue: seq<Entry>, full: bool, done: seq<int>,
    tracks: seq<seq<nat>>, asleep: seq<bool>, serverAsleep: bool, serverDone: bool, log: seq<Event>)

  function Min(a: nat, b: nat): nat {
    if a < b then a else b
  }

  /** How many tracks the head has to move, in either direction. */
  function Distance(a: nat, b: nat): (r: nat)
    ensures a + r == b || b + r == a
  {
    if a < b then b - a else a - b
  }

  ghost predicate IsNearest(cur: nat, queue: seq<Entry>, i: nat) {
    && i < |queue|
    && (forall j :: 0 <= j < |queue| ==> Distance(cur, queue[i].track) <= Distance(cur, queue[j].track))
    && (forall j :: 0 <= j < i ==> Distance(cur, queue[i].track) < Distance(cur, queue[j].track))
  }

  /** The first of the queued requests nearest to the head. */
  function Nearest(cur: nat, queue: seq<Entry>): (i: nat)
    requires queue != []
    ensures IsNearest(cur, queue, i)
  {
    if |queue| == 1 then 0
    else
      var last := |queue| - 1;
      var r := Nearest(cur, queue[..last]);
      assert forall j :: 0 <= j < last ==> queue[..last][j] == queue[j];
      if Distance(cur, queue[last].track) < Distance(cur, queue[r].track) then last else r
  }

  predicate IsFull(s: State, queue: seq<Entry>, num: nat) {
    |queue| == Min(num, s.maxQueue)
  }

  // ---------------------------------------------------------------- the two critical sections

  /** Requester `i` evaluates its wait condition and goes to sleep, or submits its next track and signals the server. */
  function RequesterStep(s: State, i: nat): State
    requires i < |s.tracks| == |s.done| == |s.asleep| && s.tracks[i] != []
  {
    if s.full || s.done[i] == 0 then s.(asleep := s.asleep[i := true])
    else
      var e := Entry(i, s.tracks[i][0]);
      var queue := s.queue + [e];
      s.(queue := queue, tracks := s.tracks[i := s.tracks[i][1..]],
         done := s.done[i := if |s.tracks[i]| == 1 then -1 else 0],
         full := s.full || IsFull(s, queue, s.requesterNum),
         serverAsleep := false, log := s.log + [Requested(e)])
  }

  /** The server evaluates its wait condition and goes to sleep, or serves the nearest request and wakes everybody. */
  function ServerStep(s: State): State
    requires s.full ==>
      s.requesterNum >= 1 && s.queue != [] && forall k :: 0 <= k < |s.queue| ==> s.queue[k].who < |s.done|
  {
    if !s.full then s.(serverAsleep := true)
    else
      var k := Nearest(s.curTrack, s.queue);
      var e := s.queue[k];
      var queue := s.queue[..k] + s.queue[k + 1..];
      var num := if s.done[e.who] == -1 then s.requesterNum - 1 else s.requesterNum;
      s.(curTrack := e.track, queue := queue, requesterNum := num, full := IsFull(s, queue, num),
         done := s.done[e.who := 1], asleep := seq(|s.asleep|, _ => false), serverDone := num == 0,
         log := s.log + [Serviced(e)])
  }

  datatype Who = Server | Requester(i: nat)

  predicate CanRun(s: State, w: Who) {
    match w
    case Server => !s.serverDone && !s.serverAsleep
    case Requester(i) => i < |s.tracks| && s.tracks[i] != [] && i < |s.asleep| && !s.asleep[i]
  }

  function Start(files: seq<seq<nat>>, maxQueue: nat): State {
    State(maxQueue, 0, |files|, [], false, seq(|files|, _ => 1), files, seq(|files|, _ => false), false, false, [])
  }

  // ---------------------------------------------------------------- the invariant

  predicate QueuedBy(queue: seq<Entry>, i: nat) {
    exists k :: 0 <= k < |queue| && queue[k].who == i
  }

  /** The requesters with work that is not served yet. */
  function Active(s: State): set<nat> {
    set i: nat | i < |s.tracks| && (s.tracks[i] != [] || QueuedBy(s.queue, i))
  }

  ghost predicate Sizes(s: State) {
    |s.tracks| == |s.done| == |s.asleep|
  }

  /** No requester has two requests in the queue. */
  ghost predicate OneEach(s: State) {
    && (forall k :: 0 <= k < |s.queue| ==> s.queue[k].who < |s.done|)
    && (forall k, l :: 0 <= k < l < |s.queue| ==> s.queue[k].who != s.queue[l].who)
  }

  /** The flag of a requester says whether its request is queued, and whether that is its last. */
  ghost predicate FlagsOk(s: State)
    requires Sizes(s)
  {
    forall i :: 0 <= i < |s.done| ==>
      s.done[i] == if QueuedBy(s.queue, i) then if s.tracks[i] == [] then -1 else 0 else 1
  }

  /** The flag for a full queue is right, and the number of requesters counts the active ones and `idle` others. */
  ghost predicate CountsOk(s: State, idle: nat) {
    && s.requesterNum == |Active(s)| + idle
    && |s.queue| <= Min(s.requesterNum, s.maxQueue)
    && (s.full <==> IsFull(s, s.queue, s.requesterNum))
    && (s.serverDone <==> s.requesterNum == 0)
  }

  /** No wake-up is lost: whoever sleeps has reason to. */
  ghost predicate SleepersOk(s: State)
    requires Sizes(s)
  {
    && (s.serverAsleep ==> !s.full)
    && (forall i :: 0 <= i < |s.asleep| && s.asleep[i] ==> s.tracks[i] != [] && (s.full || s.done[i] == 0))
  }

  ghost predicate TracksOk(s: State) {
    && s.curTrack < TRACKS
    && (forall k :: 0 <= k < |s.queue| ==> s.queue[k].track < TRACKS)
    && (forall i, j :: 0 <= i < |s.tracks| && 0 <= j < |s.tracks[i]| ==> s.tracks[i][j] < TRACKS)
  }

  /** What holds between any two steps, if `idle` requesters had nothing to ask for from the start. */
  ghost predicate Inv(s: State, idle: nat) {
    Sizes(s) && OneEach(s) && FlagsOk(s) && CountsOk(s, idle) && SleepersOk(s) && TracksOk(s) && s.maxQueue >= 1
  }

  predicate Safe(s: State, w: Who) {
    match w
    case Server =>
      s.full ==> s.requesterNum >= 1 && s.queue != [] && forall k :: 0 <= k < |s.queue| ==> s.queue[k].who < |s.done|
    case Requester(i) => i < |s.tracks| == |s.done| == |s.asleep|
  }

  /** A step of thread `w`, if it has one. */
  function Step(s: State, w: Who): State {
    if !(CanRun(s, w) && Safe(s, w)) then s
    else
      match w
      case Server => ServerStep(s)
      case Requester(i) => RequesterStep(s, i)
  }
}
