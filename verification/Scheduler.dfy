/** The monitor of the disk scheduler as the source has it: shared variables updated in place inside the locked loops
    of the requesters and of the server. */
module Scheduler {
  import opened SchedulerModel
  import opened SchedulerProofs

  class Monitor {
    const maxDiskQueue: nat
    var curTrack: nat
    var requesterNum: nat
    var diskQueue: seq<Entry>
    var diskQueueFull: bool
    var requesterDone: seq<int>
    /** The requests that each requester has read from its file and not yet submitted. */
    var tracks: seq<seq<nat>>
    /** Who waits on the requesters' and on the server's condition variable. */
    var requesterAsleep: seq<bool>
    var serverAsleep: bool
    var serverDone: bool
    /** What was printed. */
    var log: seq<Event>
    /** The requesters that had nothing to ask for from the start. */
    ghost var idle: nat

    function S(): State
      reads this
    {
      State(maxDiskQueue, curTrack, requesterNum, diskQueue, diskQueueFull, requesterDone, tracks, requesterAsleep,
            serverAsleep, serverDone, log)
    }

    ghost predicate Valid()
      reads this
    {
      Inv(S(), idle)
    }

    constructor (files: seq<seq<nat>>, maxQueue: nat)
      requires |files| >= 1 && maxQueue >= 1 && OnDisk(files)
      ensures Valid() && S() == Start(files, maxQueue)
    {
      maxDiskQueue, curTrack, requesterNum, diskQueue, diskQueueFull := maxQueue, 0, |files|, [], false;
      requesterDone, tracks, requesterAsleep := seq(|files|, _ => 1), files, seq(|files|, _ => false);
      serverAsleep, serverDone, log, idle := false, false, [], Idle(files);
      InitialInv(files, maxQueue);
    }

    /** The position of the request that the server picks. */
    method FindTarget() returns (targetIndex: nat)
      requires diskQueue != [] && curTrack < TRACKS && forall k :: 0 <= k < |diskQueue| ==> diskQueue[k].track < TRACKS
      ensures targetIndex == Nearest(curTrack, diskQueue)
    {
      var diff := TRACKS;
      targetIndex := 0;
      for i := 0 to |diskQueue|
        invariant i == 0 ==> diff == TRACKS
        invariant i > 0 ==>
          && targetIndex == Nearest(curTrack, diskQueue[..i])
          && diff == Distance(curTrack, diskQueue[targetIndex].track)
      {
        assert i > 0 ==> diskQueue[..i + 1][..i] == diskQueue[..i];
        if Distance(curTrack, diskQueue[i].track) < diff {
          targetIndex := i;
          diff := Distance(curTrack, diskQueue[i].track);
        }
      }
      assert diskQueue[..|diskQueue|] == diskQueue;
    }

    method UpdateFull()
      modifies `diskQueueFull
      ensures diskQueueFull == (|diskQueue| == Min(requesterNum, maxDiskQueue))
    {
      diskQueueFull := |diskQueue| == Min(requesterNum, maxDiskQueue);
    }

    method Broadcast()
      modifies `requesterAsleep
      ensures requesterAsleep == seq(|old(requesterAsleep)|, _ => false)
    {
      for i := 0 to |requesterAsleep|
        invariant |requesterAsleep| == |old(requesterAsleep)| && forall j :: 0 <= j < i ==> !requesterAsleep[j]
      {
        requesterAsleep := requesterAsleep[i := false];
      }
    }

    /** Moves the head to the nearest request and takes that out of the queue. */
    method TakeNearest() returns (entry: Entry)
      requires diskQueue != [] && curTrack < TRACKS && forall k :: 0 <= k < |diskQueue| ==> diskQueue[k].track < TRACKS
      modifies `curTrack, `diskQueue, `log
      ensures var k := Nearest(old(curTrack), old(diskQueue));
        && entry == old(diskQueue)[k] && diskQueue == old(diskQueue)[..k] + old(diskQueue)[k + 1..]
      ensures curTrack == entry.track && log == old(log) + [Serviced(entry)]
    {
      var targetIndex := FindTarget();
      entry := diskQueue[targetIndex];
      curTrack := entry.track;
      diskQueue := diskQueue[..targetIndex] + diskQueue[targetIndex + 1..];
      log := log + [Serviced(entry)];
    }

    method Serve()
      requires diskQueueFull && Safe(S(), Server) && TracksOk(S()) && !serverDone
      modifies this
      ensures S() == ServerStep(old(S())) && idle == old(idle)
    {
      assert Nearest(curTrack, diskQueue) < |diskQueue|;
      hide Nearest, IsNearest, Distance;
      var entry := TakeNearest();
      hide TracksOk;
      if requesterDone[entry.who] == -1 {
        requesterNum := requesterNum - 1;
      }
      UpdateFull();
      requesterDone := requesterDone[entry.who := 1];
      Broadcast();
      if requesterNum == 0 {
        serverDone := true;
      }
    }

    method Submit(i: nat)
      requires Safe(S(), Requester(i)) && tracks[i] != [] && !diskQueueFull && requesterDone[i] != 0
      modifies this
      ensures S() == RequesterStep(old(S()), i) && idle == old(idle)
    {
      var track := tracks[i][0];
      requesterDone := requesterDone[i := 0];
      diskQueue := diskQueue + [Entry(i, track)];
      tracks := tracks[i := tracks[i][1..]];
      log := log + [Requested(Entry(i, track))];
      if |diskQueue| == Min(requesterNum, maxDiskQueue) {
        diskQueueFull := true;
      }
      if tracks[i] == [] {
        requesterDone := requesterDone[i := -1];
      }
      serverAsleep := false;
    }

    /** What the server does from taking the lock to waiting, or to giving it up. */
    method ServerSection()
      requires Valid() && CanRun(S(), Server)
      modifies this
      ensures Valid() && idle == old(idle) && S() == Step(old(S()), Server)
    {
      StepKeeps(S(), Server, idle);
      assert TracksOk(S());
      hide Inv;
      if !diskQueueFull {
        serverAsleep := true;
      } else {
        Serve();
      }
    }

    /** What requester `i` does from taking the lock to waiting, or to giving it up. */
    method RequesterSection(i: nat)
      requires Valid() && CanRun(S(), Requester(i))
      modifies this
      ensures Valid() && idle == old(idle) && S() == Step(old(S()), Requester(i))
    {
      StepKeeps(S(), Requester(i), idle);
      hide Inv;
      if diskQueueFull || requesterDone[i] == 0 {
        requesterAsleep := requesterAsleep[i := true];
      } else {
        Submit(i);
      }
    }
  }
}
