/**
 * Several queue-player loopers that play as one
 * (OpenCollab/Sources/VideoPlayback/CoordinatedLooperGroup.swift).
 *
 * The members are `QueuePlayerLooper` objects, all different; the group
 * makes itself their delegate by its id. What it tells its own delegate is
 * recorded as `GroupEvent`s, each naming the group as the looper.
 */
module CoordinatedLooperGroupModel {
  import opened Wrappers
  import opened Collections
  import opened Extensions
  import opened HotLooperModel
  import opened QueuePlayerLooperModel

  datatype GroupEvent =
    | ForwardedIsBuffering(delegate: LooperId, looper: LooperId)
    | ForwardedStoppedBuffering(delegate: LooperId, looper: LooperId)
    | ForwardedReadyToLoop(delegate: LooperId, looper: LooperId)

  /** `loopers.map { $0.isReadyToLoop }`. */
  function ReadyFlags(loopers: seq<QueuePlayerLooper>): (r: seq<bool>)
    reads loopers
    ensures |r| == |loopers|
    ensures forall i :: 0 <= i < |loopers| ==> r[i] == loopers[i].isReadyToLoop
  {
    if loopers == [] then [] else ReadyFlags(loopers[..|loopers| - 1]) + [loopers[|loopers| - 1].isReadyToLoop]
  }

  /** `groupReadyToLoop()`: no member is not ready; an empty group is ready. */
  function GroupReady(loopers: seq<QueuePlayerLooper>): (r: bool)
    reads loopers
    ensures r <==> forall i :: 0 <= i < |loopers| ==> loopers[i].isReadyToLoop
  {
    var flags := ReadyFlags(loopers);
    assert forall i :: 0 <= i < |loopers| ==> flags[i] == loopers[i].isReadyToLoop;
    !(false in flags)
  }

  class CoordinatedLooperGroup {
    const id: LooperId
    const loopers: seq<QueuePlayerLooper>
    var delegate: Option<LooperId>
    var events: seq<GroupEvent>

    /** `init(loopers:)`: the group becomes every member's delegate. */
    constructor (id: LooperId, loopers: seq<QueuePlayerLooper>)
      requires Distinct(loopers)
      modifies loopers
      ensures this.id == id && this.loopers == loopers
      ensures delegate == None && events == []
      ensures forall i :: 0 <= i < |loopers| ==> loopers[i].View() == old(loopers[i].View()).(delegate := Some(id))
    {
      this.id := id;
      this.loopers := loopers;
      delegate := None;
      events := [];
      new;
      var i := 0;
      while i < |loopers|
        invariant 0 <= i <= |loopers|
        invariant delegate == None && events == []
        invariant forall j :: 0 <= j < i ==> loopers[j].View() == old(loopers[j].View()).(delegate := Some(id))
        invariant forall j :: i <= j < |loopers| ==> loopers[j].View() == old(loopers[j].View())
      {
        loopers[i].SetDelegate(Some(id));
        i := i + 1;
      }
    }

    predicate Valid()
    {
      Distinct(loopers)
    }

    method SetDelegate(delegate: Option<LooperId>)
      modifies this
      ensures this.delegate == delegate && events == old(events)
    {
      this.delegate := delegate;
    }

    /** `preheat(syncClock:)`: every member preheats. */
    method Preheat()
      requires Valid()
      modifies loopers
      ensures forall i :: 0 <= i < |loopers| ==> loopers[i].View() == PreheatStep(old(loopers[i].View()))
    {
      var i := 0;
      while i < |loopers|
        invariant 0 <= i <= |loopers|
        invariant forall j :: 0 <= j < i ==> loopers[j].View() == PreheatStep(old(loopers[j].View()))
        invariant forall j :: i <= j < |loopers| ==> loopers[j].View() == old(loopers[j].View())
      {
        loopers[i].Preheat();
        i := i + 1;
      }
    }

    /** `play(itemTime:syncTime:syncClock:)`: every member plays with the same arguments. */
    method Play(itemTime: Time, syncTime: Time)
      requires Valid()
      modifies loopers
      ensures forall i :: 0 <= i < |loopers| ==>
                loopers[i].View() == PlayStep(loopers[i].Config(), old(loopers[i].View()), itemTime, syncTime)
    {
      var i := 0;
      while i < |loopers|
        invariant 0 <= i <= |loopers|
        invariant forall j :: 0 <= j < i ==>
                    loopers[j].View() == PlayStep(loopers[j].Config(), old(loopers[j].View()), itemTime, syncTime)
        invariant forall j :: i <= j < |loopers| ==> loopers[j].View() == old(loopers[j].View())
      {
        loopers[i].Play(itemTime, syncTime);
        i := i + 1;
      }
    }

    /** `loop(loopTime:loopDuration:syncClock:)`: every member loops with the same arguments. */
    method Loop(loopTime: Time, loopDuration: Time)
      requires Valid()
      modifies loopers
      ensures forall i :: 0 <= i < |loopers| ==>
                loopers[i].View() == LoopStep(old(loopers[i].View()), loopTime, loopDuration)
    {
      var i := 0;
      while i < |loopers|
        invariant 0 <= i <= |loopers|
        invariant forall j :: 0 <= j < i ==>
                    loopers[j].View() == LoopStep(old(loopers[j].View()), loopTime, loopDuration)
        invariant forall j :: i <= j < |loopers| ==> loopers[j].View() == old(loopers[j].View())
      {
        loopers[i].Loop(loopTime, loopDuration);
        i := i + 1;
      }
    }

    /** `clear()`: every member loses its delegate and is cleared. */
    method Clear()
      requires Valid()
      modifies loopers
      ensures forall i :: 0 <= i < |loopers| ==>
                loopers[i].View() == ClearStep(old(loopers[i].View()).(delegate := None))
      ensures forall i :: 0 <= i < |loopers| ==>
                loopers[i].delegate.None? && loopers[i].currentPlayer.None? && loopers[i].bufferPlayer.None?
    {
      var i := 0;
      while i < |loopers|
        invariant 0 <= i <= |loopers|
        invariant forall j :: 0 <= j < i ==>
                    loopers[j].View() == ClearStep(old(loopers[j].View()).(delegate := None))
        invariant forall j :: i <= j < |loopers| ==> loopers[j].View() == old(loopers[j].View())
      {
        loopers[i].SetDelegate(None);
        loopers[i].Clear();
        i := i + 1;
      }
    }

    /** `isBuffering(looper:)`: forwarded with the group as the looper. */
    method IsBuffering(looper: LooperId)
      modifies this
      ensures delegate == old(delegate)
      ensures events == old(events) + (if delegate.Some? then [ForwardedIsBuffering(delegate.value, id)] else [])
    {
      if delegate.Some? {
        events := events + [ForwardedIsBuffering(delegate.value, id)];
      }
    }

    /** `stoppedBuffering(looper:)`: forwarded with the group as the looper. */
    method StoppedBuffering(looper: LooperId)
      modifies this
      ensures delegate == old(delegate)
      ensures events == old(events) + (if delegate.Some? then [ForwardedStoppedBuffering(delegate.value, id)] else [])
    {
      if delegate.Some? {
        events := events + [ForwardedStoppedBuffering(delegate.value, id)];
      }
    }

    /** `readyToLoop(looper:)`: forwarded, with the group as the looper, only once every member is ready. */
    method ReadyToLoop(looper: LooperId)
      modifies this
      ensures delegate == old(delegate)
      ensures events == old(events) + (if GroupReady(loopers) && delegate.Some? then [ForwardedReadyToLoop(delegate.value, id)] else [])
    {
      if !GroupReady(loopers) {
        return;
      }
      if delegate.Some? {
        events := events + [ForwardedReadyToLoop(delegate.value, id)];
      }
    }
  }
}
