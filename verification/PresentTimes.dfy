/** Which screen times events give to presents, and which times a present takes over from a generated frame. */
module PresentTimes {
  import opened Wrappers
  import opened PresentSpec
  import opened PresentInv
  import opened PresentSteps
  import opened PresentEvolution
  import opened PresentOutcomes
  import opened PresentProofs

  // ---------------------------------------------------------------------------------------------
  // Screen times

  /** No screen time is final yet, or the event announces another frame. */
  predicate TimeIsDue(shown: seq<Shown>, frameType: FrameType) {
    shown == [] || shown[|shown| - 1].frameType == NotSet || shown[|shown| - 1].time == 0 || frameType != NotSet
  }

  /** The last one shown is a frame with type and time. */
  predicate Final(shown: seq<Shown>) {
    shown != [] && shown[|shown| - 1].frameType != NotSet && shown[|shown| - 1].time != 0
  }

  /** A screen time that is due is the last one afterwards, with its frame type unless one was announced. */
  lemma ShowInExactly(shown: seq<Shown>, time: nat, frameType: FrameType)
    ensures var after := ShowIn(shown, time, frameType);
            && (!TimeIsDue(shown, frameType) ==> after == shown)
            && (TimeIsDue(shown, frameType) ==>
                  && after != [] && after[|after| - 1].time == time
                  && after[|after| - 1].frameType
                     == (if shown != [] && shown[|shown| - 1].frameType != NotSet && shown[|shown| - 1].time == 0
                         then shown[|shown| - 1].frameType else frameType)
                  && (if shown == [] || Final(shown) then |after| == |shown| + 1 && shown <= after
                      else |after| == |shown| && after[..|after| - 1] == shown[..|shown| - 1]))
  {
  }

  /** An event displays the present if this is its first screen time or that of an announced frame; that is not undone. */
  lemma ShowAtExactly(p: Present, time: nat, frameType: FrameType)
    ensures var q := ShowAt(p, time, frameType);
            && (q.finalState == Presented <==>
                  p.finalState == Presented || p.displayed == []
                  || exists i :: i == |p.displayed| - 1 && 0 <= i && p.displayed[i].frameType != NotSet && p.displayed[i].time == 0)
            && (q.finalState == Presented || q.finalState == p.finalState)
            && q == p.(displayed := q.displayed, finalState := q.finalState)
  {
  }

  /** A flip is ready at its event's time, leaves composition, and is displayed then exactly if it is immediate. */
  lemma MMIOFlipExactly(p: Present, time: nat, immediate: bool)
    ensures var q := OnMMIOFlip(p, time, immediate);
            && q.gpu == p.gpu.(ready := time)
            && (q.mode == ComposedFlip <==> false) && (p.mode != ComposedFlip ==> q.mode == p.mode)
            && (p.mode == ComposedFlip ==> q.mode == HardwareIndependentFlip)
            && (!immediate ==> q.displayed == p.displayed && q.finalState == p.finalState)
            && (immediate && TimeIsDue(p.displayed, NotSet) ==>
                  q.displayed != [] && q.displayed[|q.displayed| - 1].time == time)
            && (immediate && p.displayed == [] ==> q.displayed == [Shown(NotSet, time)] && q.finalState == Presented)
            && (!TimeIsDue(p.displayed, NotSet) ==> q.displayed == p.displayed)
            && q == p.(gpu := q.gpu, mode := q.mode, displayed := q.displayed, finalState := q.finalState)
  {
    ShowInExactly(p.displayed, time, NotSet);
  }

  lemma ShownNow(p: Present, time: nat)
    ensures var q := ShowAt(p, time, NotSet);
            && q == p.(displayed := q.displayed, finalState := q.finalState)
            && (TimeIsDue(p.displayed, NotSet) ==> q.displayed != [] && q.displayed[|q.displayed| - 1].time == time)
            && (!TimeIsDue(p.displayed, NotSet) ==> q.displayed == p.displayed)
            && (p.displayed == [] ==> q.displayed == [Shown(NotSet, time)] && q.finalState == Presented)
  {
    ShowInExactly(p.displayed, time, NotSet);
  }

  /** The packet displays a copy to the front buffer and a flip that expects no flip event; the first ready time stays. */
  lemma QueueCompleteExactly(p: Present, time: nat)
    ensures var q := OnQueueComplete(p, time);
            && (p.mode !in {HardwareLegacyCopyToFrontBuffer, HardwareLegacyFlip} ==> q == p && !CompletesWithPacket(p))
            && (p.mode == HardwareLegacyFlip && p.evidence.waitForFlipEvent ==> q == p && !CompletesWithPacket(p))
            && (p.mode == HardwareLegacyCopyToFrontBuffer || (p.mode == HardwareLegacyFlip && !p.evidence.waitForFlipEvent) ==>
                  && q.gpu == p.gpu.(ready := if p.gpu.ready == 0 then time else p.gpu.ready)
                  && (TimeIsDue(p.displayed, NotSet) ==> q.displayed != [] && q.displayed[|q.displayed| - 1].time == time)
                  && (!TimeIsDue(p.displayed, NotSet) ==> q.displayed == p.displayed)
                  && (p.displayed == [] ==> q.finalState == Presented)
                  && (CompletesWithPacket(p) <==> p.mode == HardwareLegacyFlip || p.evidence.seenDxgkPresent))
            && q == p.(gpu := q.gpu, displayed := q.displayed, finalState := q.finalState)
  {
    hide ShowAt, TimeIsDue;
    ShownNow(if p.gpu.ready == 0 then p.(gpu := p.gpu.(ready := time)) else p, time);
  }

  // ---------------------------------------------------------------------------------------------
  // Generated frames

  /** The entry is a generated frame of the present's application frame. */
  predicate Generates(e: Present, p: Present) {
    e.frameId == p.frameId && exists i :: 0 <= i < |e.displayed| && e.displayed[i].frameType == IntelXefg
  }

  /** The times with which a generated frame stands in for the application frame behind it, before and after. */
  ghost predicate TakesOver(e: Present, p: Present, p': Present, e': Present) {
    if !Generates(e, p) then p'.appPropagated == p.appPropagated && e'.appPropagated == e.appPropagated
    else if e.appPropagated.presentStart != 0 then
      p'.appPropagated == e.appPropagated && e'.appPropagated == FrameTimes(0, 0, 0, 0, 0, 0)
    else
      && e'.appPropagated == e.appPropagated
      && p'.appPropagated.presentStart == e.start && p'.appPropagated.timeInPresent == e.timeInPresent
      && p'.appPropagated.gpuStart == e.gpu.gpuStart && p'.appPropagated.ready == e.gpu.ready
      && p'.appPropagated.gpuDuration == e.gpu.gpuDuration && p'.appPropagated.gpuVideoDuration == e.gpu.gpuVideoDuration
  }

  /** The entry at that position is the one of the present's process that waits for its frame id. */
  ghost predicate MatchAt(s: State, id: Id, i: nat) {
    && id in s.presents && s.ring.ready <= i < |s.ring.queue| && s.ring.queue[i] in s.presents
    && s.presents[s.ring.queue[i]].waitingForFrameId && s.presents[s.ring.queue[i]].pid == s.presents[id].pid
  }

  /** Only the present and the entry change, in the propagated times and the end of the entry's wait. */
  ghost predicate TimesMatched(P: Presents, Q: Presents, e: Id, id: Id) {
    && e in P && id in P && Q.Keys == P.Keys && e != id
    && TakesOver(P[e], P[id], Q[id], Q[e])
    && Q == P[id := P[id].(appPropagated := Q[id].appPropagated)]
             [e := P[e].(appPropagated := Q[e].appPropagated, waitingForFrameId := false)]
  }

  lemma MatchOne(P: Presents, e: Id, id: Id)
    requires e in P && id in P && e != id && P[e].waitingForFrameId && P[e].pid == P[id].pid
    ensures TimesMatched(P, MatchFrame(P, e, id), e, id)
  {
    hide TakesOver;
    PairMatched(P[e], P[id]);
  }

  lemma PairMatched(e: Present, p: Present)
    ensures TakesOver(e, p, TakeTimes(p, e), HandOn(e, p))
    ensures TakeTimes(p, e) == p.(appPropagated := TakeTimes(p, e).appPropagated)
    ensures HandOn(e, p) == e.(appPropagated := HandOn(e, p).appPropagated, waitingForFrameId := false)
  {
    hide TakesOver, TakeTimes, HandOn;
    TimesTaken(e, p);
    OnlyTaken(e, p);
    OnlyHandedOn(e, p);
  }

  lemma TimesTaken(e: Present, p: Present)
    ensures TakesOver(e, p, TakeTimes(p, e), HandOn(e, p))
  {
    assert Generates(e, p) <==> e.frameId == p.frameId && Generated(e);
    hide Generates, Generated;
  }

  lemma OnlyTaken(e: Present, p: Present)
    ensures TakeTimes(p, e) == p.(appPropagated := TakeTimes(p, e).appPropagated)
  {
    hide Generated, OwnTimes;
  }

  lemma OnlyHandedOn(e: Present, p: Present)
    ensures HandOn(e, p) == e.(appPropagated := HandOn(e, p).appPropagated, waitingForFrameId := false)
  {
    hide Generated;
  }

  /** The entries that are not ready, and their places in the ring. */
  lemma Behind(s: State, id: Id)
    requires Insertable(s, id)
    ensures var entries := s.ring.queue[s.ring.ready..];
            && (forall e :: e in entries ==> e in s.presents) && id !in entries
            && (OneWaiting(s.presents, s.ring.queue) ==> OneWaiting(s.presents, entries))
            && (forall i: nat :: MatchAt(s, id, i) ==>
                  0 <= i - s.ring.ready < |entries| && Matches(s.presents[entries[i - s.ring.ready]], s.presents[id])
                  && entries[i - s.ring.ready] == s.ring.queue[i])
            && (forall k :: 0 <= k < |entries| && Matches(s.presents[entries[k]], s.presents[id]) ==> MatchAt(s, id, s.ring.ready + k))
  {
    var entries := s.ring.queue[s.ring.ready..];
    assert forall k :: 0 <= k < |entries| ==> entries[k] == s.ring.queue[s.ring.ready + k];
    assert forall e :: e in entries ==> e in s.ring.queue;
  }

  /**
   A present that waits for its frame id ends the wait of the entry of its process, if there is one that is not ready; if
   that is a generated frame of the same application frame, it takes over the times, and they are handed on only once.
   */
  lemma FrameTimesExactly(s: State, id: Id)
    requires Insertable(s, id) && OneWaiting(s.presents, s.ring.queue)
    ensures var s' := PresentSpec.MatchFrameIds(s, id);
            && (s' == s || (s.presents[id].waitingForFrameId && exists i: nat :: MatchAt(s, id, i)))
            && (s.presents[id].waitingForFrameId ==>
                  forall i: nat :: MatchAt(s, id, i) ==>
                    && s' == s.(presents := s'.presents)
                    && TimesMatched(s.presents, s'.presents, s.ring.queue[i], id))
  {
    hide MatchFrames, MatchFrame, Matches, TimesMatched, OneWaiting;
    Behind(s, id);
    if s.presents[id].waitingForFrameId {
      var entries := s.ring.queue[s.ring.ready..];
      OneSource(s.presents, entries, id);
      forall i: nat | MatchAt(s, id, i)
        ensures TimesMatched(s.presents, MatchFrames(s.presents, entries, id), s.ring.queue[i], id)
      {
        MatchOne(s.presents, s.ring.queue[i], id);
      }
    }
  }

  /** It does so after it stopped being tracked, and what is handed to the output thread carries these times. */
  lemma HandedOverTimes(s: State, id: Id, pend: set<Id>, taken: bool)
    requires Core(s, pend + {id}) && id !in pend
    ensures RingIndexOk(s, id) && s.ring.ready <= |s.ring.queue|
    ensures var s1 := StopTracking(s, id);
            var s2 := if taken then s1.(ring := Dequeue(s1.ring)) else s1;
            var s' := Finish(s, id, pend, taken);
            && Insertable(s2, id) && OneWaiting(s2.presents, s2.ring.queue)
            && |s'.log| == |s.log| + 1 && s'.log[|s.log|].id == id
            && s'.log[|s.log|].snapshot == PresentSpec.MatchFrameIds(s2, id).presents[id]
  {
    hide Core, PresentSpec.MatchFrameIds, StopTracking, Evolves, SameOutcome, RingIndexOk, Unmatched, InOrdered;
    LeaveTracking(s, id, pend, taken);
    var s3 := FinishFirstHalf(s, id, pend, taken);
    AddCompletedKeeps(s3, id, pend);
    var s1 := StopTracking(s, id);
    OneWaitingOf(if taken then s1.(ring := Dequeue(s1.ring)) else s1, pend + {id});
    if !Drops(s3.ring, s3.presents, id, s3.cfg) {
      SettleEvolves(AddCompleted(s3, id), id, pend);
    }
  }

  lemma OneWaitingOf(s: State, pend: set<Id>)
    requires Core(s, pend)
    ensures OneWaiting(s.presents, s.ring.queue)
  {
  }
}
