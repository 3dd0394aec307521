/** What a completed present waits for before the output thread may have it, and how these waits end. */
module PresentWaits {
  import opened Wrappers
  import opened PresentSpec
  import opened PresentInv
  import opened PresentSteps
  import opened PresentEvolution
  import opened PresentCalls
  import opened PresentStages
  import opened PresentLoss
  import opened PresentCourse
  import opened PresentEvents
  import opened PresentOutcomes
  import opened PresentProofs

  // ---------------------------------------------------------------------------------------------
  // When a wait begins

  /** The record with which the present was handed to the ring. */
  ghost function HandedOver(s: State): Present
    requires s.log != []
  {
    s.log[|s.log| - 1].snapshot
  }

  /**
   A present that completes waits for Present_Stop exactly if it did before, or if it is not lost and its runtime's
   Present_Stop was not seen; for flip frame types exactly if it did before, or if they are reported, it is displayed, not
   lost, and its layer does not show another present yet.  It goes on waiting for its frame id.
   */
  lemma WaitsExactly(s: State, s': State, id: Id, dwm: nat, shaped: bool)
    requires Completes(s, s', id, dwm, shaped) && id in s.presents && !s.presents[id].completed
    requires s.hasCompleted || s.presents[id].lost
    ensures s'.log != [] && s'.log[|s'.log| - 1].id == id && HandedOver(s').completed
    ensures var p := s.presents[id];
            && (HandedOver(s').waitingForPresentStop <==>
                  p.waitingForPresentStop || (!p.lost && p.runtime != OtherRuntime && p.timeInPresent == 0))
            && (HandedOver(s').waitingForFlipFrameType <==>
                  p.waitingForFlipFrameType || (!p.lost && !p.doneWaitingForFlipFrameType && s.flipEvents && p.finalState == Presented))
            && (HandedOver(s').waitingForFrameId <==> p.waitingForFrameId)
            && HandedOver(s').finalState == p.finalState && HandedOver(s').displayed == p.displayed
            && (p.lost ==> HandedOver(s').lost)
  {
    hide Completes, Outcome, MarkCompleted;
    OutcomeHandedOver(s, s', id, dwm, shaped);
    OutcomeWaits(s, id, HandedOver(s'));
  }

  lemma OutcomeHandedOver(s: State, s': State, id: Id, dwm: nat, shaped: bool)
    requires Completes(s, s', id, dwm, shaped) && id in s.presents && !s.presents[id].completed
    requires s.hasCompleted || s.presents[id].lost
    ensures s'.log != [] && s'.log[|s'.log| - 1].id == id
    ensures id in MarkCompleted(s, id).presents && Outcome(MarkCompleted(s, id).presents[id], HandedOver(s'))
  {
    hide Core, ShapedInv, Evolves, Traced, Singly, Forgotten, AllCompleted, NoneEarlier, LosesAll, ShapedEffect, StackOk, Outcome;
    assert CompletedWith(s, s', id);
  }

  lemma OutcomeWaits(s: State, id: Id, q: Present)
    requires id in s.presents && Outcome(MarkCompleted(s, id).presents[id], q)
    ensures var p := s.presents[id];
            && q.completed && (p.lost ==> q.lost) && q.finalState == p.finalState && q.displayed == p.displayed
            && (q.waitingForPresentStop <==>
                  p.waitingForPresentStop || (!p.lost && p.runtime != OtherRuntime && p.timeInPresent == 0))
            && (q.waitingForFlipFrameType <==>
                  p.waitingForFlipFrameType || (!p.lost && !p.doneWaitingForFlipFrameType && s.flipEvents && p.finalState == Presented))
            && (q.waitingForFrameId <==> p.waitingForFrameId)
  {
  }

  /** Hence a present whose Present_Stop was seen enters the ring ready, if nothing else is awaited. */
  lemma EntersReady(s: State, s': State, id: Id, dwm: nat, shaped: bool)
    requires Completes(s, s', id, dwm, shaped) && id in s.presents && !s.presents[id].completed
    requires s.hasCompleted || s.presents[id].lost
    ensures var p := s.presents[id];
            && s'.log != []
            && (!Waiting(HandedOver(s')) <==>
                  && !p.waitingForPresentStop && !p.waitingForFlipFrameType && !p.waitingForFrameId
                  && (p.lost || p.runtime == OtherRuntime || p.timeInPresent > 0)
                  && (p.lost || p.doneWaitingForFlipFrameType || !s.flipEvents || p.finalState != Presented))
  {
    hide Completes;
    WaitsExactly(s, s', id, dwm, shaped);
  }

  // ---------------------------------------------------------------------------------------------
  // Present_Stop

  /** A visible present of a tracked runtime is known by its thread no more, and its Present_Stop is noted. */
  lemma VisibleStop(s: State, s': State, tid: nat, runtime: Runtime, time: nat, dwm: nat, shaped: bool)
    requires Stopped(s, s', tid, runtime, time, Visible, dwm, shaped) && tid in s.ix.byThread && s.cfg.trackDisplay
    requires !s.presents[s.ix.byThread[tid]].waitingForPresentStop
    ensures var id := s.ix.byThread[tid];
            && tid !in s'.ix.byThread && s'.presents.Keys == s.presents.Keys
            && s'.presents[id] == s.presents[id].(runtime := runtime, timeInPresent := time - s.presents[id].start)
            && forall a :: a in s.presents && a != id ==> s'.presents[a] == s.presents[a]
  {
    hide Completes;
  }

  /**
   Present_Stop is meant to be awaited only if it is still to come.  A present in progress that saw it, and completes as it
   was then, waits for another one exactly if the one it saw has the time stamp of its start.
   */
  lemma StopSeenExactly(s: State, t: State, u: State, t': State, tid: nat, runtime: Runtime, time: nat, dwm: nat, shaped: bool)
    requires Stopped(s, t, tid, runtime, time, Visible, dwm, shaped) && tid in s.ix.byThread && s.cfg.trackDisplay
    requires runtime != OtherRuntime && !s.presents[s.ix.byThread[tid]].waitingForPresentStop
    requires var id := s.ix.byThread[tid];
             && id in t.presents && id in u.presents && !u.presents[id].completed && !u.presents[id].lost && u.hasCompleted
             && u.presents[id].runtime == t.presents[id].runtime && u.presents[id].timeInPresent == t.presents[id].timeInPresent
             && !u.presents[id].waitingForPresentStop && Completes(u, t', id, dwm, shaped)
    ensures t'.log != []
    ensures HandedOver(t').waitingForPresentStop <==> time == s.presents[s.ix.byThread[tid]].start
  {
    hide Completes, Stopped;
    Stopping(s, t, tid, runtime, time, dwm, shaped);
    WaitsExactly(u, t', s.ix.byThread[tid], dwm, shaped);
  }

  lemma Stopping(s: State, t: State, tid: nat, runtime: Runtime, time: nat, dwm: nat, shaped: bool)
    requires Stopped(s, t, tid, runtime, time, Visible, dwm, shaped) && tid in s.ix.byThread && s.cfg.trackDisplay
    requires !s.presents[s.ix.byThread[tid]].waitingForPresentStop
    ensures var id := s.ix.byThread[tid];
            && id in t.presents && s.presents[id].start <= time
            && t.presents[id].runtime == runtime && t.presents[id].timeInPresent == time - s.presents[id].start
  {
    hide Completes;
  }

  // ---------------------------------------------------------------------------------------------
  // How a wait ends

  /** A head that is let go waits no more, except for its frame id; it is lost exactly if it waited for Present_Stop. */
  lemma LetGoExactly(s: State, head: Id, cause: Id, pend: set<Id>)
    requires Core(s, pend) && head in s.presents && s.presents[head].completed
    ensures var s', p := LetGo(s, head, cause, pend), s.presents[head];
            && s'.presents.Keys == s.presents.Keys && (forall a :: a in s.presents && a != head ==> s'.presents[a] == s.presents[a])
            && (var q := s'.presents[head];
                && !q.waitingForPresentStop && !q.waitingForFlipFrameType && q.waitingForFrameId == p.waitingForFrameId
                && (q.lost <==> p.lost || p.waitingForPresentStop)
                && q.finalState == p.finalState && q.displayed == p.displayed)
            && s'.ring.queue == s.ring.queue && s'.released == s.released + [LetOff(head, cause)]
            && ReadyEnds(s', s.ring.ready)
  {
    hide Core, UpdateReady, StopTrackingIx, ClearKeys;
    RingKnown(s, pend);
    StopTrackingRingIndex(s, head);
    ClearDeferralKeeps(s, head, pend);
    UpdateReadyKeeps(ClearDeferral(s, head), pend);
    ReadyCounted(ClearDeferral(s, head));
  }

  /** From the given position the ready prefix goes on as far as nothing waits. */
  ghost predicate ReadyEnds(s: State, from: nat) {
    && from <= s.ring.ready <= |s.ring.queue| && (forall q :: q in s.ring.queue ==> q in s.presents)
    && (forall i :: from <= i < s.ring.ready ==> !Waiting(s.presents[s.ring.queue[i]]))
    && (s.ring.ready < |s.ring.queue| ==> Waiting(s.presents[s.ring.queue[s.ring.ready]]))
  }

  lemma ReadyCounted(s: State)
    requires RingOf(s)
    ensures ReadyEnds(s.(ring := UpdateReady(s.ring, s.presents)), s.ring.ready)
    ensures UpdateReady(s.ring, s.presents).queue == s.ring.queue
  {
  }

  /** Present_Stop of a completed present ends that wait only, and what is ready then is counted. */
  lemma ReleaseExactly(s: State, id: Id, t: nat)
    requires id in s.presents && RingOf(s)
    ensures var s' := Release(s, id, t);
            && s'.presents == s.presents[id := s.presents[id].(waitingForPresentStop := false)]
            && t !in s'.ix.byThread && (forall u :: u != t && u in s.ix.byThread ==> u in s'.ix.byThread && s'.ix.byThread[u] == s.ix.byThread[u])
            && s'.ring.queue == s.ring.queue && s'.log == s.log && ReadyEnds(s', s.ring.ready)
  {
    hide UpdateReady;
    ReadyCounted(ForgetThread(With(s, id, s.presents[id].(waitingForPresentStop := false)), t));
  }

  /** A completed present that is lost waits for Present_Stop no more, and its threads do not lead to it. */
  lemma AbandonExactly(s: State, id: Id)
    requires id in s.presents && RingOf(s)
    ensures var s', p := Abandon(s, id), s.presents[id];
            && s'.presents == s.presents[id := p.(lost := true, waitingForPresentStop := false)]
            && (if p.waitingForPresentStop then
                  && ReadyEnds(s', s.ring.ready)
                  && (p.tid in s'.ix.byThread ==> s'.ix.byThread[p.tid] != id)
                  && (p.keys.driverTid != 0 && p.keys.driverTid in s'.ix.byThread ==> s'.ix.byThread[p.keys.driverTid] != id)
                else s'.ring == s.ring && s'.ix == s.ix)
            && (forall u :: u in s.ix.byThread && s.ix.byThread[u] != id ==> u in s'.ix.byThread && s'.ix.byThread[u] == s.ix.byThread[u])
            && s'.ring.queue == s.ring.queue && s'.log == s.log
  {
    hide UpdateReady;
    var p := s.presents[id];
    if p.waitingForPresentStop {
      var t := With(s, id, p.(lost := true, waitingForPresentStop := false));
      ReadyCounted(t.(ix := t.ix.(byThread := EraseUnlessZero(EraseIf(t.ix.byThread, p.tid, id), p.keys.driverTid, id))));
    }
  }

  // ---------------------------------------------------------------------------------------------
  // Flip frame types

  /** The waits of some presents for flip frame types end; of the present itself keys may change, too. */
  ghost predicate FlipWaitsEnd(P: Presents, Q: Presents, id: Id, ended: seq<Id>) {
    P.Keys == Q.Keys && forall a :: a in P ==> FlipWaitEnds(P[a], Q[a], a == id, a in ended)
  }

  ghost predicate FlipWaitEnds(p: Present, q: Present, self: bool, ended: bool) {
    && q == p.(waitingForFlipFrameType := q.waitingForFlipFrameType, keys := q.keys)
    && (!self ==> q.keys == p.keys)
    && (q.waitingForFlipFrameType <==> p.waitingForFlipFrameType && !ended)
  }

  lemma FlipWaitsTransitive(P: Presents, Q: Presents, R: Presents, id: Id, deps: seq<Id>)
    requires deps != [] && FlipWaitsEnd(P, Q, id, deps[..1]) && FlipWaitsEnd(Q, R, id, deps[1..])
    ensures FlipWaitsEnd(P, R, id, deps)
  {
    assert deps == deps[..1] + deps[1..];
    forall a | a in P
      ensures FlipWaitEnds(P[a], R[a], a == id, a in deps)
    {
      assert FlipWaitEnds(P[a], Q[a], a == id, a in deps[..1]) && FlipWaitEnds(Q[a], R[a], a == id, a in deps[1..]);
    }
  }

  lemma OneFlipWait(s: State, id: Id, d: Id)
    requires id in s.presents && d in s.presents && RingIndexOk(StopWait(s, d), id)
    ensures FlipWaitsEnd(s.presents, StopTracking(StopWait(s, d), id).presents, id, [d])
    ensures StopTracking(StopWait(s, d), id).ring == s.ring
  {
    hide StopTrackingIx, ClearKeys;
  }

  lemma {:induction false} EndDependentsExactly(s: State, id: Id, deps: seq<Id>, dwm: nat, shaped: bool)
    requires Steady(s, dwm, shaped) && id in s.presents && s.presents[id].completed && forall d :: d in deps ==> d in s.presents
    ensures var s' := EndDependents(s, id, deps, dwm, shaped);
            FlipWaitsEnd(s.presents, s'.presents, id, deps) && s'.ring == s.ring
    decreases |deps|
  {
    hide Steady, Continues, FlipWaitsEnd, StopTracking;
    if deps == [] {
      NoFlipWait(s.presents, id);
    } else {
      EndOneSteady(s, id, deps, dwm, shaped);
      var s2 := StopTracking(StopWait(s, deps[0]), id);
      OneFlipWait(s, id, deps[0]);
      EndDependentsExactly(s2, id, deps[1..], dwm, shaped);
      assert deps[..1] == [deps[0]];
      FlipWaitsTransitive(s.presents, s2.presents, EndDependents(s, id, deps, dwm, shaped).presents, id, deps);
    }
  }

  lemma NoFlipWait(P: Presents, id: Id)
    ensures FlipWaitsEnd(P, P, id, [])
  {
  }

  /**
   Once the layer shows another present, neither this one nor its dependents wait for frame types, nothing else about
   any present changes, and what is ready then is counted.
   */
  lemma FlipFrameTypesExactly(s: State, s': State, id: Id, dwm: nat, shaped: bool)
    requires Steady(s, dwm, shaped) && id in s.presents && FlipFrameTypesEnded(s, s', id, dwm, shaped)
    ensures var done := s.presents[id := s.presents[id].(doneWaitingForFlipFrameType := true)];
            if s.presents[id].waitingForFlipFrameType
            then FlipWaitsEnd(done, s'.presents, id, [id] + s.presents[id].dependents) && ReadyEnds(s', s.ring.ready)
            else s' == s.(presents := done)
  {
    if s.presents[id].waitingForFlipFrameType {
      EndOwnWait(s, id, dwm, shaped);
      hide Steady, UpdateReady, FlipWaitsEnd, ReadyEnds, StopTracking, StopWait, NoteDone;
      var n := NoteDone(s, id);
      var t := StopTracking(StopWait(n, id), id);
      OwnFlipWait(s, id);
      EndDependentsExactly(t, id, s.presents[id].dependents, dwm, shaped);
      var v := EndDependents(t, id, s.presents[id].dependents, dwm, shaped);
      ReadyCounted(v);
      var all := [id] + s.presents[id].dependents;
      assert all[..1] == [id] && all[1..] == s.presents[id].dependents;
      FlipWaitsTransitive(n.presents, t.presents, v.presents, id, all);
    }
  }

  lemma OwnFlipWait(s: State, id: Id)
    requires id in s.presents && RingIndexOk(StopWait(NoteDone(s, id), id), id)
    ensures NoteDone(s, id).presents == s.presents[id := s.presents[id].(doneWaitingForFlipFrameType := true)]
    ensures NoteDone(s, id).ring == s.ring
    ensures var t := StopTracking(StopWait(NoteDone(s, id), id), id);
            FlipWaitsEnd(NoteDone(s, id).presents, t.presents, id, [id]) && t.ring == s.ring
  {
    OneFlipWait(NoteDone(s, id), id, id);
  }
}
