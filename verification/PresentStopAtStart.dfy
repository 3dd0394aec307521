/** A run in which a present waits for Present_Stop, which has come already and will not come again. */
module PresentStopAtStart {
  import opened Wrappers
  import opened PresentSpec
  import opened PresentInv
  import opened PresentSteps
  import opened PresentEvolution
  import opened PresentCalls
  import opened PresentDrags
  import opened PresentCourse
  import opened PresentEvents
  import opened PresentOutcomes
  import opened PresentWaits
  import opened PresentOvertaking
  import opened PresentConsumer

  lemma SecondStops(s: State, t: State)
    requires Both(s) && Stopped(s, t, 6, Dxgi, 20, Visible, DWM, true)
    ensures 6 in s.ix.byThread && s.ix.byThread[6] == 2 && 2 in s.presents && s.presents[2].start == 20 && s.cfg == t.cfg
    ensures 2 in t.presents && 6 !in t.ix.byThread && t.hasCompleted
    ensures t.presents[2] == s.presents[2].(runtime := Dxgi, timeInPresent := 0)
    ensures !t.presents[2].completed && !t.presents[2].lost && !t.presents[2].waitingForPresentStop
  {
    hide Completes;
  }

  lemma ThreadStaysFree(s: State, s': State)
    requires 6 !in s.ix.byThread && Completes(s, s', 2, DWM, true) && 2 in s.presents
    requires s.presents[2].dependents == [] && s.presents[2].finalState != Presented && !s.presents[2].completed && s.hasCompleted
    ensures 6 !in s'.ix.byThread
  {
    hide Callable, Achieved, Traced, Alone;
    OnlyThisLeaves(s, s');
  }

  lemma OnlyThisLeaves(s: State, s': State)
    requires Alone(s, s', 2, {}) && 6 !in s.ix.byThread
    ensures 6 !in s'.ix.byThread
  {
    hide Core, Finish, MarkCompleted;
    var taken: bool :| s' == Finish(MarkCompleted(s, 2), 2, {}, taken);
    MarkedIx(s);
    FinishThreads(MarkCompleted(s, 2), 2, {}, taken);
  }

  /** No thread is entered at the end of a completion. */
  lemma FinishThreads(s: State, id: Id, pend: set<Id>, taken: bool)
    requires Core(s, pend + {id}) && id !in pend
    ensures Finish(s, id, pend, taken).ix.byThread.Keys <= s.ix.byThread.Keys
  {
    hide Core, StopTracking, PresentSpec.MatchFrameIds, Settle, RingIndexOk;
    LeaveTracking(s, id, pend, taken);
    StopThreads(s, id);
    var s3 := FinishFirstHalf(s, id, pend, taken);
    MatchFrameIdsStart(if taken then StopTracking(s, id).(ring := Dequeue(StopTracking(s, id).ring)) else StopTracking(s, id), id);
    AddCompletedKeeps(s3, id, pend);
    if !Drops(s3.ring, s3.presents, id, s3.cfg) { SettleThreads(AddCompleted(s3, id), id, pend); }
  }

  lemma StopTrackingRingIndexOf(s: State, id: Id, pend: set<Id>)
    requires Core(s, pend) && id in s.presents
    ensures RingIndexOk(s, id)
  {
    StopTrackingRingIndex(s, id);
  }

  lemma StopThreads(s: State, id: Id)
    requires id in s.presents && RingIndexOk(s, id)
    ensures StopTracking(s, id).ix.byThread.Keys <= s.ix.byThread.Keys
  {
    hide EraseOrdered, EraseSubmit;
  }

  lemma SettleThreads(s: State, id: Id, pend: set<Id>)
    requires Core(s, pend) && id in s.presents
    ensures Settle(s, id, pend).ix.byThread.Keys <= s.ix.byThread.Keys
  {
    hide Core, StopTracking, UpdateReady;
    UpdateReadyKeeps(s, pend);
    var s1 := s.(ring := UpdateReady(s.ring, s.presents));
    if s1.ring.ready == 0 && s1.ring.queue != [] {
      var head := s1.ring.queue[0];
      ReadyIs(s1, pend);
      if TooOld(s1, head, s1.presents[id].start) {
        StopTrackingRingIndexOf(s1, head, pend);
        StopThreads(EndWait(s1, head), head);
      }
    }
  }

  lemma ReadyIs(s: State, pend: set<Id>)
    requires Core(s, pend) && s.ring.queue != []
    ensures s.ring.queue[0] in s.presents && s.presents[s.ring.queue[0]].completed && s.ring.ready <= |s.ring.queue|
    ensures forall q :: q in s.ring.queue ==> q in s.presents
  {
  }

  lemma MarkedIx(s: State)
    requires 2 in s.presents
    ensures MarkCompleted(s, 2).ix == s.ix
  {
  }

  /** Present 2 returns from Present at the instant at which it was called, and completes afterwards. */
  method StopAtStartRun() returns (c: PMTraceConsumer)
    ensures fresh(c) && c.Valid() && Steady(c.S(), DWM, true) && 2 in c.presents
    ensures c.log != [] && c.log[|c.log| - 1].id == 2 && c.log[|c.log| - 1].snapshot.waitingForPresentStop
    ensures 6 !in c.presentByThreadId
  {
    hide Core, ShapedInv, AllOrderly, Continues, SameOrigin, Both, Callable, Achieved, Traced, Singly, Stopped;
    c := StartTwo();
    ghost var s := c.S();
    BothStarted(s);
    c.RuntimePresentStop(Dxgi, 6, 20, Visible, DWM, true);
    SecondStops(s, c.S());
    ghost var t := c.S();
    SecondPlain(s);
    c.FinishPresent(2, DWM, true);
    WaitsExactly(t, c.S(), 2, DWM, true);
    ThreadStaysFree(t, c.S());
    StillThere(t, c.S());
  }

  lemma StillThere(s: State, s': State)
    requires Continues(s, s') && 2 in s.presents
    ensures 2 in s'.presents
  {
  }

  lemma SecondPlain(s: State)
    requires Both(s)
    ensures s.presents[2].dependents == [] && s.presents[2].finalState != Presented
  {
  }
}
