/** A run in which a discarded present reaches the output thread's ring before an earlier one of its swap chain. */
module PresentOvertaking {
  import opened Wrappers
  import opened PresentSpec
  import opened PresentInv
  import opened PresentSteps
  import opened PresentEvolution
  import opened PresentCalls
  import opened PresentStages
  import opened PresentLoss
  import opened PresentEvents
  import opened PresentOutcomes
  import opened PresentCourse
  import opened PresentProofs
  import opened PresentConsumer

  const DWM: nat := 0
  const APP: nat := 7
  const CHAIN: nat := 9

  /** The serial number is the id; every present has a thread of its own. */
  function Started(id: Id, tid: nat, time: nat): Present {
    NewPresent(id, time, APP, tid, CHAIN, Dxgi, None)
  }

  /** Nothing is in the way of a present that starts in a free slot on a free thread. */
  function Start(s: State, id: Id, tid: nat, time: nat): State
    requires s.nextFree < |s.ix.tracked|
  {
    SetThread(Track(s, id, Started(id, tid, time)), tid, id)
  }

  lemma StartsFreely(s: State, s1: State, s2: State, s': State, id: Id, tid: nat, time: nat)
    requires Tracks(s, s1, s2, s', id, Started(id, tid, time), DWM, true)
    requires s.nextFree < |s.ix.tracked| && s.ix.tracked[s.nextFree].None? && tid !in s.ix.byThread
    ensures s' == Start(s, id, tid, time)
  {
  }

  /** Once everything has completed, every slot is free. */
  lemma AllFree(s: State, dwm: nat)
    requires Steady(s, dwm, true) && forall a :: a in s.presents ==> s.presents[a].completed
    ensures forall i :: 0 <= i < |s.ix.tracked| ==> s.ix.tracked[i].None?
  {
    assert TrackedOk(s.presents, s.ix.tracked) && Retired(s.presents, {});
  }

  lemma ThreadFree(s: State, t: nat, dwm: nat)
    requires Steady(s, dwm, true)
    requires forall a :: a in s.presents ==> s.presents[a].tid != t && s.presents[a].keys.driverTid != t
    ensures t !in s.ix.byThread
  {
    assert ThreadsOk(s.presents, s.ix.byThread);
  }

  /** A present that waits for no frame id enters a ring with room, whose head has not waited too long. */
  lemma FinishInto(s: State, id: Id, pend: set<Id>, taken: bool)
    requires Core(s, pend + {id}) && id !in pend && id in s.presents && !s.presents[id].waitingForFrameId
    requires |s.ring.queue| < s.cfg.capacity && s.ring.ready <= |s.ring.queue|
    requires var q := (if taken then s.ring.queue[s.ring.ready..] else s.ring.queue) + [id];
             q[0] in s.presents && !TooOld(s, q[0], s.presents[id].start)
    ensures RingIndexOk(s, id)
    ensures var q := (if taken then s.ring.queue[s.ring.ready..] else s.ring.queue) + [id];
            var s' := Finish(s, id, pend, taken);
            && s'.ring.queue == q && s'.presents == s.presents[id := s.presents[id].(keys := ClearKeys(s.presents[id].keys))]
            && s'.ix == StopTrackingIx(s.ix, id, s.presents[id]) && s'.cfg == s.cfg && s'.hasCompleted == s.hasCompleted
            && (forall e :: e in q ==> e in s'.presents)
            && s'.ring.ready == ReadyFrom(q, s'.presents, if taken then 0 else s.ring.ready)
  {
    hide Core, StopTrackingIx, ClearKeys;
    RingKnown(s, pend + {id});
    StopTrackingRingIndex(s, id);
  }

  /** Only the first present is in the ring; it waits for nothing, and no token is known. */
  ghost predicate OneQueued(s: State) {
    && s.ring.queue == [0] && s.ring.ready <= 1 && 0 in s.presents && !Waiting(s.presents[0]) && s.presents[0].start == 1
    && s.ix.byDxgkToken == map[] && s.cfg.capacity == 3 && s.cfg.deferralLimit == 10 && s.cfg.trackDisplay && !s.flipEvents
  }

  /** Nothing is in progress, and the presents so far are older than `time`. */
  ghost predicate Idle(s: State, time: nat) {
    && s.hasCompleted && s.nextFree == 1 && |s.ix.tracked| == 3 && s.presents.Keys == {0} && s.presents[0].start < time
    && (forall i :: 0 <= i < 3 ==> s.ix.tracked[i].None?)
    && 5 !in s.ix.byThread && 6 !in s.ix.byThread && s.presents[0].completed && s.presents[0].keys.submitSequence == 0
  }

  lemma FirstStarts(cfg: Config, s: State)
    requires cfg.capacity == 3 && s == Start(Blank(cfg), 0, 4, 1)
    ensures s.presents == map[0 := Started(0, 4, 1).(keys := NO_KEYS.(ringIndex := Some(0)))]
    ensures s.nextFree == 1 && !s.hasCompleted && s.cfg == cfg
  {
  }

  /** The first completion throws present 0 away, which is all there is. */
  lemma FirstQueued(cfg: Config, s: State, s': State)
    requires cfg == Config(3, true, false, 10, true) && s == Start(Blank(cfg), 0, 4, 1)
    requires Completes(s, s', 0, DWM, true)
    ensures OneQueued(s')
  {
    hide Callable, Achieved, Traced, Alone, Finish, MarkCompleted, MarkLost, Start;
    FirstStarts(cfg, s);
    FirstBlank(cfg, s);
    assert InProgress(s.presents) == {0};
    assert Lonely(s.presents, 0);
    FirstAlone(s, s'.(hasCompleted := false));
  }

  lemma FirstBlank(cfg: Config, s: State)
    requires cfg.capacity == 3 && s == Start(Blank(cfg), 0, 4, 1)
    ensures s.ring == Ring([], 0, 0, []) && s.ix.byDxgkToken == map[] && !s.flipEvents
  {
  }

  lemma FirstAlone(s: State, u: State)
    requires s.presents == map[0 := Started(0, 4, 1).(keys := NO_KEYS.(ringIndex := Some(0)))]
    requires s.ring == Ring([], 0, 0, []) && s.ix.byDxgkToken == map[] && s.cfg == Config(3, true, false, 10, true) && !s.flipEvents
    requires Alone(MarkLost(s, 0), u, 0, {})
    ensures OneQueued(u)
  {
    hide Core, Finish, StopTrackingIx;
    var t := MarkCompleted(MarkLost(s, 0), 0);
    var taken: bool :| u == Finish(t, 0, {}, taken);
    FinishInto(t, 0, {}, taken);
    NoTokens(t.ix, 0, t.presents[0]);
    SameSwitches(t, 0, {}, taken);
  }

  lemma NoTokens(ix: Indexes, id: Id, p: Present)
    requires ix.byDxgkToken == map[] && (p.keys.ringIndex.Some? ==> p.keys.ringIndex.value < |ix.tracked|)
    ensures StopTrackingIx(ix, id, p).byDxgkToken == map[]
  {
  }

  lemma SameSwitches(s: State, id: Id, pend: set<Id>, taken: bool)
    requires Core(s, pend + {id}) && id !in pend
    ensures Finish(s, id, pend, taken).flipEvents == s.flipEvents && Finish(s, id, pend, taken).cfg == s.cfg
  {
    hide Core, Finish;
    FinishEvolves(s, id, pend, taken);
  }

  /** Present 0 is thrown away by the first completion. */
  lemma FirstGone(cfg: Config, s: State, s': State)
    requires cfg.capacity == 3 && s == Start(Blank(cfg), 0, 4, 1) && Completes(s, s', 0, DWM, true) && Steady(s', DWM, true)
    requires |s'.ix.tracked| == 3
    ensures Idle(s', 2)
  {
    hide Core, ShapedInv, AllOrderly, Start, Flushed, CompletedWith, ShapedEffect, Evolves, Grows, Callable, Achieved, Completes, Steady,
      Completions;
    FirstStarts(cfg, s);
    FirstCompletionDiscards(s, s', 0, DWM, true);
    AllFree(s', DWM);
    FirstKept(s, s', 0);
    ThreadFree(s', 5, DWM);
    ThreadFree(s', 6, DWM);
  }

  lemma FirstKept(s: State, s': State, id: Id)
    requires Completes(s, s', id, DWM, true) && id in s.presents
    ensures s'.nextFree == s.nextFree && s'.presents.Keys == s.presents.Keys
    ensures s'.presents[id].start == s.presents[id].start && s'.presents[id].tid == s.presents[id].tid
    ensures s'.presents[id].keys.driverTid == s.presents[id].keys.driverTid
    ensures s.presents[id].keys.submitSequence == 0 ==> s'.presents[id].keys.submitSequence == 0
  {
    hide Core, ShapedInv;
    assert Evolves(s, s', {}, {});
    assert Grows(s.presents[id], s'.presents[id]);
  }

  /** Presents 1 and 2 are in progress on the same chain, on threads 5 and 6. */
  ghost predicate Both(s: State) {
    && s.hasCompleted && s.presents.Keys == {0, 1, 2} && 6 in s.ix.byThread && s.ix.byThread[6] == 2
    && s.presents[0].completed && s.presents[0].keys.submitSequence == 0
    && OneQueued(s)
    && s.presents[1] == Started(1, 5, 2).(keys := NO_KEYS.(ringIndex := s.presents[1].keys.ringIndex))
    && s.presents[2] == Started(2, 6, 20).(keys := NO_KEYS.(ringIndex := s.presents[2].keys.ringIndex))
  }

  lemma BothStart(s: State)
    requires Idle(s, 2) && OneQueued(s)
    ensures var t := Start(s, 1, 5, 2);
            && t.nextFree == 2 && |t.ix.tracked| == 3 && t.ix.tracked[2].None? && 6 !in t.ix.byThread
            && 2 !in t.presents && Latest(t.presents, APP, 20) && Both(Start(t, 2, 6, 20))
    ensures 1 !in s.presents && Latest(s.presents, APP, 2)
    ensures s.nextFree < |s.ix.tracked| && s.ix.tracked[s.nextFree].None? && 5 !in s.ix.byThread
  {
  }

  /** Present 2 is discarded while present 1 is in progress. */
  lemma SecondOvertakes(s: State, s': State)
    requires Both(s) && Completes(Decide(NoteStop(s, 2, Dxgi, 1), 2, Discarded), s', 2, DWM, true)
    ensures 1 in s'.presents && s'.presents[1] == s.presents[1] && 2 in s'.presents && s'.presents[2].completed
    ensures SameChain(s'.presents[1], s'.presents[2]) && s'.presents[1].start < s'.presents[2].start
  {
    hide Core, ShapedInv, LosesAll, SameOutcomes, Outcome, Forgotten, NoneEarlier, Inherited, MarkCompleted;
    var t := Decide(NoteStop(s, 2, Dxgi, 1), 2, Discarded);
    assert t.presents[1] == s.presents[1] && t.hasCompleted && !t.presents[2].completed;
    assert Evolves(t, s', {}, {}) && CompletedWith(t, s', 2) && Footprint(t.presents, s'.presents, 2, DWM);
    assert Grows(t.presents[2], s'.presents[2]);
    assert !s'.presents[1].completed;
  }

  lemma BothStarted(s: State)
    requires Both(s)
    ensures 6 in s.ix.byThread && s.ix.byThread[6] == 2 && 2 in s.presents && s.presents[2].start == 20
    ensures 1 in s.presents && !s.presents[1].completed
  {
  }

  lemma StoppedSecond(s: State, s': State)
    requires Both(s) && Stopped(s, s', 6, Dxgi, 21, NotVisible, DWM, true)
    ensures Completes(Decide(NoteStop(s, 2, Dxgi, 1), 2, Discarded), s', 2, DWM, true)
  {
  }

  /** Completing present 1 changes neither the start nor the chain of any present. */
  lemma LastCompletes(s: State, s': State)
    requires 1 in s.presents && 2 in s.presents && Continues(s, s') && Completes(s, s', 1, DWM, true)
    ensures 1 in s'.presents && 2 in s'.presents && s'.presents[1].completed
    ensures s'.presents[1].start == s.presents[1].start && s'.presents[2].start == s.presents[2].start
    ensures SameChain(s.presents[1], s.presents[2]) ==> SameChain(s'.presents[1], s'.presents[2])
  {
    hide Core, ShapedInv, Evolves;
    assert SameOrigin(s.presents[1], s'.presents[1]) && SameOrigin(s.presents[2], s'.presents[2]);
  }

  /** Present 0 is the first to complete.  Then presents 1 and 2 start on one swap chain. */
  method StartTwo() returns (c: PMTraceConsumer)
    ensures fresh(c) && fresh(c.completed) && fresh(c.completed.slots)
    ensures c.Valid() && Steady(c.S(), DWM, true) && Both(c.S())
  {
    hide Core, ShapedInv, AllOrderly, Tracks, Continues, Callable, Achieved, Traced, Singly, Idle, OneQueued, Both, Start;
    var cfg := Config(3, true, false, 10, true);
    c := new PMTraceConsumer(cfg);
    ghost var s := c.S();
    ghost var u, v := c.RuntimePresentStart(0, 0, false, Dxgi, APP, 4, 1, CHAIN, None, DWM, true);
    StartsFreely(s, u, v, c.S(), 0, 4, 1);
    s := c.S();
    FirstStarts(cfg, s);
    c.FinishPresent(0, DWM, true);
    s := c.S();
    FirstGone(cfg, Start(Blank(cfg), 0, 4, 1), s);
    FirstQueued(cfg, Start(Blank(cfg), 0, 4, 1), s);
    BothStart(s);
    u, v := c.RuntimePresentStart(1, 1, false, Dxgi, APP, 5, 2, CHAIN, None, DWM, true);
    StartsFreely(s, u, v, c.S(), 1, 5, 2);
    s := c.S();
    u, v := c.RuntimePresentStart(2, 2, false, Dxgi, APP, 6, 20, CHAIN, None, DWM, true);
    StartsFreely(s, u, v, c.S(), 2, 6, 20);
  }

  /** Present 2 is found not to be visible, and present 1 completes after it. */
  method OvertakingRun() returns (c: PMTraceConsumer)
    ensures fresh(c) && c.Valid() && Steady(c.S(), DWM, true) && 1 in c.presents && 2 in c.presents
    ensures c.presents[1].start < c.presents[2].start && SameChain(c.presents[1], c.presents[2])
    ensures exists i, j :: 0 <= i < j < |c.log| && c.log[i].id == 2 && c.log[j].id == 1
  {
    hide Core, ShapedInv, AllOrderly, Continues, Callable, Achieved, Traced, Singly, Both, Decide, NoteStop, SameOrigin;
    c := StartTwo();
    ghost var s := c.S();
    BothStarted(s);
    c.RuntimePresentStop(Dxgi, 6, 21, NotVisible, DWM, true);
    StoppedSecond(s, c.S());
    SecondOvertakes(s, c.S());
    s := c.S();
    c.FinishPresent(1, DWM, true);
    LastCompletes(s, c.S());
    OvertakenLater(s, c.S(), 2, 1, DWM, true);
  }
}
