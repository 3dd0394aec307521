/** The events that decide about a present or end its waits, and that they keep the invariants. */
module PresentOutcomes {
  import opened Wrappers
  import opened PresentSpec
  import opened PresentInv
  import opened PresentSteps
  import opened PresentEvolution
  import opened PresentCalls
  import opened PresentLoss
  import opened PresentCourse
  import opened PresentEvents
  import opened PresentKeys

  // ---------------------------------------------------------------------------------------------
  // Screen times

  predicate HasScreenTime(p: Present) {
    exists i :: 0 <= i < |p.displayed| && p.displayed[i].time != 0
  }

  /** A provisional screen time has no frame type or no time yet; it is overwritten, anything else is kept. */
  function ShowIn(shown: seq<Shown>, time: nat, frameType: FrameType): seq<Shown> {
    var n := |shown|;
    if n == 0 then [Shown(frameType, time)]
    else if shown[n - 1].frameType == NotSet then shown[n - 1 := Shown(frameType, time)]
    else if shown[n - 1].time == 0 then shown[n - 1 := shown[n - 1].(time := time)]
    else if frameType != NotSet then shown + [Shown(frameType, time)]
    else shown
  }

  /** The first screen time, and one for a frame type that was announced, make the present a displayed one. */
  predicate Displays(shown: seq<Shown>) {
    shown == [] || (shown[|shown| - 1].frameType != NotSet && shown[|shown| - 1].time == 0)
  }

  function ShowAt(p: Present, time: nat, frameType: FrameType): Present {
    p.(displayed := ShowIn(p.displayed, time, frameType), finalState := if Displays(p.displayed) then Presented else p.finalState)
  }

  /** A screen time is never lost: afterwards there is one, and earlier frames keep their types and times. */
  lemma ShowInShows(shown: seq<Shown>, time: nat, frameType: FrameType)
    requires time != 0
    ensures var after := ShowIn(shown, time, frameType);
            && (exists i :: 0 <= i < |after| && after[i].time != 0) && |shown| <= |after| <= |shown| + 1
            && (forall i :: 0 <= i < |shown| - 1 ==> after[i] == shown[i])
            && (shown != [] && shown[|shown| - 1].frameType != NotSet ==>
                  after[|shown| - 1].frameType == shown[|shown| - 1].frameType)
  {
    var after := ShowIn(shown, time, frameType);
    assert after[|after| - 1].time != 0;
  }

  // ---------------------------------------------------------------------------------------------
  // Present_Stop

  datatype StopResult = Failed | NotVisible | Visible

  function NoteStop(s: State, id: Id, runtime: Runtime, elapsed: nat): State
    requires id in s.presents
  {
    With(s, id, s.presents[id].(runtime := runtime, timeInPresent := elapsed))
  }

  function Decide(s: State, id: Id, outcome: PresentResult): State
    requires id in s.presents
  {
    With(s, id, s.presents[id].(finalState := outcome))
  }

  function ForgetThread(s: State, t: nat): State {
    s.(ix := s.ix.(byThread := s.ix.byThread - {t}))
  }

  predicate RingOf(s: State) {
    s.ring.ready <= |s.ring.queue| && forall q :: q in s.ring.queue ==> q in s.presents
  }

  /** The wait of a completed present for its Present_Stop is over. */
  function Release(s: State, id: Id, t: nat): State
    requires id in s.presents && RingOf(s)
  {
    var s1 := ForgetThread(With(s, id, s.presents[id].(waitingForPresentStop := false)), t);
    s1.(ring := UpdateReady(s1.ring, s1.presents))
  }

  lemma NoteStopSteady(s: State, id: Id, runtime: Runtime, elapsed: nat, dwm: nat, shaped: bool)
    requires Steady(s, dwm, shaped) && id in s.presents
    ensures Steady(NoteStop(s, id, runtime, elapsed), dwm, shaped) && Continues(s, NoteStop(s, id, runtime, elapsed))
  {
    ObserveSteady(s, id, s.presents[id].(runtime := runtime, timeInPresent := elapsed), dwm, shaped);
  }

  lemma DecideSteady(s: State, id: Id, outcome: PresentResult, dwm: nat, shaped: bool)
    requires Steady(s, dwm, shaped) && id in s.presents
    ensures Steady(Decide(s, id, outcome), dwm, shaped) && Continues(s, Decide(s, id, outcome))
  {
    ObserveSteady(s, id, s.presents[id].(finalState := outcome), dwm, shaped);
  }

  lemma ForgetThreadSteady(s: State, t: nat, dwm: nat, shaped: bool)
    requires Steady(s, dwm, shaped)
    ensures Steady(ForgetThread(s, t), dwm, shaped) && Continues(s, ForgetThread(s, t))
  {
    hide Core, Shape, ChainOrder, AllOrderly;
    CoreWithThreads(s, s.ix.byThread - {t}, {});
  }

  lemma UpdateReadySteady(s: State, dwm: nat, shaped: bool)
    requires Steady(s, dwm, shaped)
    ensures RingOf(s)
    ensures Steady(s.(ring := UpdateReady(s.ring, s.presents)), dwm, shaped)
    ensures Continues(s, s.(ring := UpdateReady(s.ring, s.presents)))
  {
    hide Core;
    UpdateReadyKeeps(s, {});
    RingSteady(s, UpdateReady(s.ring, s.presents), dwm, shaped);
  }

  lemma ReleaseSteady(s: State, id: Id, t: nat, dwm: nat, shaped: bool)
    requires Steady(s, dwm, shaped) && id in s.presents && s.presents[id].completed
    ensures RingOf(s)
    ensures Steady(Release(s, id, t), dwm, shaped) && Continues(s, Release(s, id, t))
  {
    UpdateReadySteady(s, dwm, shaped);
    var p := s.presents[id].(waitingForPresentStop := false);
    assert Orderly(s.presents[id]);
    var s1 := With(s, id, p);
    SameKeysSteady(s, id, p, dwm, shaped);
    hide Steady, Continues, UpdateReady;
    ForgetThreadSteady(s1, t, dwm, shaped);
    var s2 := ForgetThread(s1, t);
    UpdateReadySteady(s2, dwm, shaped);
    ContinuesTransitive(s, s1, s2);
    ContinuesTransitive(s, s2, Release(s, id, t));
  }

  /** Only a completed present waits for its Present_Stop. */
  lemma WaiterCompleted(s: State, id: Id, dwm: nat, shaped: bool)
    requires Steady(s, dwm, shaped) && id in s.presents && s.presents[id].waitingForPresentStop
    ensures s.presents[id].completed
  {
    assert Orderly(s.presents[id]);
  }

  /** What Present_Stop does, from the state s to the state s'. */
  ghost predicate Stopped(s: State, s': State, tid: nat, runtime: Runtime, time: nat, result: StopResult, dwm: nat, shaped: bool) {
    if tid !in s.ix.byThread then s' == s
    else
      var id := s.ix.byThread[tid];
      && id in s.presents && s.presents[id].start <= time
      && (var t := NoteStop(s, id, runtime, time - s.presents[id].start);
          if t.presents[id].waitingForPresentStop then RingOf(t) && s' == Release(t, id, tid)
          else if result.Failed? then Completes(t, s', id, dwm, shaped)
          else if result.NotVisible? then Completes(Decide(t, id, Discarded), s', id, dwm, shaped)
          else if !s.cfg.trackDisplay then Completes(Decide(t, id, Presented), s', id, dwm, shaped)
          else s' == ForgetThread(t, tid))
  }

  /** CompletePresent was called in state s and returned in state s'. */
  ghost predicate Completes(s: State, s': State, id: Id, dwm: nat, shaped: bool) {
    && Callable(s, id, {}, dwm, shaped) && Achieved(s, s', id, {}, dwm, shaped)
    && Traced(s, s', id, dwm, shaped) && Singly(s, s', id, {})
  }

  // ---------------------------------------------------------------------------------------------
  // Flip frame types

  function StopWait(s: State, id: Id): State
    requires id in s.presents
  {
    With(s, id, s.presents[id].(waitingForFlipFrameType := false))
  }

  lemma StopWaitSteady(s: State, id: Id, dwm: nat, shaped: bool)
    requires Steady(s, dwm, shaped) && id in s.presents
    ensures Steady(StopWait(s, id), dwm, shaped) && Continues(s, StopWait(s, id))
  {
    assert Orderly(s.presents[id]);
    SameKeysSteady(s, id, s.presents[id].(waitingForFlipFrameType := false), dwm, shaped);
  }

  lemma StopTrackingSteady(s: State, id: Id, dwm: nat, shaped: bool)
    requires Steady(s, dwm, shaped) && id in s.presents && s.presents[id].completed
    ensures RingIndexOk(s, id)
    ensures Steady(StopTracking(s, id), dwm, shaped) && Continues(s, StopTracking(s, id))
  {
    StopTrackingRingIndex(s, id);
    hide Core, Shape, ChainOrder, Evolves, SoftChange, StopTrackingIx, AllOrderly, Continues;
    StopTrackingKeeps(s, id, {});
    StopTrackingEvolves(s, id, {});
    StopTrackingSoft(s, id);
    if shaped { SoftShape(s.presents, StopTracking(s, id).presents, s.log, {}, dwm); }
    EvolvesSteady(s, StopTracking(s, id), dwm, shaped);
  }

  lemma EndOneSteady(s: State, id: Id, deps: seq<Id>, dwm: nat, shaped: bool)
    requires Steady(s, dwm, shaped) && id in s.presents && s.presents[id].completed
    requires deps != [] && forall d :: d in deps ==> d in s.presents
    ensures deps[0] in s.presents && RingIndexOk(StopWait(s, deps[0]), id)
    ensures var s2 := StopTracking(StopWait(s, deps[0]), id);
            && Steady(s2, dwm, shaped) && Continues(s, s2)
            && id in s2.presents && s2.presents[id].completed && forall d :: d in deps[1..] ==> d in s2.presents
  {
    hide Core, ShapedInv, AllOrderly, Continues, StopTrackingIx;
    StopWaitSteady(s, deps[0], dwm, shaped);
    var s1 := StopWait(s, deps[0]);
    StopTrackingSteady(s1, id, dwm, shaped);
    ContinuesTransitive(s, s1, StopTracking(s1, id));
    assert forall d :: d in deps[1..] ==> d in deps;
  }

  /** The present of the layer will see no more flip frame types, and neither will its dependents. */
  ghost function EndDependents(s: State, id: Id, deps: seq<Id>, dwm: nat, shaped: bool): (s': State)
    requires Steady(s, dwm, shaped) && id in s.presents && s.presents[id].completed && forall d :: d in deps ==> d in s.presents
    ensures Steady(s', dwm, shaped) && Continues(s, s')
    decreases |deps|
  {
    if deps == [] then s
    else
      EndOneSteady(s, id, deps, dwm, shaped);
      var s2 := StopTracking(StopWait(s, deps[0]), id);
      var s' := EndDependents(s2, id, deps[1..], dwm, shaped);
      ContinuesTransitive(s, s2, s');
      s'
  }

  function NoteDone(s: State, id: Id): State
    requires id in s.presents
  {
    With(s, id, s.presents[id].(doneWaitingForFlipFrameType := true))
  }

  lemma NoteDoneSteady(s: State, id: Id, dwm: nat, shaped: bool)
    requires Steady(s, dwm, shaped) && id in s.presents
    ensures Steady(NoteDone(s, id), dwm, shaped) && Continues(s, NoteDone(s, id))
  {
    assert Orderly(s.presents[id]);
    SameKeysSteady(s, id, s.presents[id].(doneWaitingForFlipFrameType := true), dwm, shaped);
  }

  lemma EndOwnWait(s: State, id: Id, dwm: nat, shaped: bool)
    requires Steady(s, dwm, shaped) && id in s.presents && s.presents[id].waitingForFlipFrameType
    ensures var s1 := StopWait(NoteDone(s, id), id);
            && s.presents[id].completed && RingIndexOk(s1, id)
            && Steady(StopTracking(s1, id), dwm, shaped) && Continues(s, StopTracking(s1, id))
            && (forall d :: d in s.presents[id].dependents ==> d in StopTracking(s1, id).presents)
            && id in StopTracking(s1, id).presents
            && StopTracking(s1, id).presents[id].completed
            && StopTracking(s1, id).presents[id].dependents == s.presents[id].dependents
  {
    assert Orderly(s.presents[id]) && DependentsKnown(s.presents);
    NoteDoneSteady(s, id, dwm, shaped);
    var t := NoteDone(s, id);
    StopWaitSteady(t, id, dwm, shaped);
    var s1 := StopWait(t, id);
    hide Steady, Continues, DependentsKnown, StopTrackingIx;
    StopTrackingSteady(s1, id, dwm, shaped);
    ContinuesTransitive(s, t, s1);
    ContinuesTransitive(s, s1, StopTracking(s1, id));
  }

  // ---------------------------------------------------------------------------------------------
  // Composition

  /** The presents that waited for the compositor are displayed when its present is. */
  function Compose(s: State, id: Id, deps: seq<Id>): State
    requires id in s.presents
  {
    With(s, id, s.presents[id].(dependents := deps))
  }

  lemma ComposeRecords(P: Presents, id: Id, deps: seq<Id>, O: Ordered)
    requires id in P && (forall d :: d in deps ==> d in P)
    ensures var Q := P[id := P[id].(dependents := deps)];
            && (Distinct(P) && DependentsKnown(P) && Retired(P, {}) ==> Distinct(Q) && DependentsKnown(Q) && Retired(Q, {}))
            && (Keyed(P, O) && Covers(P, O) && OnlyPending(P, O, {}) ==> Keyed(Q, O) && Covers(Q, O) && OnlyPending(Q, O, {}))
  {
    hide Distinct, DependentsKnown, Retired, Keyed, Covers, OnlyPending;
    var q := P[id].(dependents := deps);
    if Distinct(P) && DependentsKnown(P) && Retired(P, {}) { ComposeKnown(P, id, q); }
    if Keyed(P, O) && Covers(P, O) && OnlyPending(P, O, {}) { ComposePlaces(P, id, q, O); }
  }

  lemma ComposeKnown(P: Presents, id: Id, q: Present)
    requires id in P && q == P[id].(dependents := q.dependents) && forall d :: d in q.dependents ==> d in P
    requires Distinct(P) && DependentsKnown(P) && Retired(P, {})
    ensures Distinct(P[id := q]) && DependentsKnown(P[id := q]) && Retired(P[id := q], {})
  {
  }

  lemma ComposePlaces(P: Presents, id: Id, q: Present, O: Ordered)
    requires id in P && q == P[id].(dependents := q.dependents) && Keyed(P, O) && Covers(P, O) && OnlyPending(P, O, {})
    ensures Keyed(P[id := q], O) && Covers(P[id := q], O) && OnlyPending(P[id := q], O, {})
  {
    hide Keyed, Covers, OnlyPending;
    ComposeKeyed(P, id, q, O);
    ComposeCovers(P, id, q, O);
  }

  lemma ComposeKeyed(P: Presents, id: Id, q: Present, O: Ordered)
    requires id in P && q == P[id].(dependents := q.dependents) && Keyed(P, O)
    ensures Keyed(P[id := q], O)
  {
  }

  lemma ComposeCovers(P: Presents, id: Id, q: Present, O: Ordered)
    requires id in P && q == P[id].(dependents := q.dependents) && Covers(P, O) && OnlyPending(P, O, {})
    ensures Covers(P[id := q], O) && OnlyPending(P[id := q], O, {})
  {
  }

  lemma ComposeHistory(P: Presents, id: Id, deps: seq<Id>, L: seq<Attempt>, r: Ring, hasCompleted: bool)
    requires id in P
    ensures var Q := P[id := P[id].(dependents := deps)];
            && (LogExact(P, L, {}) ==> LogExact(Q, L, {}))
            && (LostFirst(P, hasCompleted) ==> LostFirst(Q, hasCompleted))
            && (ReadyOk(P, r) && OneWaiting(P, r.queue) ==> ReadyOk(Q, r) && OneWaiting(Q, r.queue))
            && (ChainOrder(P, L, {}) ==> ChainOrder(Q, L, {}))
  {
  }

  lemma ComposeTokens(P: Presents, id: Id, deps: seq<Id>, index: map<nat, Id>)
    requires TokensOk(P, index, {}) && id in P
    ensures TokensOk(P[id := P[id].(dependents := deps)], index, {})
  {
  }

  lemma ComposeShape(P: Presents, id: Id, deps: seq<Id>, dwm: nat)
    requires Shape(P, dwm) && id in P && P[id].pid == dwm && forall d :: d in deps ==> d in P && P[d].pid != dwm
    ensures Shape(P[id := P[id].(dependents := deps)], dwm)
  {
    var Q := P[id := P[id].(dependents := deps)];
    forall a | a in Q
      ensures forall d :: d in Q[a].dependents ==> Q[a].pid == dwm && d in Q && Q[d].pid != dwm
    {
      ComposedAt(P, Q, a, id, deps, dwm);
    }
  }

  lemma ComposedAt(P: Presents, Q: Presents, a: Id, id: Id, deps: seq<Id>, dwm: nat)
    requires Shape(P, dwm) && id in P && P[id].pid == dwm && forall d :: d in deps ==> d in P && P[d].pid != dwm
    requires a in P && Q == P[id := P[id].(dependents := deps)]
    ensures forall d :: d in Q[a].dependents ==> Q[a].pid == dwm && d in Q && Q[d].pid != dwm
  {
    forall d | d in Q[a].dependents
      ensures Q[a].pid == dwm && d in P && P[d].pid != dwm && Q[d].pid == P[d].pid
    {
      assert Q[a].pid == P[a].pid;
      if a != id { assert Q[a] == P[a] && d in P[a].dependents; }
      assert Q[d].pid == P[d].pid;
    }
  }

  lemma ComposeSteady(s: State, id: Id, deps: seq<Id>, dwm: nat, shaped: bool)
    requires Steady(s, dwm, shaped) && id in s.presents && forall d :: d in deps ==> d in s.presents
    requires shaped ==> s.presents[id].pid == dwm && forall d :: d in deps ==> s.presents[d].pid != dwm
    ensures Steady(Compose(s, id, deps), dwm, shaped) && Continues(s, Compose(s, id, deps))
  {
    hide Distinct, DependentsKnown, Retired, TokensOk, Keyed, Covers, OnlyPending, LogExact, LostFirst, ReadyOk, OneWaiting, IxOk, Fifo,
      Shape, ChainOrder, Orderly, SameKeys;
    ComposeRecords(s.presents, id, deps, s.ix.ordered);
    ComposeHistory(s.presents, id, deps, s.log, s.ring, s.hasCompleted);
    ComposeOrderly(s, id, deps);
    SoftIx(s.presents, Compose(s, id, deps).presents, s.ix);
    ComposeTokens(s.presents, id, deps, s.ix.byDxgkToken);
    if shaped { ComposeShape(s.presents, id, deps, dwm); }
  }

  lemma ComposeOrderly(s: State, id: Id, deps: seq<Id>)
    requires AllOrderly(s.presents) && id in s.presents
    ensures AllOrderly(Compose(s, id, deps).presents) && SameKeys(s.presents, Compose(s, id, deps).presents)
  {
    assert Orderly(s.presents[id]);
  }

  // ---------------------------------------------------------------------------------------------
  // Looking up submissions

  /** Among the presents submitted under a sequence number, the oldest one. */
  ghost predicate OldestSubmitted(P: Presents, inner: map<nat, Id>, id: Id) {
    && (exists c :: c in inner && inner[c] == id)
    && forall c :: c in inner ==> id in P && inner[c] in P && P[id].start <= P[inner[c]].start
  }

  // ---------------------------------------------------------------------------------------------
  // What the kernel's events deduce

  /** The packet of a present to the front buffer, or of a flip that expects no flip event, is its screen time. */
  predicate DoneWithPacket(p: Present) {
    p.mode == HardwareLegacyCopyToFrontBuffer || (p.mode == HardwareLegacyFlip && !p.evidence.waitForFlipEvent)
  }

  function OnQueueComplete(p: Present, time: nat): Present {
    if DoneWithPacket(p) then
      ShowAt(if p.gpu.ready == 0 then p.(gpu := p.gpu.(ready := time)) else p, time, NotSet)
    else p
  }

  /** A blt whose packet completes before Present_Info is seen cannot be told from a redirected one yet. */
  predicate CompletesWithPacket(p: Present) {
    DoneWithPacket(p) && (p.evidence.seenDxgkPresent || p.mode != HardwareLegacyCopyToFrontBuffer)
  }

  function OnMMIOFlip(p: Present, time: nat, immediate: bool): Present {
    var q := p.(gpu := p.gpu.(ready := time), mode := if p.mode == ComposedFlip then HardwareIndependentFlip else p.mode);
    if immediate then ShowAt(q, time, NotSet) else q
  }

  lemma DeductionsObserve(p: Present, time: nat, immediate: bool)
    ensures Observes(p, OnQueueComplete(p, time)) && Observes(p, OnMMIOFlip(p, time, immediate))
    ensures Observes(p, ShowAt(p, time, NotSet))
  {
    hide ShowIn, Displays;
  }

  /** A completion keeps the keys of the present or clears them. */
  lemma CompletesKeys(s: State, s': State, id: Id, dwm: nat, shaped: bool)
    requires Completes(s, s', id, dwm, shaped)
    ensures id in s.presents && id in s'.presents
    ensures s'.presents[id].keys.dxgkContext == 0 || s'.presents[id].keys.dxgkContext == s.presents[id].keys.dxgkContext
  {
    assert Evolves(s, s', {}, {});
    assert Grows(s.presents[id], s'.presents[id]);
  }

  function SeeDxgkPresent(s: State, id: Id): State
    requires id in s.presents
  {
    var p := s.presents[id];
    With(s, id, p.(evidence := p.evidence.(seenDxgkPresent := true)))
  }

  lemma SeeDxgkPresentSteady(s: State, id: Id, dwm: nat, shaped: bool)
    requires Steady(s, dwm, shaped) && id in s.presents
    ensures Steady(SeeDxgkPresent(s, id), dwm, shaped) && Continues(s, SeeDxgkPresent(s, id))
  {
    ObserveSteady(s, id, SeeDxgkPresent(s, id).presents[id], dwm, shaped);
  }

  /** On Windows 7 another submission to the context of a blt shows that it went to the front buffer. */
  ghost predicate ContextClosed(s: State, u: State, s': State, context: nat, dwm: nat, shaped: bool) {
    context in s.ix.byDxgkContext &&
    var id := s.ix.byDxgkContext[context];
    && id in s.presents && id in u.presents
    && (if s.presents[id].mode == HardwareLegacyCopyToFrontBuffer then
          if HasScreenTime(s.presents[id]) then Completes(SeeDxgkPresent(s, id), u, id, dwm, shaped)
          else u == SeeDxgkPresent(s, id)
        else u == s)
    && s' == CloseContext(u, id, context)
  }

  lemma ContextKnown(s: State, context: nat)
    requires Core(s, {}) && context in s.ix.byDxgkContext
    ensures s.ix.byDxgkContext[context] in s.presents
    ensures s.presents[s.ix.byDxgkContext[context]].keys.dxgkContext == context
  {
    assert KeyedBy(s.presents, s.ix.byDxgkContext, (k: Keys) => k.dxgkContext);
  }

  /** What the end of a Win32K token does. */
  ghost predicate TokenDiscarded(s: State, s': State, token: Win32KToken, dwm: nat, shaped: bool) {
    if token !in s.ix.byWin32K then s' == s
    else
      var id := s.ix.byWin32K[token];
      && id in s.presents
      && (var t := DropWin32K(s, id, token);
          var p := s.presents[id];
          if !p.evidence.seenInFrameEvent && p.finalState == ResultUnknown then
            Completes(Decide(t, id, Discarded), s', id, dwm, shaped)
          else if p.mode != ComposedFlip then Completes(t, s', id, dwm, shaped)
          else s' == t)
  }

  lemma DroppedRecord(s: State, id: Id, token: Win32KToken)
    requires id in s.presents
    ensures var q := DropWin32K(s, id, token).presents[id];
            id in DropWin32K(s, id, token).presents && q.evidence == s.presents[id].evidence
            && q.finalState == s.presents[id].finalState && q.mode == s.presents[id].mode
  {
  }

  ghost predicate FlipFrameTypesEnded(s: State, s': State, id: Id, dwm: nat, shaped: bool)
    requires Steady(s, dwm, shaped) && id in s.presents
  {
    if !s.presents[id].waitingForFlipFrameType then s' == NoteDone(s, id)
    else
      EndOwnWait(s, id, dwm, shaped);
      var v := EndDependents(StopTracking(StopWait(NoteDone(s, id), id), id), id, s.presents[id].dependents, dwm, shaped);
      RingOf(v) && s' == v.(ring := UpdateReady(v.ring, v.presents))
  }

  lemma StopWaitIx(s: State, id: Id, dwm: nat, shaped: bool)
    requires Steady(s, dwm, shaped) && id in s.presents
    ensures IxOk(StopWait(s, id).presents, s.ix) && StopWait(s, id).presents.Keys == s.presents.Keys
    ensures forall a :: a in s.presents ==> StopWait(s, id).presents[a].completed == s.presents[a].completed
  {
    StopWaitSteady(s, id, dwm, shaped);
  }

  lemma KeptByTracking(s: State, id: Id, dwm: nat, shaped: bool)
    requires id in s.presents && RingIndexOk(s, id)
    ensures StopTracking(s, id).presents.Keys == s.presents.Keys
    ensures StopTracking(s, id).presents[id].completed == s.presents[id].completed
  {
  }

  lemma EnableSteady(s: State, dwm: nat, shaped: bool)
    requires Steady(s, dwm, shaped)
    ensures Steady(s.(flipEvents := true), dwm, shaped) && Continues(s, s.(flipEvents := true))
  {
    hide Distinct, DependentsKnown, Retired, TokensOk, Keyed, Covers, OnlyPending, LogExact, LostFirst, ReadyOk, OneWaiting, IxOk, Fifo,
      Shape, ChainOrder, AllOrderly;
  }

  lemma DequeueSteady(s: State, dwm: nat, shaped: bool)
    requires Steady(s, dwm, shaped)
    ensures s.ring.ready <= |s.ring.queue|
    ensures Steady(s.(ring := Dequeue(s.ring)), dwm, shaped) && Continues(s, s.(ring := Dequeue(s.ring)))
  {
    DequeueKeeps(s, {});
    hide Core;
    RingSteady(s, Dequeue(s.ring), dwm, shaped);
  }

  /** The consumer before its first event. */
  function Blank(cfg: Config): State {
    State(cfg, map[], Indexes(seq(cfg.capacity, _ => None), map[], map[], map[], map[], map[], map[], map[]),
          0, false, false, Ring([], 0, 0, []), [], [])
  }

  lemma BlankSteady(cfg: Config)
    requires 0 < cfg.capacity
    ensures forall dwm, shaped :: Steady(Blank(cfg), dwm, shaped)
  {
    hide Core, Shape, ChainOrder, Blank;
    BlankCore(cfg);
    BlankOrder(cfg);
  }

  lemma BlankCore(cfg: Config)
    requires 0 < cfg.capacity
    ensures Core(Blank(cfg), {}) && AllOrderly(Blank(cfg).presents)
  {
    hide RingInv, IxOk;
    BlankIndexes(cfg);
    BlankRing(cfg);
  }

  lemma BlankIndexes(cfg: Config)
    ensures IxOk(Blank(cfg).presents, Blank(cfg).ix)
  {
  }

  lemma BlankRing(cfg: Config)
    requires 0 < cfg.capacity
    ensures RingInv(Blank(cfg))
  {
  }

  lemma BlankOrder(cfg: Config)
    ensures forall dwm :: ShapedInv(Blank(cfg), {}, dwm)
  {
  }
}
