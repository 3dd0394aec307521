/**
 The trace consumer's present tracking, updated in place as the source does.  The elementary steps are
 proved against PresentSpec; CompletePresent and RemoveLostPresent, which call each other, are proved to
 keep the invariants of PresentInv and to achieve what PresentEvolution says.
 */
module PresentConsumer {
  import opened Wrappers
  import opened PresentSpec
  import opened PresentInv
  import opened PresentSteps
  import opened PresentEvolution
  import opened PresentCalls
  import opened PresentStages
  import opened PresentLoss
  import opened PresentLoops
  import opened PresentTrace
  import opened PresentDrags
  import opened PresentCourse
  import opened PresentEvents
  import opened PresentKeys
  import opened PresentOutcomes
  import opened RingIndex
  import opened CompletedPresents

  class PMTraceConsumer {
    const cfg: Config
    var presents: Presents
    var trackedPresents: seq<Option<Id>>
    var nextFreeRingIndex: nat
    var presentByThreadId: map<nat, Id>
    var orderedPresentsByProcessId: Ordered
    var presentBySubmitSequence: map<nat, map<nat, Id>>
    var presentByWin32KToken: map<Win32KToken, Id>
    var presentByDxgkToken: map<nat, Id>
    var presentByDxgkTokenData: map<nat, Id>
    var presentByDxgkContext: map<nat, Id>
    var hasCompletedAPresent: bool
    var enableFlipFrameTypeEvents: bool
    const completed: CompletedRing
    ghost var log: seq<Attempt>
    ghost var released: seq<LetOff>

    constructor (cfg: Config)
      requires 0 < cfg.capacity
      ensures this.cfg == cfg && Valid() && S() == Blank(cfg) && forall dwm, shaped :: Steady(S(), dwm, shaped)
      ensures fresh(completed) && fresh(completed.slots)
    {
      this.cfg := cfg;
      presents := map[];
      trackedPresents := seq(cfg.capacity, _ => None);
      nextFreeRingIndex := 0;
      presentByThreadId, orderedPresentsByProcessId, presentBySubmitSequence := map[], map[], map[];
      presentByWin32KToken, presentByDxgkToken, presentByDxgkTokenData, presentByDxgkContext := map[], map[], map[], map[];
      hasCompletedAPresent, enableFlipFrameTypeEvents := false, false;
      completed := new CompletedRing(cfg.capacity);
      log, released := [], [];
      new;
      BlankSteady(cfg);
    }

    ghost predicate Valid()
      reads this, completed, completed.slots
    {
      && completed.Valid() && completed.slots.Length == cfg.capacity
      && |trackedPresents| == cfg.capacity && nextFreeRingIndex < cfg.capacity
    }

    ghost function Ix(): Indexes
      reads this
    {
      Indexes(trackedPresents, presentByThreadId, orderedPresentsByProcessId, presentBySubmitSequence,
              presentByWin32KToken, presentByDxgkToken, presentByDxgkTokenData, presentByDxgkContext)
    }

    ghost function S(): State
      requires Valid()
      reads this, completed, completed.slots
    {
      State(cfg, presents, Ix(), nextFreeRingIndex, hasCompletedAPresent, enableFlipFrameTypeEvents, completed.Value(), log, released)
    }

    // -------------------------------------------------------------------------------------------
    // Elementary steps

    method MarkCompleted(id: Id)
      requires Valid() && id in presents
      modifies this`presents
      ensures Valid() && S() == PresentSpec.MarkCompleted(old(S()), id)
    {
      var p := presents[id].(completed := true);
      if !p.lost && p.runtime != OtherRuntime && p.timeInPresent == 0 {
        p := p.(waitingForPresentStop := true);
      }
      if !p.lost && !p.doneWaitingForFlipFrameType && enableFlipFrameTypeEvents && p.finalState == Presented {
        p := p.(waitingForFlipFrameType := true);
      }
      presents := presents[id := p];
    }

    method MarkLost(id: Id)
      requires Valid() && id in presents
      modifies this`presents
      ensures Valid() && S() == PresentSpec.MarkLost(old(S()), id)
    {
      presents := presents[id := presents[id].(lost := true)];
    }

    method LoseDependents(deps: seq<Id>)
      requires Valid() && forall d :: d in deps ==> d in presents
      modifies this`presents
      ensures Valid() && S() == old(S()).(presents := LoseAll(old(presents), deps))
    {
      for i := 0 to |deps|
        invariant Valid() && S() == old(S()).(presents := presents)
        invariant presents.Keys == old(presents).Keys
        invariant LoseAll(presents, deps[i..]) == LoseAll(old(presents), deps)
      {
        assert deps[i..][0] == deps[i] && deps[i..][1..] == deps[i + 1..];
        presents := presents[deps[i] := presents[deps[i]].(lost := true)];
      }
    }

    /** Visits the dependents from the last to the first, noting the windows already seen. */
    method PropagateToDependents(deps: seq<Id>, parent: Present)
      requires Valid() && forall d :: d in deps ==> d in presents
      modifies this`presents
      ensures Valid() && S() == old(S()).(presents := Propagate(old(presents), deps, {}, parent))
    {
      var seen: set<nat> := {};
      var i := |deps|;
      assert deps[..i] == deps;
      while i > 0
        invariant 0 <= i <= |deps|
        invariant Valid() && S() == old(S()).(presents := presents)
        invariant presents.Keys == old(presents).Keys
        invariant Propagate(presents, deps[..i], seen, parent) == Propagate(old(presents), deps, {}, parent)
      {
        i := i - 1;
        assert deps[..i + 1][..i] == deps[..i] && deps[..i + 1][i] == deps[i];
        var d, seen' := PropagateToOne(presents[deps[i]], seen, parent);
        presents := presents[deps[i] := d];
        seen := seen';
      }
    }

    /** Decides what becomes of one dependent, given the windows of the dependents after it. */
    method PropagateToOne(d: Present, seen: set<nat>, parent: Present) returns (d': Present, seen': set<nat>)
      ensures d' == PropagateOne(d, seen, parent) && seen' == SeenAfter(d, seen)
    {
      d', seen' := d, seen;
      if !d.completed {
        var composed := d.mode == ComposedFlip || d.mode == ComposedCopyGpuGdi || d.mode == ComposedCopyCpuGdi;
        if composed && d.keys.hwnd in seen {
          d' := d.(finalState := Discarded, displayed := []);
          assert seen + {d.keys.hwnd} == seen;
        } else {
          if composed {
            seen' := seen + {d.keys.hwnd};
          }
          if d.finalState != Discarded {
            var shown := ShowWithParent(d.displayed, parent.displayed);
            d' := d.(finalState := parent.finalState,
                     displayed := shown,
                     waitingForFlipFrameType := parent.waitingForFlipFrameType,
                     doneWaitingForFlipFrameType := parent.doneWaitingForFlipFrameType);
          }
        }
      }
    }

    /** Copies the parent's screen times, keeping the child's frame types, and appends the rest. */
    method ShowWithParent(own: seq<Shown>, from: seq<Shown>) returns (shown: seq<Shown>)
      ensures shown == if from == [] then own else MergeShown(own, from)
    {
      shown := own;
      if from != [] {
        var common := if |own| < |from| then |own| else |from|;
        for i := 0 to common
          invariant |shown| == |own|
          invariant forall k :: 0 <= k < |own| ==>
                      shown[k] == if k < i then Shown(own[k].frameType, from[k].time) else own[k]
        {
          shown := shown[i := Shown(shown[i].frameType, from[i].time)];
        }
        for i := common to |from|
          invariant |shown| == if |own| < i then i else |own|
          invariant forall k :: 0 <= k < |shown| ==>
                      shown[k] == if k < common then Shown(own[k].frameType, from[k].time)
                                  else if k < |own| then own[k] else from[k]
        {
          shown := shown + [from[i]];
        }
      }
    }

    method EraseThread(threadId: nat, id: Id)
      requires Valid()
      modifies this`presentByThreadId
      ensures Valid() && presentByThreadId == EraseIf(old(presentByThreadId), threadId, id)
    {
      if threadId in presentByThreadId && presentByThreadId[threadId] == id {
        presentByThreadId := presentByThreadId - {threadId};
      }
    }

    method RemovePresentFromSubmitSequenceIdTracking(id: Id)
      requires Valid() && id in presents
      requires presents[id].keys.submitSequence in presentBySubmitSequence ==>
                 OnlyOnce(presentBySubmitSequence[presents[id].keys.submitSequence], id)
      modifies this`presentBySubmitSequence, this`presents
      ensures Valid()
      ensures presentBySubmitSequence ==
              EraseSubmit(old(presentBySubmitSequence), id, old(presents[id].keys.submitSequence))
      ensures presents == old(presents)[id := old(presents[id]).(keys := old(presents[id].keys).(submitSequence := 0))]
    {
      var sequence := presents[id].keys.submitSequence;
      if sequence != 0 {
        if sequence in presentBySubmitSequence {
          var inner := presentBySubmitSequence[sequence];
          if |inner| == 1 {
            var c :| c in inner;
            assert inner.Keys == {c} by { assert |inner.Keys - {c}| == 0; }
            if inner[c] == id {
              assert Others(inner, id) == map[];
              presentBySubmitSequence := presentBySubmitSequence - {sequence};
            } else {
              assert Others(inner, id) == inner;
            }
          } else {
            var todo := inner.Keys;
            while todo != {}
              invariant todo <= inner.Keys
              invariant presentBySubmitSequence == old(presentBySubmitSequence)
              invariant forall c :: c in inner && c !in todo ==> inner[c] != id
              decreases todo
            {
              var c :| c in todo;
              if inner[c] == id {
                EraseOne(inner, c, id);
                presentBySubmitSequence := presentBySubmitSequence[sequence := inner - {c}];
                break;
              }
              todo := todo - {c};
            }
            if todo == {} { assert Others(inner, id) == inner; }
          }
        }
        presents := presents[id := presents[id].(keys := presents[id].keys.(submitSequence := 0))];
      }
    }

    /** Forgets the keys of a present that no structure holds any more. */
    method ClearKeysOf(id: Id)
      requires Valid() && id in presents && presents[id].keys.submitSequence == 0
      modifies this`presents
      ensures Valid() && presents == old(presents)[id := old(presents[id]).(keys := ClearKeys(old(presents[id].keys)))]
    {
      var k := presents[id].keys;
      k := k.(ringIndex := None, dxgkToken := 0, dxgkTokenData := 0, dxgkContext := 0, hwnd := 0);
      if k.win32K.luid != 0 {
        k := k.(win32K := NO_TOKEN);
      }
      presents := presents[id := presents[id].(keys := k)];
    }

    /** Removes the present from the ring of tracked presents, the thread index and the ordered map. */
    method StopTrackingPlace(id: Id)
      requires Valid() && id in presents && RingIndexOk(S(), id)
      modifies this`presentByThreadId, this`orderedPresentsByProcessId, this`trackedPresents
      ensures Valid()
      ensures var p := presents[id];
              && Ix() == old(Ix()).(
                   tracked := if p.keys.ringIndex.Some? then old(trackedPresents)[p.keys.ringIndex.value := None]
                              else old(trackedPresents),
                   byThread := EraseThreads(old(presentByThreadId), id, p),
                   ordered := EraseOrdered(old(orderedPresentsByProcessId), p))
      ensures completed.Value() == old(completed.Value())
    {
      var p := presents[id];
      if p.keys.ringIndex.Some? {
        trackedPresents := trackedPresents[p.keys.ringIndex.value := None];
      }
      if !p.waitingForPresentStop {
        EraseThread(p.tid, id);
      }
      if p.keys.driverTid != 0 {
        EraseThread(p.keys.driverTid, id);
      }
      var presentsByThisProcess := if p.pid in orderedPresentsByProcessId then orderedPresentsByProcessId[p.pid] else map[];
      orderedPresentsByProcessId := orderedPresentsByProcessId[p.pid := presentsByThisProcess - {p.start}];
    }

    method StopTrackingWin32K(id: Id)
      requires Valid() && id in presents
      modifies this`presentByWin32KToken
      ensures Valid()
      ensures var k := presents[id].keys.win32K;
              presentByWin32KToken == if k.luid != 0 then EraseIf(old(presentByWin32KToken), k, id) else old(presentByWin32KToken)
    {
      var k := presents[id].keys.win32K;
      if k.luid != 0 && k in presentByWin32KToken && presentByWin32KToken[k] == id {
        presentByWin32KToken := presentByWin32KToken - {k};
      }
    }

    method StopTrackingDxgkToken(id: Id)
      requires Valid() && id in presents
      modifies this`presentByDxgkToken
      ensures Valid() && presentByDxgkToken == EraseUnlessZero(old(presentByDxgkToken), presents[id].keys.dxgkToken, id)
    {
      var k := presents[id].keys.dxgkToken;
      if k != 0 && k in presentByDxgkToken && presentByDxgkToken[k] == id {
        presentByDxgkToken := presentByDxgkToken - {k};
      }
    }

    method StopTrackingDxgkTokenData(id: Id)
      requires Valid() && id in presents
      modifies this`presentByDxgkTokenData
      ensures Valid() && presentByDxgkTokenData == EraseUnlessZero(old(presentByDxgkTokenData), presents[id].keys.dxgkTokenData, id)
    {
      var k := presents[id].keys.dxgkTokenData;
      if k != 0 && k in presentByDxgkTokenData && presentByDxgkTokenData[k] == id {
        presentByDxgkTokenData := presentByDxgkTokenData - {k};
      }
    }

    method StopTrackingDxgkContext(id: Id)
      requires Valid() && id in presents
      modifies this`presentByDxgkContext
      ensures Valid() && presentByDxgkContext == EraseUnlessZero(old(presentByDxgkContext), presents[id].keys.dxgkContext, id)
    {
      var k := presents[id].keys.dxgkContext;
      if k != 0 && k in presentByDxgkContext && presentByDxgkContext[k] == id {
        presentByDxgkContext := presentByDxgkContext - {k};
      }
    }

    /** Everything but the submit-sequence index. */
    method EraseFromIndexes(id: Id)
      requires Valid() && id in presents && RingIndexOk(S(), id)
      modifies this`presentByThreadId, this`orderedPresentsByProcessId, this`trackedPresents,
               this`presentByWin32KToken, this`presentByDxgkToken, this`presentByDxgkTokenData, this`presentByDxgkContext
      ensures Valid()
      ensures Ix() == StopTrackingIx(old(Ix()), id, presents[id]).(bySubmit := presentBySubmitSequence)
    {
      hide EraseThreads, EraseOrdered, EraseSubmit, EraseIf, EraseUnlessZero;
      StopTrackingPlace(id);
      StopTrackingWin32K(id);
      StopTrackingDxgkToken(id);
      StopTrackingDxgkTokenData(id);
      StopTrackingDxgkContext(id);
    }

    method StopTrackingIndexes(id: Id)
      requires Valid() && id in presents && RingIndexOk(S(), id)
      modifies this
      ensures Valid() && presents == old(presents) && presentBySubmitSequence == old(presentBySubmitSequence)
      ensures S() == old(S()).(ix := StopTrackingIx(old(Ix()), id, presents[id]).(bySubmit := presentBySubmitSequence))
    {
      hide StopTrackingIx;
      EraseFromIndexes(id);
    }

    /** The submit-sequence index, and the keys themselves. */
    method StopTrackingKeys(id: Id)
      requires Valid() && id in presents
      requires presents[id].keys.submitSequence in presentBySubmitSequence ==>
                 OnlyOnce(presentBySubmitSequence[presents[id].keys.submitSequence], id)
      modifies this`presents, this`presentBySubmitSequence
      ensures Valid()
      ensures presentBySubmitSequence ==
              EraseSubmit(old(presentBySubmitSequence), id, old(presents[id].keys.submitSequence))
      ensures presents == old(presents)[id := old(presents[id]).(keys := ClearKeys(old(presents[id].keys)))]
    {
      hide EraseSubmit, ClearKeys;
      ClearedAnyway(presents[id].keys);
      RemovePresentFromSubmitSequenceIdTracking(id);
      ClearKeysOf(id);
    }

    method ForgetKeys(id: Id, ghost bySubmit: map<nat, map<nat, Id>>)
      requires Valid() && id in presents
      requires presents[id].keys.submitSequence in presentBySubmitSequence ==>
                 OnlyOnce(presentBySubmitSequence[presents[id].keys.submitSequence], id)
      requires bySubmit == EraseSubmit(presentBySubmitSequence, id, presents[id].keys.submitSequence)
      modifies this
      ensures Valid()
      ensures S() == With(old(S()), id, old(presents[id]).(keys := ClearKeys(old(presents[id].keys)))).(
                       ix := old(Ix()).(bySubmit := bySubmit))
    {
      hide EraseSubmit, ClearKeys, OnlyOnce;
      StopTrackingKeys(id);
    }

    method StopTrackingPresent(id: Id)
      requires Valid() && id in presents && IxOk(presents, Ix())
      modifies this
      ensures Valid() && RingIndexOk(old(S()), id) && S() == PresentSpec.StopTracking(old(S()), id)
    {
      StopTrackingRingIndex(S(), id);
      assert presents[id].keys.submitSequence in presentBySubmitSequence ==>
          OnlyOnce(presentBySubmitSequence[presents[id].keys.submitSequence], id);
      hide IxOk, OnlyOnce, EraseThreads, EraseOrdered, EraseSubmit, EraseIf, EraseUnlessZero, ClearKeys;
      ghost var p := presents[id];
      ghost var ix := StopTrackingIx(Ix(), id, p);
      StopTrackingIndexes(id);
      hide StopTrackingIx;
      ForgetKeys(id, ix.bySubmit);
    }

    // -------------------------------------------------------------------------------------------
    // Into the ring

    /** Takes what a matching ring entry hands on, and ends its wait. */
    method TakeFrom(p2: Present, present: Present) returns (p2': Present, present': Present)
      ensures p2' == HandOn(p2, present) && present' == TakeTimes(present, p2)
    {
      p2', present' := p2, present;
      if p2.frameId == present.frameId && Generated(p2) {
        if p2.appPropagated.presentStart != 0 {
          present' := present.(appPropagated := p2.appPropagated);
          p2' := p2.(appPropagated := NO_TIMES);
        } else {
          present' := present.(appPropagated := OwnTimes(p2));
        }
      }
      p2' := p2'.(waitingForFrameId := false);
    }

    method MatchEntry(entry: Id, id: Id)
      requires Valid() && entry in presents && id in presents && entry != id
      modifies this`presents
      ensures Valid() && presents == MatchFrame(old(presents), entry, id)
    {
      if presents[entry].waitingForFrameId && presents[entry].pid == presents[id].pid {
        var p2, present := TakeFrom(presents[entry], presents[id]);
        presents := presents[id := present][entry := p2];
      }
    }

    method MatchFrameIds(id: Id)
      requires Valid() && Insertable(S(), id)
      modifies this`presents
      ensures Valid() && S() == PresentSpec.MatchFrameIds(old(S()), id)
    {
      hide MatchFrames, MatchFrame;
      ghost var q := completed.Queue();
      if presents[id].waitingForFrameId {
        var i := completed.ready;
        while i < completed.count
          invariant completed.ready <= i <= completed.count
          invariant Valid() && S() == old(S()).(presents := presents)
          invariant presents.Keys == old(presents).Keys
          invariant MatchFrames(presents, q[i..], id) == MatchFrames(old(presents), q[completed.ready..], id)
        {
          MatchNext(presents, q, i, id);
          MatchEntry(completed.At(i), id);
          i := i + 1;
        }
        MatchNone(presents, q[i..], id);
      }
    }

    method UpdateReadyCount()
      requires Valid() && forall q :: q in completed.Queue() ==> q in presents
      modifies completed
      ensures Valid() && S() == old(S()).(ring := UpdateReady(old(completed.Value()), presents))
    {
      completed.UpdateReadyCount(presents);
    }

    method AddToRing(id: Id) returns (accepted: bool)
      requires Valid() && Insertable(S(), id)
      modifies this`log, completed, completed.slots
      ensures Valid() && S() == AddCompleted(old(S()), id)
      ensures accepted == !Drops(old(completed.Value()), presents, id, cfg)
    {
      accepted := completed.Insert(id, presents, cfg);
      log := log + [Attempt(id, presents[id], accepted)];
    }

    /** The output thread takes the ready presents. */
    method DequeuePresentEvents() returns (out: seq<Id>)
      requires Valid()
      modifies completed, completed.slots
      ensures Valid() && S() == old(S()).(ring := Dequeue(old(completed.Value())))
      ensures out == old(completed.Queue())[..old(completed.ready)]
    {
      out := completed.Dequeue();
    }

    method EndWait(head: Id)
      requires Valid() && head in presents
      modifies this`presents
      ensures Valid() && S() == PresentSpec.EndWait(old(S()), head)
    {
      var p := presents[head];
      if p.waitingForPresentStop {
        p := p.(waitingForPresentStop := false, lost := true);
      }
      presents := presents[head := p.(waitingForFlipFrameType := false)];
    }

    /** Ends the wait of a head that has become too old. */
    method ClearDeferral(head: Id)
      requires Valid() && head in presents && IxOk(presents, Ix())
      modifies this
      ensures Valid() && RingIndexOk(old(S()), head) && S() == PresentSpec.ClearDeferral(old(S()), head)
    {
      StopTrackingRingIndex(S(), head);
      ghost var P := presents;
      EndWait(head);
      assert SameKeys(P, presents);
      SoftIx(P, presents, Ix());
      hide IxOk, PresentSpec.StopTracking, PresentSpec.EndWait;
      StopTrackingPresent(head);
    }

    method LetGo(head: Id, ghost cause: Id, ghost pend: set<Id>)
      requires Valid() && Core(S(), pend) && head in presents && presents[head].completed
      modifies this, completed
      ensures Valid() && S() == PresentEvolution.LetGo(old(S()), head, cause, pend)
    {
      ghost var s := S();
      StopTrackingRingIndex(s, head);
      ClearDeferralKeeps(s, head, pend);
      UpdateReadyKeeps(PresentSpec.ClearDeferral(s, head), pend);
      hide Core, PresentSpec.ClearDeferral, UpdateReady;
      ClearDeferral(head);
      UpdateReadyCount();
      NoteLetOff(head, cause);
    }

    method NoteLetOff(head: Id, ghost cause: Id)
      requires Valid()
      modifies this`released
      ensures Valid() && S() == Record(old(S()), LetOff(head, cause))
    {
      released := released + [LetOff(head, cause)];
    }

    /** The ready count moves on; a head that has waited too long is let go. */
    method SettleRing(id: Id, ghost pend: set<Id>)
      requires Valid() && Core(S(), pend) && id in presents
      modifies this, completed
      ensures Valid() && S() == Settle(old(S()), id, pend)
    {
      hide Distinct, DependentsKnown, Retired, TokensOk, OrderedInv, LogExact, LostFirst, IxOk, Fifo, Fair, OneWaiting, PresentEvolution.LetGo;
      ghost var s := S();
      UpdateReadyKeeps(s, pend);
      UpdateReadyCount();
      ghost var s1 := S();
      if completed.ready == 0 && completed.count > 0 {
        var head := completed.At(0);
        HeadCompleted(s1);
        var start := presents[id].start;
        hide Core;
        if start >= presents[head].start && start - presents[head].start > cfg.deferralLimit {
          LetGo(head, id, pend);
        }
      }
    }

    /**
     Out of tracking and into the ring.  Before the lock is taken the output thread may have dequeued;
     everything after that happens inside one critical section.
     */
    method Retire(id: Id, ghost pend: set<Id>) returns (ghost taken: bool)
      requires Valid() && Core(S(), pend + {id}) && id !in pend
      modifies this, completed, completed.slots
      ensures Valid() && S() == Finish(old(S()), id, pend, taken)
    {
      hide Core, StopTrackingIx, Evolves, SameOutcome, PresentSpec.MatchFrameIds, AddCompleted, Settle;
      ghost var s := S();
      RetireReady(s, id, pend);
      StopTrackingPresent(id);
      taken := false;
      if * {
        var _ := DequeuePresentEvents();
        taken := true;
      }
      ghost var s3 := FinishFirstHalf(s, id, pend, taken);
      AddCompletedKeeps(s3, id, pend);
      MatchFrameIds(id);
      assert S() == s3;
      var accepted := AddToRing(id);
      if accepted {
        SettleRing(id, pend);
      }
    }

    /** The least key of a map that is not below `from`. */
    method NextKey(m: map<nat, Id>, from: nat) returns (found: bool, next: nat)
      ensures found ==> next in m && from <= next && forall j :: j in m && from <= j ==> next <= j
      ensures !found ==> forall j :: j in m ==> j < from
    {
      var todo := m.Keys;
      found, next := false, 0;
      while todo != {}
        invariant todo <= m.Keys
        invariant found ==> next in m && from <= next && forall j :: j in m && j !in todo && from <= j ==> next <= j
        invariant !found ==> forall j :: j in m && j !in todo ==> j < from
        decreases |todo|
      {
        var k :| k in todo;
        if from <= k && (!found || k < next) {
          found, next := true, k;
        }
        todo := todo - {k};
      }
    }

    // -------------------------------------------------------------------------------------------
    // Completing presents

    /**
     Completes a present, with everything that completes along with it.  The first present to complete that
     is not lost only throws away what is in progress.
     */
    method CompletePresent(id: Id, ghost pend: set<Id>, ghost dwm: nat, ghost shaped: bool)
      requires Valid() && Callable(S(), id, pend, dwm, shaped)
      modifies this, completed, completed.slots
      ensures Valid() && Achieved(old(S()), S(), id, pend, dwm, shaped)
      ensures Traced(old(S()), S(), id, dwm, shaped) && Singly(old(S()), S(), id, pend)
      decreases Phase(hasCompletedAPresent, presents[id].lost), |InProgress(presents)|, 1
    {
      hide Callable, Achieved, FlushStart, FlushProgress, InProgress, FlushTrace, Traced, Singly;
      ghost var s := S();
      CallableKnown(s, id, pend, dwm, shaped);
      if !hasCompletedAPresent && !presents[id].lost {
        FlushOrderedPresents(dwm, shaped);
        FlushAchieves(s, S(), id, dwm, shaped);
        FlushTraced(s, S(), id, dwm, shaped);
        NoteFirstCompletion();
      } else if !presents[id].completed {
        CompleteInProgress(id, pend, dwm, shaped);
      } else {
        NothingTraced(s, id, pend, dwm, shaped);
        SinglyNothing(s, id, pend);
      }
    }

    method NoteFirstCompletion()
      requires Valid()
      modifies this`hasCompletedAPresent
      ensures Valid() && S() == old(S()).(hasCompleted := true)
    {
      hasCompletedAPresent := true;
    }

    /** Every present in progress is lost. */
    method FlushOrderedPresents(ghost dwm: nat, ghost shaped: bool)
      requires Valid() && FlushStart(S(), dwm, shaped)
      modifies this, completed, completed.slots
      ensures Valid() && FlushDone(old(S()), S(), dwm, shaped) && FlushTrace(old(S()), S())
      decreases 1, |InProgress(presents)|, 0
    {
      hide FlushProgress, FlushStart, FlushTrace;
      ghost var s := S();
      FlushBegins(s, dwm, shaped);
      FlushStarts(s, dwm, shaped);
      var pids := orderedPresentsByProcessId.Keys;
      while pids != {}
        invariant Valid() && FlushProgress(s, S(), pids, dwm, shaped) && FlushTrace(s, S())
        decreases |pids|
      {
        var pid :| pid in pids;
        FlushProcess(s, pid, pids, dwm, shaped);
        pids := pids - {pid};
      }
    }

    method FlushProcess(ghost s: State, pid: nat, ghost pids: set<nat>, ghost dwm: nat, ghost shaped: bool)
      requires Valid() && FlushProgress(s, S(), pids, dwm, shaped) && FlushTrace(s, S())
      modifies this, completed, completed.slots
      ensures Valid() && FlushProgress(s, S(), pids - {pid}, dwm, shaped) && FlushTrace(s, S())
      decreases 0, |InProgress(presents)|, 4
    {
      hide FlushProgress, InProgress, RemovedLost, Core, ShapedInv, FlushTrace, LossTraced;
      ghost var n := |InProgress(presents)|;
      while pid in orderedPresentsByProcessId && orderedPresentsByProcessId[pid] != map[]
        invariant Valid() && FlushProgress(s, S(), pids, dwm, shaped) && |InProgress(presents)| <= n && FlushTrace(s, S())
        decreases |InProgress(presents)|
      {
        var _, first := NextKey(orderedPresentsByProcessId[pid], 0);
        var id := orderedPresentsByProcessId[pid][first];
        ghost var t := S();
        FlushState(s, t, pids, dwm, shaped);
        FlushEntry(t, pid, first);
        RemoveLostPresent(id, dwm, shaped);
        FlushOne(s, t, S(), id, pids, dwm, shaped);
        FlushTraceOn(s, t, S(), id, pids, dwm, shaped);
      }
      FlushProcessDone(s, S(), pid, pids, dwm, shaped);
    }

    /** Marks a present lost.  One in progress is completed; one that waits for Present_Stop waits no more. */
    method RemoveLostPresent(id: Id, ghost dwm: nat, ghost shaped: bool)
      requires Valid() && Core(S(), {}) && id in presents && (shaped ==> ShapedInv(S(), {}, dwm))
      modifies this, completed, completed.slots
      ensures Valid() && RemovedLost(old(S()), S(), id, dwm, shaped) && LossTraced(old(S()), S(), id, dwm, shaped)
      decreases 0, |InProgress(presents)|, 2
    {
      hide Core, ShapedInv, UpdateReady, Moves, Traced, Singly, Alone;
      ghost var s := S();
      RingKnown(s, {});
      if presents[id].completed {
        AbandonRemoves(s, id, dwm, shaped);
        LetWaiterGo(id);
      } else {
        LostCallable(s, id, dwm, shaped);
        MarkLost(id);
        CompletePresent(id, {}, dwm, shaped);
        LostAchieved(s, S(), id, dwm, shaped);
        LossMoves(s, S(), id, {}, dwm, shaped);
      }
    }

    /** Does what Present_Stop would do for a completed present that is lost. */
    method LetWaiterGo(id: Id)
      requires Valid() && id in presents && forall q :: q in completed.Queue() ==> q in presents
      modifies this, completed
      ensures Valid() && S() == Abandon(old(S()), id)
    {
      hide UpdateReady, EraseIf;
      MarkLost(id);
      var p := presents[id];
      if p.waitingForPresentStop {
        SetWaitingForPresentStop(id, false);
        ForgetThreads(id);
        UpdateReadyCount();
        assert presents == old(presents)[id := old(presents[id]).(lost := true, waitingForPresentStop := false)];
      }
    }

    method SetWaitingForPresentStop(id: Id, waiting: bool)
      requires Valid() && id in presents
      modifies this`presents
      ensures Valid() && S() == With(old(S()), id, old(presents[id]).(waitingForPresentStop := waiting))
    {
      presents := presents[id := presents[id].(waitingForPresentStop := waiting)];
    }

    /** Neither the present's thread nor its driver thread leads to it any more. */
    method ForgetThreads(id: Id)
      requires Valid() && id in presents
      modifies this`presentByThreadId
      ensures Valid()
      ensures S() == old(S()).(ix := old(Ix()).(byThread :=
                EraseUnlessZero(EraseIf(old(presentByThreadId), presents[id].tid, id), presents[id].keys.driverTid, id)))
    {
      hide EraseIf;
      var p := presents[id];
      EraseThread(p.tid, id);
      if p.keys.driverTid != 0 {
        EraseThread(p.keys.driverTid, id);
      }
    }

    /** The completion of a present in progress, after the first one. */
    method CompleteInProgress(id: Id, ghost pend: set<Id>, ghost dwm: nat, ghost shaped: bool)
      requires Valid() && Callable(S(), id, pend, dwm, shaped) && !presents[id].completed
      requires hasCompletedAPresent || presents[id].lost
      modifies this, completed, completed.slots
      ensures Valid() && Achieved(old(S()), S(), id, pend, dwm, shaped)
      ensures Traced(old(S()), S(), id, dwm, shaped) && Singly(old(S()), S(), id, pend)
      decreases 0, |InProgress(presents)|, 0
    {
      hide Core, Callable, ShapedInv, StackOk, Evolves, InProgress, PresentSpec.MarkCompleted, Stage, Inherited, NoneEarlier,
        DependentsTraced, StagesTraced, EarlierTrace, Traced, Singly, Finish, Achieved, AllCompleted;
      ghost var s := S();
      CallableKnown(s, id, pend, dwm, shaped);
      CompletionBegins(s, id, pend, dwm, shaped);
      MarkedPresent(s, id);
      MarkCompleted(id);
      ghost var s1 := S();
      CompleteDependents(id, pend, dwm, shaped);
      ghost var s4 := S();
      StageEnds(s1, s4, id, pend, dwm, shaped);
      DependentsOnly(s1, s4, id, dwm, shaped);
      if presents[id].finalState == Presented {
        CompleteEarlierPresents(id, pend, dwm, shaped);
        AfterEarlier(s1, s4, S(), id, pend, dwm, shaped);
        StageEnds(s1, S(), id, pend, dwm, shaped);
        StagesAdd(s1, s4, S(), id, pend, dwm, shaped);
      }
      ghost var s5 := S();
      StageEnds(s1, s5, id, pend, dwm, shaped);
      ghost var taken := Retire(id, pend);
      AllTogether(s, s5, id, pend, taken, dwm, shaped);
    }

    /** Dependents take over the outcome, or are lost with the present, and complete, the last one first. */
    method CompleteDependents(id: Id, ghost pend: set<Id>, ghost dwm: nat, ghost shaped: bool)
      requires Valid() && Completing(S(), id, pend, dwm, shaped)
      modifies this, completed, completed.slots
      ensures Valid() && DependentsDone(old(S()), S(), id, pend, dwm, shaped)
      ensures DependentsTraced(old(S()), S(), id, dwm, shaped)
      ensures old(presents[id].dependents) == [] ==> S() == old(S())
      decreases 0, |InProgress(presents)|, 3
    {
      hide Core, Completing, Dependents, DependentsOpen, DependentsDone, InProgress, Propagate, Stage, Inherited, AllCompleted,
        OpenedTrace, DependentsTrace, DependentsTraced, Dragging, SameOutcomes;
      ghost var s := S();
      CompletingIn(s, id, pend, dwm, shaped);
      var deps := presents[id].dependents;
      if deps == [] {
        NoDependents(s, id, pend, dwm, shaped);
        NoneTraced(s, id, pend, dwm, shaped);
      } else {
        DependentsBegin(s, id, deps, pend, dwm, shaped);
        ghost var s2 := OpenDependents(id, deps, pend, dwm, shaped);
        OpenedDrags(s, s2, id);
        CompleteEachDependent(s, id, deps, pend, dwm, shaped);
        ghost var s3 := S();
        DependentsAdd(s, s2, s3, id, deps, pend, dwm, shaped);
        DependentsStage(s, s2, s3, id, deps, pend, dwm, shaped);
        StageEnds(s, s3, id, pend, dwm, shaped);
        CompletingIn(s3, id, pend, dwm, shaped);
        if !presents[id].waitingForFlipFrameType {
          DropDependents(id);
          DroppedTraced(s, s3, id, pend + {id}, dwm, shaped);
          DependentsCleared(s, s3, id, pend, dwm, shaped);
        }
      }
    }

    method DropDependents(id: Id)
      requires Valid() && id in presents
      modifies this`presents
      ensures Valid() && S() == With(old(S()), id, old(presents[id]).(dependents := []))
    {
      presents := presents[id := presents[id].(dependents := [])];
    }

    /** The dependents get the outcome of the present, or are lost with it. */
    method OpenDependents(id: Id, deps: seq<Id>, ghost pend: set<Id>, ghost dwm: nat, ghost shaped: bool) returns (ghost s2: State)
      requires Valid() && Completing(S(), id, pend, dwm, shaped) && deps == presents[id].dependents && deps != []
      modifies this`presents
      ensures Valid() && s2 == S() && DependentsOpen(old(S()), S(), id, deps, pend, dwm, shaped)
      ensures InProgress(presents) == InProgress(old(presents))
      ensures forall d :: d in deps ==> d in old(presents)
      ensures !old(presents)[id].lost ==> presents == Propagate(old(presents), deps, {}, old(presents)[id])
      ensures OpenedTrace(old(S()), S(), id)
    {
      ghost var s := S();
      DependentsBegin(s, id, deps, pend, dwm, shaped);
      hide Core, Completing, DependentsOpen, InProgress, LoseAll, Propagate, Dependents, OpenedTrace;
      OpenedBy(s, id, deps, pend, dwm, shaped);
      if presents[id].lost {
        LoseOpens(s, id, deps, pend, dwm, shaped);
        LoseDependents(deps);
      } else {
        PropagateOpens(s, id, deps, pend, dwm, shaped);
        PropagateToDependents(deps, presents[id]);
      }
      s2 := S();
    }

    method CompleteEachDependent(ghost s0: State, id: Id, deps: seq<Id>, ghost pend: set<Id>, ghost dwm: nat, ghost shaped: bool)
      requires Valid() && DependentsOpen(s0, S(), id, deps, pend, dwm, shaped)
      requires id in s0.presents && deps == s0.presents[id].dependents && Dragging(s0, S(), id)
      modifies this, completed, completed.slots
      ensures Valid() && DependentsOpen(s0, S(), id, deps, pend, dwm, shaped)
      ensures AllCompleted(presents, deps) && (shaped ==> SameOutcomes(old(presents), presents))
      ensures DependentsTrace(s0, old(S()), S(), id, deps, 0, dwm, shaped)
      decreases 0, |InProgress(presents)|, 2
    {
      hide DependentsOpen, InProgress, Achieved, Callable, DependentsTrace, Dragging, Traced;
      ghost var P, s2 := presents, S();
      DependentsTraceStart(s0, s2, id, deps, pend, dwm, shaped);
      var i := |deps|;
      while i > 0
        invariant 0 <= i <= |deps| && Valid() && DependentsOpen(s0, S(), id, deps, pend, dwm, shaped)
        invariant presents.Keys == P.Keys && |InProgress(presents)| <= |InProgress(P)|
        invariant forall k :: i <= k < |deps| ==> deps[k] in presents && presents[deps[k]].completed
        invariant shaped ==> SameOutcomes(P, presents)
        invariant DependentsTrace(s0, s2, S(), id, deps, i, dwm, shaped)
      {
        i := i - 1;
        var x := deps[i];
        ghost var t := S();
        DependentKnown(s0, t, x, id, deps, pend, dwm, shaped);
        if !presents[x].completed {
          DependentCallable(s0, t, x, id, deps, pend, dwm, shaped);
          NestedPhase(t, x, id, pend, dwm, shaped);
          CompletePresent(x, pend + {id}, dwm, shaped);
          DependentTraced(s0, s2, t, S(), id, deps, i, pend, dwm, shaped);
          DependentDone(s0, t, S(), x, id, deps, pend, dwm, shaped);
        } else {
          DependentSkipped(s0, s2, t, id, deps, i, pend, dwm, shaped);
        }
      }
    }

    /** Presents of the same swap chain that started before a displayed one cannot be displayed any more. */
    method CompleteEarlierPresents(id: Id, ghost pend: set<Id>, ghost dwm: nat, ghost shaped: bool)
      requires Valid() && Completing(S(), id, pend, dwm, shaped) && presents[id].finalState == Presented
      modifies this, completed, completed.slots
      ensures Valid() && Stage(old(S()), S(), id, pend, dwm, shaped) && NoneEarlier(presents, id)
      ensures EarlierTrace(old(S()), S(), id, old(presents[id].start), shaped)
      decreases 0, |InProgress(presents)|, 3
    {
      hide Completing, EarlierOpen, InProgress, DoneBefore, Stage, NoneEarlier, Entry, EarlierTrace;
      ghost var s := S();
      EarlierBegins(s, id, pend, dwm, shaped);
      EarlierTraced(s, id, pend, dwm, shaped);
      ghost var n := |InProgress(presents)|;
      ghost var start := presents[id].start;
      var more, x, k := NextEntry(s, id, 0, pend, dwm, shaped);
      EarlierTraceOn(s, S(), id, 0, if more then k else start, shaped);
      while more
        invariant Valid() && EarlierOpen(s, S(), id, pend, dwm, shaped)
        invariant id in presents && presents[id].start == start && |InProgress(presents)| <= n
        invariant if more then k < start && Entry(presents, x, id, k) && DoneBefore(presents, id, k)
                  else DoneBefore(presents, id, start)
        invariant EarlierTrace(s, S(), id, if more then k else start, shaped)
        decreases if more then start - k else 0
      {
        ghost var done := k + 1;
        CompleteEntry(s, x, id, k, pend, dwm, shaped);
        more, x, k := NextEntry(s, id, k + 1, pend, dwm, shaped);
        EarlierTraceOn(s, S(), id, done, if more then k else start, shaped);
      }
      EarlierEnds(s, S(), id, pend, dwm, shaped);
    }

    /** The next entry of the process that started before the present. */
    method NextEntry(ghost s: State, id: Id, from: nat, ghost pend: set<Id>, ghost dwm: nat, ghost shaped: bool)
      returns (more: bool, x: Id, k: nat)
      requires Valid() && EarlierOpen(s, S(), id, pend, dwm, shaped) && DoneBefore(presents, id, from)
      ensures id in presents && from <= k
      ensures if more then k < presents[id].start && Entry(presents, x, id, k) && DoneBefore(presents, id, k)
              else DoneBefore(presents, id, presents[id].start)
    {
      hide EarlierOpen, DoneBefore, OrderedInv, Distinct, Entry;
      ghost var t := S();
      EarlierOrdered(s, t, id, pend, dwm, shaped);
      var present := presents[id];
      more, k := NextKey(orderedPresentsByProcessId[present.pid], from);
      x := id;
      if more && k < present.start {
        x := orderedPresentsByProcessId[present.pid][k];
        EarlierEntry(t, id, from, k, pend + {id});
      } else {
        DoneUpTo(t, id, from, present.start, pend + {id});
        more, k := false, from;
      }
    }

    /** One earlier entry of the process: completed if it is of the same swap chain, and lost with p. */
    method CompleteEntry(ghost s: State, x: Id, id: Id, k: nat, ghost pend: set<Id>, ghost dwm: nat, ghost shaped: bool)
      requires Valid() && EarlierOpen(s, S(), id, pend, dwm, shaped) && DoneBefore(presents, id, k)
      requires Entry(presents, x, id, k) && EarlierTrace(s, S(), id, k, shaped)
      modifies this, completed, completed.slots
      ensures Valid() && EarlierOpen(s, S(), id, pend, dwm, shaped) && DoneBefore(presents, id, k + 1)
      ensures id in presents && presents[id].pid == old(presents[id].pid) && presents[id].start == old(presents[id].start)
      ensures |InProgress(presents)| <= old(|InProgress(presents)|)
      ensures EarlierTrace(s, S(), id, k + 1, shaped)
      ensures shaped ==> SameBehind(old(orderedPresentsByProcessId), orderedPresentsByProcessId, old(presents[id].pid), k)
      decreases 0, |InProgress(presents)|, 2
    {
      hide EarlierOpen, InProgress, DoneBefore, Achieved, Callable, SameBehind, EarlierTrace, Traced;
      ghost var t := S();
      EntryBehind(s, t, x, id, k, pend, dwm, shaped);
      if presents[x].swapChain == presents[id].swapChain {
        EarlierKnown(presents, x, id, k);
        EarlierCallable(s, t, x, id, pend, dwm, shaped);
        LostEntry(t, if presents[id].lost then PresentSpec.MarkLost(t, x) else t, x, id, k);
        if presents[id].lost {
          MarkLost(x);
        }
        ghost var t' := S();
        NestedPhase(t', x, id, pend, dwm, shaped);
        CompletePresent(x, pend + {id}, dwm, shaped);
        EarlierCompleted(s, t, t', S(), x, id, k, pend, dwm, shaped);
        EntryTraced(s, t, t', S(), x, id, k, pend, dwm, shaped);
        if shaped { NextSurvives(t', S(), x, pend + {id}, dwm); }
      } else {
        EarlierSkipped(s, t, x, id, k, pend, dwm, shaped);
        EarlierTraceOn(s, t, id, k, k + 1, shaped);
      }
    }

    // -------------------------------------------------------------------------------------------
    // Events

    /** A present that is lost because of an event: everything stays in order. */
    method LosePresent(id: Id, ghost dwm: nat, ghost shaped: bool)
      requires Valid() && Steady(S(), dwm, shaped) && id in presents
      modifies this, completed, completed.slots
      ensures Valid() && RemovedLost(old(S()), S(), id, dwm, shaped) && LossTraced(old(S()), S(), id, dwm, shaped)
      ensures Steady(S(), dwm, shaped) && Continues(old(S()), S())
    {
      hide Core, ShapedInv, LosesAll, Area, Evolves, AllOrderly, Continues, LossTraced;
      RemoveLostPresent(id, dwm, shaped);
      EvolvesSteady(old(S()), S(), dwm, shaped);
    }

    /** A present that is completed because of an event. */
    method FinishPresent(id: Id, ghost dwm: nat, ghost shaped: bool)
      requires Valid() && Steady(S(), dwm, shaped) && id in presents
      modifies this, completed, completed.slots
      ensures Valid() && Callable(old(S()), id, {}, dwm, shaped) && Achieved(old(S()), S(), id, {}, dwm, shaped)
      ensures Traced(old(S()), S(), id, dwm, shaped) && Singly(old(S()), S(), id, {})
      ensures Steady(S(), dwm, shaped) && Continues(old(S()), S())
    {
      hide Core, ShapedInv, Evolves, AllOrderly, Continues, CompletedWith, ShapedEffect, Flushed, Traced, Singly;
      CompletePresent(id, {}, dwm, shaped);
      EvolvesSteady(old(S()), S(), dwm, shaped);
    }

    /** Whatever the thread worked on before is lost. */
    method SetThreadPresent(threadId: nat, id: Id, ghost dwm: nat, ghost shaped: bool) returns (ghost s1: State)
      requires Valid() && Steady(S(), dwm, shaped) && id in presents
      requires threadId == presents[id].tid || (threadId == presents[id].keys.driverTid && threadId != 0 && threadId !in presentByThreadId)
      modifies this, completed, completed.slots
      ensures Valid() && Steady(S(), dwm, shaped) && Continues(old(S()), S())
      ensures MadeRoom(old(S()), s1, At(old(presentByThreadId), threadId), dwm, shaped)
      ensures S() == SetThread(s1, threadId, id)
    {
      hide Core, ShapedInv, AllOrderly, RemovedLost, LossTraced;
      ghost var s := S();
      if threadId in presentByThreadId {
        ThreadKnown(s, threadId);
        LosePresent(presentByThreadId[threadId], dwm, shaped);
      }
      s1 := S();
      SetThreadSteady(s1, threadId, id, dwm, shaped);
      ContinuesTransitive(s, s1, SetThread(s1, threadId, id));
      if threadId !in presentByThreadId {
        presentByThreadId := presentByThreadId[threadId := id];
      }
    }

    method EnterTracking(id: Id, p: Present)
      requires Valid()
      modifies this`presents, this`trackedPresents, this`nextFreeRingIndex, this`orderedPresentsByProcessId
      ensures Valid() && S() == Track(old(S()), id, p)
    {
      hide EnterOrdered;
      presents := presents[id := p.(keys := p.keys.(ringIndex := Some(nextFreeRingIndex)))];
      trackedPresents := trackedPresents[nextFreeRingIndex := Some(id)];
      nextFreeRingIndex := Wrap(nextFreeRingIndex, 1, cfg.capacity);
      orderedPresentsByProcessId := EnterOrdered(orderedPresentsByProcessId, id, p);
    }

    /** A present still in progress when the ring of tracked presents has come around is lost. */
    method TrackPresent(id: Id, p: Present, ghost dwm: nat, ghost shaped: bool) returns (ghost s1: State, ghost s2: State)
      requires Valid() && Steady(S(), dwm, shaped)
      requires id !in presents && Unused(p) && Latest(presents, p.pid, p.start)
      modifies this, completed, completed.slots
      ensures Valid() && Steady(S(), dwm, shaped) && Continues(old(S()), S())
      ensures Tracks(old(S()), s1, s2, S(), id, p, dwm, shaped)
    {
      hide Core, ShapedInv, AllOrderly, RemovedLost, LossTraced, Latest, Track;
      ghost var s := S();
      if trackedPresents[nextFreeRingIndex].Some? {
        SlotKnown(s);
        LosePresent(trackedPresents[nextFreeRingIndex].value, dwm, shaped);
      }
      s1 := S();
      SlotFree(s, s1, id, p, dwm, shaped);
      TrackSteady(s1, id, p, dwm, shaped);
      EnterTracking(id, p);
      TrackedThread(s1, id, p);
      ghost var t := S();
      s2 := SetThreadPresent(p.tid, id, dwm, shaped);
      ContinuesTransitive(s, s1, t);
      ContinuesTransitive(s, t, S());
    }

    /** A test present presents nothing and is ignored. */
    method RuntimePresentStart(id: Id, serial: nat, test: bool, runtime: Runtime, pid: nat, tid: nat, time: nat, swapChain: nat,
                               announced: Option<Announced>, ghost dwm: nat, ghost shaped: bool)
      returns (ghost s1: State, ghost s2: State)
      requires Valid() && Steady(S(), dwm, shaped) && id !in presents && Latest(presents, pid, time)
      modifies this, completed, completed.slots
      ensures Valid() && Steady(S(), dwm, shaped) && Continues(old(S()), S())
      ensures if test then S() == old(S())
              else Tracks(old(S()), s1, s2, S(), id, NewPresent(serial, time, pid, tid, swapChain, runtime, announced), dwm, shaped)
    {
      hide Core, ShapedInv, AllOrderly, Tracks, Latest;
      s1, s2 := S(), S();
      if test {
        return;
      }
      s1, s2 := TrackPresent(id, NewPresent(serial, time, pid, tid, swapChain, runtime, announced), dwm, shaped);
    }

    method EnterProcess(pid: nat)
      requires Valid()
      modifies this`orderedPresentsByProcessId
      ensures Valid() && S() == PresentEvents.EnterProcess(old(S()), pid) && pid in orderedPresentsByProcessId
    {
      if pid !in orderedPresentsByProcessId {
        orderedPresentsByProcessId := orderedPresentsByProcessId[pid := map[]];
      }
    }

    method SetDriverThread(id: Id, tid: nat)
      requires Valid() && id in presents
      modifies this`presents
      ensures Valid() && S() == Drive(old(S()), id, tid)
    {
      presents := presents[id := presents[id].(keys := presents[id].keys.(driverTid := tid))];
    }

    /** The oldest present of the process that the driver may have deferred to the thread. */
    method FindDeferred(pid: nat) returns (r: Option<Id>)
      requires Valid() && Core(S(), {}) && pid in orderedPresentsByProcessId
      ensures if r.Some? then OldestUndriven(presents, r.value, pid) else NoneUndriven(presents, pid)
    {
      hide Core, OrderedInv, Distinct, DrivenBefore, NoneUndriven;
      ghost var s := S();
      RingKnown(s, {});
      StartOfProcess(presents, pid);
      var more, k := NextKey(orderedPresentsByProcessId[pid], 0);
      ghost var from := 0;
      while more
        invariant DrivenBefore(presents, pid, from)
        invariant more ==> from <= k && k in orderedPresentsByProcessId[pid]
        invariant more ==> forall j :: j in orderedPresentsByProcessId[pid] && from <= j ==> k <= j
        invariant !more ==> forall j :: j in orderedPresentsByProcessId[pid] ==> j < from
        invariant S() == s
        decreases if more then 1 else 0, Span(orderedPresentsByProcessId[pid].Keys, k)
      {
        var id := orderedPresentsByProcessId[pid][k];
        OrderedEntry(s, pid, k);
        DrivenUpTo(s, pid, from, k);
        if Undriven(presents[id]) {
          OldestFound(s, id, pid, k);
          return Some(id);
        }
        NotUndriven(s, pid, k);
        from := k + 1;
        ghost var k0 := k;
        more, k := NextKey(orderedPresentsByProcessId[pid], k + 1);
        if more { SpanShrinks(orderedPresentsByProcessId[pid].Keys, k0, k); }
      }
      NoMoreUndriven(s, pid, from);
      return None;
    }

    /**
     The present that an event of the thread belongs to: the one its thread works on, else the oldest one of
     the process that the driver may have deferred, else a new one, unless the process is filtered out.
     */
    method FindOrCreatePresent(id: Id, serial: nat, pid: nat, tid: nat, time: nat, announced: Option<Announced>, filteredOut: bool,
                               ghost dwm: nat, ghost shaped: bool)
      returns (r: Option<Id>, ghost s1: State, ghost s2: State)
      requires Valid() && Steady(S(), dwm, shaped) && id !in presents && Latest(presents, pid, time) && tid != 0
      modifies this, completed, completed.slots
      ensures Valid() && Steady(S(), dwm, shaped) && Continues(old(S()), S())
      ensures Found(old(S()), s1, s2, S(), r, id, NewPresent(serial, time, pid, tid, 0, OtherRuntime, announced), filteredOut, dwm, shaped)
    {
      hide Core, ShapedInv, AllOrderly, Tracks, Latest, NoneUndriven, OldestUndriven, PresentEvents.EnterProcess;
      s1, s2 := S(), S();
      ghost var s := S();
      if tid in presentByThreadId {
        ContinuesRefl(s);
        return Some(presentByThreadId[tid]), s, s;
      }
      EnterProcessSteady(s, pid, dwm, shaped);
      EnterProcessKnown(s, pid);
      EnterProcess(pid);
      ghost var e := S();
      r := FindDeferred(pid);
      if r.Some? {
        OldestKnown(e.presents, r.value, pid);
        ContinueDeferred(r.value, tid, dwm, shaped);
        ContinuesTransitive(s, e, S());
        return;
      }
      if !filteredOut {
        s1, s2 := TrackPresent(id, NewPresent(serial, time, pid, tid, 0, OtherRuntime, announced), dwm, shaped);
        ContinuesTransitive(s, e, S());
        return Some(id), s1, s2;
      }
    }

    /** The present that the driver deferred goes on under the driver's thread. */
    method ContinueDeferred(id: Id, tid: nat, ghost dwm: nat, ghost shaped: bool)
      requires Valid() && Steady(S(), dwm, shaped) && id in presents && presents[id].keys.driverTid == 0
      requires tid != 0 && tid !in presentByThreadId
      modifies this, completed, completed.slots
      ensures Valid() && Steady(S(), dwm, shaped) && Continues(old(S()), S())
      ensures S() == TakeOver(old(S()), id, tid)
    {
      hide Steady, Continues;
      ghost var s := S();
      DriveDeferred(s, id, tid, dwm, shaped);
      SetDriverThread(id, tid);
      ghost var t := S();
      ghost var s1 := SetThreadPresent(tid, id, dwm, shaped);
      ContinuesTransitive(s, t, S());
    }

    method PutPresent(id: Id, p: Present)
      requires Valid() && id in presents
      modifies this`presents
      ensures Valid() && S() == With(old(S()), id, p)
    {
      presents := presents[id := p];
    }

    method DropThread(tid: nat)
      requires Valid()
      modifies this`presentByThreadId
      ensures Valid() && S() == ForgetThread(old(S()), tid)
    {
      presentByThreadId := presentByThreadId - {tid};
    }

    /** A completed present that waited for its Present_Stop waits no more. */
    method ReleasePresent(id: Id, tid: nat, ghost dwm: nat, ghost shaped: bool)
      requires Valid() && Steady(S(), dwm, shaped) && id in presents && presents[id].completed
      modifies this, completed
      ensures Valid() && RingOf(old(S())) && S() == Release(old(S()), id, tid)
      ensures Steady(S(), dwm, shaped) && Continues(old(S()), S())
    {
      hide Steady, Continues, UpdateReady;
      ghost var s := S();
      ReleaseSteady(s, id, tid, dwm, shaped);
      PutPresent(id, presents[id].(waitingForPresentStop := false));
      DropThread(tid);
      UpdateReadyCount();
    }

    method DecideAndFinish(id: Id, outcome: PresentResult, ghost dwm: nat, ghost shaped: bool)
      requires Valid() && Steady(S(), dwm, shaped) && id in presents
      modifies this, completed, completed.slots
      ensures Valid() && Steady(S(), dwm, shaped) && Continues(old(S()), S())
      ensures Completes(Decide(old(S()), id, outcome), S(), id, dwm, shaped)
    {
      hide Steady, Continues, Callable, Achieved, Traced, Singly;
      ghost var s := S();
      DecideSteady(s, id, outcome, dwm, shaped);
      PutPresent(id, presents[id].(finalState := outcome));
      ghost var t := S();
      FinishPresent(id, dwm, shaped);
      ContinuesTransitive(s, t, S());
    }

    /** The call to Present has returned on its thread. */
    method RuntimePresentStop(runtime: Runtime, tid: nat, time: nat, result: StopResult, ghost dwm: nat, ghost shaped: bool)
      requires Valid() && Steady(S(), dwm, shaped)
      requires tid in presentByThreadId && presentByThreadId[tid] in presents ==> presents[presentByThreadId[tid]].start <= time
      modifies this, completed, completed.slots
      ensures Valid() && Steady(S(), dwm, shaped) && Continues(old(S()), S())
      ensures Stopped(old(S()), S(), tid, runtime, time, result, dwm, shaped)
    {
      hide Core, ShapedInv, AllOrderly, Continues, Callable, Achieved, Traced, Singly, Release;
      ghost var s := S();
      if tid !in presentByThreadId {
        ContinuesRefl(s);
        return;
      }
      ThreadKnown(s, tid);
      var id := presentByThreadId[tid];
      NoteStopSteady(s, id, runtime, time - presents[id].start, dwm, shaped);
      PutPresent(id, presents[id].(runtime := runtime, timeInPresent := time - presents[id].start));
      ghost var t := S();
      if presents[id].waitingForPresentStop {
        WaiterCompleted(t, id, dwm, shaped);
        ReleasePresent(id, tid, dwm, shaped);
      } else if result == Failed {
        FinishPresent(id, dwm, shaped);
      } else if result == NotVisible {
        DecideAndFinish(id, Discarded, dwm, shaped);
      } else if !cfg.trackDisplay {
        DecideAndFinish(id, Presented, dwm, shaped);
      } else {
        ForgetThreadSteady(t, tid, dwm, shaped);
        DropThread(tid);
      }
      ContinuesTransitive(s, t, S());
    }

    /** Sets a screen time, over a provisional one if there is one. */
    method SetScreenTime(p: Present, time: nat, frameType: FrameType) returns (q: Present)
      ensures q == ShowAt(p, time, frameType)
    {
      q := p;
      var n := |p.displayed|;
      if n == 0 {
        q := q.(displayed := [Shown(frameType, time)], finalState := Presented);
      } else if p.displayed[n - 1].frameType == NotSet {
        q := q.(displayed := p.displayed[n - 1 := Shown(frameType, time)]);
      } else if p.displayed[n - 1].time == 0 {
        for i := 0 to n
          invariant q == p && forall k :: 0 <= k < i ==> p.displayed[k].time != 0
        {
          if p.displayed[i].time == 0 {
            q := q.(displayed := p.displayed[n - 1 := p.displayed[n - 1].(time := time)], finalState := Presented);
            break;
          }
        }
      } else if frameType != NotSet {
        q := q.(displayed := p.displayed + [Shown(frameType, time)]);
      }
    }

    /** Several presents in flight may have been submitted under the same number; the oldest one is meant. */
    method FindPresentBySubmitSequence(sequence: nat) returns (r: Option<Id>)
      requires Valid() && IxOk(presents, Ix())
      ensures r.None? <==> sequence !in presentBySubmitSequence
      ensures r.Some? ==> OldestSubmitted(presents, presentBySubmitSequence[sequence], r.value) && r.value in presents
    {
      assert SubmitsOk(presents, presentBySubmitSequence);
      hide IxOk;
      if sequence !in presentBySubmitSequence {
        return None;
      }
      var inner := presentBySubmitSequence[sequence];
      var first :| first in inner;
      var id := inner[first];
      var todo := inner.Keys - {first};
      while todo != {}
        invariant todo <= inner.Keys && id in presents && exists c :: c in inner && inner[c] == id
        invariant forall c :: c in inner && c !in todo ==> inner[c] in presents && presents[id].start <= presents[inner[c]].start
        decreases todo
      {
        var c :| c in todo;
        if presents[id].start > presents[inner[c]].start {
          id := inner[c];
        }
        todo := todo - {c};
      }
      return Some(id);
    }

    /** Records what an event deduces about a present, which may then be complete. */
    method ObserveAndFinish(id: Id, p: Present, finish: bool, ghost dwm: nat, ghost shaped: bool)
      requires Valid() && Steady(S(), dwm, shaped) && id in presents && Observes(presents[id], p)
      modifies this, completed, completed.slots
      ensures Valid() && Steady(S(), dwm, shaped) && Continues(old(S()), S())
      ensures var t := With(old(S()), id, p); if finish then Completes(t, S(), id, dwm, shaped) else S() == t
    {
      hide Steady, Continues, Callable, Achieved, Traced, Singly, Observes;
      ghost var s := S();
      ObserveSteady(s, id, p, dwm, shaped);
      PutPresent(id, p);
      ghost var t := S();
      if finish {
        FinishPresent(id, dwm, shaped);
        ContinuesTransitive(s, t, S());
      }
    }

    /** A queue packet completed; it may be a present's. */
    method HandleDxgkQueueComplete(time: nat, context: nat, sequence: nat, ghost dwm: nat, ghost shaped: bool)
      requires Valid() && Steady(S(), dwm, shaped)
      modifies this, completed, completed.slots
      ensures Valid() && Steady(S(), dwm, shaped) && Continues(old(S()), S())
      ensures if sequence in old(presentBySubmitSequence) && context in old(presentBySubmitSequence)[sequence] then
                var id := old(presentBySubmitSequence)[sequence][context];
                && id in old(presents)
                && (var t := With(old(S()), id, OnQueueComplete(old(presents)[id], time));
                    if CompletesWithPacket(old(presents)[id]) then Completes(t, S(), id, dwm, shaped) else S() == t)
              else S() == old(S())
    {
      hide Core, ShapedInv, AllOrderly, Continues, Completes, ShowAt, Observes;
      ghost var s := S();
      ContinuesRefl(s);
      if sequence in presentBySubmitSequence && context in presentBySubmitSequence[sequence] {
        SubmittedKnown(s, sequence, context);
        var id := presentBySubmitSequence[sequence][context];
        var p := presents[id];
        DeductionsObserve(p, time, false);
        var q := p;
        if p.mode == HardwareLegacyCopyToFrontBuffer || (p.mode == HardwareLegacyFlip && !p.evidence.waitForFlipEvent) {
          if q.gpu.ready == 0 {
            q := q.(gpu := q.gpu.(ready := time));
          }
          q := SetScreenTime(q, time, NotSet);
        }
        ObserveAndFinish(id, q, CompletesWithPacket(p), dwm, shaped);
      }
    }

    method ApplyMMIOFlip(p: Present, time: nat, immediate: bool) returns (q: Present)
      ensures q == OnMMIOFlip(p, time, immediate)
    {
      q := p.(gpu := p.gpu.(ready := time));
      if q.mode == ComposedFlip {
        q := q.(mode := HardwareIndependentFlip);
      }
      if immediate {
        q := SetScreenTime(q, time, NotSet);
      }
    }

    /** A flip was taken from its queue: the work before it is done. */
    method HandleDxgkMMIOFlip(time: nat, sequence: nat, immediate: bool, ghost dwm: nat, ghost shaped: bool)
      requires Valid() && Steady(S(), dwm, shaped)
      modifies this, completed, completed.slots
      ensures Valid() && Steady(S(), dwm, shaped) && Continues(old(S()), S())
      ensures if sequence in old(presentBySubmitSequence) then
                exists id :: OldestSubmitted(old(presents), old(presentBySubmitSequence)[sequence], id) && id in old(presents) &&
                  var t := With(old(S()), id, OnMMIOFlip(old(presents)[id], time, immediate));
                  if immediate && old(presents)[id].mode == HardwareLegacyFlip then Completes(t, S(), id, dwm, shaped)
                  else S() == t
              else S() == old(S())
    {
      hide Core, ShapedInv, AllOrderly, Continues, Completes, OnMMIOFlip, Observes, OldestSubmitted;
      ghost var s := S();
      ContinuesRefl(s);
      RingKnown(s, {});
      var r := FindPresentBySubmitSequence(sequence);
      if r.Some? {
        var id := r.value;
        DeductionsObserve(presents[id], time, immediate);
        var p := ApplyMMIOFlip(presents[id], time, immediate);
        ObserveAndFinish(id, p, immediate && presents[id].mode == HardwareLegacyFlip, dwm, shaped);
        assert OldestSubmitted(s.presents, s.ix.bySubmit[sequence], id);
      }
    }

    /** What was flipped to the screen is displayed. */
    method HandleDxgkSyncDPC(time: nat, sequence: nat, ghost dwm: nat, ghost shaped: bool)
      requires Valid() && Steady(S(), dwm, shaped)
      modifies this, completed, completed.slots
      ensures Valid() && Steady(S(), dwm, shaped) && Continues(old(S()), S())
      ensures if sequence in old(presentBySubmitSequence) then
                exists id :: OldestSubmitted(old(presents), old(presentBySubmitSequence)[sequence], id) && id in old(presents) &&
                  var p := old(presents)[id];
                  var t := With(old(S()), id, ShowAt(p, time, NotSet));
                  if p.mode == HardwareLegacyFlip && !p.evidence.waitForMPOFlipEvent then Completes(t, S(), id, dwm, shaped)
                  else S() == t
              else S() == old(S())
    {
      hide Core, ShapedInv, AllOrderly, Continues, Completes, Observes, OldestSubmitted;
      ghost var s := S();
      ContinuesRefl(s);
      RingKnown(s, {});
      var r := FindPresentBySubmitSequence(sequence);
      if r.Some? {
        var id := r.value;
        DeductionsObserve(presents[id], time, false);
        var p := SetScreenTime(presents[id], time, NotSet);
        ObserveAndFinish(id, p, p.mode == HardwareLegacyFlip && !p.evidence.waitForMPOFlipEvent, dwm, shaped);
        assert OldestSubmitted(s.presents, s.ix.bySubmit[sequence], id);
      }
    }

    method CloseContextOf(context: nat, ghost dwm: nat, ghost shaped: bool) returns (ghost u: State)
      requires Valid() && Steady(S(), dwm, shaped) && context in presentByDxgkContext
      modifies this, completed, completed.slots
      ensures Valid() && Steady(S(), dwm, shaped) && Continues(old(S()), S())
      ensures ContextClosed(old(S()), u, S(), context, dwm, shaped)
    {
      hide Core, ShapedInv, AllOrderly, Continues, Completes, CloseContext;
      ghost var s := S();
      ContinuesRefl(s);
      ContextKnown(s, context);
      var id := presentByDxgkContext[context];
      if presents[id].mode == HardwareLegacyCopyToFrontBuffer {
        SeeDxgkPresentSteady(s, id, dwm, shaped);
        PutPresent(id, presents[id].(evidence := presents[id].evidence.(seenDxgkPresent := true)));
        ghost var t := S();
        if HasScreenTime(presents[id]) {
          FinishHere(t, id, dwm, shaped);
          CompletesKeys(t, S(), id, dwm, shaped);
          ContinuesTransitive(s, t, S());
        }
      }
      u := S();
      CloseContextSteady(u, id, context, dwm, shaped);
      ContinuesTransitive(s, u, CloseContext(u, id, context));
      ForgetContext(id, context);
    }

    method FinishHere(ghost t: State, id: Id, ghost dwm: nat, ghost shaped: bool)
      requires Valid() && t == S() && Steady(S(), dwm, shaped) && id in presents
      modifies this, completed, completed.slots
      ensures Valid() && Steady(S(), dwm, shaped) && Continues(t, S()) && Completes(t, S(), id, dwm, shaped)
    {
      hide Steady, Continues, Callable, Achieved, Traced, Singly;
      FinishPresent(id, dwm, shaped);
    }

    method ForgetContext(id: Id, context: nat)
      requires Valid() && id in presents
      modifies this`presents, this`presentByDxgkContext
      ensures Valid() && S() == CloseContext(old(S()), id, context)
    {
      if presents[id].keys.dxgkContext != 0 {
        presentByDxgkContext := presentByDxgkContext - {context};
        presents := presents[id := WithKeys(presents[id], presents[id].keys.(dxgkContext := 0))];
      }
    }

    method SubmitPresent(id: Id, sequence: nat, context: nat, win7: bool)
      requires Valid() && id in presents
      modifies this`presents, this`presentBySubmitSequence, this`presentByDxgkContext
      ensures Valid() && S() == Submit(old(S()), id, sequence, context, win7)
    {
      var k := presents[id].keys.(submitSequence := sequence);
      var presentsBySubmitSequence := if sequence in presentBySubmitSequence then presentBySubmitSequence[sequence] else map[];
      presentBySubmitSequence := presentBySubmitSequence[sequence := presentsBySubmitSequence[context := id]];
      if win7 && presents[id].mode == HardwareLegacyCopyToFrontBuffer {
        presentByDxgkContext := presentByDxgkContext[context := id];
        k := k.(dxgkContext := context);
      }
      presents := presents[id := WithKeys(presents[id], k)];
    }

    /** A packet is submitted to a queue; if it is a present's, its number finds the present from now on. */
    method HandleDxgkQueueSubmit(tid: nat, context: nat, sequence: nat, presentPacket: bool, win7: bool,
                                 ghost dwm: nat, ghost shaped: bool)
      returns (ghost u: State, ghost s1: State)
      requires Valid() && Steady(S(), dwm, shaped) && sequence != 0 && context != 0
      modifies this, completed, completed.slots
      ensures Valid() && Steady(S(), dwm, shaped) && Continues(old(S()), S())
      ensures if win7 && context in old(presentByDxgkContext) then ContextClosed(old(S()), u, s1, context, dwm, shaped)
              else s1 == old(S())
      ensures if presentPacket && tid in s1.ix.byThread && s1.ix.byThread[tid] in s1.presents
                 && s1.presents[s1.ix.byThread[tid]].keys.submitSequence == 0
              then S() == Submit(s1, s1.ix.byThread[tid], sequence, context, win7)
              else S() == s1
    {
      hide Core, ShapedInv, AllOrderly, Continues, ContextClosed, Submit;
      ghost var s := S();
      ContinuesRefl(s);
      u := s;
      if win7 && context in presentByDxgkContext {
        u := CloseContextOf(context, dwm, shaped);
      }
      s1 := S();
      if presentPacket && tid in presentByThreadId {
        ThreadKnown(s1, tid);
        var id := presentByThreadId[tid];
        if presents[id].keys.submitSequence == 0 {
          SubmitSteady(s1, id, sequence, context, win7, dwm, shaped);
          ContinuesTransitive(s, s1, Submit(s1, id, sequence, context, win7));
          SubmitPresent(id, sequence, context, win7);
        }
      }
    }

    /** The first Win32K event of a flip: a token of the composition surface finds the present from now on. */
    method TakeWin32KToken(id: Id, token: Win32KToken, ghost dwm: nat, ghost shaped: bool)
      requires Valid() && Steady(S(), dwm, shaped) && id in presents
      requires token.luid != 0 && !presents[id].evidence.seenWin32KEvents
      modifies this`presents, this`presentByWin32KToken
      ensures Valid() && S() == TakeWin32K(old(S()), id, token)
      ensures Steady(S(), dwm, shaped) && Continues(old(S()), S())
    {
      hide Steady, Continues;
      TakeWin32KSteady(S(), id, token, dwm, shaped);
      var p := presents[id];
      presents := presents[id := p.(mode := ComposedFlip, evidence := p.evidence.(seenWin32KEvents := true),
                                    keys := p.keys.(win32K := token))];
      presentByWin32KToken := presentByWin32KToken[token := id];
    }

    method EraseWin32KToken(id: Id, token: Win32KToken)
      requires Valid() && id in presents
      modifies this`presents, this`presentByWin32KToken
      ensures Valid() && S() == DropWin32K(old(S()), id, token)
    {
      presents := presents[id := WithKeys(presents[id], presents[id].keys.(win32K := NO_TOKEN))];
      presentByWin32KToken := presentByWin32KToken - {token};
    }

    /** The token is discarded; a flip never composed is discarded with it. */
    method HandleTokenDiscarded(token: Win32KToken, ghost dwm: nat, ghost shaped: bool)
      requires Valid() && Steady(S(), dwm, shaped)
      modifies this, completed, completed.slots
      ensures Valid() && Steady(S(), dwm, shaped) && Continues(old(S()), S())
      ensures TokenDiscarded(old(S()), S(), token, dwm, shaped)
    {
      hide Core, ShapedInv, AllOrderly, Continues, Completes, DropWin32K;
      ghost var s := S();
      ContinuesRefl(s);
      if token in presentByWin32KToken {
        DropWin32KSteady(s, token, dwm, shaped);
        var id := presentByWin32KToken[token];
        DroppedRecord(s, id, token);
        EraseWin32KToken(id, token);
        ghost var t := S();
        if !presents[id].evidence.seenInFrameEvent && presents[id].finalState == ResultUnknown {
          DecideAndFinish(id, Discarded, dwm, shaped);
          ContinuesTransitive(s, t, S());
        } else if presents[id].mode != ComposedFlip {
          FinishHere(t, id, dwm, shaped);
          ContinuesTransitive(s, t, S());
        }
      }
    }

    /** A newer present of the window is composed: this one is discarded, unless it has a screen time already. */
    method WithdrawPresent(id: Id, ghost dwm: nat, ghost shaped: bool)
      requires Valid() && Steady(S(), dwm, shaped) && id in presents && presents[id].keys.dxgkContext == 0
      modifies this`presents, this`presentBySubmitSequence
      ensures Valid() && S() == Withdraw(old(S()), id, if HasScreenTime(old(presents)[id]) then old(presents)[id].finalState else Discarded)
      ensures Steady(S(), dwm, shaped) && Continues(old(S()), S())
    {
      hide Core, ShapedInv, AllOrderly, Continues, EraseSubmit, OnlyOnce, Withdraw;
      var outcome := if HasScreenTime(presents[id]) then presents[id].finalState else Discarded;
      WithdrawSteady(S(), id, outcome, dwm, shaped);
      if presents[id].keys.submitSequence in presentBySubmitSequence { SubmittedOnce(S(), id); }
      WithdrawAs(id, outcome);
    }

    method WithdrawAs(id: Id, outcome: PresentResult)
      requires Valid() && id in presents
      requires presents[id].keys.submitSequence in presentBySubmitSequence ==>
                 OnlyOnce(presentBySubmitSequence[presents[id].keys.submitSequence], id)
      modifies this`presents, this`presentBySubmitSequence
      ensures Valid() && S() == Withdraw(old(S()), id, outcome)
    {
      hide EraseSubmit, OnlyOnce;
      ghost var p := presents[id];
      presents := presents[id := presents[id].(finalState := outcome)];
      RemovePresentFromSubmitSequenceIdTracking(id);
      assert presents == old(presents)[id := p.(finalState := outcome, keys := p.keys.(submitSequence := 0))];
      assert Ix() == old(Ix()).(bySubmit := EraseSubmit(old(presentBySubmitSequence), id, p.keys.submitSequence));
    }

    /**
     The kernel announces a history token for the present; whichever present had it before is lost.  If that
     completed this present, too, the index is left with a token that the present does not carry any more.
     */
    method TakeDxgkToken(id: Id, token: nat, ghost dwm: nat, ghost shaped: bool) returns (ghost s1: State)
      requires Valid() && Steady(S(), dwm, shaped) && id in presents && presents[id].keys.dxgkToken == 0 && token != 0
      modifies this, completed, completed.slots
      ensures Valid() && Steady(S(), dwm, shaped) && Continues(old(S()), S())
      ensures MadeRoom(NoteDxgkToken(old(S()), id, token), s1, At(old(presentByDxgkToken), token), dwm, shaped)
      ensures id in s1.presents && S() == EnterDxgkToken(s1, id, token)
    {
      hide Core, ShapedInv, AllOrderly, Continues, RemovedLost, LossTraced;
      ghost var s := S();
      NoteDxgkTokenSteady(s, id, token, dwm, shaped);
      PutPresent(id, WithKeys(presents[id], presents[id].keys.(dxgkToken := token)));
      ghost var t := S();
      if token in presentByDxgkToken {
        TokenKnown(t, token);
        LosePresent(presentByDxgkToken[token], dwm, shaped);
        ContinuesTransitive(s, t, S());
      }
      s1 := S();
      RoomKeeps(t, s1, At(old(presentByDxgkToken), token), id, dwm, shaped);
      EnterDxgkTokenSteady(s1, id, token, dwm, shaped);
      ContinuesTransitive(s, s1, EnterDxgkToken(s1, id, token));
      presentByDxgkToken := presentByDxgkToken[token := id];
    }

    /** A present redirected by the processor is also known by the data of its token. */
    method TakeDxgkTokenData(id: Id, data: nat, ghost dwm: nat, ghost shaped: bool)
      requires Valid() && Steady(S(), dwm, shaped) && id in presents && data != 0
      requires presents[id].keys.dxgkToken != 0 && presents[id].keys.dxgkTokenData == 0
      modifies this`presents, this`presentByDxgkTokenData
      ensures Valid() && S() == TakeTokenData(old(S()), id, data)
      ensures Steady(S(), dwm, shaped) && Continues(old(S()), S())
    {
      hide Steady, Continues;
      TakeTokenDataSteady(S(), id, data, dwm, shaped);
      presentByDxgkTokenData := presentByDxgkTokenData[data := id];
      presents := presents[id := WithKeys(presents[id], presents[id].keys.(dxgkTokenData := data))];
    }

    /** The token is handed to the compositor. */
    method HandleDxgkPresentHistoryInfo(token: nat, ghost dwm: nat, ghost shaped: bool)
      requires Valid() && Steady(S(), dwm, shaped)
      modifies this`presentByDxgkToken
      ensures Valid() && S() == ForgetDxgkToken(old(S()), token)
      ensures Steady(S(), dwm, shaped) && Continues(old(S()), S())
    {
      hide Steady, Continues;
      ForgetDxgkTokenSteady(S(), token, dwm, shaped);
      presentByDxgkToken := presentByDxgkToken - {token};
    }

    /** The compositor's flip chain took over the present with the data. */
    method HandleFlipChain(data: nat, ghost dwm: nat, ghost shaped: bool)
      requires Valid() && Steady(S(), dwm, shaped)
      modifies this`presents, this`presentByDxgkTokenData
      ensures Valid() && Steady(S(), dwm, shaped) && Continues(old(S()), S())
      ensures if data in old(presentByDxgkTokenData) then
                old(presentByDxgkTokenData)[data] in old(presents)
                && S() == DropTokenData(old(S()), old(presentByDxgkTokenData)[data], data)
              else S() == old(S())
    {
      hide Steady, Continues;
      ghost var s := S();
      ContinuesRefl(s);
      if data in presentByDxgkTokenData {
        DropTokenDataSteady(s, data, dwm, shaped);
        var id := presentByDxgkTokenData[data];
        presents := presents[id := WithKeys(presents[id], presents[id].keys.(dxgkTokenData := 0))];
        presentByDxgkTokenData := presentByDxgkTokenData - {data};
      }
    }

    /** A flip of the compositor: what waited for it now depends on it. */
    method ComposePresents(id: Id, waiting: seq<Id>, ghost dwm: nat, ghost shaped: bool)
      requires Valid() && Steady(S(), dwm, shaped) && id in presents && forall d :: d in waiting ==> d in presents
      requires shaped ==> presents[id].pid == dwm && forall d :: d in waiting ==> presents[d].pid != dwm
      modifies this`presents
      ensures Valid() && S() == Compose(old(S()), id, waiting)
      ensures Steady(S(), dwm, shaped) && Continues(old(S()), S())
    {
      hide Steady, Continues;
      ComposeSteady(S(), id, waiting, dwm, shaped);
      presents := presents[id := presents[id].(dependents := waiting)];
    }

    /** The layer shows another present: this one and its dependents will see no more flip frame types. */
    method EndFlipFrameTypes(id: Id, ghost dwm: nat, ghost shaped: bool)
      requires Valid() && Steady(S(), dwm, shaped) && id in presents
      modifies this, completed
      ensures Valid() && Steady(S(), dwm, shaped) && Continues(old(S()), S())
      ensures FlipFrameTypesEnded(old(S()), S(), id, dwm, shaped)
    {
      hide Core, ShapedInv, AllOrderly, Continues, StopTracking, UpdateReady;
      ghost var s := S();
      NoteDoneSteady(s, id, dwm, shaped);
      PutPresent(id, presents[id].(doneWaitingForFlipFrameType := true));
      if presents[id].waitingForFlipFrameType {
        EndOwnWait(s, id, dwm, shaped);
        StopWaitIx(NoteDone(s, id), id, dwm, shaped);
        PutPresent(id, presents[id].(waitingForFlipFrameType := false));
        StopTrackingPresent(id);
        ghost var u := S();
        assert u == PresentSpec.StopTracking(StopWait(NoteDone(s, id), id), id);
        EndWaits(id, presents[id].dependents, dwm, shaped);
        ghost var v := S();
        UpdateReadySteady(v, dwm, shaped);
        UpdateReadyCount();
        ContinuesTransitive(s, u, v);
        ContinuesTransitive(s, v, S());
      }
    }

    method EndWaits(id: Id, deps: seq<Id>, ghost dwm: nat, ghost shaped: bool)
      requires Valid() && Steady(S(), dwm, shaped) && id in presents && presents[id].completed
      requires forall d :: d in deps ==> d in presents
      modifies this
      ensures Valid() && S() == EndDependents(old(S()), id, deps, dwm, shaped)
    {
      hide Core, ShapedInv, AllOrderly, Continues, StopTracking;
      for i := 0 to |deps|
        invariant Valid() && Steady(S(), dwm, shaped) && id in presents && presents[id].completed
        invariant forall d :: d in deps ==> d in presents
        invariant EndDependents(S(), id, deps[i..], dwm, shaped) == EndDependents(old(S()), id, deps, dwm, shaped)
      {
        ghost var s := S();
        assert deps[i..][0] == deps[i] && deps[i..][1..] == deps[i + 1..];
        StopWaitSteady(s, deps[i], dwm, shaped);
        StopWaitIx(s, deps[i], dwm, shaped);
        PutPresent(deps[i], presents[deps[i]].(waitingForFlipFrameType := false));
        ghost var s1 := S();
        StopTrackingSteady(s1, id, dwm, shaped);
        StopTrackingPresent(id);
        KeptByTracking(s1, id, dwm, shaped);
      }
    }

    /** Flip frame types are reported on this system. */
    method EnableFlipFrameTypeEvents(ghost dwm: nat, ghost shaped: bool)
      requires Valid() && Steady(S(), dwm, shaped)
      modifies this`enableFlipFrameTypeEvents
      ensures Valid() && S() == old(S()).(flipEvents := true)
      ensures Steady(S(), dwm, shaped) && Continues(old(S()), S())
    {
      hide Steady, Continues;
      EnableSteady(S(), dwm, shaped);
      enableFlipFrameTypeEvents := true;
    }

    /** The output thread takes the ready presents between two events. */
    method TakeReady(ghost dwm: nat, ghost shaped: bool) returns (out: seq<Id>)
      requires Valid() && Steady(S(), dwm, shaped)
      modifies completed, completed.slots
      ensures Valid() && S() == old(S()).(ring := Dequeue(old(completed.Value())))
      ensures out == old(completed.Queue())[..old(completed.ready)]
      ensures Steady(S(), dwm, shaped) && Continues(old(S()), S())
    {
      hide Steady, Continues;
      DequeueSteady(S(), dwm, shaped);
      out := DequeuePresentEvents();
    }

    /** Once no handler is active any more, everything is forgotten. */
    method ResetPresentTrackingData()
      requires Valid()
      modifies this, completed, completed.slots
      ensures Valid() && S() == Blank(cfg) && forall dwm, shaped :: Steady(S(), dwm, shaped)
    {
      hide Steady;
      BlankSteady(cfg);
      completed.Reset();
      ClearTracking();
    }

    method ClearTracking()
      requires Valid() && completed.Value() == Ring([], 0, 0, [])
      modifies this
      ensures Valid() && S() == Blank(cfg)
    {
      presents, log, released := map[], [], [];
      hasCompletedAPresent, enableFlipFrameTypeEvents := false, false;
      ClearTracked();
      ClearIndexes();
    }

    method ClearTracked()
      requires Valid()
      modifies this`trackedPresents, this`nextFreeRingIndex
      ensures Valid() && trackedPresents == Blank(cfg).ix.tracked && nextFreeRingIndex == 0
    {
      trackedPresents := seq(cfg.capacity, _ => None);
      nextFreeRingIndex := 0;
    }

    method ClearIndexes()
      modifies this`presentByThreadId, this`orderedPresentsByProcessId, this`presentBySubmitSequence,
               this`presentByWin32KToken, this`presentByDxgkToken, this`presentByDxgkTokenData, this`presentByDxgkContext
      ensures Ix() == Indexes(trackedPresents, map[], map[], map[], map[], map[], map[], map[])
    {
      presentByThreadId, orderedPresentsByProcessId, presentBySubmitSequence := map[], map[], map[];
      presentByWin32KToken, presentByDxgkToken, presentByDxgkTokenData, presentByDxgkContext := map[], map[], map[], map[];
    }
  }

  /** The present was submitted to at most one context, and the index holds no empty entry. */
  ghost predicate OnlyOnce(inner: map<nat, Id>, id: Id) {
    inner != map[] && forall c, d :: c in inner && d in inner && inner[c] == id && inner[d] == id ==> c == d
  }

  lemma ClearedAnyway(k: Keys)
    ensures ClearKeys(k.(submitSequence := 0)) == ClearKeys(k)
  {
  }

  lemma EraseOne(inner: map<nat, Id>, c: nat, id: Id)
    requires OnlyOnce(inner, id) && c in inner && inner[c] == id && |inner| != 1
    ensures Others(inner, id) == inner - {c} && inner - {c} != map[]
  {
    assert (inner - {c}).Keys == inner.Keys - {c};
    assert |inner.Keys - {c}| == |inner.Keys| - 1;
  }

  lemma RetireReady(s: State, id: Id, pend: set<Id>)
    requires Core(s, pend + {id})
    ensures id in s.presents && IxOk(s.presents, s.ix) && RingIndexOk(s, id)
    ensures s.ring.ready <= |s.ring.queue|
  {
    StopTrackingRingIndex(s, id);
  }

  lemma ThreadKnown(s: State, t: nat)
    requires Core(s, {}) && t in s.ix.byThread
    ensures s.ix.byThread[t] in s.presents
  {
    assert ThreadsOk(s.presents, s.ix.byThread);
  }

  lemma SlotKnown(s: State)
    requires Core(s, {}) && s.nextFree < |s.ix.tracked| && s.ix.tracked[s.nextFree].Some?
    ensures s.ix.tracked[s.nextFree].value in s.presents
  {
    assert TrackedOk(s.presents, s.ix.tracked);
  }

  lemma TrackedThread(s: State, id: Id, p: Present)
    requires s.nextFree < |s.ix.tracked|
    ensures id in Track(s, id, p).presents && Track(s, id, p).presents[id].tid == p.tid
    ensures Track(s, id, p).ix.byThread == s.ix.byThread
  {
  }

  lemma SubmittedKnown(s: State, sequence: nat, context: nat)
    requires Core(s, {}) && sequence in s.ix.bySubmit && context in s.ix.bySubmit[sequence]
    ensures s.ix.bySubmit[sequence][context] in s.presents
  {
    assert SubmitsOk(s.presents, s.ix.bySubmit);
  }

  lemma MatchNext(P: Presents, q: seq<Id>, i: nat, id: Id)
    requires id in P && i < |q| && forall e :: e in q ==> e in P
    ensures q[i] in q && MatchFrames(P, q[i..], id) == MatchFrames(MatchFrame(P, q[i], id), q[i + 1..], id)
  {
    assert q[i..][0] == q[i] && q[i..][1..] == q[i + 1..];
  }

  lemma MatchNone(P: Presents, none: seq<Id>, id: Id)
    requires id in P && none == []
    ensures MatchFrames(P, none, id) == P
  {
  }

  lemma TokenKnown(s: State, token: nat)
    requires Core(s, {}) && token in s.ix.byDxgkToken
    ensures s.ix.byDxgkToken[token] in s.presents
  {
    hide Distinct, DependentsKnown, Retired, OrderedInv, LogExact, LostFirst, RingInv, IxOk;
  }

  lemma SubmittedOnce(s: State, id: Id)
    requires Core(s, {}) && id in s.presents && s.presents[id].keys.submitSequence in s.ix.bySubmit
    ensures OnlyOnce(s.ix.bySubmit[s.presents[id].keys.submitSequence], id)
  {
  }
}
