/** How one call of CompletePresent may change the consumer, and how such changes compose. */
module PresentEvolution {
  import opened Wrappers
  import opened PresentSpec
  import opened PresentInv
  import opened PresentSteps

  // ---------------------------------------------------------------------------------------------
  // The last part of completing a present

  /** Out of tracking, into the ring; `taken` tells whether the output thread dequeued in between. */
  ghost function Finish(s: State, id: Id, pend: set<Id>, taken: bool): (s': State)
    requires Core(s, pend + {id}) && id !in pend
    ensures Core(s', pend)
  {
    StopTrackingRingIndex(s, id);
    StopTrackingKeeps(s, id, pend + {id});
    StopTrackingOrdered(s, id, pend + {id});
    var s1 := StopTracking(s, id);
    DequeueKeeps(s1, pend + {id});
    var s2 := if taken then s1.(ring := Dequeue(s1.ring)) else s1;
    InsertableOk(s2, id, pend + {id});
    MatchFrameIdsKeeps(s2, id, pend + {id});
    var s3 := MatchFrameIds(s2, id);
    MatchFrameIdsStart(s2, id);
    AddCompletedKeeps(s3, id, pend);
    var s4 := AddCompleted(s3, id);
    if Drops(s3.ring, s3.presents, id, s3.cfg) then s4 else Settle(s4, id, pend)
  }

  lemma MatchFrameIdsStart(s: State, id: Id)
    requires Insertable(s, id)
    ensures var s' := MatchFrameIds(s, id);
            && s'.presents[id].start == s.presents[id].start && s'.presents[id].pid == s.presents[id].pid
            && s'.presents[id].keys == s.presents[id].keys
            && s' == s.(presents := s'.presents)
  {
    var entries := s.ring.queue[s.ring.ready..];
    assert forall e :: e in entries ==> e in s.ring.queue;
    MatchFramesExact(s.presents, entries, id);
    assert s.presents[id].waitingForFrameId ==>
        Matched(s.presents[id], MatchFrames(s.presents, entries, id)[id], true);
  }

  /** The head stops waiting and stops being tracked, and the ready count moves past it. */
  ghost function LetGo(s: State, head: Id, cause: Id, pend: set<Id>): (s': State)
    requires Core(s, pend) && head in s.presents && s.presents[head].completed
    ensures Core(s', pend)
  {
    StopTrackingRingIndex(s, head);
    ClearDeferralKeeps(s, head, pend);
    var s1 := ClearDeferral(s, head);
    UpdateReadyKeeps(s1, pend);
    var s2 := s1.(ring := UpdateReady(s1.ring, s1.presents));
    CoreRecorded(s2, LetOff(head, cause), pend);
    Record(s2, LetOff(head, cause))
  }

  function Record(s: State, r: LetOff): State {
    s.(released := s.released + [r])
  }

  lemma CoreRecorded(s: State, r: LetOff, pend: set<Id>)
    requires Core(s, pend)
    ensures Core(Record(s, r), pend)
  {
    hide Distinct, DependentsKnown, Retired, TokensOk, Keyed, Covers, OnlyPending, LogExact, LostFirst, ReadyOk, OneWaiting, IxOk, Fifo, Fair;
  }

  /** The ready count moves; a head that has waited too long stops waiting. */
  ghost function Settle(s: State, id: Id, pend: set<Id>): (s': State)
    requires Core(s, pend) && id in s.presents
    ensures Core(s', pend)
  {
    UpdateReadyKeeps(s, pend);
    var s1 := s.(ring := UpdateReady(s.ring, s.presents));
    if s1.ring.ready == 0 && s1.ring.queue != [] then
      var head := s1.ring.queue[0];
      HeadCompleted(s1);
      if TooOld(s1, head, s1.presents[id].start) then LetGo(s1, head, id, pend) else s1
    else s1
  }

  lemma HeadCompleted(s: State)
    requires ReadyOk(s.presents, s.ring) && s.ring.queue != []
    ensures s.ring.queue[0] in s.presents && s.presents[s.ring.queue[0]].completed
  {
  }

  // ---------------------------------------------------------------------------------------------
  // Evolution

  ghost predicate Grows(p: Present, q: Present) {
    && q.start == p.start && q.pid == p.pid && q.tid == p.tid && q.swapChain == p.swapChain
    && q.frameId == p.frameId && q.runtime == p.runtime && q.timeInPresent == p.timeInPresent && q.mode == p.mode
    && (q.dependents == p.dependents || q.dependents == [])
    && (p.completed ==> q.completed && q.finalState == p.finalState && q.displayed == p.displayed)
    && (p.lost ==> q.lost)
    && q.evidence == p.evidence
    && (q.keys == p.keys || q.keys == ClearKeys(p.keys))
  }

  /** Presents in progress are untouched, except those in `open`, which are still to be completed. */
  ghost predicate PresentsEvolve(P: Presents, Q: Presents, pend: set<Id>, open: set<Id>) {
    && P.Keys == Q.Keys
    && (forall a :: a in P ==> Grows(P[a], Q[a]))
    && (forall a :: a in P && !Q[a].completed && a !in open ==> Q[a] == P[a])
    && (forall a :: a in P && a in pend ==> Q[a] == P[a].(lost := Q[a].lost))
  }

  /** What is on the call stack stays where it is in the ordered maps. */
  ghost predicate StackKept(P: Presents, O: Ordered, O': Ordered, pend: set<Id>) {
    forall a :: a in pend && a in P ==> (InOrdered(O, P[a]) <==> InOrdered(O', P[a]))
  }

  ghost predicate Evolves(s: State, s': State, pend: set<Id>, open: set<Id>) {
    && StackKept(s.presents, s.ix.ordered, s'.ix.ordered, pend)
    && s'.cfg == s.cfg && s'.flipEvents == s.flipEvents && s'.nextFree == s.nextFree
    && (s.hasCompleted ==> s'.hasCompleted)
    && s.log <= s'.log && s.ring.removed <= s'.ring.removed && s.released <= s'.released
    && PresentsEvolve(s.presents, s'.presents, pend, open)
  }

  lemma EvolvesTransitive(a: State, b: State, c: State, pend: set<Id>, open: set<Id>)
    requires Evolves(a, b, pend, open) && Evolves(b, c, pend, {})
    requires forall x :: x in open && x in c.presents ==> c.presents[x].completed
    ensures Evolves(a, c, pend, {})
  {
    PresentsEvolveTransitive(a.presents, b.presents, c.presents, pend, open);
    hide PresentsEvolve;
  }

  lemma EvolvesStep(a: State, b: State, c: State, pend: set<Id>, open: set<Id>)
    requires Evolves(a, b, pend, open) && Evolves(b, c, pend, {})
    ensures Evolves(a, c, pend, open)
  {
    PresentsEvolveStep(a.presents, b.presents, c.presents, pend, open);
    hide PresentsEvolve;
  }

  lemma PresentsEvolveStep(P: Presents, Q: Presents, R: Presents, pend: set<Id>, open: set<Id>)
    requires PresentsEvolve(P, Q, pend, open) && PresentsEvolve(Q, R, pend, {})
    ensures PresentsEvolve(P, R, pend, open)
  {
    forall x | x in P
      ensures Grows(P[x], R[x])
      ensures !R[x].completed && x !in open ==> R[x] == P[x]
      ensures x in pend ==> R[x] == P[x].(lost := R[x].lost)
    {
      assert Grows(P[x], Q[x]) && Grows(Q[x], R[x]);
    }
  }

  lemma PresentsEvolveTransitive(P: Presents, Q: Presents, R: Presents, pend: set<Id>, open: set<Id>)
    requires PresentsEvolve(P, Q, pend, open) && PresentsEvolve(Q, R, pend, {})
    requires forall x :: x in open && x in R ==> R[x].completed
    ensures PresentsEvolve(P, R, pend, {})
  {
    hide Grows;
    PresentsEvolveStep(P, Q, R, pend, open);
  }

  lemma EvolvesRefl(s: State, pend: set<Id>)
    ensures Evolves(s, s, pend, {})
  {
  }

  lemma EvolvesFewer(s: State, s': State, pend: set<Id>, fewer: set<Id>, open: set<Id>)
    requires Evolves(s, s', pend, open) && fewer <= pend
    ensures Evolves(s, s', fewer, open)
  {
  }

  lemma EvolvesMore(s: State, s': State, pend: set<Id>, open: set<Id>, more: set<Id>)
    requires Evolves(s, s', pend, open) && open <= more
    ensures Evolves(s, s', pend, more)
  {
  }

  lemma MarkCompletedEvolves(s: State, id: Id, pend: set<Id>)
    requires id in s.presents && !s.presents[id].completed && id !in pend
    ensures Evolves(s, MarkCompleted(s, id), pend, {})
  {
  }

  lemma LoseAllEvolves(s: State, ids: seq<Id>, pend: set<Id>)
    requires forall d :: d in ids ==> d in s.presents
    ensures Evolves(s, s.(presents := LoseAll(s.presents, ids)), pend, set d | d in ids)
  {
    hide LoseAll;
    LoseAllExact(s.presents, ids);
    var P, Q := s.presents, LoseAll(s.presents, ids);
    var open := set d | d in ids;
    forall a | a in P
      ensures Grows(P[a], Q[a]) && (a !in open ==> Q[a] == P[a]) && Q[a] == P[a].(lost := Q[a].lost)
    {
      assert Q[a] == if a in ids then P[a].(lost := true) else P[a];
    }
    assert PresentsEvolve(P, Q, pend, open) by { hide Grows; }
  }

  lemma PropagateEvolves(s: State, deps: seq<Id>, parent: Present, pend: set<Id>)
    requires forall d :: d in deps ==> d in s.presents
    requires forall a :: a in pend && a in s.presents ==> s.presents[a].completed
    ensures Evolves(s, s.(presents := Propagate(s.presents, deps, {}, parent)), pend, set d | d in deps)
  {
    hide Propagate;
    PropagateExact(s.presents, deps, {}, parent);
    var Q := Propagate(s.presents, deps, {}, parent);
    forall a | a in s.presents
      ensures Grows(s.presents[a], Q[a]) && (s.presents[a].completed ==> Q[a] == s.presents[a])
    {
      assert Propagated(s.presents[a], Q[a]);
    }
  }

  lemma ClearDependentsEvolves(s: State, id: Id, pend: set<Id>)
    requires id in s.presents && s.presents[id].completed && id !in pend
    ensures Evolves(s, With(s, id, s.presents[id].(dependents := [])), pend, {})
  {
  }

  /** Only the present's own entry leaves the ordered map. */
  lemma StackStays(P: Presents, O: Ordered, id: Id, pend: set<Id>)
    requires Distinct(P) && id in P && id !in pend
    ensures StackKept(P, O, EraseOrdered(O, P[id]), pend)
  {
  }

  lemma StopTrackingEvolves(s: State, id: Id, pend: set<Id>)
    requires Distinct(s.presents) && id in s.presents && s.presents[id].completed && id !in pend && RingIndexOk(s, id)
    ensures Evolves(s, StopTracking(s, id), pend, {})
  {
    hide Distinct, StackKept;
    StackStays(s.presents, s.ix.ordered, id, pend);
  }

  lemma MatchFramesEvolves(P: Presents, entries: seq<Id>, id: Id, pend: set<Id>)
    requires id in P && P[id].completed && id !in pend && id !in entries
    requires forall q :: q in entries ==> q in P && q !in pend && P[q].completed
    ensures PresentsEvolve(P, MatchFrames(P, entries, id), pend, {})
  {
    MatchFramesExact(P, entries, id);
    var Q := MatchFrames(P, entries, id);
    hide MatchFrames;
    forall a | a in P
      ensures Grows(P[a], Q[a]) && (!Q[a].completed || a in pend ==> Q[a] == P[a])
    {
      assert Matched(P[a], Q[a], a == id);
    }
    hide Grows;
    assert forall a :: a in P && a in pend ==> Q[a] == P[a].(lost := Q[a].lost);
  }

  lemma MatchFrameIdsEvolves(s: State, id: Id, pend: set<Id>)
    requires Insertable(s, id) && s.presents[id].completed && id !in pend
    requires forall q :: q in s.ring.queue ==> q !in pend && s.presents[q].completed
    ensures Evolves(s, MatchFrameIds(s, id), pend, {})
  {
    var entries := s.ring.queue[s.ring.ready..];
    assert forall e :: e in entries ==> e in s.ring.queue;
    if s.presents[id].waitingForFrameId {
      MatchFramesEvolves(s.presents, entries, id, pend);
      hide PresentsEvolve;
    }
  }

  lemma ClearDeferralEvolves(s: State, id: Id, pend: set<Id>)
    requires Distinct(s.presents) && id in s.presents && s.presents[id].completed && id !in pend && RingIndexOk(s, id)
    ensures Evolves(s, ClearDeferral(s, id), pend, {})
  {
    hide Distinct, StackKept, EraseThreads, EraseSubmit, EraseOrdered;
    StackStays(s.presents, s.ix.ordered, id, pend);
    ErasedOwn(s, id);
  }

  lemma ErasedOwn(s: State, id: Id)
    requires id in s.presents && RingIndexOk(s, id)
    ensures RingIndexOk(EndWait(s, id), id)
    ensures ClearDeferral(s, id).ix.ordered == EraseOrdered(s.ix.ordered, s.presents[id])
  {
  }

  lemma SettleEvolves(s: State, id: Id, pend: set<Id>)
    requires Core(s, pend) && id in s.presents
    ensures Evolves(s, Settle(s, id, pend), pend, {})
    ensures Settle(s, id, pend).log == s.log && Settle(s, id, pend).hasCompleted == s.hasCompleted
    ensures Settle(s, id, pend).ring.removed == s.ring.removed
  {
    hide Evolves, LetGo, PresentsEvolve;
    UpdateReadyKeeps(s, pend);
    var s1 := s.(ring := UpdateReady(s.ring, s.presents));
    EvolvesRefl(s, pend);
    EvolvesRing(s, s, s1.ring, pend);
    if s1.ring.ready == 0 && s1.ring.queue != [] {
      var head := s1.ring.queue[0];
      HeadCompleted(s1);
      HeadNotPending(s1, pend);
      if TooOld(s1, head, s1.presents[id].start) {
        LetGoEvolves(s1, head, id, pend);
        EvolvesTransitive(s, s1, LetGo(s1, head, id, pend), pend, {});
      }
    }
  }

  lemma LetGoEvolves(s: State, head: Id, cause: Id, pend: set<Id>)
    requires Core(s, pend) && head in s.presents && s.presents[head].completed && head !in pend
    ensures var s' := LetGo(s, head, cause, pend);
            && Evolves(s, s', pend, {}) && s'.log == s.log && s'.hasCompleted == s.hasCompleted && s'.ring.removed == s.ring.removed
  {
    hide PresentsEvolve;
    StopTrackingRingIndex(s, head);
    ClearDeferralEvolves(s, head, pend);
    hide Core, Evolves;
    var s2 := ClearDeferral(s, head);
    ClearDeferralKeeps(s, head, pend);
    UpdateReadyKeeps(s2, pend);
    EvolvesRing(s, s2, UpdateReady(s2.ring, s2.presents), pend);
    EvolvesRecord(s, s2.(ring := UpdateReady(s2.ring, s2.presents)), LetOff(head, cause), pend);
  }

  lemma EvolvesRecord(s: State, s': State, r: LetOff, pend: set<Id>)
    requires Evolves(s, s', pend, {})
    ensures Evolves(s, Record(s', r), pend, {})
  {
    hide PresentsEvolve;
  }

  lemma EvolvesRing(s: State, s': State, r: Ring, pend: set<Id>)
    requires Evolves(s, s', pend, {}) && s'.ring.removed <= r.removed
    ensures Evolves(s, s'.(ring := r), pend, {})
  {
  }

  lemma HeadNotPending(s: State, pend: set<Id>)
    requires Fifo(s.ring, s.log) && LogExact(s.presents, s.log, pend)
    ensures forall q :: q in s.ring.queue ==> q in s.presents && s.presents[q].completed && q !in pend
  {
    AcceptedInLog(s.log);
    forall q | q in s.ring.queue
      ensures q in LogIds(s.log)
    {
      assert q in RemovedIds(s.ring.removed) + s.ring.queue;
    }
  }

  lemma AddCompletedEvolves(s: State, id: Id, pend: set<Id>)
    requires Insertable(s, id)
    ensures Evolves(s, AddCompleted(s, id), pend, {})
  {
  }

  /** The present leaves tracking and takes over what matching ring entries hand on. */
  lemma FinishFirstHalf(s: State, id: Id, pend: set<Id>, taken: bool) returns (s3: State)
    requires Core(s, pend + {id}) && id !in pend
    ensures RingIndexOk(s, id)
    ensures var s1 := StopTracking(s, id);
            var s2 := if taken && s1.ring.ready <= |s1.ring.queue| then s1.(ring := Dequeue(s1.ring)) else s1;
            Insertable(s2, id) && s3 == MatchFrameIds(s2, id)
    ensures Core(s3, pend + {id}) && Insertable(s3, id) && Unmatched(s3.presents, s3.ring.queue, id)
    ensures !InOrdered(s3.ix.ordered, s3.presents[id]) && s3.presents[id].keys.ringIndex.None?
    ensures Evolves(s, s3, pend, {}) && s3.hasCompleted == s.hasCompleted && s3.log == s.log
    ensures SameOutcome(s.presents[id], s3.presents[id])
  {
    hide Core, Evolves, StopTracking, MatchFrameIds, RingIndexOk;
    LeaveTracking(s, id, pend, taken);
    var s1 := StopTracking(s, id);
    var s2 := if taken then s1.(ring := Dequeue(s1.ring)) else s1;
    MatchFrameIdsKeeps(s2, id, pend + {id});
    MatchFrameIdsStart(s2, id);
    MatchFrameIdsOutcome(s2, id);
    MatchFrameIdsEvolves(s2, id, pend);
    s3 := MatchFrameIds(s2, id);
    EvolvesTransitive(s, s2, s3, pend, {});
  }

  lemma LeaveTracking(s: State, id: Id, pend: set<Id>, taken: bool)
    requires Core(s, pend + {id}) && id !in pend
    ensures id in s.presents && RingIndexOk(s, id) && s.ring.ready <= |s.ring.queue|
    ensures var s1 := StopTracking(s, id);
            && s1.ring == s.ring
            && (var s2 := if taken then s1.(ring := Dequeue(s1.ring)) else s1;
                && Core(s2, pend + {id}) && Insertable(s2, id) && Evolves(s, s2, pend, {})
                && s2.hasCompleted == s.hasCompleted && s2.log == s.log
                && SameOutcome(s.presents[id], s2.presents[id]) && s2.presents[id].completed
                && !InOrdered(s2.ix.ordered, s2.presents[id]) && s2.presents[id].keys.ringIndex.None?
                && forall q :: q in s2.ring.queue ==> q in s2.presents && q !in pend && s2.presents[q].completed)
  {
    StopTrackingRingIndex(s, id);
    StopTrackingKeeps(s, id, pend + {id});
    StopTrackingOrdered(s, id, pend + {id});
    StopTrackingEvolves(s, id, pend);
    var s1 := StopTracking(s, id);
    assert SameOutcome(s.presents[id], s1.presents[id]) && s1.presents[id].completed;
    DequeueKeeps(s1, pend + {id});
    var s2 := if taken then s1.(ring := Dequeue(s1.ring)) else s1;
    HeadNotPending(s2, pend + {id});
    InsertableOk(s2, id, pend + {id});
    hide Core, Evolves, StopTracking;
    EvolvesRing(s, s1, s2.ring, pend);
  }

  /** Finishing a present changes no present in progress and none on the call stack. */
  lemma FinishEvolves(s: State, id: Id, pend: set<Id>, taken: bool)
    requires Core(s, pend + {id}) && id !in pend
    ensures var s' := Finish(s, id, pend, taken);
            && Evolves(s, s', pend, {}) && s'.hasCompleted == s.hasCompleted
            && |s'.log| == |s.log| + 1 && s'.log[|s.log|].id == id
            && SameOutcome(s.presents[id], s'.log[|s.log|].snapshot)
  {
    hide Core, Evolves, SameOutcome, MatchFrameIds, StopTrackingIx;
    var s3 := FinishFirstHalf(s, id, pend, taken);
    AddCompletedKeeps(s3, id, pend);
    AddCompletedEvolves(s3, id, pend);
    var s4 := AddCompleted(s3, id);
    assert s.ring.ready <= |s.ring.queue|;
    EvolvesTransitive(s, s3, s4, pend, {});
    if !Drops(s3.ring, s3.presents, id, s3.cfg) {
      SettleEvolves(s4, id, pend);
      EvolvesTransitive(s, s4, Settle(s4, id, pend), pend, {});
    }
  }

  /** No key leads to the present any more, and its thread does only while Present_Stop is awaited. */
  ghost predicate Forgotten(s: State, id: Id, keys: Keys, waits: bool) {
    && id in s.presents && s.presents[id].keys == ClearKeys(keys)
    && (forall t :: t in s.ix.byThread && s.ix.byThread[t] == id ==> waits)
    && (forall k :: k in s.ix.byDxgkToken ==> s.ix.byDxgkToken[k] != id)
  }

  lemma StopTrackingForgets(s: State, id: Id, pend: set<Id>)
    requires IxOk(s.presents, s.ix) && TokensOk(s.presents, s.ix.byDxgkToken, pend) && id in pend
    requires id in s.presents && RingIndexOk(s, id)
    ensures Forgotten(StopTracking(s, id), id, s.presents[id].keys, s.presents[id].waitingForPresentStop)
  {
  }

  /** Letting another present go, or the same one again, brings no entry back. */
  lemma ForgottenAfter(s: State, head: Id, id: Id, keys: Keys, waits: bool)
    requires Forgotten(s, id, keys, waits) && head in s.presents && RingIndexOk(s, head)
    ensures Forgotten(ClearDeferral(s, head), id, keys, waits)
  {
    hide EraseSubmit, EraseOrdered;
  }

  lemma SettleForgets(s: State, id: Id, pend: set<Id>, keys: Keys, waits: bool)
    requires Core(s, pend) && Forgotten(s, id, keys, waits)
    ensures Forgotten(Settle(s, id, pend), id, keys, waits)
  {
    UpdateReadyKeeps(s, pend);
    var s1 := s.(ring := UpdateReady(s.ring, s.presents));
    if s1.ring.ready == 0 && s1.ring.queue != [] {
      var head := s1.ring.queue[0];
      HeadCompleted(s1);
      if TooOld(s1, head, s1.presents[id].start) {
        StopTrackingRingIndex(s1, head);
        hide Core, ClearDeferral;
        ForgottenAfter(s1, head, id, keys, waits);
      }
    }
  }

  lemma FinishForgets(s: State, id: Id, pend: set<Id>, taken: bool)
    requires Core(s, pend + {id}) && id !in pend
    ensures Forgotten(Finish(s, id, pend, taken), id, s.presents[id].keys, s.presents[id].waitingForPresentStop)
  {
    hide Core, StopTracking, MatchFrameIds, Evolves, SameOutcome, RingIndexOk, Forgotten;
    LeaveTracking(s, id, pend, taken);
    LeaveForgotten(s, id, pend);
    var keys, waits := s.presents[id].keys, s.presents[id].waitingForPresentStop;
    var s3 := FinishFirstHalf(s, id, pend, taken);
    var s1 := StopTracking(s, id);
    var s2 := if taken then s1.(ring := Dequeue(s1.ring)) else s1;
    AddCompletedKeeps(s3, id, pend);
    MatchFrameIdsStart(s2, id);
    var s4 := AddCompleted(s3, id);
    ForgottenSame(s1, s4, id, keys, waits);
    if !Drops(s3.ring, s3.presents, id, s3.cfg) { SettleForgets(s4, id, pend, keys, waits); }
  }

  lemma LeaveForgotten(s: State, id: Id, pend: set<Id>)
    requires Core(s, pend + {id}) && id in s.presents && RingIndexOk(s, id)
    ensures Forgotten(StopTracking(s, id), id, s.presents[id].keys, s.presents[id].waitingForPresentStop)
  {
    hide Distinct, DependentsKnown, Retired, TokensOk, OrderedInv, LogExact, LostFirst, RingInv, IxOk, StopTracking, Forgotten;
    StopTrackingForgets(s, id, pend + {id});
  }

  lemma ForgottenSame(s: State, s': State, id: Id, keys: Keys, waits: bool)
    requires Forgotten(s, id, keys, waits) && s'.ix == s.ix && id in s'.presents && s'.presents[id].keys == s.presents[id].keys
    ensures Forgotten(s', id, keys, waits)
  {
  }

  lemma MatchFrameIdsOutcome(s: State, id: Id)
    requires Insertable(s, id)
    ensures SameOutcome(s.presents[id], MatchFrameIds(s, id).presents[id])
  {
    var entries := s.ring.queue[s.ring.ready..];
    assert forall e :: e in entries ==> e in s.ring.queue;
    MatchFramesExact(s.presents, entries, id);
    assert s.presents[id].waitingForFrameId ==>
        Matched(s.presents[id], MatchFrames(s.presents, entries, id)[id], true);
  }

  /** What the output thread sees of a present is what was decided before it stopped being tracked. */
  ghost predicate SameOutcome(p: Present, q: Present) {
    && q.completed == p.completed && q.lost == p.lost
    && q.finalState == p.finalState && q.displayed == p.displayed
    && q.waitingForPresentStop == p.waitingForPresentStop
    && q.waitingForFlipFrameType == p.waitingForFlipFrameType
    && q.waitingForFrameId == p.waitingForFrameId
  }

  // ---------------------------------------------------------------------------------------------
  // Finishing and the order of displayed presents

  lemma MatchFrameIdsSoft(s: State, id: Id)
    requires Insertable(s, id)
    ensures SoftChange(s.presents, MatchFrameIds(s, id).presents)
  {
    var entries := s.ring.queue[s.ring.ready..];
    assert forall e :: e in entries ==> e in s.ring.queue;
    if s.presents[id].waitingForFrameId { MatchFramesSoft(s.presents, entries, id); }
  }

  lemma SettleSoft(s: State, id: Id, pend: set<Id>)
    requires Core(s, pend) && id in s.presents
    ensures SoftChange(s.presents, Settle(s, id, pend).presents)
  {
    UpdateReadyKeeps(s, pend);
    var s1 := s.(ring := UpdateReady(s.ring, s.presents));
    if s1.ring.ready == 0 && s1.ring.queue != [] {
      var head := s1.ring.queue[0];
      HeadCompleted(s1);
      if TooOld(s1, head, s1.presents[id].start) {
        StopTrackingRingIndex(s1, head);
        ClearDeferralSoft(s1, head);
        hide Core, SoftChange, ClearDeferral;
      }
    }
    hide SoftChange;
  }

  lemma ClearDeferralSoft(s: State, id: Id)
    requires id in s.presents && s.presents[id].completed && RingIndexOk(s, id)
    ensures SoftChange(s.presents, ClearDeferral(s, id).presents)
  {
    var p' := ClearDeferral(s, id).presents[id];
    SoftOne(s.presents, id, p');
  }

  /** Finishing completes nothing else. */
  lemma FinishSoft(s: State, id: Id, pend: set<Id>, taken: bool)
    requires Core(s, pend + {id}) && id !in pend
    ensures SoftChange(s.presents, Finish(s, id, pend, taken).presents)
  {
    StopTrackingRingIndex(s, id);
    StopTrackingSoft(s, id);
    var s3 := FinishFirstHalf(s, id, pend, taken);
    var s1 := StopTracking(s, id);
    var s2 := if taken then s1.(ring := Dequeue(s1.ring)) else s1;
    MatchFrameIdsSoft(s2, id);
    AddCompletedKeeps(s3, id, pend);
    assert s.ring.ready <= |s.ring.queue|;
    hide Core, SoftChange, StopTrackingIx, MatchFrameIds, Evolves, SameOutcome;
    SoftTransitive(s.presents, s1.presents, s3.presents);
    var s4 := AddCompleted(s3, id);
    if !Drops(s3.ring, s3.presents, id, s3.cfg) {
      SettleSoft(s4, id, pend);
      SoftTransitive(s.presents, s3.presents, Settle(s4, id, pend).presents);
    }
  }

  lemma AppendOrder(P: Presents, L: seq<Attempt>, entry: Attempt, pend: set<Id>)
    requires ChainOrder(P, L, pend + {entry.id}) && entry.id in P
    requires entry.snapshot.finalState == Presented ==> NoEarlier(P, pend, entry.id)
    ensures ChainOrder(P, L + [entry], pend)
  {
  }

  lemma FinishOrder(s: State, id: Id, pend: set<Id>, taken: bool, dwm: nat)
    requires Core(s, pend + {id}) && id !in pend && ShapedInv(s, pend + {id}, dwm)
    requires s.presents[id].finalState == Presented ==> NoEarlier(s.presents, pend, id)
    ensures ShapedInv(Finish(s, id, pend, taken), pend, dwm)
  {
    FinishSoft(s, id, pend, taken);
    FinishEvolves(s, id, pend, taken);
    OrderAfter(s, Finish(s, id, pend, taken), id, pend, dwm);
  }

  lemma OrderAfter(s: State, s': State, id: Id, pend: set<Id>, dwm: nat)
    requires ShapedInv(s, pend + {id}, dwm) && SoftChange(s.presents, s'.presents) && id in s.presents
    requires |s'.log| == |s.log| + 1 && s.log <= s'.log && s'.log[|s.log|].id == id
    requires s'.log[|s.log|].snapshot.finalState == s.presents[id].finalState
    requires s.presents[id].finalState == Presented ==> NoEarlier(s.presents, pend, id)
    ensures ShapedInv(s', pend, dwm)
  {
    hide ChainOrder, Shape, NoEarlier;
    SoftShape(s.presents, s'.presents, s.log, pend + {id}, dwm);
    var entry := s'.log[|s.log|];
    assert s'.log == s.log + [entry];
    if s.presents[id].finalState == Presented { SoftNoEarlier(s.presents, s'.presents, pend, id); }
    AppendOrder(s'.presents, s.log, entry, pend);
  }

  lemma SoftNoEarlier(P: Presents, Q: Presents, pend: set<Id>, id: Id)
    requires SoftChange(P, Q) && NoEarlier(P, pend, id)
    ensures NoEarlier(Q, pend, id)
  {
  }
}
