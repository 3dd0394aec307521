/** Every elementary step of completing a present keeps the invariants of PresentInv. */
module PresentSteps {
  import opened Wrappers
  import opened PresentSpec
  import opened PresentInv

  // ---------------------------------------------------------------------------------------------
  // Records of presents

  lemma MarkCompletedKeeps(s: State, id: Id, pend: set<Id>)
    requires Core(s, pend) && id in s.presents && !s.presents[id].completed
    requires s.hasCompleted || s.presents[id].lost
    ensures Core(MarkCompleted(s, id), pend + {id})
  {
    hide Distinct, DependentsKnown, Retired, TokensOk, OrderedInv, LogExact, LostFirst, RingInv, IxOk, MarkCompleted;
    MarkedRecord(s, id, pend);
    SoftIx(s.presents, MarkCompleted(s, id).presents, s.ix);
    MarkCompletedRecords(s, id, pend);
    MarkCompletedRing(s, id, pend);
    MarkedSlots(s.presents, MarkCompleted(s, id).presents, id, pend);
    MarkedTokens(s.presents, MarkCompleted(s, id).presents, s.ix.byDxgkToken, id, pend);
  }

  lemma MarkedRecord(s: State, id: Id, pend: set<Id>)
    requires id in s.presents
    ensures var s' := MarkCompleted(s, id);
            && SameKeys(s.presents, s'.presents) && s'.ix == s.ix && s'.log == s.log && s'.hasCompleted == s.hasCompleted
            && s'.presents == s.presents[id := s'.presents[id]] && s'.presents[id].completed
  {
  }

  lemma MarkedSlots(P: Presents, Q: Presents, id: Id, pend: set<Id>)
    requires Retired(P, pend) && id in P && id in Q && Q == P[id := Q[id]]
    ensures Retired(Q, pend + {id})
  {
  }

  lemma MarkedTokens(P: Presents, Q: Presents, index: map<nat, Id>, id: Id, pend: set<Id>)
    requires TokensOk(P, index, pend) && id in P && !P[id].completed && id in Q && Q == P[id := Q[id]] && Q[id].keys == P[id].keys
    ensures TokensOk(Q, index, pend + {id})
  {
  }

  lemma MarkCompletedRecords(s: State, id: Id, pend: set<Id>)
    requires Core(s, pend) && id in s.presents && !s.presents[id].completed
    requires s.hasCompleted || s.presents[id].lost
    ensures var s' := MarkCompleted(s, id);
            && Distinct(s'.presents) && DependentsKnown(s'.presents)
            && OrderedInv(s', pend + {id})
            && LostFirst(s'.presents, s'.hasCompleted)
  {
    hide RingInv, IxOk, LogExact, OrderedInv;
    MarkCompletedOrdered(s, id, pend);
  }

  lemma MarkCompletedOrdered(s: State, id: Id, pend: set<Id>)
    requires OrderedInv(s, pend) && id in s.presents
    ensures OrderedInv(MarkCompleted(s, id), pend + {id})
  {
  }

  lemma MarkCompletedRing(s: State, id: Id, pend: set<Id>)
    requires Core(s, pend) && id in s.presents && !s.presents[id].completed
    ensures var s' := MarkCompleted(s, id); RingInv(s') && LogExact(s'.presents, s'.log, pend + {id})
  {
    hide IxOk, OrderedInv, Distinct, DependentsKnown, LostFirst, Fifo;
    assert id !in pend;
  }

  /** A lost parent makes its dependents lost and changes nothing else. */
  lemma {:induction false} LoseAllExact(P: Presents, ids: seq<Id>)
    requires forall d :: d in ids ==> d in P
    ensures forall a :: a in P ==> LoseAll(P, ids)[a] == if a in ids then P[a].(lost := true) else P[a]
  {
    if ids != [] {
      LoseAllExact(P[ids[0] := P[ids[0]].(lost := true)], ids[1..]);
      assert forall a :: a in ids <==> a == ids[0] || a in ids[1..];
    }
  }

  lemma LoseAllSoft(P: Presents, ids: seq<Id>)
    requires forall d :: d in ids ==> d in P
    ensures SoftChange(P, LoseAll(P, ids)) && SameKeys(P, LoseAll(P, ids))
  {
    LoseAllExact(P, ids);
  }

  /** What propagation may write of a record: nothing once it is completed. */
  ghost predicate Propagated(p: Present, q: Present) {
    if p.completed then q == p
    else q == p.(finalState := q.finalState, displayed := q.displayed,
                 waitingForFlipFrameType := q.waitingForFlipFrameType,
                 doneWaitingForFlipFrameType := q.doneWaitingForFlipFrameType)
  }

  lemma {:induction false} PropagateExact(P: Presents, deps: seq<Id>, seen: set<nat>, parent: Present)
    requires forall d :: d in deps ==> d in P
    ensures forall a :: a in P ==> Propagated(P[a], Propagate(P, deps, seen, parent)[a])
    ensures forall a :: a in P && a !in deps ==> Propagate(P, deps, seen, parent)[a] == P[a]
    decreases |deps|
  {
    if deps != [] {
      var n := |deps| - 1;
      var d := deps[n];
      var P1 := P[d := PropagateOne(P[d], seen, parent)];
      var Q := Propagate(P1, deps[..n], SeenAfter(P[d], seen), parent);
      PropagateExact(P1, deps[..n], SeenAfter(P[d], seen), parent);
      assert forall a :: a in deps[..n] ==> a in deps;
      forall a | a in P
        ensures Propagated(P[a], Q[a])
      {
        assert Propagated(P[a], P1[a]) && Propagated(P1[a], Q[a]);
        hide Propagate, PropagateOne, SeenAfter;
      }
    }
  }

  lemma PropagateSoft(P: Presents, deps: seq<Id>, seen: set<nat>, parent: Present)
    requires forall d :: d in deps ==> d in P
    ensures SoftChange(P, Propagate(P, deps, seen, parent)) && SameKeys(P, Propagate(P, deps, seen, parent))
  {
    PropagateExact(P, deps, seen, parent);
  }

  // ---------------------------------------------------------------------------------------------
  // The end of tracking

  lemma StopTrackingRingIndex(s: State, id: Id)
    requires IxOk(s.presents, s.ix) && id in s.presents
    ensures RingIndexOk(s, id)
  {
  }

  lemma StopTrackingSoft(s: State, id: Id)
    requires id in s.presents && RingIndexOk(s, id)
    ensures SoftChange(s.presents, StopTracking(s, id).presents)
  {
  }

  /** The present leaves the ordered map of its process and nothing else leaves any ordered map. */
  lemma StopTrackingOrdered(s: State, id: Id, pend: set<Id>)
    requires Distinct(s.presents) && OrderedInv(s, pend) && id in s.presents && s.presents[id].completed && RingIndexOk(s, id)
    ensures OrderedInv(StopTracking(s, id), pend)
    ensures !InOrdered(StopTracking(s, id).ix.ordered, s.presents[id])
  {
    var P, O, p := s.presents, s.ix.ordered, s.presents[id];
    var Q, O' := StopTracking(s, id).presents, StopTracking(s, id).ix.ordered;
    assert O'.Keys == O.Keys;
    forall a | a in P && !P[a].completed
      ensures InOrdered(O', P[a])
    {
      assert a != id && InOrdered(O, P[a]);
      assert !(P[a].pid == p.pid && P[a].start == p.start);
    }
  }

  lemma StopTrackingTracked(s: State, id: Id)
    requires TrackedOk(s.presents, s.ix.tracked) && id in s.presents && RingIndexOk(s, id)
    ensures TrackedOk(StopTracking(s, id).presents, StopTracking(s, id).ix.tracked)
  {
  }

  lemma StopTrackingSubmits(P: Presents, bySubmit: map<nat, map<nat, Id>>, id: Id, p': Present)
    requires SubmitsOk(P, bySubmit) && id in P
    ensures SubmitsOk(P[id := p'], EraseSubmit(bySubmit, id, P[id].keys.submitSequence))
  {
    var after := EraseSubmit(bySubmit, id, P[id].keys.submitSequence);
    forall q, c | q in after && c in after[q]
      ensures after[q][c] in P && after[q][c] != id && P[after[q][c]].keys.submitSequence == q
    {
      assert q in bySubmit && c in bySubmit[q] && bySubmit[q][c] == after[q][c];
    }
  }

  lemma EraseSubmitOnce(bySubmit: map<nat, map<nat, Id>>, id: Id, sequence: nat)
    requires SubmitsOnce(bySubmit)
    ensures SubmitsOnce(EraseSubmit(bySubmit, id, sequence))
  {
  }

  lemma EraseKeyed(P: Presents, index: map<nat, Id>, key: Keys -> nat, id: Id, p': Present)
    requires KeyedBy(P, index, key) && 0 !in index && id in P
    ensures KeyedBy(P[id := p'], EraseUnlessZero(index, key(P[id].keys), id), key)
  {
  }

  lemma EraseWin32K(P: Presents, index: map<Win32KToken, Id>, id: Id, p': Present)
    requires KeyedBy(P, index, (k: Keys) => k.win32K) && id in P
    requires forall k :: k in index ==> k.luid != 0
    ensures var k := P[id].keys.win32K;
            KeyedBy(P[id := p'], if k.luid != 0 then EraseIf(index, k, id) else index, (k: Keys) => k.win32K)
  {
  }

  lemma StopTrackingIxOk(s: State, id: Id)
    requires IxOk(s.presents, s.ix) && id in s.presents && RingIndexOk(s, id)
    ensures IxOk(StopTracking(s, id).presents, StopTracking(s, id).ix)
  {
    var P, p := s.presents, s.presents[id];
    var p' := StopTracking(s, id).presents[id];
    assert ThreadsOk(StopTracking(s, id).presents, StopTracking(s, id).ix.byThread);
    hide TrackedOk, SubmitsOk, SubmitsOnce, KeyedBy, ThreadsOk, EraseSubmit;
    EraseSubmitOnce(s.ix.bySubmit, id, p.keys.submitSequence);
    StopTrackingTracked(s, id);
    StopTrackingSubmits(P, s.ix.bySubmit, id, p');
    EraseWin32K(P, s.ix.byWin32K, id, p');
    EraseKeyed(P, s.ix.byDxgkTokenData, (k: Keys) => k.dxgkTokenData, id, p');
    EraseKeyed(P, s.ix.byDxgkContext, (k: Keys) => k.dxgkContext, id, p');
  }

  /** A present that is being completed has no stale entry; other entries lead to completed presents as before. */
  lemma StopTrackingTokens(s: State, id: Id, pend: set<Id>)
    requires TokensOk(s.presents, s.ix.byDxgkToken, pend) && 0 !in s.ix.byDxgkToken
    requires id in s.presents && s.presents[id].completed && RingIndexOk(s, id)
    ensures TokensOk(StopTracking(s, id).presents, StopTracking(s, id).ix.byDxgkToken, pend)
  {
    hide EraseThreads, EraseOrdered, EraseSubmit;
  }

  lemma StopTrackingRetires(s: State, id: Id, pend: set<Id>)
    requires Retired(s.presents, pend) && id in s.presents && s.presents[id].completed && RingIndexOk(s, id)
    ensures Retired(StopTracking(s, id).presents, pend)
  {
    hide StopTrackingIx;
  }

  lemma StopTrackingKeeps(s: State, id: Id, pend: set<Id>)
    requires Core(s, pend) && id in s.presents && s.presents[id].completed && RingIndexOk(s, id)
    ensures Core(StopTracking(s, id), pend)
  {
    hide Distinct, DependentsKnown, Retired, TokensOk, Keyed, Covers, OnlyPending, LogExact, LostFirst, ReadyOk, OneWaiting, IxOk, SoftChange,
      Fifo, Fair, StopTrackingIx;
    var s' := StopTracking(s, id);
    NoZeroToken(s.presents, s.ix);
    StopTrackingSoft(s, id);
    StopTrackingOrdered(s, id, pend);
    StopTrackingIxOk(s, id);
    StopTrackingTokens(s, id, pend);
    StopTrackingRetires(s, id, pend);
    SoftRecords(s.presents, s'.presents);
    SoftLog(s.presents, s'.presents, s.log, pend, s.hasCompleted);
    SoftRing(s.presents, s'.presents, s.ring);
  }

  // ---------------------------------------------------------------------------------------------
  // Into the ring

  /** What matching may write: the propagated times, and in a ring entry the waiting flag, which it clears. */
  ghost predicate Matched(p: Present, q: Present, self: bool) {
    && q == p.(appPropagated := q.appPropagated, waitingForFrameId := q.waitingForFrameId)
    && (q.waitingForFrameId ==> p.waitingForFrameId)
    && (self ==> q.waitingForFrameId == p.waitingForFrameId)
  }

  ghost predicate MatchChange(P: Presents, Q: Presents, id: Id) {
    P.Keys == Q.Keys && forall a :: a in P ==> Matched(P[a], Q[a], a == id)
  }

  lemma MatchFrameExact(P: Presents, entry: Id, id: Id)
    requires entry in P && id in P && entry != id
    ensures MatchChange(P, MatchFrame(P, entry, id), id)
    ensures forall a :: a in P && a != id && a != entry ==> MatchFrame(P, entry, id)[a] == P[a]
    ensures !Matches(MatchFrame(P, entry, id)[entry], P[id])
  {
    var e, p := P[entry], P[id];
    assert Matched(p, TakeTimes(p, e), true);
    assert Matched(e, HandOn(e, p), false) && !HandOn(e, p).waitingForFrameId;
    hide TakeTimes, HandOn;
  }

  lemma {:induction false} MatchFramesExact(P: Presents, entries: seq<Id>, id: Id)
    requires id in P && id !in entries && forall e :: e in entries ==> e in P
    ensures MatchChange(P, MatchFrames(P, entries, id), id)
    ensures forall a :: a in P && a != id && a !in entries ==> MatchFrames(P, entries, id)[a] == P[a]
    ensures forall e :: e in entries ==> !Matches(MatchFrames(P, entries, id)[e], P[id])
    decreases |entries|
  {
    if entries != [] {
      var P1 := MatchFrame(P, entries[0], id);
      var Q := MatchFrames(P1, entries[1..], id);
      MatchFrameExact(P, entries[0], id);
      MatchFramesExact(P1, entries[1..], id);
      assert forall e :: e in entries <==> e == entries[0] || e in entries[1..];
      assert Q == MatchFrames(P, entries, id);
      hide MatchFrames, MatchFrame;
      forall a | a in P
        ensures Matched(P[a], Q[a], a == id)
      {
        assert Matched(P[a], P1[a], a == id) && Matched(P1[a], Q[a], a == id);
      }
      assert Matched(P[id], P1[id], true);
    }
  }

  lemma MatchFramesSoft(P: Presents, entries: seq<Id>, id: Id)
    requires id in P && id !in entries && forall e :: e in entries ==> e in P
    ensures var Q := MatchFrames(P, entries, id); SoftChange(P, Q) && SameKeys(P, Q)
  {
    hide MatchFrames;
    MatchFramesExact(P, entries, id);
    var Q := MatchFrames(P, entries, id);
    forall a | a in P
      ensures Soft(P[a], Q[a]) && Q[a].keys == P[a].keys && Q[a].tid == P[a].tid
    {
      assert Matched(P[a], Q[a], a == id);
    }
  }

  /** No entry of the same process is still waiting for a frame id when the present joins the ring. */
  ghost predicate Unmatched(P: Presents, q: seq<Id>, id: Id) {
    id in P && forall i :: 0 <= i < |q| && q[i] in P ==> !(P[id].waitingForFrameId && Matches(P[q[i]], P[id]))
  }

  lemma InsertableOk(s: State, id: Id, pend: set<Id>)
    requires Core(s, pend) && id in pend
    ensures Insertable(s, id)
  {
    hide Distinct, DependentsKnown, Retired, TokensOk, OrderedInv, LostFirst, IxOk, OneWaiting;
    AcceptedInLog(s.log);
    assert forall q :: q in s.ring.queue ==> q in RemovedIds(s.ring.removed) + s.ring.queue;
  }

  lemma {:induction false} AcceptedInLog(L: seq<Attempt>)
    ensures forall a :: a in Accepted(L) ==> a in LogIds(L)
  {
    if L != [] {
      var n := |L| - 1;
      AcceptedInLog(L[..n]);
      assert LogIds(L[..n]) <= LogIds(L);
      assert L[n].id in LogIds(L);
    }
  }

  /** Ready entries wait for nothing, and the other entries have been matched. */
  lemma MatchFramesUnmatched(P: Presents, q: seq<Id>, ready: nat, id: Id)
    requires id in P && id !in q && (forall e :: e in q ==> e in P) && ready <= |q|
    requires forall i :: 0 <= i < ready ==> !Waiting(P[q[i]])
    ensures Unmatched(MatchFrames(P, q[ready..], id), q, id)
  {
    hide MatchFrames;
    var entries := q[ready..];
    MatchFramesExact(P, entries, id);
    var Q := MatchFrames(P, entries, id);
    assert Matched(P[id], Q[id], true);
    forall i | 0 <= i < |q| && Q[id].waitingForFrameId
      ensures !Matches(Q[q[i]], Q[id])
    {
      if i < ready {
        assert Matched(P[q[i]], Q[q[i]], false);
      } else {
        assert entries[i - ready] == q[i] && q[i] in entries;
      }
    }
  }

  lemma MatchFrameIdsKeeps(s: State, id: Id, pend: set<Id>)
    requires Core(s, pend) && id in pend && Insertable(s, id)
    ensures Core(MatchFrameIds(s, id), pend) && Insertable(MatchFrameIds(s, id), id)
    ensures Unmatched(MatchFrameIds(s, id).presents, s.ring.queue, id)
  {
    var q := s.ring.queue;
    if s.presents[id].waitingForFrameId {
      assert forall i :: 0 <= i < s.ring.ready ==> !Waiting(s.presents[q[i]]);
      hide Core, SoftChange, SameKeys, Unmatched;
      MatchFramesSoft(s.presents, q[s.ring.ready..], id);
      SoftKeeps(s, MatchFrames(s.presents, q[s.ring.ready..], id), pend);
      MatchFramesUnmatched(s.presents, q, s.ring.ready, id);
    }
  }

  lemma {:induction false} DeliveryIds(ids: seq<Id>)
    ensures RemovedIds(Delivery(ids)) == ids && Evictions(Delivery(ids)) == 0
  {
    if ids != [] {
      var n := |ids| - 1;
      DeliveryIds(ids[..n]);
      assert Delivery(ids)[..n] == Delivery(ids[..n]);
    }
  }

  lemma {:induction false} EvictionsConcat(a: seq<Removal>, b: seq<Removal>)
    ensures Evictions(a + b) == Evictions(a) + Evictions(b)
  {
    if b == [] {
      assert a + b == a;
    } else {
      var n := |b| - 1;
      EvictionsConcat(a, b[..n]);
      assert (a + b)[..|a + b| - 1] == a + b[..n];
    }
  }

  lemma DequeueFifo(r: Ring, L: seq<Attempt>)
    requires Fifo(r, L) && r.ready <= |r.queue|
    ensures Fifo(Dequeue(r), L)
  {
    var d := r.queue[..r.ready];
    DeliveryIds(d);
    EvictionsConcat(r.removed, Delivery(d));
    assert RemovedIds(r.removed + Delivery(d)) == RemovedIds(r.removed) + RemovedIds(Delivery(d));
    assert r.queue == d + r.queue[r.ready..];
  }

  lemma DequeueReady(P: Presents, r: Ring)
    requires ReadyOk(P, r) && OneWaiting(P, r.queue)
    ensures ReadyOk(P, Dequeue(r)) && OneWaiting(P, Dequeue(r).queue)
  {
  }

  lemma DequeueKeeps(s: State, pend: set<Id>)
    requires Core(s, pend)
    ensures Core(s.(ring := Dequeue(s.ring)), pend)
  {
    DequeueFifo(s.ring, s.log);
    DequeueReady(s.presents, s.ring);
    hide Distinct, DependentsKnown, Retired, TokensOk, OrderedInv, LogExact, LostFirst, ReadyOk, OneWaiting, IxOk, Fifo;
  }

  lemma InsertFifo(s: State, id: Id)
    requires Fifo(s.ring, s.log) && Insertable(s, id)
    ensures Fifo(AddCompleted(s, id).ring, AddCompleted(s, id).log)
  {
    var r, L := s.ring, s.log;
    var s' := AddCompleted(s, id);
    assert s'.log[..|L|] == L;
    if |r.queue| < s.cfg.capacity {
    } else if Blocks(r, s.cfg) {
      DequeueFifo(r, L);
    } else if !Drops(r, s.presents, id, s.cfg) {
      assert (r.removed + [Evict(r, s.presents, id)])[..|r.removed|] == r.removed;
      assert RemovedIds(s'.ring.removed) == RemovedIds(r.removed) + [r.queue[0]];
      assert r.queue == [r.queue[0]] + r.queue[1..];
    }
  }

  /** A present joins the entries that are left in the ring. */
  lemma JoinEntries(P: Presents, q: seq<Id>, from: nat, id: Id)
    requires OneWaiting(P, q) && Unmatched(P, q, id) && from <= |q|
    ensures OneWaiting(P, q[from..] + [id])
  {
    var r := q[from..] + [id];
    forall i, j | 0 <= i < j < |r| && r[i] in P && r[j] in P && P[r[i]].waitingForFrameId && P[r[j]].waitingForFrameId
      ensures P[r[i]].pid != P[r[j]].pid
    {
      assert r[i] == q[from + i];
      if j < |q| - from { assert r[j] == q[from + j]; }
    }
  }

  lemma InsertReady(s: State, id: Id)
    requires Insertable(s, id) && ReadyOk(s.presents, s.ring) && OneWaiting(s.presents, s.ring.queue)
    requires Unmatched(s.presents, s.ring.queue, id) && s.presents[id].completed
    ensures ReadyOk(s.presents, AddCompleted(s, id).ring) && OneWaiting(s.presents, AddCompleted(s, id).ring.queue)
    ensures |AddCompleted(s, id).ring.queue| <= s.cfg.capacity
  {
    hide OneWaiting, Unmatched;
    var q := s.ring.queue;
    JoinEntries(s.presents, q, 0, id);
    JoinEntries(s.presents, q, s.ring.ready, id);
    if q != [] { JoinEntries(s.presents, q, 1, id); }
    assert q[0..] == q;
  }

  lemma InsertFair(s: State, id: Id)
    requires Fair(s.cfg, s.ring.removed) && Insertable(s, id)
    ensures Fair(s.cfg, AddCompleted(s, id).ring.removed)
  {
  }

  lemma AddCompletedLog(s: State, id: Id, pend: set<Id>)
    requires LogExact(s.presents, s.log, pend + {id}) && id !in pend && Insertable(s, id)
    ensures LogExact(s.presents, AddCompleted(s, id).log, pend)
  {
    var L' := AddCompleted(s, id).log;
    assert LogIds(L') == LogIds(s.log) + {id} by {
      assert L'[|s.log|].id == id;
      forall i | 0 <= i < |s.log| ensures s.log[i].id in LogIds(L') { assert L'[i] == s.log[i]; }
    }
  }

  lemma AddCompletedKeeps(s: State, id: Id, pend: set<Id>)
    requires Core(s, pend + {id}) && id !in pend && Insertable(s, id)
    requires Unmatched(s.presents, s.ring.queue, id)
    requires !InOrdered(s.ix.ordered, s.presents[id]) && s.presents[id].keys.ringIndex.None?
    ensures Core(AddCompleted(s, id), pend)
  {
    hide Distinct, DependentsKnown, Retired, TokensOk, OrderedInv, LogExact, LostFirst, ReadyOk, OneWaiting, IxOk, Fifo, Fair, Unmatched,
      InOrdered, Insert;
    PendingCompleted(s, id, pend);
    InsertFifo(s, id);
    InsertFair(s, id);
    InsertReady(s, id);
    AddCompletedLog(s, id, pend);
    AddCompletedSlots(s, id, pend);
  }

  lemma PendingCompleted(s: State, id: Id, pend: set<Id>)
    requires LogExact(s.presents, s.log, pend + {id})
    ensures id in s.presents && s.presents[id].completed
  {
    assert id in pend + {id};
  }

  lemma AddCompletedSlots(s: State, id: Id, pend: set<Id>)
    requires OrderedInv(s, pend + {id}) && Retired(s.presents, pend + {id}) && TokensOk(s.presents, s.ix.byDxgkToken, pend + {id})
    requires Insertable(s, id) && s.presents[id].completed
    requires !InOrdered(s.ix.ordered, s.presents[id]) && s.presents[id].keys.ringIndex.None?
    ensures OrderedInv(AddCompleted(s, id), pend) && Retired(s.presents, pend) && TokensOk(s.presents, s.ix.byDxgkToken, pend)
  {
    hide Insert, Keyed, Covers;
  }

  lemma UpdateReadyKeeps(s: State, pend: set<Id>)
    requires Core(s, pend)
    ensures s.ring.ready <= |s.ring.queue| && forall q :: q in s.ring.queue ==> q in s.presents
    ensures Core(s.(ring := UpdateReady(s.ring, s.presents)), pend)
  {
    hide Distinct, DependentsKnown, Retired, TokensOk, Keyed, Covers, OnlyPending, LogExact, LostFirst, IxOk, OneWaiting, ReadyOk;
    UpdateReadyOk(s.presents, s.ring);
  }

  lemma UpdateReadyOk(P: Presents, r: Ring)
    requires ReadyOk(P, r)
    ensures ReadyOk(P, UpdateReady(r, P))
  {
  }

  lemma RingIndexKept(s: State, id: Id, Q: Presents)
    requires id in s.presents && id in Q && Q[id].keys == s.presents[id].keys
    ensures RingIndexOk(s.(presents := Q), id) == RingIndexOk(s, id)
  {
  }

  lemma ClearDeferralKeeps(s: State, id: Id, pend: set<Id>)
    requires Core(s, pend) && id in s.presents && s.presents[id].completed && RingIndexOk(s, id)
    ensures Core(ClearDeferral(s, id), pend)
  {
    hide Core, SoftChange, SameKeys, StopTrackingIx, RingIndexOk;
    var p := s.presents[id];
    var p' := p.(waitingForPresentStop := false, lost := p.lost || p.waitingForPresentStop, waitingForFlipFrameType := false);
    var Q := s.presents[id := p'];
    SoftOne(s.presents, id, p');
    SoftKeeps(s, Q, pend);
    RingIndexKept(s, id, Q);
    StopTrackingKeeps(s.(presents := Q), id, pend);
  }

  // ---------------------------------------------------------------------------------------------
  // The order of displayed presents

  /** Everything on the chain that is not yet in the ring started later. */
  ghost predicate NoEarlier(P: Presents, pend: set<Id>, id: Id) {
    id in P && forall a :: a in P && (!P[a].completed || a in pend) && SameChain(P[id], P[a]) ==> P[id].start < P[a].start
  }

  lemma MarkCompletedOrder(s: State, id: Id, pend: set<Id>, dwm: nat)
    requires ShapedInv(s, pend, dwm) && id in s.presents && !s.presents[id].completed
    ensures ShapedInv(MarkCompleted(s, id), pend + {id}, dwm)
  {
    hide Shape, ChainOrder;
    SameShape(s.presents, MarkCompleted(s, id).presents, dwm);
    MarkedChain(s.presents, s.presents[id := MarkCompleted(s, id).presents[id]], s.log, id, pend);
  }

  lemma MarkedChain(P: Presents, Q: Presents, L: seq<Attempt>, id: Id, pend: set<Id>)
    requires ChainOrder(P, L, pend) && id in P && id in Q && !P[id].completed && Q == P[id := Q[id]]
    requires Q[id].pid == P[id].pid && Q[id].swapChain == P[id].swapChain && Q[id].start == P[id].start
    ensures ChainOrder(Q, L, pend + {id})
  {
  }
}
