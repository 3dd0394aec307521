/** The first completion throws away what is in progress; a present that is lost is completed or let go. */
module PresentLoss {
  import opened Wrappers
  import opened PresentSpec
  import opened PresentInv
  import opened PresentSteps
  import opened PresentEvolution
  import opened PresentCalls
  import opened PresentStages

  // ---------------------------------------------------------------------------------------------
  // Losing one present

  /** A completed present that waits for Present_Stop is lost: it waits no more, and its threads forget it. */
  function Abandon(s: State, id: Id): State
    requires id in s.presents && s.ring.ready <= |s.ring.queue| && forall q :: q in s.ring.queue ==> q in s.presents
  {
    var p := s.presents[id];
    if p.waitingForPresentStop then
      var t := With(s, id, p.(lost := true, waitingForPresentStop := false));
      t.(ix := t.ix.(byThread := EraseUnlessZero(EraseIf(t.ix.byThread, p.tid, id), p.keys.driverTid, id)),
         ring := UpdateReady(t.ring, t.presents))
    else
      With(s, id, p.(lost := true))
  }

  lemma RingKnown(s: State, pend: set<Id>)
    requires Core(s, pend)
    ensures s.ring.ready <= |s.ring.queue| && forall q :: q in s.ring.queue ==> q in s.presents
    ensures IxOk(s.presents, s.ix) && DependentsKnown(s.presents) && Distinct(s.presents) && OrderedInv(s, pend)
  {
  }

  lemma FewerThreads(P: Presents, ix: Indexes, byThread: map<nat, Id>)
    requires IxOk(P, ix) && byThread.Keys <= ix.byThread.Keys && forall t :: t in byThread ==> byThread[t] == ix.byThread[t]
    ensures IxOk(P, ix.(byThread := byThread))
  {
    assert ThreadsOk(P, byThread);
  }

  lemma CoreWithThreads(s: State, byThread: map<nat, Id>, pend: set<Id>)
    requires Core(s, pend)
    requires byThread.Keys <= s.ix.byThread.Keys && forall t :: t in byThread ==> byThread[t] == s.ix.byThread[t]
    ensures Core(s.(ix := s.ix.(byThread := byThread)), pend)
  {
    hide Distinct, DependentsKnown, Retired, TokensOk, Keyed, Covers, OnlyPending, LogExact, LostFirst, ReadyOk, OneWaiting, IxOk, Fifo;
    FewerThreads(s.presents, s.ix, byThread);
  }

  lemma AbandonSoft(s: State, id: Id)
    requires id in s.presents && s.presents[id].completed
    requires s.ring.ready <= |s.ring.queue| && forall q :: q in s.ring.queue ==> q in s.presents
    ensures var Q := Abandon(s, id).presents;
            SoftChange(s.presents, Q) && SameKeys(s.presents, Q) && SameOutcomes(s.presents, Q)
    ensures Abandon(s, id).presents == s.presents[id := s.presents[id].(lost := true, waitingForPresentStop := false)]
  {
    SoftOne(s.presents, id, s.presents[id].(lost := true, waitingForPresentStop := false));
  }

  lemma AbandonKeeps(s: State, id: Id, pend: set<Id>)
    requires Core(s, pend) && id in s.presents && s.presents[id].completed
    ensures s.ring.ready <= |s.ring.queue| && forall q :: q in s.ring.queue ==> q in s.presents
    ensures Core(Abandon(s, id), pend)
  {
    hide Core, SoftChange, SameKeys, UpdateReady, EraseIf;
    RingKnown(s, pend);
    AbandonSoft(s, id);
    var p := s.presents[id];
    var t := s.(presents := Abandon(s, id).presents);
    SoftKeeps(s, t.presents, pend);
    if p.waitingForPresentStop {
      var byThread := EraseUnlessZero(EraseIf(t.ix.byThread, p.tid, id), p.keys.driverTid, id);
      FewerAfterErase(t.ix.byThread, p.tid, id);
      FewerAfterErase(EraseIf(t.ix.byThread, p.tid, id), p.keys.driverTid, id);
      CoreWithThreads(t, byThread, pend);
      var u := t.(ix := t.ix.(byThread := byThread));
      UpdateReadyKeeps(u, pend);
      assert Abandon(s, id) == u.(ring := UpdateReady(u.ring, u.presents));
    } else {
      assert Abandon(s, id) == t;
    }
  }

  lemma FewerAfterErase(m: map<nat, Id>, k: nat, id: Id)
    ensures EraseIf(m, k, id).Keys <= m.Keys && forall t :: t in EraseIf(m, k, id) ==> EraseIf(m, k, id)[t] == m[t]
  {
  }

  ghost predicate RemovedLost(s: State, s': State, id: Id, dwm: nat, shaped: bool)
    requires Core(s, {}) && id in s.presents && (shaped ==> ShapedInv(s, {}, dwm))
  {
    && Core(s', {}) && Evolves(s, s', {}, {}) && s'.hasCompleted == s.hasCompleted
    && id in s'.presents && s'.presents[id].completed && s'.presents[id].lost
    && LosesAll(s.presents, s'.presents)
    && (shaped ==> ShapedInv(s', {}, dwm) && Area(s.presents, s'.presents, id, dwm))
    && (s.presents[id].completed ==> s.ring.ready <= |s.ring.queue| && (forall q :: q in s.ring.queue ==> q in s.presents)
                                     && s' == Abandon(s, id))
    && (!s.presents[id].completed ==> CompletedWith(MarkLost(s, id), s', id))
  }

  lemma AbandonRemoves(s: State, id: Id, dwm: nat, shaped: bool)
    requires Core(s, {}) && id in s.presents && s.presents[id].completed && (shaped ==> ShapedInv(s, {}, dwm))
    ensures s.ring.ready <= |s.ring.queue| && forall q :: q in s.ring.queue ==> q in s.presents
    ensures RemovedLost(s, Abandon(s, id), id, dwm, shaped)
  {
    hide Core, SoftChange, SameKeys, SameOutcomes, LosesAll, Area, Shape, ChainOrder;
    RingKnown(s, {});
    var s' := Abandon(s, id);
    AbandonSoft(s, id);
    AbandonKeeps(s, id, {});
    SoftArea(s.presents, s'.presents, id, dwm);
    if shaped { SoftShape(s.presents, s'.presents, s.log, {}, dwm); }
    AbandonEvolves(s, id);
  }

  lemma AbandonEvolves(s: State, id: Id)
    requires id in s.presents && s.presents[id].completed
    requires s.ring.ready <= |s.ring.queue| && forall q :: q in s.ring.queue ==> q in s.presents
    ensures Evolves(s, Abandon(s, id), {}, {}) && Abandon(s, id).hasCompleted == s.hasCompleted && Abandon(s, id).log == s.log
    ensures Abandon(s, id).presents[id].completed && Abandon(s, id).presents[id].lost
  {
    hide PresentsEvolve, EraseIf, EraseUnlessZero, UpdateReady, Grows;
    var q := s.presents[id].(lost := true, waitingForPresentStop := false);
    LostGrows(s.presents[id]);
    OneEvolves(s.presents, id, q);
    assert Abandon(s, id).presents == s.presents[id := q];
    SameRemovals(s);
  }

  lemma LostGrows(p: Present)
    ensures Grows(p, p.(lost := true, waitingForPresentStop := false))
  {
  }

  lemma SameRemovals(s: State)
    requires s.ring.ready <= |s.ring.queue| && forall q :: q in s.ring.queue ==> q in s.presents
    ensures forall P: Presents :: (forall q :: q in s.ring.queue ==> q in P) ==> UpdateReady(s.ring, P).removed == s.ring.removed
  {
  }

  lemma OneEvolves(P: Presents, id: Id, q: Present)
    requires id in P && P[id].completed && Grows(P[id], q)
    ensures PresentsEvolve(P, P[id := q], {}, {})
  {
  }

  /** A present in progress that is lost can be completed. */
  lemma LostCallable(s: State, id: Id, dwm: nat, shaped: bool)
    requires Core(s, {}) && id in s.presents && (shaped ==> ShapedInv(s, {}, dwm))
    ensures Callable(MarkLost(s, id), id, {}, dwm, shaped)
    ensures InProgress(MarkLost(s, id).presents) == InProgress(s.presents)
  {
    hide Core, SoftChange, SameKeys, Shape, ChainOrder, InProgress;
    MarkLostKeeps(s, id, {});
    SoftInProgress(s.presents, MarkLost(s, id).presents);
    if shaped { SoftShape(s.presents, MarkLost(s, id).presents, s.log, {}, dwm); }
  }

  lemma LostAchieved(s: State, s': State, id: Id, dwm: nat, shaped: bool)
    requires Core(s, {}) && id in s.presents && !s.presents[id].completed && (shaped ==> ShapedInv(s, {}, dwm))
    requires Callable(MarkLost(s, id), id, {}, dwm, shaped) && Achieved(MarkLost(s, id), s', id, {}, dwm, shaped)
    ensures RemovedLost(s, s', id, dwm, shaped)
  {
    hide Core, LosesAll, Area, ShapedInv, Evolves, Inherited, Outcome, NoneEarlier, AllCompleted, Grows, Forgotten;
    var t := MarkLost(s, id);
    assert Evolves(t, s', {}, {});
    assert t.presents[id].lost;
    EvolvesGrows(t, s', {}, {});
    assert s'.presents[id].lost by { GrowsLost(t.presents[id], s'.presents[id]); }
    assert LosesAll(t.presents, s'.presents);
    assert shaped ==> Area(t.presents, s'.presents, id, dwm);
    EvolvesRefl(s, {});
    MarkLostEvolves(s, s, id, {});
    EvolvesTransitive(s, t, s', {}, {id});
    LostFromMarked(s, s'.presents, id, dwm);
  }

  lemma GrowsLost(p: Present, q: Present)
    requires Grows(p, q)
    ensures p.lost ==> q.lost
  {
  }

  lemma LostFromMarked(s: State, Q: Presents, id: Id, dwm: nat)
    requires id in s.presents
    ensures LosesAll(MarkLost(s, id).presents, Q) ==> LosesAll(s.presents, Q)
    ensures Area(MarkLost(s, id).presents, Q, id, dwm) ==> Area(s.presents, Q, id, dwm)
  {
    hide LosesAll, Area;
    MarkedArea(s.presents, MarkLost(s, id).presents, Q, id, dwm);
  }

  lemma MarkedArea(P: Presents, P1: Presents, Q: Presents, id: Id, dwm: nat)
    requires Marked(P, P1, id) && P1[id].completed == P[id].completed
    ensures LosesAll(P1, Q) ==> LosesAll(P, Q)
    ensures Area(P1, Q, id, dwm) ==> Area(P, Q, id, dwm)
  {
  }

  // ---------------------------------------------------------------------------------------------
  // The flush

  ghost predicate FlushStart(s: State, dwm: nat, shaped: bool) {
    Core(s, {}) && !s.hasCompleted && (shaped ==> ShapedInv(s, {}, dwm))
  }

  /** Everything that was in progress in the processes that were visited is lost. */
  ghost predicate FlushProgress(s: State, t: State, pids: set<nat>, dwm: nat, shaped: bool) {
    && FlushStart(t, dwm, shaped) && Evolves(s, t, {}, {}) && LosesAll(s.presents, t.presents)
    && (forall a :: a in t.presents && t.presents[a].pid !in pids ==> t.presents[a].completed)
  }

  ghost predicate FlushDone(s: State, s': State, dwm: nat, shaped: bool) {
    FlushProgress(s, s', {}, dwm, shaped)
  }

  lemma FlushBegins(s: State, dwm: nat, shaped: bool)
    requires FlushStart(s, dwm, shaped)
    ensures FlushProgress(s, s, s.ix.ordered.Keys, dwm, shaped)
  {
    EvolvesRefl(s, {});
    assert Covers(s.presents, s.ix.ordered);
    hide Core, Evolves, ShapedInv;
  }

  /** An entry of an ordered map between events is a present in progress. */
  lemma FlushEntry(t: State, pid: nat, k: nat)
    requires Core(t, {}) && pid in t.ix.ordered && k in t.ix.ordered[pid]
    ensures var id := t.ix.ordered[pid][k]; id in t.presents && !t.presents[id].completed && t.presents[id].pid == pid
                                            && t.presents[id].start == k
  {
    var id := t.ix.ordered[pid][k];
    assert Keyed(t.presents, t.ix.ordered);
    assert InOrdered(t.ix.ordered, t.presents[id]);
  }

  lemma FlushState(s: State, t: State, pids: set<nat>, dwm: nat, shaped: bool)
    requires FlushProgress(s, t, pids, dwm, shaped)
    ensures Core(t, {}) && (shaped ==> ShapedInv(t, {}, dwm))
  {
    hide Core, ShapedInv, Evolves, LosesAll;
  }

  lemma FlushOne(s: State, t: State, t': State, id: Id, pids: set<nat>, dwm: nat, shaped: bool)
    requires FlushProgress(s, t, pids, dwm, shaped) && id in t.presents && !t.presents[id].completed
    requires RemovedLost(t, t', id, dwm, shaped)
    ensures FlushProgress(s, t', pids, dwm, shaped) && |InProgress(t'.presents)| < |InProgress(t.presents)|
  {
    hide Core, ShapedInv, Area, Evolves, LosesAll, Grows, InProgress;
    EvolvesTransitive(s, t, t', {}, {});
    EvolvesKeys(s, t);
    EvolvesFlat(t, t');
    LosesAllTransitive(s.presents, t.presents, t'.presents, {});
    FewerInProgress(t.presents, t'.presents, id);
  }

  lemma EvolvesKeys(s: State, t: State)
    requires Evolves(s, t, {}, {})
    ensures s.presents.Keys == t.presents.Keys
  {
  }

  lemma EvolvesFlat(t: State, t': State)
    requires Evolves(t, t', {}, {})
    ensures PresentsEvolve(t.presents, t'.presents, {}, {}) && t.presents.Keys == t'.presents.Keys
    ensures forall a :: a in t.presents ==>
              t'.presents[a].pid == t.presents[a].pid && (t.presents[a].completed ==> t'.presents[a].completed)
  {
    assert forall a :: a in t.presents ==> Grows(t.presents[a], t'.presents[a]);
  }

  lemma FlushProcessDone(s: State, t: State, pid: nat, pids: set<nat>, dwm: nat, shaped: bool)
    requires FlushProgress(s, t, pids, dwm, shaped)
    requires pid in t.ix.ordered ==> t.ix.ordered[pid] == map[]
    ensures FlushProgress(s, t, pids - {pid}, dwm, shaped)
  {
    assert Covers(t.presents, t.ix.ordered);
    hide Core, ShapedInv, Evolves, LosesAll;
  }

  /** After the flush nothing is in progress, so every ordered map is empty. */
  lemma FlushAchieves(s: State, s1: State, id: Id, dwm: nat, shaped: bool)
    requires Callable(s, id, {}, dwm, shaped) && !s.hasCompleted && !s.presents[id].lost
    requires FlushDone(s, s1, dwm, shaped)
    ensures Achieved(s, s1.(hasCompleted := true), id, {}, dwm, shaped)
  {
    hide Core, Shape, ChainOrder, Evolves, LosesAll, CompletedWith, ShapedEffect;
    RingKnown(s1, {});
    FlushCore(s1, {});
    FlushEvolves(s, s1);
    FlushEmpties(s1);
    EvolvesKeys(s, s1);
  }

  lemma FlushCore(s1: State, pend: set<Id>)
    requires Core(s1, pend)
    ensures Core(s1.(hasCompleted := true), pend)
  {
    hide Distinct, DependentsKnown, Retired, TokensOk, Keyed, Covers, OnlyPending, LogExact, ReadyOk, OneWaiting, IxOk, Fifo;
  }

  lemma FlushEvolves(s: State, s1: State)
    requires Evolves(s, s1, {}, {})
    ensures Evolves(s, s1.(hasCompleted := true), {}, {})
  {
    hide PresentsEvolve;
  }

  lemma FlushEmpties(s1: State)
    requires OrderedInv(s1, {}) && forall a :: a in s1.presents ==> s1.presents[a].completed
    ensures forall pid :: pid in s1.ix.ordered ==> s1.ix.ordered[pid] == map[]
  {
    forall pid | pid in s1.ix.ordered
      ensures s1.ix.ordered[pid] == map[]
    {
      if k :| k in s1.ix.ordered[pid] {
        var a := s1.ix.ordered[pid][k];
        assert a in s1.presents && s1.presents[a].completed && InOrdered(s1.ix.ordered, s1.presents[a]);
      }
    }
  }
}
