/** What one call of CompletePresent does step by step: what it drags along, whom it lets go, and in which order it goes on. */
module PresentCourse {
  import opened Wrappers
  import opened PresentSpec
  import opened PresentInv
  import opened PresentSteps
  import opened PresentEvolution
  import opened PresentReach
  import opened PresentCalls
  import opened PresentStages
  import opened PresentLoss
  import opened PresentLoops
  import opened PresentTrace
  import opened PresentDrags
  import opened PresentOrder

  ghost predicate DependentsIn(P: Presents, id: Id) {
    id in P && forall d :: d in P[id].dependents ==> d in P
  }

  /** The presents when their fate has been decided and the dependents are about to be completed. */
  ghost function Decided(P: Presents, id: Id): Presents
    requires DependentsIn(P, id)
  {
    if P[id].lost then LoseAll(P, P[id].dependents) else Propagate(P, P[id].dependents, {}, P[id])
  }

  /** What the dependents take is handed over, and overtakes an earlier present exactly if it comes first. */
  ghost predicate DependentOrder(P: Presents, L: seq<Attempt>, id: Id, dwm: nat)
    requires DependentsIn(P, id)
  {
    OrderedBy(Decided(P, id), P[id].dependents, L, dwm)
  }

  ghost predicate OrderedBy(R: Presents, deps: seq<Id>, L: seq<Attempt>, dwm: nat) {
    && (forall b :: b in R && !R[b].completed && R[b].pid != dwm && Taken(R, deps, 0, b) ==> b in LogIds(L))
    && (forall a, b :: Pair(R, b, a, dwm) && Taken(R, deps, 0, b) ==> (Overtakes(L, b, a) <==> ComesFirst(R, deps, 0, b, a)))
  }

  /** The course of one call. */
  ghost predicate Traced(s: State, s': State, id: Id, dwm: nat, shaped: bool) {
    && Moves(s, s', {})
    && (id in s.presents && !s.presents[id].completed && (s.hasCompleted || s.presents[id].lost) ==>
          && Dragging(s, s', id)
          && (shaped ==>
                var P := MarkCompleted(s, id).presents;
                && Ascends(s, s', s.presents[id].pid, s.presents[id].start + 1)
                && DependentsIn(P, id) && DependentOrder(P, s'.log, id, dwm)))
  }

  /** Nothing depends on the present, and it is not displayed: nothing can complete along with it. */
  ghost predicate Lonely(P: Presents, id: Id) {
    id in P && !P[id].completed && P[id].dependents == [] && P[id].finalState != Presented
  }

  /** The present is marked, leaves tracking and enters the ring, and that is all. */
  ghost predicate Alone(s: State, s': State, id: Id, pend: set<Id>) {
    && id in s.presents && id !in pend && Core(MarkCompleted(s, id), pend + {id})
    && exists taken: bool :: s' == Finish(MarkCompleted(s, id), id, pend, taken)
  }

  ghost predicate Singly(s: State, s': State, id: Id, pend: set<Id>) {
    && (Lonely(s.presents, id) && (s.hasCompleted || s.presents[id].lost) ==> Alone(s, s', id, pend))
    && (Lonely(s.presents, id) && !s.hasCompleted && !s.presents[id].lost && InProgress(s.presents) == {id} ==>
          s'.hasCompleted && Alone(MarkLost(s, id), s'.(hasCompleted := false), id, {}))
  }

  lemma SinglyNothing(s: State, id: Id, pend: set<Id>)
    requires id in s.presents && s.presents[id].completed
    ensures Singly(s, s, id, pend)
  {
  }

  lemma AloneCall(s: State, id: Id, pend: set<Id>, taken: bool)
    requires id in s.presents && id !in pend && Core(MarkCompleted(s, id), pend + {id})
    ensures Alone(s, Finish(MarkCompleted(s, id), id, pend, taken), id, pend)
  {
    hide Core, Finish, MarkCompleted;
  }

  lemma SinglyCall(s: State, s5: State, id: Id, pend: set<Id>, taken: bool)
    requires id in s.presents && id !in pend && (s.hasCompleted || s.presents[id].lost) && Core(s5, pend + {id})
    requires Lonely(s.presents, id) ==> s5 == MarkCompleted(s, id)
    ensures Singly(s, Finish(s5, id, pend, taken), id, pend)
  {
    hide Core, Finish, MarkCompleted, Lonely, Alone;
    if Lonely(s.presents, id) { AloneCall(s, id, pend, taken); }
  }

  lemma AloneCompletes(s: State, s': State, id: Id, pend: set<Id>)
    requires Alone(s, s', id, pend)
    ensures id in s'.presents && s'.presents[id].completed
  {
    hide Core, Finish, SoftChange, MarkCompleted;
    var taken: bool :| s' == Finish(MarkCompleted(s, id), id, pend, taken);
    FinishSoft(MarkCompleted(s, id), id, pend, taken);
    MarkedPresent(s, id);
    SoftAt(MarkCompleted(s, id).presents, s'.presents, id);
  }

  lemma OrderedOn(R: Presents, deps: seq<Id>, L: seq<Attempt>, L': seq<Attempt>, dwm: nat)
    requires OrderedBy(R, deps, L, dwm) && L <= L' && forall i, j :: 0 <= i < j < |L'| ==> L'[i].id != L'[j].id
    ensures OrderedBy(R, deps, L', dwm)
  {
    hide Taken, Overtakes, ComesFirst;
    assert forall i :: 0 <= i < |L| ==> L'[i] == L[i];
    forall a, b | Pair(R, b, a, dwm) && Taken(R, deps, 0, b)
      ensures Overtakes(L', b, a) <==> ComesFirst(R, deps, 0, b, a)
    {
      OvertakesKept(L, L', b, a);
    }
  }

  // ---------------------------------------------------------------------------------------------
  // Dependents

  ghost predicate OpenedTrace(s: State, s2: State, id: Id) {
    && Moves(s, s2, {}) && Dragging(s, s2, id) && s2.log == s.log
    && DependentsIn(s.presents, id) && s2.presents == Decided(s.presents, id)
  }

  lemma OpenedDrags(s: State, s2: State, id: Id)
    requires OpenedTrace(s, s2, id)
    ensures Dragging(s, s2, id)
  {
  }

  lemma OpenedBy(s: State, id: Id, deps: seq<Id>, pend: set<Id>, dwm: nat, shaped: bool)
    requires Dependents(s, id, deps, pend, dwm, shaped)
    ensures DependentsIn(s.presents, id) && OpenedTrace(s, s.(presents := Decided(s.presents, id)), id)
  {
    hide Core, ShapedInv, StackOk, Moves, Dragging, LoseAll, Propagate;
    DependentsArea(s, id, deps, pend, dwm, shaped);
    if s.presents[id].lost {
      LoseAllTrace(s, deps, id, pend + {id});
    } else {
      PropagateTrace(s, deps, s.presents[id], id, pend + {id});
    }
  }

  /** The dependents from the last down to number `from` have been completed since s2. */
  ghost predicate DependentsTrace(s0: State, s2: State, t: State, id: Id, deps: seq<Id>, from: nat, dwm: nat, shaped: bool) {
    && Moves(s2, t, {}) && Dragging(s0, t, id)
    && (shaped ==> Serial(s2, t, deps, from, dwm) && Ascends(s2, t, dwm, 0))
  }

  lemma DependentsTraceStart(s0: State, s2: State, id: Id, deps: seq<Id>, pend: set<Id>, dwm: nat, shaped: bool)
    requires DependentsOpen(s0, s2, id, deps, pend, dwm, shaped) && Dragging(s0, s2, id)
    ensures DependentsTrace(s0, s2, s2, id, deps, |deps|, dwm, shaped)
  {
    assert Core(s2, pend + {id});
    hide Core, Progress, Moves, Dragging, Serial, Ascends, DependentsOpen;
    NothingMoves(s2, pend + {id});
    SerialStart(s2, deps, dwm);
    AscendsNothing(s2, s2, dwm, 0);
  }

  lemma PendingDone(s0: State, s2: State, id: Id, deps: seq<Id>, pend: set<Id>, dwm: nat, shaped: bool)
    requires DependentsOpen(s0, s2, id, deps, pend, dwm, shaped)
    ensures forall q :: q in pend + {id} ==> q in s2.presents && s2.presents[q].completed
    ensures shaped ==> forall d :: d in deps ==> d in s2.presents && s2.presents[d].pid != dwm
  {
    assert Core(s2, pend + {id}) && LogExact(s2.presents, s2.log, pend + {id});
    assert PresentsEvolve(s0.presents, s2.presents, pend + {id}, Ids(deps));
    assert forall d :: d in s0.presents ==> Grows(s0.presents[d], s2.presents[d]);
    hide Core, Progress, PresentsEvolve;
  }

  lemma DependentTraced(s0: State, s2: State, t: State, u: State, id: Id, deps: seq<Id>, from: nat, pend: set<Id>, dwm: nat, shaped: bool)
    requires DependentsOpen(s0, s2, id, deps, pend, dwm, shaped) && DependentsOpen(s0, t, id, deps, pend, dwm, shaped)
    requires from < |deps| && DependentsTrace(s0, s2, t, id, deps, from + 1, dwm, shaped)
    requires id in s0.presents && deps == s0.presents[id].dependents && (shaped ==> SameOutcomes(s2.presents, t.presents))
    requires var x := deps[from];
             && x in t.presents && !t.presents[x].completed && (t.hasCompleted || t.presents[x].lost)
             && Callable(t, x, pend + {id}, dwm, shaped) && Achieved(t, u, x, pend + {id}, dwm, shaped) && Traced(t, u, x, dwm, shaped)
    ensures DependentsTrace(s0, s2, u, id, deps, from, dwm, shaped)
  {
    hide DependentsOpen, Moves, Drags, Serial, Ascends, Callable, Achieved, SameOutcomes, DependentOrder, DependentsIn;
    var x := deps[from];
    MovesTransitive(s2, t, u, {}, {});
    DependentDrags(s0, t, u, x, id, deps, pend, dwm, shaped);
    if shaped { DependentSerial(s0, s2, t, u, id, deps, from, pend, dwm); }
  }

  lemma DependentSerial(s0: State, s2: State, t: State, u: State, id: Id, deps: seq<Id>, from: nat, pend: set<Id>, dwm: nat)
    requires DependentsOpen(s0, s2, id, deps, pend, dwm, true) && DependentsOpen(s0, t, id, deps, pend, dwm, true)
    requires from < |deps| && Moves(s2, t, {}) && Serial(s2, t, deps, from + 1, dwm) && Ascends(s2, t, dwm, 0)
    requires SameOutcomes(s2.presents, t.presents)
    requires var x := deps[from];
             && x in t.presents && !t.presents[x].completed && (t.hasCompleted || t.presents[x].lost)
             && Callable(t, x, pend + {id}, dwm, true) && Achieved(t, u, x, pend + {id}, dwm, true)
             && Ascends(t, u, t.presents[x].pid, t.presents[x].start + 1)
    ensures Serial(s2, u, deps, from, dwm) && Ascends(s2, u, dwm, 0)
  {
    hide DependentsOpen, Moves, Serial, Ascends, Callable, Achieved, SameOutcomes, Called;
    var x := deps[from];
    PendingDone(s0, s2, id, deps, pend, dwm, true);
    PendingDone(s0, t, id, deps, pend, dwm, true);
    CalledFacts(t, u, x, pend + {id}, dwm);
    MovesOnward(s2, t);
    hide Fixed;
    SerialCalled(s2, t, u, deps, from, pend + {id}, dwm, t.presents[x].start + 1);
    NoneOfCompositor(s2, t, u, x, pend + {id}, dwm);
  }

  lemma MovesOnward(s: State, t: State)
    requires Moves(s, t, {})
    ensures s.presents.Keys == t.presents.Keys && s.log <= t.log && Fixed(s.presents, t.presents)
    ensures forall a :: a in s.presents && s.presents[a].completed ==> t.presents[a].completed
  {
  }

  lemma NoneOfCompositor(s2: State, t: State, u: State, x: Id, pend: set<Id>, dwm: nat)
    requires Ascends(s2, t, dwm, 0) && Called(t, u, x, pend, dwm) && t.presents[x].pid != dwm
    ensures Ascends(s2, u, dwm, 0)
  {
    hide Ascends, NoneEarlier, LogExact;
    NewEntries(t, u, x, pend, dwm);
    forall i | |t.log| <= i < |u.log|
      ensures !Mine(u, i, dwm)
    {
    }
    hide Mine, Footprint;
    AscendsOn(s2, t, u, dwm, 0, 0);
  }

  lemma DependentSkipped(s0: State, s2: State, t: State, id: Id, deps: seq<Id>, from: nat, pend: set<Id>, dwm: nat, shaped: bool)
    requires DependentsOpen(s0, s2, id, deps, pend, dwm, shaped)
    requires from < |deps| && DependentsTrace(s0, s2, t, id, deps, from + 1, dwm, shaped)
    requires deps[from] in t.presents && t.presents[deps[from]].completed
    ensures DependentsTrace(s0, s2, t, id, deps, from, dwm, shaped)
  {
    hide DependentsOpen, Moves, Dragging, Serial, Ascends;
    if shaped {
      PendingDone(s0, s2, id, deps, pend, dwm, shaped);
      SerialSkipped(s2, t, deps, from, dwm);
    }
  }

  /** All that happens to the dependents, since p was marked. */
  ghost predicate DependentsTraced(s: State, t: State, id: Id, dwm: nat, shaped: bool) {
    && Moves(s, t, {}) && Dragging(s, t, id) && id in s.presents
    && (shaped ==> Ascends(s, t, s.presents[id].pid, 0) && DependentsIn(s.presents, id) && DependentOrder(s.presents, t.log, id, dwm))
  }

  lemma NoneTraced(s: State, id: Id, pend: set<Id>, dwm: nat, shaped: bool)
    requires Completing(s, id, pend, dwm, shaped) && s.presents[id].dependents == []
    ensures DependentsTraced(s, s, id, dwm, shaped)
  {
    assert Core(s, pend + {id});
    hide Core, ShapedInv, StackOk, Moves, Dragging, Ascends, Overtakes, ComesFirst;
    NothingMoves(s, pend + {id});
    NoDragsYet(s, id);
    AscendsNothing(s, s, s.presents[id].pid, 0);
  }

  lemma DependentsAdd(s: State, s2: State, s3: State, id: Id, deps: seq<Id>, pend: set<Id>, dwm: nat, shaped: bool)
    requires Dependents(s, id, deps, pend, dwm, shaped) && OpenedTrace(s, s2, id)
    requires DependentsTrace(s, s2, s3, id, deps, 0, dwm, shaped) && DependentsOpen(s, s3, id, deps, pend, dwm, shaped)
    ensures DependentsTraced(s, s3, id, dwm, shaped)
  {
    assert Core(s3, pend + {id});
    DependentsArea(s, id, deps, pend, dwm, shaped);
    hide Core, ShapedInv, StackOk, Moves, Dragging, Ascends, Serial, DependentsOpen, Progress, Propagate, LoseAll, InArea;
    MovesTransitive(s, s2, s3, {}, {});
    if shaped {
      AscendsFrom(s, s2, s3, dwm, 0);
      SerialOrder(s2, s3, deps, pend + {id}, dwm);
    }
  }

  lemma AscendsFrom(s: State, s2: State, t: State, pid: nat, to: nat)
    requires s2.log == s.log && Ascends(s2, t, pid, to)
    ensures Ascends(s, t, pid, to)
  {
  }

  lemma SerialOrder(s2: State, s3: State, deps: seq<Id>, pend: set<Id>, dwm: nat)
    requires Serial(s2, s3, deps, 0, dwm) && Core(s3, pend) && forall q :: q in pend ==> q in s2.presents && s2.presents[q].completed
    ensures OrderedBy(s2.presents, deps, s3.log, dwm)
  {
    hide Taken, Overtakes, ComesFirst, Pair;
    assert LogExact(s3.presents, s3.log, pend);
    hide Core;
  }

  lemma DroppedTraced(s: State, s3: State, id: Id, pend: set<Id>, dwm: nat, shaped: bool)
    requires DependentsTraced(s, s3, id, dwm, shaped) && Core(s3, pend) && id in s3.presents && s3.presents[id].completed
    ensures DependentsTraced(s, With(s3, id, s3.presents[id].(dependents := [])), id, dwm, shaped)
  {
    hide Core, Moves, Dragging, Ascends, DependentOrder;
    var s4 := With(s3, id, s3.presents[id].(dependents := []));
    DropTrace(s, s3, id, pend);
    MovesTransitive(s, s3, s4, {}, {});
    if shaped { AscendsSame(s, s3, s4, s.presents[id].pid, 0, 0); }
  }

  // ---------------------------------------------------------------------------------------------
  // Earlier presents

  ghost predicate EarlierTrace(s: State, t: State, id: Id, k: nat, shaped: bool) {
    && Moves(s, t, {}) && Dragging(s, t, id) && id in s.presents
    && (shaped ==> Ascends(s, t, s.presents[id].pid, k))
  }

  lemma EarlierTraceStart(s: State, id: Id, pend: set<Id>, shaped: bool)
    requires Core(s, pend) && id in s.presents
    ensures EarlierTrace(s, s, id, 0, shaped)
  {
    hide Core, Moves, Dragging, Ascends;
    NothingMoves(s, pend);
    NoDragsYet(s, id);
    AscendsNothing(s, s, s.presents[id].pid, 0);
  }

  lemma EarlierTraced(s: State, id: Id, pend: set<Id>, dwm: nat, shaped: bool)
    requires Completing(s, id, pend, dwm, shaped)
    ensures EarlierTrace(s, s, id, 0, shaped)
  {
    hide Core, EarlierTrace, ShapedInv, StackOk;
    EarlierTraceStart(s, id, pend + {id}, shaped);
  }

  lemma EarlierTraceOn(s: State, t: State, id: Id, k: nat, k': nat, shaped: bool)
    requires EarlierTrace(s, t, id, k, shaped) && k <= k'
    ensures EarlierTrace(s, t, id, k', shaped)
  {
    hide Dragging;
    if shaped { AscendsSame(s, t, t, s.presents[id].pid, k, k'); }
    hide Moves, Ascends;
  }

  lemma EntryTraced(s: State, t: State, t': State, u: State, x: Id, id: Id, k: nat, pend: set<Id>, dwm: nat, shaped: bool)
    requires EarlierOpen(s, t, id, pend, dwm, shaped) && EarlierTrace(s, t, id, k, shaped)
    requires DoneBefore(t.presents, id, k) && Entry(t.presents, x, id, k) && t.presents[x].swapChain == t.presents[id].swapChain
    requires t' == if t.presents[id].lost then MarkLost(t, x) else t
    requires Callable(t', x, pend + {id}, dwm, shaped) && Achieved(t', u, x, pend + {id}, dwm, shaped) && Traced(t', u, x, dwm, shaped)
    ensures EarlierTrace(s, u, id, k + 1, shaped)
  {
    hide EarlierOpen, Moves, Dragging, Ascends, Callable, Achieved, DependentOrder, DoneBefore, MarkLost, Traced;
    EarlierReady(s, t, t', u, x, id, k, pend, dwm, shaped);
    LostEntry(t, t', x, id, k);
    MovesTransitive(s, t, t', {}, {});
    MovesTransitive(s, t', u, {}, {});
    EarlierDrags(s, t, t', u, x, id, k, pend, dwm, shaped);
    if shaped { EntryOrder(s, t, t', u, x, id, k, pend, dwm); }
  }

  lemma EarlierReady(s: State, t: State, t': State, u: State, x: Id, id: Id, k: nat, pend: set<Id>, dwm: nat, shaped: bool)
    requires EarlierOpen(s, t, id, pend, dwm, shaped) && Entry(t.presents, x, id, k)
    requires t' == if t.presents[id].lost then MarkLost(t, x) else t
    requires Callable(t', x, pend + {id}, dwm, shaped) && Achieved(t', u, x, pend + {id}, dwm, shaped) && Traced(t', u, x, dwm, shaped)
    ensures Moves(t, t', {}) && Moves(t', u, {})
    ensures x in t'.presents && (t'.hasCompleted || t'.presents[x].lost) && (t'.presents[x].completed ==> u == t')
    ensures t'.log == t.log && t'.presents.Keys == t.presents.Keys
  {
    assert Core(t, pend + {id});
    hide Core, Progress, StackOk, ShapedInv, Moves, Dragging, Evolves, CompletedWith, ShapedEffect, Flushed;
    assert id in pend + {id};
    if t.presents[id].lost { LostMoves(t, x, pend + {id}); } else { NothingMoves(t, pend + {id}); }
  }

  lemma EarlierDrags(s: State, t: State, t': State, u: State, x: Id, id: Id, k: nat, pend: set<Id>, dwm: nat, shaped: bool)
    requires EarlierOpen(s, t, id, pend, dwm, shaped) && Dragging(s, t, id)
    requires Entry(t.presents, x, id, k) && t.presents[x].swapChain == t.presents[id].swapChain
    requires t' == if t.presents[id].lost then MarkLost(t, x) else t
    requires x in t'.presents && (t'.hasCompleted || t'.presents[x].lost) && (t'.presents[x].completed ==> u == t')
    requires Traced(t', u, x, dwm, shaped)
    ensures Dragging(s, u, id)
  {
    EarlierKnown(t.presents, x, id, k);
    hide EarlierOpen, Moves, Drags, MarkLost, Earlier, Ascends, DependentOrder, Entry;
    EntryDrags(s, t, t', u, x, id, pend, dwm, shaped);
  }

  lemma EntryOrder(s: State, t: State, t': State, u: State, x: Id, id: Id, k: nat, pend: set<Id>, dwm: nat)
    requires EarlierTrace(s, t, id, k, true) && Moves(s, t', {}) && Moves(t, t', {})
    requires DoneBefore(t'.presents, id, k) && Entry(t'.presents, x, id, k) && t.presents.Keys == t'.presents.Keys
    requires x in t.presents && id in t.presents && t.presents[x].swapChain == t.presents[id].swapChain
    requires t'.log == t.log
    requires x in t'.presents && (t'.hasCompleted || t'.presents[x].lost) && (t'.presents[x].completed ==> u == t')
    requires Callable(t', x, pend + {id}, dwm, true) && Achieved(t', u, x, pend + {id}, dwm, true)
    ensures Ascends(s, u, s.presents[id].pid, k + 1)
  {
    hide Dragging, Ascends, DoneBefore, Callable, Achieved, KeysKept, LetOffLate, HeadHeld;
    AscendsSame(s, t, t', s.presents[id].pid, k, k);
    if t'.presents[x].completed {
      AscendsSame(s, t', u, s.presents[id].pid, k, k + 1);
    } else {
      CalledFacts(t', u, x, pend + {id}, dwm);
      hide Called;
      EntryAscends(s, t', u, x, id, k, pend + {id}, dwm);
    }
  }

  // ---------------------------------------------------------------------------------------------
  // All of it

  lemma AscendsJoin(a: State, b: State, c: State, pid: nat, to: nat)
    requires Ascends(a, b, pid, 0) && Ascends(b, c, pid, to) && Fixed(b.presents, c.presents)
    ensures Ascends(a, c, pid, to)
  {
    MineKept(b, c, pid);
    assert forall i :: 0 <= i < |b.log| ==> c.log[i] == b.log[i];
    assert forall i :: |a.log| <= i < |b.log| ==> !Mine(b, i, pid);
    hide Mine;
  }

  /** The stages since p was marked. */
  ghost predicate StagesTraced(s1: State, s5: State, id: Id, dwm: nat, shaped: bool) {
    && Moves(s1, s5, {}) && Dragging(s1, s5, id) && id in s1.presents
    && (shaped ==>
          && Ascends(s1, s5, s1.presents[id].pid, s1.presents[id].start)
          && DependentsIn(s1.presents, id) && DependentOrder(s1.presents, s5.log, id, dwm))
  }

  lemma DependentsOnly(s1: State, s4: State, id: Id, dwm: nat, shaped: bool)
    requires DependentsTraced(s1, s4, id, dwm, shaped)
    ensures StagesTraced(s1, s4, id, dwm, shaped)
    ensures id in s1.presents && id in s4.presents && s4.presents[id].start == s1.presents[id].start
  {
    MovesOnward(s1, s4);
    hide Moves, Dragging, Ascends, DependentOrder;
    if shaped { AscendsSame(s1, s4, s4, s1.presents[id].pid, 0, s1.presents[id].start); }
  }

  lemma StagesAdd(s1: State, s4: State, s5: State, id: Id, pend: set<Id>, dwm: nat, shaped: bool)
    requires Completing(s1, id, pend, dwm, shaped) && Stage(s1, s4, id, pend, dwm, shaped) && Core(s5, pend + {id})
    requires DependentsTraced(s1, s4, id, dwm, shaped) && EarlierTrace(s4, s5, id, s1.presents[id].start, shaped)
    ensures StagesTraced(s1, s5, id, dwm, shaped)
  {
    assert LogExact(s5.presents, s5.log, pend + {id});
    hide Stage, Core, Moves, Dragging, Ascends, DependentOrder, ShapedInv, StackOk;
    MovesTransitive(s1, s4, s5, {}, {});
    DraggingStage(s1, s4, s5, id, pend, dwm, shaped);
    if shaped {
      MovesOnward(s1, s4);
      MovesOnward(s4, s5);
      AscendsJoin(s1, s4, s5, s1.presents[id].pid, s1.presents[id].start);
      OrderOn(s1.presents, s4.log, s5.log, id, dwm);
    }
  }

  lemma OrderOn(P: Presents, L: seq<Attempt>, L': seq<Attempt>, id: Id, dwm: nat)
    requires DependentsIn(P, id) && DependentOrder(P, L, id, dwm)
    requires L <= L' && forall i, j :: 0 <= i < j < |L'| ==> L'[i].id != L'[j].id
    ensures DependentOrder(P, L', id, dwm)
  {
    hide OrderedBy, Decided;
    OrderedOn(Decided(P, id), P[id].dependents, L, L', dwm);
  }

  /** From the call to the ring. */
  lemma TracedCall(s: State, s5: State, id: Id, pend: set<Id>, taken: bool, dwm: nat, shaped: bool)
    requires Callable(s, id, pend, dwm, shaped) && !s.presents[id].completed && id !in pend
    requires Stage(MarkCompleted(s, id), s5, id, pend, dwm, shaped) && StagesTraced(MarkCompleted(s, id), s5, id, dwm, shaped)
    requires AllCompleted(s5.presents, s.presents[id].dependents)
    requires s.presents[id].finalState == Presented ==> NoneEarlier(s5.presents, id)
    requires Core(Finish(s5, id, pend, taken), pend)
    ensures Traced(s, Finish(s5, id, pend, taken), id, dwm, shaped)
  {
    hide Core, ShapedInv, StackOk, Moves, Dragging, Ascends, DependentOrder, DependentsIn, Finish, MarkCompleted, Stage, AllCompleted,
      NoneEarlier, StagesTraced;
    StagesOf(MarkCompleted(s, id), s5, id, pend, dwm, shaped);
    TracedMoves(s, s5, id, pend, taken);
    DraggingCall(s, s5, id, pend, taken, dwm, shaped);
    if shaped { TracedOrder(s, s5, id, pend, taken, dwm); }
  }

  /** What a completion achieves, and its course. */
  lemma AllTogether(s: State, s5: State, id: Id, pend: set<Id>, taken: bool, dwm: nat, shaped: bool)
    requires Callable(s, id, pend, dwm, shaped) && !s.presents[id].completed && (s.hasCompleted || s.presents[id].lost)
    requires id !in pend && Stage(MarkCompleted(s, id), s5, id, pend, dwm, shaped)
    requires StagesTraced(MarkCompleted(s, id), s5, id, dwm, shaped)
    requires AllCompleted(s5.presents, s.presents[id].dependents)
    requires s.presents[id].finalState == Presented ==> NoneEarlier(s5.presents, id)
    requires shaped && !s.presents[id].lost ==> Inherited(MarkCompleted(s, id).presents, s5.presents, id)
    requires Core(s5, pend + {id}) && (Lonely(s.presents, id) ==> s5 == MarkCompleted(s, id))
    ensures var s' := Finish(s5, id, pend, taken);
            && Achieved(s, s', id, pend, dwm, shaped) && Traced(s, s', id, dwm, shaped) && Singly(s, s', id, pend)
  {
    hide Core, Finish, MarkCompleted, Stage, StagesTraced, AllCompleted, NoneEarlier, Inherited, Lonely, Achieved, Traced, Singly,
      ShapedInv, StackOk;
    Assemble(s, s5, id, pend, taken, dwm, shaped);
    TracedCall(s, s5, id, pend, taken, dwm, shaped);
    SinglyCall(s, s5, id, pend, taken);
  }

  lemma StagesOf(s1: State, s5: State, id: Id, pend: set<Id>, dwm: nat, shaped: bool)
    requires Stage(s1, s5, id, pend, dwm, shaped) && StagesTraced(s1, s5, id, dwm, shaped)
    ensures Core(s5, pend + {id}) && id in s5.presents && Moves(s1, s5, {}) && Dragging(s1, s5, id)
  {
    hide Core, Moves, Dragging;
  }

  lemma TracedMoves(s: State, s5: State, id: Id, pend: set<Id>, taken: bool)
    requires Core(s, pend) && id in s.presents && !s.presents[id].completed && id !in pend
    requires Core(s5, pend + {id}) && Moves(MarkCompleted(s, id), s5, {})
    ensures Moves(s, Finish(s5, id, pend, taken), {})
  {
    hide Core, Moves, Finish, MarkCompleted, LoggedIn;
    MarkMoves(s, id, pend);
    MovesTransitive(s, MarkCompleted(s, id), s5, {}, {});
    FinishMoves(s5, id, pend, taken);
    MovesTransitive(s, s5, Finish(s5, id, pend, taken), {}, {id});
  }

  lemma TracedOrder(s: State, s5: State, id: Id, pend: set<Id>, taken: bool, dwm: nat)
    requires id in s.presents && id !in pend && Core(s5, pend + {id}) && id in s5.presents
    requires StagesTraced(MarkCompleted(s, id), s5, id, dwm, true)
    requires Core(Finish(s5, id, pend, taken), pend) && Moves(s, Finish(s5, id, pend, taken), {})
    ensures var P := MarkCompleted(s, id).presents;
            && Ascends(s, Finish(s5, id, pend, taken), s.presents[id].pid, s.presents[id].start + 1)
            && DependentsIn(P, id) && DependentOrder(P, Finish(s5, id, pend, taken).log, id, dwm)
  {
    hide Core, Moves, Dragging, Ascends, DependentOrder, Finish, MarkCompleted;
    var s1, s' := MarkCompleted(s, id), Finish(s5, id, pend, taken);
    MarkedPresent(s, id);
    MarkedLog(s, id);
    FinishLog(s5, id, pend, taken);
    LogOnce(s', pend);
    MovesOnward(s, s');
    FinishAscends(s, s5, s', id, pend, taken);
    OrderOn(s1.presents, s5.log, s'.log, id, dwm);
  }

  lemma MarkedLog(s: State, id: Id)
    requires id in s.presents
    ensures MarkCompleted(s, id).log == s.log
  {
  }

  lemma LogOnce(s: State, pend: set<Id>)
    requires Core(s, pend)
    ensures forall i, j :: 0 <= i < j < |s.log| ==> s.log[i].id != s.log[j].id
  {
  }

  lemma FinishLog(s5: State, id: Id, pend: set<Id>, taken: bool)
    requires Core(s5, pend + {id}) && id !in pend
    ensures var s' := Finish(s5, id, pend, taken);
            && s5.log <= s'.log && |s'.log| == |s5.log| + 1 && s'.log[|s5.log|].id == id && Fixed(s5.presents, s'.presents)
  {
    hide Core, Finish, Grows, Fixed, Settled;
    FinishEvolves(s5, id, pend, taken);
    EvolvesPresents(s5, Finish(s5, id, pend, taken), pend);
    FixedAfter(s5.presents, Finish(s5, id, pend, taken).presents, pend, {});
  }

  lemma FinishAscends(s: State, s5: State, s': State, id: Id, pend: set<Id>, taken: bool)
    requires id in s.presents && id in s5.presents && Fixed(s.presents, s'.presents)
    requires var s1 := MarkCompleted(s, id);
             s1.log == s.log && id in s1.presents && s1.presents[id].pid == s.presents[id].pid
             && s1.presents[id].start == s.presents[id].start && Ascends(s1, s5, s1.presents[id].pid, s1.presents[id].start)
    requires s5.log <= s'.log && |s'.log| == |s5.log| + 1 && s'.log[|s5.log|].id == id && Fixed(s5.presents, s'.presents)
    ensures Ascends(s, s', s.presents[id].pid, s.presents[id].start + 1)
  {
    hide Ascends, MarkCompleted;
    var s1, pid, start := MarkCompleted(s, id), s.presents[id].pid, s.presents[id].start;
    AscendsFrom(s, s1, s5, pid, start);
    AscendsOn(s, s5, s', pid, start, start + 1);
  }

  // ---------------------------------------------------------------------------------------------
  // Presents that are lost

  /** Losing a present in progress is completing it as lost. */
  ghost predicate LossTraced(s: State, s': State, id: Id, dwm: nat, shaped: bool) {
    id in s.presents && !s.presents[id].completed ==>
      && Moves(s, s', {}) && Traced(MarkLost(s, id), s', id, dwm, shaped)
      && (Lonely(s.presents, id) ==> Alone(MarkLost(s, id), s', id, {}))
  }

  lemma LossMoves(s: State, s': State, id: Id, pend: set<Id>, dwm: nat, shaped: bool)
    requires Core(s, pend) && id in s.presents && Traced(MarkLost(s, id), s', id, dwm, shaped)
    requires Singly(MarkLost(s, id), s', id, {})
    ensures LossTraced(s, s', id, dwm, shaped)
  {
    hide Core, Moves, MarkLost, Traced, Alone, Lonely, Finish, MarkCompleted;
    LostStillLonely(s, id);
    TracedTo(MarkLost(s, id), s', id, dwm, shaped);
    LostMoves(s, id, pend);
    MovesTransitive(s, MarkLost(s, id), s', {}, {});
  }

  lemma TracedTo(s: State, s': State, id: Id, dwm: nat, shaped: bool)
    requires Traced(s, s', id, dwm, shaped)
    ensures Moves(s, s', {})
  {
    hide Moves, Dragging, Ascends, DependentOrder;
  }

  lemma LostStillLonely(s: State, id: Id)
    requires id in s.presents
    ensures id in MarkLost(s, id).presents && MarkLost(s, id).presents[id].lost
    ensures Lonely(s.presents, id) ==> Lonely(MarkLost(s, id).presents, id)
  {
  }

  /** So far the flush; a lonely present that is all there is makes up all of it. */
  ghost predicate FlushTrace(s: State, t: State) {
    && Moves(s, t, {})
    && forall x: Id :: Lonely(s.presents, x) && InProgress(s.presents) == {x} ==> t == s || Alone(MarkLost(s, x), t, x, {})
  }

  lemma FlushTraceOn(s: State, t: State, t': State, id: Id, pids: set<nat>, dwm: nat, shaped: bool)
    requires FlushProgress(s, t, pids, dwm, shaped)
    requires FlushTrace(s, t) && LossTraced(t, t', id, dwm, shaped) && id in t.presents && !t.presents[id].completed
    ensures FlushTrace(s, t')
  {
    hide Moves, Traced, Alone, Lonely, FlushProgress, Finish, MarkCompleted, MarkLost;
    MovesTransitive(s, t, t', {}, {});
    MovesOnward(s, t);
    forall x: Id | Lonely(s.presents, x) && InProgress(s.presents) == {x}
      ensures t' == s || Alone(MarkLost(s, x), t', x, {})
    {
      assert x in InProgress(s.presents) && id in InProgress(s.presents);
      if t != s { AloneCompletes(MarkLost(s, x), t, x, {}); }
    }
  }

  lemma FlushStarts(s: State, dwm: nat, shaped: bool)
    requires FlushStart(s, dwm, shaped)
    ensures FlushTrace(s, s)
  {
    hide Core, ShapedInv, Moves, Alone, Lonely;
    NothingMoves(s, {});
  }

  /** The flush ends with the note that a present has completed. */
  lemma FlushTraced(s: State, t: State, id: Id, dwm: nat, shaped: bool)
    requires FlushDone(s, t, dwm, shaped) && FlushTrace(s, t) && id in s.presents && !s.hasCompleted && !s.presents[id].lost
    ensures Traced(s, t.(hasCompleted := true), id, dwm, shaped) && Singly(s, t.(hasCompleted := true), id, {})
  {
    assert Core(t, {}) && !t.hasCompleted;
    FlushedAll(s, t, dwm, shaped);
    hide Core, ShapedInv, Moves, Evolves, Alone, Lonely;
    assert t.(hasCompleted := true).(hasCompleted := false) == t;
    FirstMoves(t, {});
    MovesTransitive(s, t, t.(hasCompleted := true), {}, {});
  }

  lemma FlushedAll(s: State, t: State, dwm: nat, shaped: bool)
    requires FlushDone(s, t, dwm, shaped)
    ensures forall id :: InProgress(s.presents) == {id} ==> t != s
  {
    hide Core, ShapedInv, Evolves;
    forall id | InProgress(s.presents) == {id}
      ensures t != s
    {
      assert id in InProgress(s.presents);
    }
  }

  /** A call for a present that has completed does nothing. */
  lemma NothingTraced(s: State, id: Id, pend: set<Id>, dwm: nat, shaped: bool)
    requires Callable(s, id, pend, dwm, shaped) && s.presents[id].completed
    ensures Traced(s, s, id, dwm, shaped)
  {
    assert Core(s, pend);
    hide Core, ShapedInv, StackOk, Moves;
    NothingMoves(s, pend);
  }
}
