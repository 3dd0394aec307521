/** The stages of completing one present: its dependents, earlier presents of its chain, and the ring. */
module PresentStages {
  import opened Wrappers
  import opened PresentSpec
  import opened PresentInv
  import opened PresentSteps
  import opened PresentEvolution
  import opened PresentCalls

  ghost function Ids(deps: seq<Id>): set<Id> {
    set d | d in deps
  }

  // ---------------------------------------------------------------------------------------------
  // Dependents

  /** The dependents of p were given its outcome, or were lost with it, and are being completed. */
  ghost predicate DependentsOpen(s0: State, s: State, id: Id, deps: seq<Id>, pend: set<Id>, dwm: nat, shaped: bool) {
    && Progress(s0, s, id, pend + {id}, dwm, shaped, Ids(deps))
    && (forall d :: d in deps ==> d in s.presents && (s.hasCompleted || s.presents[d].lost))
    && (s0.presents[id].lost ==> forall d :: d in deps ==> s.presents[d].lost)
    && (shaped ==> StackOk(s0.presents, pend, id, dwm) &&
                   forall d :: d in deps ==> InArea(s0.presents, d, id, dwm) && s0.presents[d].pid != dwm)
  }

  /** Changing dependents softly opens them. */
  lemma OpenProgress(s: State, Q: Presents, id: Id, pend: set<Id>, dwm: nat, shaped: bool, open: set<Id>)
    requires Core(s, pend) && id in s.presents
    requires SoftChange(s.presents, Q) && SameKeys(s.presents, Q)
    requires Evolves(s, s.(presents := Q), pend, open)
    requires shaped ==> ShapedInv(s, pend, dwm) && s.presents[id].pid == dwm
    ensures Progress(s, s.(presents := Q), id, pend, dwm, shaped, open)
  {
    hide Core, SoftChange, SameKeys, Evolves, LosesAll, Footprint, Shape, ChainOrder;
    SoftKeeps(s, Q, pend);
    if shaped { SoftShape(s.presents, Q, s.log, pend, dwm); }
    SoftFootprint(s.presents, Q, id, dwm);
  }

  ghost predicate Dependents(s: State, id: Id, deps: seq<Id>, pend: set<Id>, dwm: nat, shaped: bool) {
    && Core(s, pend + {id}) && id in s.presents && s.presents[id].completed && deps == s.presents[id].dependents && deps != []
    && (s.hasCompleted || s.presents[id].lost)
    && (shaped ==> ShapedInv(s, pend + {id}, dwm) && StackOk(s.presents, pend, id, dwm))
  }

  lemma DependentsArea(s: State, id: Id, deps: seq<Id>, pend: set<Id>, dwm: nat, shaped: bool)
    requires Dependents(s, id, deps, pend, dwm, shaped)
    ensures forall d :: d in deps ==> d in s.presents
    ensures forall a :: a in pend + {id} && a in s.presents ==> s.presents[a].completed
    ensures shaped ==> s.presents[id].pid == dwm
    ensures shaped ==> forall d :: d in deps ==> InArea(s.presents, d, id, dwm) && s.presents[d].pid != dwm
  {
    if shaped {
      assert deps[0] in s.presents[id].dependents;
      forall d | d in deps
        ensures s.presents[id].pid == dwm && d in s.presents && s.presents[d].pid != dwm
      {
        assert Shape(s.presents, dwm);
      }
    }
  }

  lemma LoseOpens(s: State, id: Id, deps: seq<Id>, pend: set<Id>, dwm: nat, shaped: bool)
    requires Dependents(s, id, deps, pend, dwm, shaped) && s.presents[id].lost
    ensures forall d :: d in deps ==> d in s.presents
    ensures DependentsOpen(s, s.(presents := LoseAll(s.presents, deps)), id, deps, pend, dwm, shaped)
    ensures InProgress(LoseAll(s.presents, deps)) == InProgress(s.presents)
  {
    hide Core, SoftChange, SameKeys, Evolves, LosesAll, Footprint, Shape, ChainOrder, LoseAll, InArea, StackOk, InProgress;
    DependentsArea(s, id, deps, pend, dwm, shaped);
    var Q := LoseAll(s.presents, deps);
    LoseAllExact(s.presents, deps);
    LoseAllSoft(s.presents, deps);
    LoseAllEvolves(s, deps, pend + {id});
    SoftInProgress(s.presents, Q);
    OpenProgress(s, Q, id, pend + {id}, dwm, shaped, Ids(deps));
  }

  lemma PropagateOpens(s: State, id: Id, deps: seq<Id>, pend: set<Id>, dwm: nat, shaped: bool)
    requires Dependents(s, id, deps, pend, dwm, shaped) && !s.presents[id].lost
    ensures forall d :: d in deps ==> d in s.presents
    ensures DependentsOpen(s, s.(presents := Propagate(s.presents, deps, {}, s.presents[id])), id, deps, pend, dwm, shaped)
    ensures InProgress(Propagate(s.presents, deps, {}, s.presents[id])) == InProgress(s.presents)
  {
    hide Core, SoftChange, SameKeys, Evolves, LosesAll, Footprint, Shape, ChainOrder, Propagate, InArea, StackOk, InProgress;
    DependentsArea(s, id, deps, pend, dwm, shaped);
    var Q := Propagate(s.presents, deps, {}, s.presents[id]);
    PropagateSoft(s.presents, deps, {}, s.presents[id]);
    PropagateEvolves(s, deps, s.presents[id], pend + {id});
    SoftInProgress(s.presents, Q);
    OpenProgress(s, Q, id, pend + {id}, dwm, shaped, Ids(deps));
  }

  lemma SoftInProgress(P: Presents, Q: Presents)
    requires SoftChange(P, Q)
    ensures InProgress(Q) == InProgress(P)
  {
  }

  /** A dependent that is still in progress may be completed. */
  lemma DependentCallable(s0: State, s: State, x: Id, id: Id, deps: seq<Id>, pend: set<Id>, dwm: nat, shaped: bool)
    requires DependentsOpen(s0, s, id, deps, pend, dwm, shaped) && x in deps
    ensures Callable(s, x, pend + {id}, dwm, shaped)
  {
    if shaped {
      NestedStack(s0.presents, pend, id, x, dwm);
      assert PresentsEvolve(s0.presents, s.presents, pend + {id}, Ids(deps));
      StackEvolves(s0.presents, s.presents, pend + {id}, x, dwm);
    }
    hide Core, Evolves, LosesAll, ShapedInv, Area, PresentsEvolve, InArea, StackOk;
  }

  lemma DependentDone(s0: State, s: State, s': State, x: Id, id: Id, deps: seq<Id>, pend: set<Id>, dwm: nat, shaped: bool)
    requires DependentsOpen(s0, s, id, deps, pend, dwm, shaped) && x in deps && !s.presents[x].completed
    requires Callable(s, x, pend + {id}, dwm, shaped) && Achieved(s, s', x, pend + {id}, dwm, shaped)
    ensures DependentsOpen(s0, s', id, deps, pend, dwm, shaped)
    ensures s'.presents[x].completed
    ensures shaped ==> SameOutcomes(s.presents, s'.presents)
    ensures s'.presents.Keys == s.presents.Keys
    ensures forall a :: a in s.presents && s.presents[a].completed ==> s'.presents[a].completed
    ensures |InProgress(s'.presents)| <= |InProgress(s.presents)|
  {
    hide Core, Evolves, LosesAll, ShapedInv, Area, PresentsEvolve, InArea, StackOk, SameOutcomes, Grows, InProgress, Callable,
      CompletedWith, ShapedEffect, Progress, Flushed;
    if shaped { DependentLocal(s0, s, s', x, id, deps, pend, dwm); }
    NestedFlags(s, s', pend + {id});
    NestedCall(s0, s, s', x, id, pend + {id}, dwm, shaped, Ids(deps));
  }

  lemma NestedFlags(s: State, s': State, pend: set<Id>)
    requires Evolves(s, s', pend, {})
    ensures s.presents.Keys == s'.presents.Keys
    ensures forall a :: a in s.presents && s.presents[a].completed ==> s'.presents[a].completed
    ensures forall a :: a in s.presents && s.presents[a].lost ==> s'.presents[a].lost
    ensures |InProgress(s'.presents)| <= |InProgress(s.presents)|
    ensures s.hasCompleted ==> s'.hasCompleted
  {
    var P, Q := s.presents, s'.presents;
    assert forall a :: a in P ==> Grows(P[a], Q[a]);
    hide PresentsEvolve;
    NoMoreInProgress(P, Q);
  }

  /** Completing a dependent decides nothing about other dependents. */
  lemma DependentLocal(s0: State, s: State, s': State, x: Id, id: Id, deps: seq<Id>, pend: set<Id>, dwm: nat)
    requires DependentsOpen(s0, s, id, deps, pend, dwm, true) && x in deps && !s.presents[x].completed
    requires Callable(s, x, pend + {id}, dwm, true) && Achieved(s, s', x, pend + {id}, dwm, true)
    ensures SameOutcomes(s.presents, s'.presents)
  {
    assert Grows(s0.presents[x], s.presents[x]) by { assert PresentsEvolve(s0.presents, s.presents, pend + {id}, Ids(deps)); }
    hide Core, Evolves, LosesAll, ShapedInv, PresentsEvolve, InArea, StackOk, SameOutcomes, Footprint, CompletedWith, Inherited;
  }

  /** After the dependents: their list is dropped, unless flip frame types may still arrive for it. */
  lemma ClearStage(s: State, id: Id, pend: set<Id>, dwm: nat, shaped: bool)
    requires Core(s, pend + {id}) && id in s.presents && s.presents[id].completed && id !in pend
    requires shaped ==> ShapedInv(s, pend + {id}, dwm)
    ensures Stage(s, With(s, id, s.presents[id].(dependents := [])), id, pend, dwm, shaped)
  {
    hide Core, SoftChange, SameKeys, Evolves, LosesAll, Area, Shape, ChainOrder, SameOutcomes;
    var Q := With(s, id, s.presents[id].(dependents := [])).presents;
    DropDependents(s.presents, id);
    SoftKeeps(s, Q, pend + {id});
    ClearDependentsEvolves(s, id, pend);
    if shaped { SoftShape(s.presents, Q, s.log, pend + {id}, dwm); }
    SoftArea(s.presents, Q, id, dwm);
    assert Outcome(s.presents[id], Q[id]);
  }

  lemma DropDependents(P: Presents, id: Id)
    requires id in P
    ensures var Q := P[id := P[id].(dependents := [])]; SoftChange(P, Q) && SameKeys(P, Q) && SameOutcomes(P, Q)
  {
    SoftOne(P, id, P[id].(dependents := []));
  }

  lemma SoftFootprint(P: Presents, Q: Presents, id: Id, dwm: nat)
    requires SoftChange(P, Q) && id in P
    ensures LosesAll(P, Q) && Footprint(P, Q, id, dwm)
  {
  }

  lemma SoftArea(P: Presents, Q: Presents, id: Id, dwm: nat)
    requires SoftChange(P, Q) && SameOutcomes(P, Q) && id in P
    ensures LosesAll(P, Q) && Area(P, Q, id, dwm)
  {
  }

  // ---------------------------------------------------------------------------------------------
  // Earlier presents of the chain

  ghost predicate EarlierOpen(s0: State, s: State, id: Id, pend: set<Id>, dwm: nat, shaped: bool) {
    && Progress(s0, s, id, pend + {id}, dwm, shaped, {})
    && id in s.presents && s.presents[id].completed && (s.hasCompleted || s.presents[id].lost)
    && (s0.presents[id].lost ==> s.presents[id].lost)
    && s0.presents[id].completed && s.presents[id].finalState == s0.presents[id].finalState == Presented
    && (shaped ==> StackOk(s0.presents, pend, id, dwm))
  }

  /** Every present of p's chain that started before `from` is completed. */
  ghost predicate DoneBefore(P: Presents, id: Id, from: nat) {
    id in P && forall a :: a in P && SameChain(P[id], P[a]) && P[a].start < from && P[a].start < P[id].start ==> P[a].completed
  }

  ghost predicate Earlier(P: Presents, x: Id, id: Id) {
    x in P && id in P && SameChain(P[x], P[id]) && P[x].start < P[id].start
  }

  /** An earlier present of the chain, marked lost if p is, may be completed. */
  lemma EarlierCallable(s0: State, s: State, x: Id, id: Id, pend: set<Id>, dwm: nat, shaped: bool)
    requires EarlierOpen(s0, s, id, pend, dwm, shaped) && Earlier(s.presents, x, id)
    ensures var s' := if s.presents[id].lost then MarkLost(s, x) else s;
            && Progress(s0, s', id, pend + {id}, dwm, shaped, {x})
            && Callable(s', x, pend + {id}, dwm, shaped)
            && (shaped ==> InArea(s0.presents, x, id, dwm))
  {
    hide Core, LosesAll, ShapedInv, Area, PresentsEvolve, StackOk, Evolves, InArea;
    if shaped { EarlierStack(s0, s, x, id, pend, dwm); }
    MarkLostProgress(s0, s, x, id, pend + {id}, dwm, shaped);
    EvolvesMore(s0, s, pend + {id}, {}, {x});
  }

  lemma EarlierStack(s0: State, s: State, x: Id, id: Id, pend: set<Id>, dwm: nat)
    requires EarlierOpen(s0, s, id, pend, dwm, true) && Earlier(s.presents, x, id)
    ensures StackOk(s.presents, pend + {id}, x, dwm) && StackOk(MarkLost(s, x).presents, pend + {id}, x, dwm)
    ensures InArea(s0.presents, x, id, dwm)
  {
    assert Evolves(s0, s, pend + {id}, {});
    hide Core, LosesAll, ShapedInv, Area, PresentsEvolve, StackOk, Evolves, Progress, Grows, Earlier, InArea;
    EvolvesGrows(s0, s, pend + {id}, {});
    EarlierGrows(s0.presents, s.presents, x, id, dwm);
    NestedStack(s0.presents, pend, id, x, dwm);
    StackEvolves(s0.presents, s.presents, pend + {id}, x, dwm);
    MarkLostGrows(s, x);
    StackEvolves(s.presents, MarkLost(s, x).presents, pend + {id}, x, dwm);
  }

  lemma EvolvesGrows(s: State, s': State, pend: set<Id>, open: set<Id>)
    requires Evolves(s, s', pend, open)
    ensures s.presents.Keys == s'.presents.Keys && forall a :: a in s.presents ==> Grows(s.presents[a], s'.presents[a])
  {
  }

  lemma EarlierGrows(P: Presents, Q: Presents, x: Id, id: Id, dwm: nat)
    requires P.Keys == Q.Keys && (forall a :: a in P ==> Grows(P[a], Q[a])) && Earlier(Q, x, id)
    requires id in P && P[id].finalState == Presented
    ensures InArea(P, x, id, dwm)
  {
    assert Grows(P[x], Q[x]) && Grows(P[id], Q[id]);
  }

  lemma MarkLostGrows(s: State, x: Id)
    requires x in s.presents
    ensures s.presents.Keys == MarkLost(s, x).presents.Keys
    ensures forall a :: a in s.presents ==> Grows(s.presents[a], MarkLost(s, x).presents[a])
  {
  }

  lemma EarlierDone(s0: State, s: State, s': State, x: Id, id: Id, pend: set<Id>, dwm: nat, shaped: bool)
    requires Progress(s0, s, id, pend + {id}, dwm, shaped, {x}) && Callable(s, x, pend + {id}, dwm, shaped)
    requires Achieved(s, s', x, pend + {id}, dwm, shaped)
    requires id in s.presents && s.presents[id].completed && (s.hasCompleted || (s.presents[x].lost && s.presents[id].lost))
    requires s0.presents[id].lost ==> s.presents[x].lost && s.presents[id].lost
    requires s0.presents[id].completed && s.presents[id].finalState == s0.presents[id].finalState == Presented
    requires shaped ==> InArea(s0.presents, x, id, dwm) && StackOk(s0.presents, pend, id, dwm)
    ensures EarlierOpen(s0, s', id, pend, dwm, shaped) && s'.presents[x].completed
    ensures PresentsEvolve(s.presents, s'.presents, pend + {id}, {})
  {
    assert PresentsEvolve(s.presents, s'.presents, pend + {id}, {});
    assert Grows(s.presents[id], s'.presents[id]);
    hide Core, Evolves, LosesAll, ShapedInv, Area, PresentsEvolve, InArea, StackOk;
    NestedCall(s0, s, s', x, id, pend + {id}, dwm, shaped, {x});
    ProgressClosed(s0, s', id, pend + {id}, dwm, shaped, {x});
  }

  lemma DoneBeforeKept(P: Presents, Q: Presents, pend: set<Id>, id: Id, from: nat)
    requires PresentsEvolve(P, Q, pend, {}) && DoneBefore(P, id, from)
    ensures DoneBefore(Q, id, from)
  {
    assert Grows(P[id], Q[id]);
    forall a | a in Q && SameChain(Q[id], Q[a]) && Q[a].start < from && Q[a].start < Q[id].start
      ensures Q[a].completed
    {
      assert Grows(P[a], Q[a]);
    }
  }

  /** No entry of the process's map lies between the cursor and the next entry. */
  lemma DoneUpTo(s: State, id: Id, from: nat, to: nat, pend: set<Id>)
    requires OrderedInv(s, pend) && DoneBefore(s.presents, id, from)
    requires s.presents[id].pid in s.ix.ordered
    requires forall k :: k in s.ix.ordered[s.presents[id].pid] && from <= k ==> to <= k
    ensures DoneBefore(s.presents, id, to)
  {
  }

  /** The next entry is the only present of the process with its start time. */
  lemma DoneOne(P: Presents, id: Id, x: Id, k: nat)
    requires Distinct(P) && DoneBefore(P, id, k) && x in P && P[x].pid == P[id].pid && P[x].start == k
    requires P[x].swapChain == P[id].swapChain ==> P[x].completed
    ensures DoneBefore(P, id, k + 1)
  {
  }

  // ---------------------------------------------------------------------------------------------
  // Assembly

  /** From the marked present through its stages to the ring. */
  lemma Assemble(s: State, s5: State, id: Id, pend: set<Id>, taken: bool, dwm: nat, shaped: bool)
    requires Callable(s, id, pend, dwm, shaped) && !s.presents[id].completed && (s.hasCompleted || s.presents[id].lost)
    requires id !in pend && Stage(MarkCompleted(s, id), s5, id, pend, dwm, shaped)
    requires AllCompleted(s5.presents, s.presents[id].dependents)
    requires s.presents[id].finalState == Presented ==> NoneEarlier(s5.presents, id)
    requires shaped && !s.presents[id].lost ==> Inherited(MarkCompleted(s, id).presents, s5.presents, id)
    ensures Achieved(s, Finish(s5, id, pend, taken), id, pend, dwm, shaped)
  {
    hide Core, PresentsEvolve, Evolves, LosesAll, ShapedInv, Area, SoftChange, Inherited, NoneEarlier, AllCompleted, Finish, StackOk,
      MarkCompleted, Outcome, Forgotten;
    var s1, s' := MarkCompleted(s, id), Finish(s5, id, pend, taken);
    AssembleEvolves(s, s5, id, pend, taken, dwm, shaped);
    AssembleLog(s, s5, id, pend, taken, dwm, shaped);
    AssembleForgets(s, s5, id, pend, taken, dwm, shaped);
    if shaped { AssembleOrder(s, s5, id, pend, taken, dwm); }
    AssembleWith(s, s5, s', id, pend, dwm, shaped);
    if shaped { AssembleEffect(s, s5, s', id, pend, dwm); }
  }

  lemma AssembleWith(s: State, s5: State, s': State, id: Id, pend: set<Id>, dwm: nat, shaped: bool)
    requires Core(s, pend) && id in s.presents && Stage(MarkCompleted(s, id), s5, id, pend, dwm, shaped)
    requires AllCompleted(s5.presents, s.presents[id].dependents)
    requires SoftChange(s5.presents, s'.presents) && PresentsEvolve(s5.presents, s'.presents, pend, {})
    ensures AllCompleted(s'.presents, s.presents[id].dependents)
    ensures NoneEarlier(s5.presents, id) ==> NoneEarlier(s'.presents, id)
    ensures s.presents[id].lost ==> LosesAll(s.presents, s'.presents)
  {
    KeysAndDependents(s, s5, id, pend, dwm, shaped);
    assert s.presents[id].lost ==> MarkCompleted(s, id).presents[id].lost && s5.presents[id].lost;
    hide Core, PresentsEvolve, Evolves, LosesAll, ShapedInv, Area, SoftChange, NoneEarlier, AllCompleted, MarkCompleted, Outcome;
    if s.presents[id].lost { AssembleLoss(s, s5, s', id, pend); }
    AssembleKept(s, s5, s', id, pend);
  }

  lemma AssembleEffect(s: State, s5: State, s': State, id: Id, pend: set<Id>, dwm: nat)
    requires Core(s, pend) && id in s.presents && Stage(MarkCompleted(s, id), s5, id, pend, dwm, true)
    requires AllCompleted(s5.presents, s.presents[id].dependents)
    requires SoftChange(s5.presents, s'.presents) && PresentsEvolve(s5.presents, s'.presents, pend, {})
    requires !s.presents[id].lost ==> Inherited(MarkCompleted(s, id).presents, s5.presents, id)
    ensures ShapedEffect(s, s', id, pend, dwm)
  {
    hide Core, PresentsEvolve, Evolves, LosesAll, ShapedInv, Area, SoftChange, AllCompleted, MarkCompleted, Outcome, Inherited;
    KeysAndDependents(s, s5, id, pend, dwm, true);
    MarkedBy(s, id);
    AssembleArea(s, s5, s', id, pend, dwm);
    if !s.presents[id].lost { AssembleInherited(MarkCompleted(s, id), s5, s', id, pend); }
  }

  lemma MarkedBy(s: State, id: Id)
    requires id in s.presents
    ensures Marked(s.presents, MarkCompleted(s, id).presents, id)
    ensures MarkCompleted(s, id).presents[id].dependents == s.presents[id].dependents
  {
  }

  lemma KeysAndDependents(s: State, s5: State, id: Id, pend: set<Id>, dwm: nat, shaped: bool)
    requires Core(s, pend) && id in s.presents && Stage(MarkCompleted(s, id), s5, id, pend, dwm, shaped)
    ensures s5.presents.Keys == s.presents.Keys
    ensures forall d :: d in s.presents[id].dependents ==> d in s.presents
  {
  }

  lemma AssembleEvolves(s: State, s5: State, id: Id, pend: set<Id>, taken: bool, dwm: nat, shaped: bool)
    requires id in s.presents && !s.presents[id].completed
    requires id !in pend && Stage(MarkCompleted(s, id), s5, id, pend, dwm, shaped)
    ensures var s' := Finish(s5, id, pend, taken);
            && Evolves(s, s', pend, {}) && s'.hasCompleted == s.hasCompleted
            && SoftChange(s5.presents, s'.presents) && PresentsEvolve(s5.presents, s'.presents, pend, {})
  {
    var s1, s' := MarkCompleted(s, id), Finish(s5, id, pend, taken);
    hide Core, SoftChange, LosesAll, ShapedInv, Area, Finish, PresentsEvolve, SameOutcome, Outcome;
    FinishEvolves(s5, id, pend, taken);
    FinishSoft(s5, id, pend, taken);
    MarkCompletedEvolves(s, id, pend);
    hide Evolves, MarkCompleted;
    EvolvesTransitive(s, s1, s5, pend, {});
    EvolvesTransitive(s, s5, s', pend, {});
  }

  /** The last attempt is p's, with the outcome it had when it was marked. */
  lemma AssembleLog(s: State, s5: State, id: Id, pend: set<Id>, taken: bool, dwm: nat, shaped: bool)
    requires id in s.presents && id !in pend && Stage(MarkCompleted(s, id), s5, id, pend, dwm, shaped)
    ensures var s' := Finish(s5, id, pend, taken);
            && Core(s', pend) && id in s'.presents && s'.presents[id].completed
            && |s.log| < |s'.log| && s'.log[|s'.log| - 1].id == id
            && Outcome(MarkCompleted(s, id).presents[id], s'.log[|s'.log| - 1].snapshot)
  {
    hide Core, SoftChange, LosesAll, ShapedInv, Area, Finish, PresentsEvolve, Evolves, MarkCompleted, SameOutcome, Outcome;
    var s1, s' := MarkCompleted(s, id), Finish(s5, id, pend, taken);
    StageLog(s, s5, id, pend, dwm, shaped);
    FinishEvolves(s5, id, pend, taken);
    FinishSoft(s5, id, pend, taken);
    CompletedAfter(s5.presents, s'.presents, id);
    OutcomeThen(s1.presents[id], s5.presents[id], s'.log[|s5.log|].snapshot);
    assert s5.presents[id].completed by { OutcomeCompleted(s1.presents[id], s5.presents[id]); }
  }

  lemma AssembleForgets(s: State, s5: State, id: Id, pend: set<Id>, taken: bool, dwm: nat, shaped: bool)
    requires id in s.presents && id !in pend && Stage(MarkCompleted(s, id), s5, id, pend, dwm, shaped)
    ensures Forgotten(Finish(s5, id, pend, taken), id, s.presents[id].keys, MarkCompleted(s, id).presents[id].waitingForPresentStop)
  {
    hide Core, LosesAll, ShapedInv, Area, Finish, Evolves;
    FinishForgets(s5, id, pend, taken);
    EvolvesGrows(MarkCompleted(s, id), s5, pend, {});
    KeysOnce(s.presents[id], MarkCompleted(s, id).presents[id], s5.presents[id]);
  }

  lemma KeysOnce(p: Present, q: Present, r: Present)
    requires q.keys == p.keys && Grows(q, r)
    ensures ClearKeys(r.keys) == ClearKeys(p.keys)
  {
  }

  lemma StageLog(s: State, s5: State, id: Id, pend: set<Id>, dwm: nat, shaped: bool)
    requires id in s.presents && Stage(MarkCompleted(s, id), s5, id, pend, dwm, shaped)
    ensures |s.log| <= |s5.log|
  {
    assert MarkCompleted(s, id).log == s.log;
  }

  lemma OutcomeThen(p: Present, q: Present, r: Present)
    requires Outcome(p, q) && SameOutcome(q, r)
    ensures Outcome(p, r)
  {
  }

  lemma OutcomeCompleted(p: Present, q: Present)
    requires Outcome(p, q)
    ensures q.completed
  {
  }

  lemma CompletedAfter(P: Presents, Q: Presents, id: Id)
    requires SoftChange(P, Q) && id in P
    ensures id in Q && Q[id].completed == P[id].completed
  {
    SoftAt(P, Q, id);
  }

  lemma SoftAt(P: Presents, Q: Presents, id: Id)
    requires SoftChange(P, Q) && id in P
    ensures id in Q && Soft(P[id], Q[id])
  {
  }

  lemma AssembleOrder(s: State, s5: State, id: Id, pend: set<Id>, taken: bool, dwm: nat)
    requires StackOk(s.presents, pend, id, dwm) && id in s.presents && id !in pend
    requires Stage(MarkCompleted(s, id), s5, id, pend, dwm, true)
    requires s.presents[id].finalState == Presented ==> NoneEarlier(s5.presents, id)
    ensures ShapedInv(Finish(s5, id, pend, taken), pend, dwm)
  {
    hide ShapedInv, Core, NoEarlier, NoneEarlier, Evolves, Area, LosesAll, StackOk;
    if s.presents[id].finalState == Presented { AssembleNothingEarlier(s, s5, id, pend, dwm); }
    FinishOrder(s5, id, pend, taken, dwm);
  }

  lemma AssembleNothingEarlier(s: State, s5: State, id: Id, pend: set<Id>, dwm: nat)
    requires StackOk(s.presents, pend, id, dwm) && id in s.presents && id !in pend
    requires Stage(MarkCompleted(s, id), s5, id, pend, dwm, true) && NoneEarlier(s5.presents, id)
    ensures NoEarlier(s5.presents, pend, id)
  {
    hide Core, ShapedInv, Area, LosesAll, StackOk, NoneEarlier, Distinct, NoEarlier, Evolves, Grows, MarkCompleted;
    var s1 := MarkCompleted(s, id);
    CoreDistinct(s5, pend + {id});
    EvolvesGrows(s1, s5, pend, {});
    MarkedBy(s, id);
    SameFixedAfter(s, s5.presents, id);
    NothingEarlier(s.presents, s5.presents, pend, id, dwm);
  }

  lemma SameFixedAfter(s: State, Q: Presents, id: Id)
    requires id in s.presents && s.presents.Keys == Q.Keys
    requires forall a :: a in s.presents ==> Grows(MarkCompleted(s, id).presents[a], Q[a])
    ensures forall a :: a in s.presents ==> SameFixed(s.presents[a], Q[a])
  {
    forall a | a in s.presents
      ensures SameFixed(s.presents[a], Q[a])
    {
      assert Grows(MarkCompleted(s, id).presents[a], Q[a]);
    }
  }

  lemma CoreDistinct(s: State, pend: set<Id>)
    requires Core(s, pend)
    ensures Distinct(s.presents)
  {
  }

  ghost predicate SameFixed(p: Present, q: Present) {
    q.start == p.start && q.pid == p.pid && q.swapChain == p.swapChain
  }

  /** Earlier presents are completed, and those on the call stack are later ones or belong to the compositor. */
  lemma NothingEarlier(P: Presents, Q: Presents, pend: set<Id>, id: Id, dwm: nat)
    requires StackOk(P, pend, id, dwm) && P.Keys == Q.Keys && forall a :: a in P ==> SameFixed(P[a], Q[a])
    requires NoneEarlier(Q, id) && Distinct(Q) && id !in pend
    requires Q[id].completed
    ensures NoEarlier(Q, pend, id)
  {
  }

  lemma AssembleArea(s: State, s5: State, s': State, id: Id, pend: set<Id>, dwm: nat)
    requires id in s.presents && Area(MarkCompleted(s, id).presents, s5.presents, id, dwm)
    requires SoftChange(s5.presents, s'.presents) && PresentsEvolve(s5.presents, s'.presents, pend, {})
    requires s5.presents.Keys == s.presents.Keys
    ensures Area(s.presents, s'.presents, id, dwm)
  {
    var P, P1 := s.presents, MarkCompleted(s, id).presents;
    hide Area, PresentsEvolve, SoftChange;
    SoftOutcomes(s5.presents, s'.presents, pend);
    MarkedBy(s, id);
    forall a | a in P
      ensures s'.presents[a].completed == s5.presents[a].completed
    {
      SoftAt(s5.presents, s'.presents, a);
    }
    hide MarkCompleted, PresentsEvolve, SoftChange, Marked, Area;
    AreaExtends(P, P1, s5.presents, s'.presents, id, dwm);
  }

  ghost predicate Marked(P: Presents, Q: Presents, id: Id) {
    && P.Keys == Q.Keys && id in P && (forall a :: a in P && a != id ==> Q[a] == P[a])
    && SameFixed(P[id], Q[id]) && Q[id].finalState == P[id].finalState && Q[id].displayed == P[id].displayed
  }

  lemma SoftOutcomes(P: Presents, Q: Presents, pend: set<Id>)
    requires SoftChange(P, Q) && PresentsEvolve(P, Q, pend, {})
    ensures SameOutcomes(P, Q)
  {
    forall a | a in P
      ensures Q[a].finalState == P[a].finalState && Q[a].displayed == P[a].displayed
    {
      assert Soft(P[a], Q[a]) && Grows(P[a], Q[a]);
    }
  }

  lemma AreaExtends(P: Presents, P1: Presents, P5: Presents, Q: Presents, id: Id, dwm: nat)
    requires Marked(P, P1, id) && Area(P1, P5, id, dwm) && P5.Keys == P.Keys == Q.Keys && SameOutcomes(P5, Q)
    requires forall a :: a in P ==> Q[a].completed == P5[a].completed
    ensures Area(P, Q, id, dwm)
  {
  }

  lemma AssembleLoss(s: State, s5: State, s': State, id: Id, pend: set<Id>)
    requires id in s.presents && s.presents[id].lost && LosesAll(MarkCompleted(s, id).presents, s5.presents)
    requires s5.presents.Keys == s.presents.Keys && s5.presents[id].lost
    requires SoftChange(s5.presents, s'.presents)
    ensures LosesAll(s.presents, s'.presents)
  {
    var P, P1, P5, Q := s.presents, MarkCompleted(s, id).presents, s5.presents, s'.presents;
    assert forall a :: a in P && a != id ==> a in P1 && P1[a] == P[a];
    hide MarkCompleted;
    forall a | a in P && !P[a].completed && Q[a].completed
      ensures Q[a].lost
    {
      SoftAt(P5, Q, a);
      hide SoftChange;
      if a != id { assert P1[a] == P[a]; }
    }
  }

  lemma AssembleKept(s: State, s5: State, s': State, id: Id, pend: set<Id>)
    requires id in s.presents && PresentsEvolve(s5.presents, s'.presents, pend, {})
    requires s5.presents.Keys == s.presents.Keys && forall d :: d in s.presents[id].dependents ==> d in s.presents
    requires AllCompleted(s5.presents, s.presents[id].dependents)
    ensures AllCompleted(s'.presents, s.presents[id].dependents)
    ensures NoneEarlier(s5.presents, id) ==> NoneEarlier(s'.presents, id)
  {
    hide PresentsEvolve;
    OutcomesKept(s5.presents, s'.presents, pend, s.presents[id].dependents);
    if NoneEarlier(s5.presents, id) { NoneEarlierKept(s5.presents, s'.presents, pend, id); }
  }

  lemma AssembleInherited(s1: State, s5: State, s': State, id: Id, pend: set<Id>)
    requires id in s1.presents && forall d :: d in s1.presents[id].dependents ==> d in s1.presents
    requires Inherited(s1.presents, s5.presents, id) && AllCompleted(s5.presents, s1.presents[id].dependents)
    requires PresentsEvolve(s5.presents, s'.presents, pend, {}) && s5.presents.Keys == s1.presents.Keys
    ensures Inherited(s1.presents, s'.presents, id)
  {
    hide PresentsEvolve;
    OutcomesKept(s5.presents, s'.presents, pend, s1.presents[id].dependents);
  }
}
