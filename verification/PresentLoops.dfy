/** What holds before, during and after the loops of CompletePresent. */
module PresentLoops {
  import opened Wrappers
  import opened PresentSpec
  import opened PresentInv
  import opened PresentSteps
  import opened PresentEvolution
  import opened PresentCalls
  import opened PresentStages
  import opened PresentLoss

  /** The present is marked completed, and is on top of the call stack. */
  ghost predicate Completing(s: State, id: Id, pend: set<Id>, dwm: nat, shaped: bool) {
    && Core(s, pend + {id}) && id in s.presents && s.presents[id].completed && id !in pend
    && (s.hasCompleted || s.presents[id].lost)
    && (shaped ==> ShapedInv(s, pend + {id}, dwm) && StackOk(s.presents, pend, id, dwm))
  }

  lemma NotPending(s: State, id: Id, pend: set<Id>)
    requires Core(s, pend) && id in s.presents && !s.presents[id].completed
    ensures id !in pend
  {
  }

  lemma CompletionBegins(s: State, id: Id, pend: set<Id>, dwm: nat, shaped: bool)
    requires Callable(s, id, pend, dwm, shaped) && !s.presents[id].completed && (s.hasCompleted || s.presents[id].lost)
    ensures Completing(MarkCompleted(s, id), id, pend, dwm, shaped) && id !in pend
    ensures |InProgress(MarkCompleted(s, id).presents)| < |InProgress(s.presents)|
    ensures MarkCompleted(s, id).presents[id].dependents == s.presents[id].dependents
  {
    hide Core, Shape, ChainOrder, StackOk, InProgress;
    NotPending(s, id, pend);
    MarkCompletedKeeps(s, id, pend);
    if shaped {
      MarkCompletedOrder(s, id, pend, dwm);
      MarkedStack(s, id, pend, dwm);
    }
    MarkedBy(s, id);
    FewerInProgress(s.presents, MarkCompleted(s, id).presents, id);
  }

  lemma MarkedStack(s: State, id: Id, pend: set<Id>, dwm: nat)
    requires StackOk(s.presents, pend, id, dwm)
    ensures StackOk(MarkCompleted(s, id).presents, pend, id, dwm)
  {
    hide MarkCompleted;
    MarkedBy(s, id);
  }

  lemma CompletingAfter(a: State, b: State, id: Id, pend: set<Id>, dwm: nat, shaped: bool)
    requires Completing(a, id, pend, dwm, shaped) && Stage(a, b, id, pend, dwm, shaped)
    ensures Completing(b, id, pend, dwm, shaped)
    ensures b.presents[id].finalState == a.presents[id].finalState
    ensures |InProgress(b.presents)| <= |InProgress(a.presents)|
  {
    hide Core, Shape, ChainOrder, StackOk, Evolves, LosesAll, Area, Grows, InProgress;
    NestedFlags(a, b, pend);
    EvolvesGrows(a, b, pend, {});
    if shaped { StackEvolves(a.presents, b.presents, pend, id, dwm); }
  }

  lemma StageFacts(a: State, b: State, id: Id, pend: set<Id>, dwm: nat, shaped: bool)
    requires Stage(a, b, id, pend, dwm, shaped)
    ensures PresentsEvolve(a.presents, b.presents, pend, {})
    ensures Core(b, pend + {id}) && id in b.presents && id in a.presents
    ensures b.presents[id].finalState == a.presents[id].finalState
  {
    hide Core;
  }

  // ---------------------------------------------------------------------------------------------
  // Dependents

  ghost predicate DependentsDone(s: State, s': State, id: Id, pend: set<Id>, dwm: nat, shaped: bool)
    requires Completing(s, id, pend, dwm, shaped)
  {
    && Stage(s, s', id, pend, dwm, shaped)
    && AllCompleted(s'.presents, s.presents[id].dependents)
    && (shaped && !s.presents[id].lost ==> Inherited(s.presents, s'.presents, id))
  }

  lemma CompletingIn(s: State, id: Id, pend: set<Id>, dwm: nat, shaped: bool)
    requires Completing(s, id, pend, dwm, shaped)
    ensures id in s.presents && s.presents[id].completed && id !in pend && Core(s, pend + {id})
  {
  }

  lemma Known(s: State, id: Id, pend: set<Id>, dwm: nat, shaped: bool)
    requires Completing(s, id, pend, dwm, shaped)
    ensures forall d :: d in s.presents[id].dependents ==> d in s.presents
  {
  }

  lemma NoDependents(s: State, id: Id, pend: set<Id>, dwm: nat, shaped: bool)
    requires Completing(s, id, pend, dwm, shaped) && s.presents[id].dependents == []
    ensures DependentsDone(s, s, id, pend, dwm, shaped)
  {
    hide Core, Stage, ShapedInv, StackOk;
    StageRefl(s, id, pend, dwm, shaped);
  }

  lemma DependentsBegin(s: State, id: Id, deps: seq<Id>, pend: set<Id>, dwm: nat, shaped: bool)
    requires Completing(s, id, pend, dwm, shaped) && deps == s.presents[id].dependents && deps != []
    ensures Dependents(s, id, deps, pend, dwm, shaped)
  {
    hide Core, ShapedInv, StackOk;
  }

  lemma DependentKnown(s0: State, s: State, x: Id, id: Id, deps: seq<Id>, pend: set<Id>, dwm: nat, shaped: bool)
    requires DependentsOpen(s0, s, id, deps, pend, dwm, shaped) && x in deps
    ensures x in s.presents && Phase(s.hasCompleted, s.presents[x].lost) == 0
  {
    hide Progress, StackOk, InArea;
  }

  lemma DependentsStage(s: State, s2: State, s3: State, id: Id, deps: seq<Id>, pend: set<Id>, dwm: nat, shaped: bool)
    requires Completing(s, id, pend, dwm, shaped) && deps == s.presents[id].dependents
    requires DependentsOpen(s, s3, id, deps, pend, dwm, shaped) && AllCompleted(s3.presents, deps)
    requires forall d :: d in deps ==> d in s.presents
    requires !s.presents[id].lost ==> s2.presents == Propagate(s.presents, deps, {}, s.presents[id])
    requires shaped ==> SameOutcomes(s2.presents, s3.presents)
    ensures DependentsDone(s, s3, id, pend, dwm, shaped)
  {
    hide Core, Shape, ChainOrder, StackOk, Evolves, LosesAll, Area, InArea, Stage, Progress, Propagate;
    ProgressClosed(s, s3, id, pend + {id}, dwm, shaped, Ids(deps));
    ProgressIsStage(s, s3, id, pend, dwm, shaped);
  }

  lemma DependentsCleared(s: State, s3: State, id: Id, pend: set<Id>, dwm: nat, shaped: bool)
    requires Completing(s, id, pend, dwm, shaped) && DependentsDone(s, s3, id, pend, dwm, shaped) && id in s3.presents
    ensures DependentsDone(s, With(s3, id, s3.presents[id].(dependents := [])), id, pend, dwm, shaped)
  {
    hide Core, ShapedInv, StackOk, Stage, DependentsDone;
    var s4 := With(s3, id, s3.presents[id].(dependents := []));
    StageOf(s, s3, id, pend, dwm, shaped);
    CompletingAfter(s, s3, id, pend, dwm, shaped);
    ClearStage(s3, id, pend, dwm, shaped);
    AfterEarlier(s, s3, s4, id, pend, dwm, shaped);
  }

  lemma StageOf(s: State, s3: State, id: Id, pend: set<Id>, dwm: nat, shaped: bool)
    requires Completing(s, id, pend, dwm, shaped) && DependentsDone(s, s3, id, pend, dwm, shaped)
    ensures Stage(s, s3, id, pend, dwm, shaped)
  {
  }

  /** A later stage keeps what the dependents got. */
  lemma AfterEarlier(s: State, s4: State, s5: State, id: Id, pend: set<Id>, dwm: nat, shaped: bool)
    requires Completing(s, id, pend, dwm, shaped) && DependentsDone(s, s4, id, pend, dwm, shaped)
    requires Stage(s4, s5, id, pend, dwm, shaped)
    ensures DependentsDone(s, s5, id, pend, dwm, shaped)
  {
    hide Core, Stage, ShapedInv, StackOk, PresentsEvolve, Inherited, AllCompleted;
    Known(s, id, pend, dwm, shaped);
    StageTransitive(s, s4, s5, id, pend, dwm, shaped);
    StageFacts(s, s4, id, pend, dwm, shaped);
    StageFacts(s4, s5, id, pend, dwm, shaped);
    EvolveKeys(s.presents, s4.presents, pend, {});
    OutcomesKept(s4.presents, s5.presents, pend, s.presents[id].dependents);
    if shaped && !s.presents[id].lost { AssembleInherited(s, s4, s5, id, pend); }
  }

  lemma EvolveKeys(P: Presents, Q: Presents, pend: set<Id>, open: set<Id>)
    requires PresentsEvolve(P, Q, pend, open)
    ensures P.Keys == Q.Keys
  {
  }

  /** Everything that the ring and the assembly need. */
  lemma StageEnds(s1: State, s5: State, id: Id, pend: set<Id>, dwm: nat, shaped: bool)
    requires Completing(s1, id, pend, dwm, shaped) && DependentsDone(s1, s5, id, pend, dwm, shaped)
    ensures Stage(s1, s5, id, pend, dwm, shaped) && Completing(s5, id, pend, dwm, shaped) && Core(s5, pend + {id})
    ensures AllCompleted(s5.presents, s1.presents[id].dependents)
    ensures forall d :: d in s1.presents[id].dependents ==> d in s1.presents
    ensures shaped && !s1.presents[id].lost ==> Inherited(s1.presents, s5.presents, id)
    ensures s5.presents[id].finalState == s1.presents[id].finalState
    ensures |InProgress(s5.presents)| <= |InProgress(s1.presents)|
  {
    hide Core, Stage, StackOk, Inherited, AllCompleted, InProgress;
    Known(s1, id, pend, dwm, shaped);
    CompletingAfter(s1, s5, id, pend, dwm, shaped);
  }

  // ---------------------------------------------------------------------------------------------
  // Earlier presents

  lemma EarlierBegins(s: State, id: Id, pend: set<Id>, dwm: nat, shaped: bool)
    requires Completing(s, id, pend, dwm, shaped) && s.presents[id].finalState == Presented
    ensures EarlierOpen(s, s, id, pend, dwm, shaped) && DoneBefore(s.presents, id, 0) && id in s.presents
  {
    hide Core, ShapedInv, StackOk;
    hide Progress;
    ProgressStart(s, id, pend + {id}, dwm, shaped);
  }

  lemma EarlierOrdered(s: State, t: State, id: Id, pend: set<Id>, dwm: nat, shaped: bool)
    requires EarlierOpen(s, t, id, pend, dwm, shaped)
    ensures OrderedInv(t, pend + {id}) && Distinct(t.presents) && id in t.presents && t.presents[id].pid in t.ix.ordered
  {
    assert Core(t, pend + {id});
    hide Progress, StackOk;
  }

  ghost predicate Entry(P: Presents, x: Id, id: Id, k: nat) {
    x in P && id in P && P[x].pid == P[id].pid && P[x].start == k && k < P[id].start
  }

  /** The entries before the cursor are done, so the next entry is the earliest present in progress. */
  lemma EarlierEntry(t: State, id: Id, from: nat, k: nat, pend: set<Id>)
    requires OrderedInv(t, pend) && DoneBefore(t.presents, id, from) && t.presents[id].pid in t.ix.ordered
    requires k in t.ix.ordered[t.presents[id].pid] && k < t.presents[id].start
    requires forall j :: j in t.ix.ordered[t.presents[id].pid] && from <= j ==> k <= j
    ensures DoneBefore(t.presents, id, k) && Entry(t.presents, t.ix.ordered[t.presents[id].pid][k], id, k)
  {
    hide DoneBefore;
    DoneUpTo(t, id, from, k, pend);
    assert Keyed(t.presents, t.ix.ordered);
  }

  lemma EarlierEnds(s: State, t: State, id: Id, pend: set<Id>, dwm: nat, shaped: bool)
    requires Completing(s, id, pend, dwm, shaped) && EarlierOpen(s, t, id, pend, dwm, shaped)
    requires DoneBefore(t.presents, id, t.presents[id].start)
    ensures Stage(s, t, id, pend, dwm, shaped) && NoneEarlier(t.presents, id)
  {
    hide Core, ShapedInv, StackOk, Progress, Stage;
    ProgressIsStage(s, t, id, pend, dwm, shaped);
  }

  lemma EarlierKnown(P: Presents, x: Id, id: Id, k: nat)
    requires Entry(P, x, id, k) && P[x].swapChain == P[id].swapChain
    ensures Earlier(P, x, id)
  {
  }

  lemma NestedPhase(s: State, x: Id, id: Id, pend: set<Id>, dwm: nat, shaped: bool)
    requires Callable(s, x, pend + {id}, dwm, shaped)
    ensures x in s.presents && Phase(s.hasCompleted, s.presents[x].lost) == 0
  {
    hide Core, ShapedInv, StackOk;
    assert id in pend + {id};
  }

  lemma EarlierCompleted(s: State, t: State, t': State, u: State, x: Id, id: Id, k: nat, pend: set<Id>, dwm: nat, shaped: bool)
    requires EarlierOpen(s, t, id, pend, dwm, shaped) && DoneBefore(t.presents, id, k) && Entry(t.presents, x, id, k)
    requires t' == if t.presents[id].lost then MarkLost(t, x) else t
    requires Progress(s, t', id, pend + {id}, dwm, shaped, {x}) && Callable(t', x, pend + {id}, dwm, shaped)
    requires shaped ==> InArea(s.presents, x, id, dwm)
    requires Achieved(t', u, x, pend + {id}, dwm, shaped)
    ensures EarlierOpen(s, u, id, pend, dwm, shaped) && DoneBefore(u.presents, id, k + 1)
    ensures id in u.presents && u.presents[id].pid == t.presents[id].pid && u.presents[id].start == t.presents[id].start
    ensures |InProgress(u.presents)| <= |InProgress(t.presents)|
  {
    hide Core, Progress, Callable, InArea, StackOk, Achieved, DoneBefore, InProgress, PresentsEvolve;
    LostEntry(t, t', x, id, k);
    EarlierDone(s, t', u, x, id, pend, dwm, shaped);
    EarlierOrdered(s, u, id, pend, dwm, shaped);
    AchievedFlags(t', u, x, pend + {id}, dwm, shaped);
    hide EarlierOpen, OrderedInv, Distinct, MarkLost;
    EntryAfter(t'.presents, u.presents, pend + {id}, x, id, k);
    DoneBeforeKept(t'.presents, u.presents, pend + {id}, id, k);
    DoneOne(u.presents, id, x, k);
  }

  /** The entries of a process behind a start time are the same ones. */
  ghost predicate SameBehind(O: Ordered, O': Ordered, pid: nat, k: nat) {
    pid in O && pid in O' && forall j :: k < j ==> (j in O[pid] <==> j in O'[pid]) && (j in O[pid] ==> O'[pid][j] == O[pid][j])
  }

  /**
   A nested call erases no entry behind that of its present, so that an iterator to the next entry stays valid: what is
   in progress there is not completed, and what has completed is on the call stack.
   */
  lemma NextSurvives(s: State, s': State, x: Id, pend: set<Id>, dwm: nat)
    requires Callable(s, x, pend, dwm, true) && Achieved(s, s', x, pend, dwm, true)
    requires Phase(s.hasCompleted, s.presents[x].lost) == 0
    ensures SameBehind(s.ix.ordered, s'.ix.ordered, s.presents[x].pid, s.presents[x].start)
  {
    hide Callable, Achieved, Grows, Distinct, Keyed, Covers, OnlyPending, Footprint, StackKept;
    var P, Q, O, O' := s.presents, s'.presents, s.ix.ordered, s'.ix.ordered;
    KnownHere(s, s', x, pend, dwm);
    if s.presents[x].completed {
      return;
    }
    SurvivalFacts(s, s', x, pend, dwm);
    BehindForward(P, Q, O, O', x, pend, dwm);
    BehindBack(P, Q, O, O', x, pend);
  }

  lemma KnownHere(s: State, s': State, x: Id, pend: set<Id>, dwm: nat)
    requires Callable(s, x, pend, dwm, true) && Achieved(s, s', x, pend, dwm, true)
    ensures x in s.presents && s.presents[x].pid in s.ix.ordered
    ensures (s.hasCompleted || s.presents[x].lost) && s.presents[x].completed ==> s' == s
  {
    assert Covers(s.presents, s.ix.ordered);
    hide Core, ShapedInv, StackOk, Evolves;
  }

  /** Before the nested call the map of the process is there. */
  lemma EntryBehind(s: State, t: State, x: Id, id: Id, k: nat, pend: set<Id>, dwm: nat, shaped: bool)
    requires EarlierOpen(s, t, id, pend, dwm, shaped) && Entry(t.presents, x, id, k)
    ensures SameBehind(t.ix.ordered, t.ix.ordered, t.presents[id].pid, k)
    ensures t.presents[x].pid == t.presents[id].pid && t.presents[x].start == k
  {
    hide EarlierOpen, OrderedInv;
    EarlierOrdered(s, t, id, pend, dwm, shaped);
  }

  lemma SurvivalFacts(s: State, s': State, x: Id, pend: set<Id>, dwm: nat)
    requires Callable(s, x, pend, dwm, true) && Achieved(s, s', x, pend, dwm, true)
    requires !s.presents[x].completed && (s.hasCompleted || s.presents[x].lost)
    ensures OrderedInv(s, pend) && OrderedInv(s', pend) && Distinct(s.presents)
    ensures s.presents.Keys == s'.presents.Keys && forall a :: a in s.presents ==> Grows(s.presents[a], s'.presents[a])
    ensures Footprint(s.presents, s'.presents, x, dwm)
    ensures StackKept(s.presents, s.ix.ordered, s'.ix.ordered, pend)
  {
    hide OrderedInv, LogExact, LostFirst, RingInv, IxOk, TokensOk, ShapedInv, LosesAll, Outcome, AllCompleted, Forgotten, NoneEarlier, Grows,
      Footprint, StackKept, Distinct, Inherited;
    assert Evolves(s, s', pend, {}) && CompletedWith(s, s', x) && Area(s.presents, s'.presents, x, dwm);
  }

  lemma BehindForward(P: Presents, Q: Presents, O: Ordered, O': Ordered, x: Id, pend: set<Id>, dwm: nat)
    requires P.Keys == Q.Keys && (forall a :: a in P ==> Grows(P[a], Q[a])) && x in P && Distinct(P)
    requires Keyed(P, O) && Covers(P, O) && OnlyPending(P, O, pend) && Keyed(Q, O') && Covers(Q, O')
    requires Footprint(P, Q, x, dwm) && StackKept(P, O, O', pend)
    ensures P[x].pid in O && P[x].pid in O'
    ensures forall j :: P[x].start < j && j in O[P[x].pid] ==> j in O'[P[x].pid] && O'[P[x].pid][j] == O[P[x].pid][j]
  {
    var pid := P[x].pid;
    assert Grows(P[x], Q[x]);
    forall j | P[x].start < j && j in O[pid]
      ensures j in O'[pid] && O'[pid][j] == O[pid][j]
    {
      var y := O[pid][j];
      assert Grows(P[y], Q[y]) && InOrdered(O, P[y]);
      assert InOrdered(O', P[y]);
      var z := O'[pid][j];
      assert Grows(P[z], Q[z]);
    }
  }

  lemma BehindBack(P: Presents, Q: Presents, O: Ordered, O': Ordered, x: Id, pend: set<Id>)
    requires P.Keys == Q.Keys && (forall a :: a in P ==> Grows(P[a], Q[a])) && x in P
    requires Covers(P, O) && Keyed(Q, O') && Covers(Q, O') && OnlyPending(Q, O', pend) && StackKept(P, O, O', pend)
    ensures P[x].pid in O && P[x].pid in O' && forall j :: j in O'[P[x].pid] ==> j in O[P[x].pid]
  {
    var pid := P[x].pid;
    assert Grows(P[x], Q[x]);
    forall j | j in O'[pid]
      ensures j in O[pid]
    {
      var y := O'[pid][j];
      assert Grows(P[y], Q[y]) && InOrdered(O', Q[y]);
      assert InOrdered(O', P[y]);
      assert Q[y].completed ==> y in pend;
      assert InOrdered(O, P[y]);
    }
  }

  lemma AchievedFlags(s: State, s': State, x: Id, pend: set<Id>, dwm: nat, shaped: bool)
    requires Callable(s, x, pend, dwm, shaped) && Achieved(s, s', x, pend, dwm, shaped)
    ensures |InProgress(s'.presents)| <= |InProgress(s.presents)|
  {
    hide Core, Evolves, InProgress, Flushed, CompletedWith, ShapedEffect, ShapedInv;
    NestedFlags(s, s', pend);
  }

  lemma LostEntry(t: State, t': State, x: Id, id: Id, k: nat)
    requires DoneBefore(t.presents, id, k) && Entry(t.presents, x, id, k)
    requires t' == if t.presents[id].lost then MarkLost(t, x) else t
    ensures DoneBefore(t'.presents, id, k) && Entry(t'.presents, x, id, k)
    ensures t'.presents[id].completed == t.presents[id].completed && t'.presents[id].lost == t.presents[id].lost
    ensures t'.presents[id].finalState == t.presents[id].finalState
    ensures t.presents[id].lost ==> t'.presents[x].lost
    ensures t'.hasCompleted == t.hasCompleted
    ensures t'.presents[id].pid == t.presents[id].pid && t'.presents[id].start == t.presents[id].start
    ensures InProgress(t'.presents) == InProgress(t.presents)
  {
  }

  lemma EntryAfter(P: Presents, Q: Presents, pend: set<Id>, x: Id, id: Id, k: nat)
    requires PresentsEvolve(P, Q, pend, {}) && Entry(P, x, id, k)
    ensures Entry(Q, x, id, k) && Q[id].pid == P[id].pid && Q[id].start == P[id].start
  {
    assert Grows(P[x], Q[x]) && Grows(P[id], Q[id]);
  }

  lemma EarlierSkipped(s: State, t: State, x: Id, id: Id, k: nat, pend: set<Id>, dwm: nat, shaped: bool)
    requires EarlierOpen(s, t, id, pend, dwm, shaped) && DoneBefore(t.presents, id, k) && Entry(t.presents, x, id, k)
    requires t.presents[x].swapChain != t.presents[id].swapChain
    ensures DoneBefore(t.presents, id, k + 1)
  {
    hide EarlierOpen, OrderedInv;
    EarlierOrdered(s, t, id, pend, dwm, shaped);
    DoneOne(t.presents, id, x, k);
  }

  // ---------------------------------------------------------------------------------------------
  // One call

  /** Only the outermost call can flush; completing a present twice does nothing. */
  lemma CallableKnown(s: State, id: Id, pend: set<Id>, dwm: nat, shaped: bool)
    requires Callable(s, id, pend, dwm, shaped)
    ensures id in s.presents
    ensures !s.hasCompleted && !s.presents[id].lost ==> pend == {} && FlushStart(s, dwm, shaped)
    ensures (s.hasCompleted || s.presents[id].lost) && s.presents[id].completed ==> Achieved(s, s, id, pend, dwm, shaped)
  {
    hide Core, Evolves, ShapedInv, StackOk, Flushed, CompletedWith;
    EvolvesRefl(s, pend);
  }
}
