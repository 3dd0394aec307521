/** What one call of CompletePresent needs and achieves, and how nested calls add up. */
module PresentCalls {
  import opened Wrappers
  import opened PresentSpec
  import opened PresentInv
  import opened PresentSteps
  import opened PresentEvolution

  // ---------------------------------------------------------------------------------------------
  // Measures

  ghost function InProgress(P: Presents): set<Id> {
    set a | a in P && !P[a].completed
  }

  /** Only the first completion of a present that is not lost flushes; after it nothing else can. */
  function Phase(hasCompleted: bool, lost: bool): nat {
    if !hasCompleted && !lost then 1 else 0
  }

  lemma FewerInProgress(P: Presents, Q: Presents, id: Id)
    requires P.Keys == Q.Keys && id in P && !P[id].completed && Q[id].completed
    requires forall a :: a in P && P[a].completed ==> Q[a].completed
    ensures |InProgress(Q)| < |InProgress(P)|
  {
    var a, b := InProgress(Q), InProgress(P);
    assert a <= b - {id};
    assert b == a + (b - a) && id in b - a;
  }

  lemma NoMoreInProgress(P: Presents, Q: Presents)
    requires P.Keys == Q.Keys && forall a :: a in P && P[a].completed ==> Q[a].completed
    ensures |InProgress(Q)| <= |InProgress(P)|
  {
    var a, b := InProgress(Q), InProgress(P);
    assert a <= b;
    assert b == a + (b - a);
  }

  // ---------------------------------------------------------------------------------------------
  // Effects on presents

  /** Everything that completed is lost. */
  ghost predicate LosesAll(P: Presents, Q: Presents) {
    forall a :: a in P && a in Q && !P[a].completed && Q[a].completed ==> Q[a].lost
  }

  /** Which presents may complete along with p: if it is displayed, earlier ones of its chain; what the compositor composed. */
  ghost predicate Footprint(P: Presents, Q: Presents, id: Id, dwm: nat) {
    id in P && forall a :: a in P && a in Q && !P[a].completed && Q[a].completed ==>
      || a == id
      || (P[id].finalState == Presented && SameChain(P[a], P[id]) && P[a].start < P[id].start)
      || (P[id].pid == dwm && P[a].pid != dwm)
  }

  ghost predicate SameOutcomes(P: Presents, Q: Presents) {
    forall a :: a in P && a in Q ==> Q[a].finalState == P[a].finalState && Q[a].displayed == P[a].displayed
  }

  /** Outside the compositor a completion decides nothing about other presents. */
  ghost predicate Area(P: Presents, Q: Presents, id: Id, dwm: nat) {
    Footprint(P, Q, id, dwm) && (id in P && P[id].pid != dwm ==> SameOutcomes(P, Q))
  }

  /** Every earlier present of the swap chain is completed. */
  ghost predicate NoneEarlier(Q: Presents, id: Id) {
    id in Q && forall a :: a in Q && SameChain(Q[id], Q[a]) && Q[a].start < Q[id].start ==> Q[a].completed
  }

  ghost predicate AllCompleted(Q: Presents, ids: seq<Id>) {
    forall d :: d in ids && d in Q ==> Q[d].completed
  }

  /** The snapshot carries the outcome decided before; a present may still become lost while it waits its turn. */
  ghost predicate Outcome(p: Present, q: Present) {
    && q.completed && (p.lost ==> q.lost)
    && q.finalState == p.finalState && q.displayed == p.displayed
    && q.waitingForPresentStop == p.waitingForPresentStop
    && q.waitingForFlipFrameType == p.waitingForFlipFrameType
    && q.waitingForFrameId == p.waitingForFrameId
  }

  /** The dependents have the outcome that propagation from the last to the first gives them. */
  ghost predicate Inherited(P: Presents, Q: Presents, id: Id)
    requires id in P && forall d :: d in P[id].dependents ==> d in P
  {
    var R := Propagate(P, P[id].dependents, {}, P[id]);
    forall d :: d in P[id].dependents && d in Q ==> Q[d].finalState == R[d].finalState && Q[d].displayed == R[d].displayed
  }

  // ---------------------------------------------------------------------------------------------
  // The contract of CompletePresent

  ghost predicate Callable(s: State, id: Id, pend: set<Id>, dwm: nat, shaped: bool) {
    && Core(s, pend) && id in s.presents
    && (pend != {} ==> s.hasCompleted || s.presents[id].lost)
    && (shaped ==> ShapedInv(s, pend, dwm) && (!s.presents[id].completed ==> StackOk(s.presents, pend, id, dwm)))
  }

  /** The first completion throws everything in progress away. */
  ghost predicate Flushed(s: State, s': State) {
    && s'.hasCompleted
    && (forall pid :: pid in s'.ix.ordered ==> s'.ix.ordered[pid] == map[])
    && (forall a :: a in s'.presents ==> s'.presents[a].completed)
    && LosesAll(s.presents, s'.presents)
  }

  /** A completion of p: what is handed to the ring for p, and which other presents complete with it. */
  ghost predicate CompletedWith(s: State, s': State, id: Id)
    requires id in s.presents
  {
    && s'.hasCompleted == s.hasCompleted
    && |s.log| < |s'.log| && s'.log[|s'.log| - 1].id == id
    && Outcome(MarkCompleted(s, id).presents[id], s'.log[|s'.log| - 1].snapshot)
    && Forgotten(s', id, s.presents[id].keys, MarkCompleted(s, id).presents[id].waitingForPresentStop)
    && AllCompleted(s'.presents, s.presents[id].dependents)
    && (s.presents[id].finalState == Presented ==> NoneEarlier(s'.presents, id))
    && (s.presents[id].lost ==> LosesAll(s.presents, s'.presents))
  }

  /** With only the compositor composing: the order is kept, the effect is local, and dependents inherit. */
  ghost predicate ShapedEffect(s: State, s': State, id: Id, pend: set<Id>, dwm: nat)
    requires id in s.presents && forall d :: d in s.presents[id].dependents ==> d in s.presents
  {
    && Area(s.presents, s'.presents, id, dwm)
    && (!s.presents[id].lost ==> Inherited(MarkCompleted(s, id).presents, s'.presents, id))
  }

  ghost predicate Achieved(s: State, s': State, id: Id, pend: set<Id>, dwm: nat, shaped: bool)
    requires Callable(s, id, pend, dwm, shaped)
  {
    && Core(s', pend) && Evolves(s, s', pend, {})
    && id in s'.presents && s'.presents[id].completed
    && (shaped ==> ShapedInv(s', pend, dwm))
    && if !s.hasCompleted && !s.presents[id].lost then Flushed(s, s')
       else if s.presents[id].completed then s' == s
       else CompletedWith(s, s', id) && (shaped ==> ShapedEffect(s, s', id, pend, dwm))
  }

  // ---------------------------------------------------------------------------------------------
  // Nested calls

  /** What the calls made so far on behalf of p have done; `open` is about to be completed. */
  ghost predicate Progress(s0: State, s: State, id: Id, pend: set<Id>, dwm: nat, shaped: bool, open: set<Id>) {
    && Core(s, pend) && Evolves(s0, s, pend, open) && s.hasCompleted == s0.hasCompleted
    && id in s0.presents
    && (s0.presents[id].lost ==> LosesAll(s0.presents, s.presents))
    && (shaped ==> ShapedInv(s, pend, dwm) && Area(s0.presents, s.presents, id, dwm))
  }

  lemma LosesAllTransitive(P: Presents, Q: Presents, R: Presents, pend: set<Id>)
    requires LosesAll(P, Q) && LosesAll(Q, R) && PresentsEvolve(Q, R, pend, {}) && P.Keys == Q.Keys
    ensures LosesAll(P, R)
  {
    forall a | a in P && a in R && !P[a].completed && R[a].completed
      ensures R[a].lost
    {
      assert Grows(Q[a], R[a]);
    }
  }

  lemma AreaTransitive(P: Presents, Q: Presents, R: Presents, id: Id, x: Id, dwm: nat)
    requires Area(P, Q, id, dwm) && Area(Q, R, x, dwm) && P.Keys == Q.Keys == R.Keys
    requires forall a :: a in P ==> Grows(P[a], Q[a])
    requires InArea(P, x, id, dwm)
    ensures Area(P, R, id, dwm)
  {
  }

  /** A nested call for an earlier present of the chain, or for a dependent, adds to the progress. */
  lemma NestedCall(s0: State, s: State, s': State, x: Id, id: Id, pend: set<Id>, dwm: nat, shaped: bool, open: set<Id>)
    requires Progress(s0, s, id, pend, dwm, shaped, open) && Callable(s, x, pend, dwm, shaped)
    requires Achieved(s, s', x, pend, dwm, shaped)
    requires s.hasCompleted || s.presents[x].lost
    requires s0.presents[id].lost ==> s.presents[x].lost
    requires shaped ==> InArea(s0.presents, x, id, dwm)
    ensures Progress(s0, s', id, pend, dwm, shaped, open)
  {
    EvolvesRefl(s, pend);
    assert PresentsEvolve(s0.presents, s.presents, pend, open) && PresentsEvolve(s.presents, s'.presents, pend, {});
    assert forall a :: a in s0.presents ==> Grows(s0.presents[a], s.presents[a]);
    hide Core, Evolves, LosesAll, ShapedInv, Area, PresentsEvolve, Grows, InArea, Inherited, Outcome, AllCompleted, NoneEarlier;
    EvolvesStep(s0, s, s', pend, open);
    if !s.presents[x].completed {
      if s0.presents[id].lost { LosesAllTransitive(s0.presents, s.presents, s'.presents, pend); }
      if shaped { AreaTransitive(s0.presents, s.presents, s'.presents, id, x, dwm); }
    }
  }

  /** The presents that a completion of p may pull along. */
  ghost predicate InArea(P: Presents, x: Id, id: Id, dwm: nat) {
    x in P && id in P &&
    ((P[id].finalState == Presented && SameChain(P[x], P[id]) && P[x].start < P[id].start) || (P[id].pid == dwm && P[x].pid != dwm))
  }

  /** The stack above a nested call is in order. */
  lemma NestedStack(P: Presents, pend: set<Id>, id: Id, x: Id, dwm: nat)
    requires StackOk(P, pend, id, dwm) && InArea(P, x, id, dwm)
    ensures StackOk(P, pend + {id}, x, dwm)
  {
  }

  lemma MarkLostKeeps(s: State, x: Id, pend: set<Id>)
    requires Core(s, pend) && x in s.presents
    ensures Core(MarkLost(s, x), pend) && SoftChange(s.presents, MarkLost(s, x).presents)
  {
    hide Core, SoftChange, SameKeys;
    var Q := MarkLost(s, x).presents;
    SoftOne(s.presents, x, Q[x]);
    SoftKeeps(s, Q, pend);
  }

  lemma MarkLostArea(P0: Presents, s: State, x: Id, id: Id, dwm: nat)
    requires x in s.presents && P0.Keys == s.presents.Keys
    ensures LosesAll(P0, s.presents) ==> LosesAll(P0, MarkLost(s, x).presents)
    ensures Area(P0, s.presents, id, dwm) ==> Area(P0, MarkLost(s, x).presents, id, dwm)
  {
  }

  /** Before a nested call for a lost present's chain the earlier present is marked lost. */
  lemma MarkLostProgress(s0: State, s: State, x: Id, id: Id, pend: set<Id>, dwm: nat, shaped: bool)
    requires Progress(s0, s, id, pend, dwm, shaped, {}) && x in s.presents
    ensures Progress(s0, MarkLost(s, x), id, pend, dwm, shaped, {x})
  {
    assert s0.presents.Keys == s.presents.Keys;
    hide Core, SoftChange, Evolves, SameKeys, LosesAll, Area, Shape, ChainOrder;
    MarkLostKeeps(s, x, pend);
    if shaped { SoftShape(s.presents, MarkLost(s, x).presents, s.log, pend, dwm); }
    MarkLostEvolves(s0, s, x, pend);
    MarkLostArea(s0.presents, s, x, id, dwm);
  }

  lemma MarkLostEvolves(s0: State, s: State, x: Id, pend: set<Id>)
    requires Evolves(s0, s, pend, {}) && x in s.presents
    ensures Evolves(s0, MarkLost(s, x), pend, {x})
  {
  }

  /** The call stack is made of fixed properties of presents. */
  lemma StackEvolves(P: Presents, Q: Presents, pend: set<Id>, id: Id, dwm: nat)
    requires StackOk(P, pend, id, dwm) && P.Keys == Q.Keys && forall a :: a in P ==> Grows(P[a], Q[a])
    ensures StackOk(Q, pend, id, dwm)
  {
  }

  lemma ProgressStart(s: State, id: Id, pend: set<Id>, dwm: nat, shaped: bool)
    requires Core(s, pend) && id in s.presents && (shaped ==> ShapedInv(s, pend, dwm))
    ensures Progress(s, s, id, pend, dwm, shaped, {})
  {
    EvolvesRefl(s, pend);
  }

  /** Once everything that was open is completed, presents in progress are as they were. */
  lemma ProgressClosed(s0: State, s: State, id: Id, pend: set<Id>, dwm: nat, shaped: bool, open: set<Id>)
    requires Progress(s0, s, id, pend, dwm, shaped, open)
    requires forall x :: x in open && x in s.presents ==> s.presents[x].completed
    ensures Progress(s0, s, id, pend, dwm, shaped, {})
  {
    hide Core, Evolves, LosesAll, ShapedInv, Area;
    EvolvesRefl(s, pend);
    EvolvesTransitive(s0, s, s, pend, open);
  }

  // ---------------------------------------------------------------------------------------------
  // The stages of one completion

  /** What a stage of completing p does, while p is on the call stack above `pend`. */
  ghost predicate Stage(a: State, b: State, id: Id, pend: set<Id>, dwm: nat, shaped: bool) {
    && Core(b, pend + {id}) && Evolves(a, b, pend, {}) && b.hasCompleted == a.hasCompleted
    && id in a.presents && id in b.presents && Outcome(a.presents[id], b.presents[id])
    && (a.presents[id].lost ==> LosesAll(a.presents, b.presents))
    && (shaped ==> ShapedInv(b, pend + {id}, dwm) && Area(a.presents, b.presents, id, dwm))
  }

  lemma ProgressIsStage(a: State, b: State, id: Id, pend: set<Id>, dwm: nat, shaped: bool)
    requires Progress(a, b, id, pend + {id}, dwm, shaped, {}) && a.presents[id].completed
    ensures Stage(a, b, id, pend, dwm, shaped)
  {
    EvolvesFewer(a, b, pend + {id}, pend, {});
    var p, q := a.presents[id], b.presents[id];
    assert Grows(p, q) && q == p.(lost := q.lost);
    hide Core, Evolves, LosesAll, ShapedInv, Area, Grows;
  }

  lemma AreaSelf(P: Presents, Q: Presents, R: Presents, id: Id, dwm: nat)
    requires Area(P, Q, id, dwm) && Area(Q, R, id, dwm) && P.Keys == Q.Keys == R.Keys
    requires forall a :: a in P ==> Grows(P[a], Q[a])
    requires id in P ==> Q[id].finalState == P[id].finalState
    ensures Area(P, R, id, dwm)
  {
  }

  lemma StageTransitive(a: State, b: State, c: State, id: Id, pend: set<Id>, dwm: nat, shaped: bool)
    requires Stage(a, b, id, pend, dwm, shaped) && Stage(b, c, id, pend, dwm, shaped)
    ensures Stage(a, c, id, pend, dwm, shaped)
  {
    assert PresentsEvolve(a.presents, b.presents, pend, {}) && PresentsEvolve(b.presents, c.presents, pend, {});
    assert forall x :: x in a.presents ==> Grows(a.presents[x], b.presents[x]);
    hide Core, Evolves, LosesAll, ShapedInv, Area, PresentsEvolve, Grows;
    EvolvesTransitive(a, b, c, pend, {});
    if a.presents[id].lost { LosesAllTransitive(a.presents, b.presents, c.presents, pend); }
    if shaped { AreaSelf(a.presents, b.presents, c.presents, id, dwm); }
  }

  lemma StageRefl(a: State, id: Id, pend: set<Id>, dwm: nat, shaped: bool)
    requires Core(a, pend + {id}) && id in a.presents && a.presents[id].completed && (shaped ==> ShapedInv(a, pend + {id}, dwm))
    ensures Stage(a, a, id, pend, dwm, shaped)
  {
    hide Core, Evolves, ShapedInv;
    EvolvesRefl(a, pend);
  }

  /** Completed presents keep their outcome. */
  lemma OutcomesKept(P: Presents, Q: Presents, pend: set<Id>, ids: seq<Id>)
    requires PresentsEvolve(P, Q, pend, {}) && AllCompleted(P, ids) && forall d :: d in ids ==> d in P
    ensures AllCompleted(Q, ids)
    ensures forall d :: d in ids ==> d in Q && Q[d].finalState == P[d].finalState && Q[d].displayed == P[d].displayed
  {
    forall d | d in ids
      ensures d in Q && Q[d].completed && Q[d].finalState == P[d].finalState && Q[d].displayed == P[d].displayed
    {
      assert Grows(P[d], Q[d]);
    }
  }

  lemma NoneEarlierKept(P: Presents, Q: Presents, pend: set<Id>, id: Id)
    requires PresentsEvolve(P, Q, pend, {}) && NoneEarlier(P, id)
    ensures NoneEarlier(Q, id)
  {
    assert Grows(P[id], Q[id]);
    forall a | a in Q && SameChain(Q[id], Q[a]) && Q[a].start < Q[id].start
      ensures Q[a].completed
    {
      assert Grows(P[a], Q[a]);
    }
  }
}
