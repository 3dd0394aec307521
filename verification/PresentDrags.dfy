/** How the loops and stages of one completion add up to what PresentReach and PresentTrace say of it. */
module PresentDrags {
  import opened Wrappers
  import opened PresentSpec
  import opened PresentInv
  import opened PresentSteps
  import opened PresentEvolution
  import opened PresentReach
  import opened PresentCalls
  import opened PresentStages
  import opened PresentLoss
  import opened PresentLoops
  import opened PresentTrace

  /** If p is lost, everything that completed so far was dragged along. */
  ghost predicate Dragging(s0: State, s: State, id: Id) {
    id in s0.presents && s0.presents[id].lost ==> Drags(s0.presents, s.presents, id)
  }

  lemma MarkMoves(s: State, id: Id, pend: set<Id>)
    requires Core(s, pend) && id in s.presents && !s.presents[id].completed
    ensures Moves(s, MarkCompleted(s, id), {})
  {
    hide Core, ReadyOk, Moves;
    ReadyOf(s, pend);
    assert Quiet(s, MarkCompleted(s, id));
    QuietMoves(s, MarkCompleted(s, id));
  }

  lemma NothingMoves(s: State, pend: set<Id>)
    requires Core(s, pend)
    ensures Moves(s, s, {})
  {
    hide Core, ReadyOk, Moves;
    ReadyOf(s, pend);
    QuietMoves(s, s);
  }

  lemma LostMoves(s: State, x: Id, pend: set<Id>)
    requires Core(s, pend) && x in s.presents
    ensures Moves(s, MarkLost(s, x), {})
  {
    hide Core, Moves;
    StillMoves(s, MarkLost(s, x).presents, pend);
  }

  lemma FirstMoves(s: State, pend: set<Id>)
    requires Core(s, pend)
    ensures Moves(s, s.(hasCompleted := true), {})
  {
    hide Core, ReadyOk, Moves;
    ReadyOf(s, pend);
    QuietMoves(s, s.(hasCompleted := true));
  }

  /** Presents change neither in what is fixed nor in being completed, and completed ones neither in keys nor in waiting. */
  ghost predicate Still(P: Presents, Q: Presents) {
    P.Keys == Q.Keys && forall a :: a in P ==> OneStill(P[a], Q[a])
  }

  ghost predicate OneStill(p: Present, q: Present) {
    && q.start == p.start && q.pid == p.pid && q.swapChain == p.swapChain
    && q.completed == p.completed && q.keys == p.keys && q.waitingForPresentStop == p.waitingForPresentStop
  }

  lemma StillMoves(s: State, Q: Presents, pend: set<Id>)
    requires Core(s, pend) && Still(s.presents, Q)
    ensures Moves(s, s.(presents := Q), {})
  {
    hide Core, ReadyOk, Moves;
    ReadyOf(s, pend);
    QuietMoves(s, s.(presents := Q));
  }

  lemma LoseAllTrace(s: State, ids: seq<Id>, id: Id, pend: set<Id>)
    requires Core(s, pend) && forall d :: d in ids ==> d in s.presents
    ensures var s' := s.(presents := LoseAll(s.presents, ids)); Moves(s, s', {}) && Dragging(s, s', id)
  {
    hide Core, Moves, LoseAll, Drags;
    OnlyLost(s.presents, ids, id);
    StillMoves(s, LoseAll(s.presents, ids), pend);
  }

  lemma OnlyLost(P: Presents, ids: seq<Id>, id: Id)
    requires forall d :: d in ids ==> d in P
    ensures Still(P, LoseAll(P, ids)) && Drags(P, LoseAll(P, ids), id)
  {
    hide LoseAll, Drags;
    LoseAllExact(P, ids);
    LostOnly(P, LoseAll(P, ids));
    DragsNothing(P, LoseAll(P, ids), id);
  }

  lemma LostOnly(P: Presents, Q: Presents)
    requires P.Keys == Q.Keys && forall a :: a in P ==> Q[a] == P[a] || Q[a] == P[a].(lost := true)
    ensures Still(P, Q)
    ensures forall a :: a in P ==> Q[a].completed == P[a].completed && Q[a] == P[a].(lost := Q[a].lost)
  {
    forall a | a in P
      ensures OneStill(P[a], Q[a]) && Q[a].completed == P[a].completed && Q[a] == P[a].(lost := Q[a].lost)
    {
      StillLost(P[a], Q[a]);
    }
  }

  lemma StillLost(p: Present, q: Present)
    requires q == p || q == p.(lost := true)
    ensures OneStill(p, q) && q.completed == p.completed && q == p.(lost := q.lost)
  {
  }

  lemma PropagateTrace(s: State, deps: seq<Id>, parent: Present, id: Id, pend: set<Id>)
    requires Core(s, pend) && (forall d :: d in deps ==> d in s.presents) && id in s.presents && !s.presents[id].lost
    ensures var s' := s.(presents := Propagate(s.presents, deps, {}, parent)); Moves(s, s', {}) && Dragging(s, s', id)
  {
    hide Core, Moves, Propagate, Propagated;
    PropagateExact(s.presents, deps, {}, parent);
    var Q := Propagate(s.presents, deps, {}, parent);
    forall a | a in s.presents
      ensures Q[a].start == s.presents[a].start && Q[a].pid == s.presents[a].pid && Q[a].swapChain == s.presents[a].swapChain
      ensures Q[a].completed == s.presents[a].completed && Q[a].keys == s.presents[a].keys
      ensures Q[a].waitingForPresentStop == s.presents[a].waitingForPresentStop
    {
      PropagatedStill(s.presents[a], Q[a]);
    }
    StillMoves(s, Q, pend);
  }

  lemma PropagatedStill(p: Present, q: Present)
    requires Propagated(p, q)
    ensures q.start == p.start && q.pid == p.pid && q.swapChain == p.swapChain && q.completed == p.completed && q.keys == p.keys
    ensures q.waitingForPresentStop == p.waitingForPresentStop
  {
  }

  lemma DropTrace(s0: State, s: State, id: Id, pend: set<Id>)
    requires Core(s, pend) && id in s.presents && s.presents[id].completed && Dragging(s0, s, id)
    ensures var s' := With(s, id, s.presents[id].(dependents := [])); Moves(s, s', {}) && Dragging(s0, s', id)
  {
    hide Core, Moves, Drags;
    var s' := With(s, id, s.presents[id].(dependents := []));
    StillMoves(s, s'.presents, pend);
    if id in s0.presents && s0.presents[id].lost { DragsAfter(s0.presents, s.presents, s'.presents, id); }
  }

  lemma NoDragsYet(s: State, id: Id)
    ensures Dragging(s, s, id)
  {
    hide Drags;
    DragsNothing(s.presents, s.presents, id);
  }

  // ---------------------------------------------------------------------------------------------
  // Nested calls

  /** A nested call that did nothing, or completed what p pulls. */
  lemma DraggingNested(s0: State, a: State, b: State, x: Id, id: Id, pend: set<Id>, open: set<Id>)
    requires Dragging(s0, a, id) && Evolves(s0, a, pend, open) && id in s0.presents && x in a.presents
    requires s0.presents[id].lost && !a.presents[x].completed ==> Pulls(s0.presents, id, x) && Drags(a.presents, b.presents, x)
    requires a.presents[x].completed ==> b.presents == a.presents
    ensures Dragging(s0, b, id)
  {
    FixedAfter(s0.presents, a.presents, pend, open);
    hide Evolves, Drags, Pulls, Fixed, Settled;
    if s0.presents[id].lost && !a.presents[x].completed {
      DragsNested(s0.presents, a.presents, b.presents, id, x);
    }
  }

  lemma DependentDrags(s0: State, a: State, b: State, x: Id, id: Id, deps: seq<Id>, pend: set<Id>, dwm: nat, shaped: bool)
    requires DependentsOpen(s0, a, id, deps, pend, dwm, shaped) && x in deps && Dragging(s0, a, id)
    requires id in s0.presents && deps == s0.presents[id].dependents && x in a.presents && !a.presents[x].completed
    requires a.presents[x].lost ==> Drags(a.presents, b.presents, x)
    ensures Dragging(s0, b, id)
  {
    assert Progress(s0, a, id, pend + {id}, dwm, shaped, Ids(deps));
    assert Evolves(s0, a, pend + {id}, Ids(deps));
    assert Grows(s0.presents[x], a.presents[x]) by {
      assert PresentsEvolve(s0.presents, a.presents, pend + {id}, Ids(deps));
    }
    hide Core, Evolves, LosesAll, ShapedInv, Area, StackOk, Drags, Progress;
    DraggingNested(s0, a, b, x, id, pend + {id}, Ids(deps));
  }

  lemma EntryDrags(s0: State, a: State, a': State, b: State, x: Id, id: Id, pend: set<Id>, dwm: nat, shaped: bool)
    requires EarlierOpen(s0, a, id, pend, dwm, shaped) && Earlier(a.presents, x, id) && Dragging(s0, a, id)
    requires id in a.presents && a' == if a.presents[id].lost then MarkLost(a, x) else a
    requires x in a'.presents && (a'.presents[x].lost && !a'.presents[x].completed ==> Drags(a'.presents, b.presents, x))
    requires a'.presents[x].completed ==> b == a'
    ensures Dragging(s0, b, id)
  {
    assert Progress(s0, a, id, pend + {id}, dwm, shaped, {}) && Evolves(s0, a, pend + {id}, {});
    assert PresentsEvolve(s0.presents, a.presents, pend + {id}, {});
    assert id in s0.presents && Grows(s0.presents[id], a.presents[id]) && Grows(s0.presents[x], a.presents[x]);
    hide Core, Evolves, LosesAll, ShapedInv, Area, StackOk, Drags, Progress, PresentsEvolve, Grows;
    EvolvesMore(s0, a, pend + {id}, {}, {x});
    if a.presents[id].lost {
      MarkLostEvolves(s0, a, x, pend + {id});
      LostDragging(s0, a, x, id);
    }
    DraggingNested(s0, a', b, x, id, pend + {id}, {x});
  }

  lemma LostDragging(s0: State, a: State, x: Id, id: Id)
    requires Dragging(s0, a, id) && x in a.presents
    ensures Dragging(s0, MarkLost(a, x), id)
  {
    hide Drags;
    if id in s0.presents && s0.presents[id].lost { DragsAfter(s0.presents, a.presents, MarkLost(a, x).presents, id); }
  }

  /** Two stages, after p was marked. */
  lemma DraggingStage(a: State, b: State, c: State, id: Id, pend: set<Id>, dwm: nat, shaped: bool)
    requires Stage(a, b, id, pend, dwm, shaped) && id in a.presents && a.presents[id].completed
    requires Dragging(a, b, id) && Dragging(b, c, id)
    ensures Dragging(a, c, id)
  {
    assert PresentsEvolve(a.presents, b.presents, pend, {});
    FixedAfter(a.presents, b.presents, pend, {});
    assert a.presents[id].lost ==> b.presents[id].lost;
    hide Core, Evolves, LosesAll, ShapedInv, Area, Drags, Fixed, Settled;
    if a.presents[id].lost { DragsSelf(a.presents, b.presents, c.presents, id); }
  }

  /** All of one completion. */
  lemma DraggingCall(s: State, s5: State, id: Id, pend: set<Id>, taken: bool, dwm: nat, shaped: bool)
    requires Core(s, pend) && id in s.presents && !s.presents[id].completed && id !in pend
    requires Stage(MarkCompleted(s, id), s5, id, pend, dwm, shaped) && Dragging(MarkCompleted(s, id), s5, id)
    requires AllCompleted(s5.presents, s.presents[id].dependents)
    requires s.presents[id].finalState == Presented ==> NoneEarlier(s5.presents, id)
    ensures Dragging(s, Finish(s5, id, pend, taken), id)
  {
    hide Core, Evolves, LosesAll, ShapedInv, Area, Drags, Finish, MarkCompleted, Outcome, SoftChange, PresentsEvolve;
    var s1, s' := MarkCompleted(s, id), Finish(s5, id, pend, taken);
    if s.presents[id].lost {
      MarkedPresent(s, id);
      FinishSoft(s5, id, pend, taken);
      FinishEvolves(s5, id, pend, taken);
      EvolvesPresents(s5, s', pend);
      AfterFinish(s5.presents, s'.presents, pend);
      PulledDone(s, s1, s5, id, pend, dwm, shaped);
      DragsMarked(s.presents, s1.presents, s5.presents, id);
      DragsAfter(s.presents, s5.presents, s'.presents, id);
    }
  }

  lemma EvolvesPresents(s: State, s': State, pend: set<Id>)
    requires Evolves(s, s', pend, {})
    ensures PresentsEvolve(s.presents, s'.presents, pend, {})
  {
  }

  lemma MarkedPresent(s: State, id: Id)
    requires id in s.presents
    ensures var p, q := s.presents[id], MarkCompleted(s, id).presents[id];
            && MarkCompleted(s, id).presents == s.presents[id := q] && q.completed && q.lost == p.lost
            && q.finalState == p.finalState && q.dependents == p.dependents
            && q.start == p.start && q.pid == p.pid && q.swapChain == p.swapChain
  {
  }

  lemma AfterFinish(P: Presents, Q: Presents, pend: set<Id>)
    requires SoftChange(P, Q) && PresentsEvolve(P, Q, pend, {})
    ensures P.Keys == Q.Keys && forall a :: a in P ==> Q[a].completed == P[a].completed && (!P[a].completed ==> Q[a] == P[a])
  {
    forall a | a in P
      ensures Q[a].completed == P[a].completed
    {
      SoftAt(P, Q, a);
    }
    hide SoftChange;
  }

  lemma PulledDone(s: State, s1: State, s5: State, id: Id, pend: set<Id>, dwm: nat, shaped: bool)
    requires id in s.presents && s1 == MarkCompleted(s, id) && Stage(s1, s5, id, pend, dwm, shaped)
    requires AllCompleted(s5.presents, s.presents[id].dependents)
    requires s.presents[id].finalState == Presented ==> NoneEarlier(s5.presents, id)
    ensures forall x :: Pulls(s.presents, id, x) ==> x in s5.presents && s5.presents[x].completed
  {
    MarkedPresent(s, id);
    assert PresentsEvolve(s1.presents, s5.presents, pend, {});
    FixedAfter(s1.presents, s5.presents, pend, {});
    hide Core, Evolves, LosesAll, ShapedInv, Area, MarkCompleted, PresentsEvolve, Outcome;
  }
}
