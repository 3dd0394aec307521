/** When a present that takes a history token from its holder, which is lost, carries it afterwards. */
module PresentTokens {
  import opened Wrappers
  import opened PresentSpec
  import opened PresentInv
  import opened PresentEvolution
  import opened PresentReach
  import opened PresentCalls
  import opened PresentStages
  import opened PresentLoss
  import opened PresentTrace
  import opened PresentDrags
  import opened PresentOrder
  import opened PresentCourse
  import opened PresentEvents
  import opened PresentKeys

  // ---------------------------------------------------------------------------------------------
  // Who completes along with a lost present when only the compositor composes

  /** Completing the holder completes the other present, of its swap chain, too. */
  ghost predicate Endangers(holder: Present, p: Present) {
    !holder.completed && holder.finalState == Presented && SameChain(p, holder) && p.start < holder.start
  }

  /** It is q, or an earlier present of q's chain when q is displayed. */
  ghost predicate OnChainOf(P: Presents, q: Id, a: Id) {
    q in P && a in P && !P[a].completed && (a == q || Endangers(P[q], P[a]))
  }

  /** The present is on the chain of a dependent of the holder, or of an earlier frame of the holder's displayed chain. */
  ghost predicate ComposedOnto(P: Presents, holder: Id, a: Id) {
    exists q, d :: OnChainOf(P, holder, q) && d in P[q].dependents && OnChainOf(P, d, a) && !P[d].completed
  }

  lemma {:induction false} PathForm(P: Presents, path: seq<Id>, holder: Id, a: Id, dwm: nat)
    requires Shape(P, dwm) && holder in P && !P[holder].completed && Path(P, path, holder, a)
    ensures OnChainOf(P, holder, a) || ComposedOnto(P, holder, a)
    decreases |path|
  {
    if |path| > 1 {
      var n := |path| - 1;
      var y := path[n - 1];
      assert Pulls(P, path[n - 1], path[n]);
      assert path[..n][n - 1] == y;
      forall i | 0 <= i < n - 1
        ensures Pulls(P, path[..n][i], path[..n][i + 1])
      {
        assert Pulls(P, path[i], path[i + 1]);
      }
      PathForm(P, path[..n], holder, y, dwm);
      StepForm(P, holder, y, a, dwm);
    }
  }

  lemma StepForm(P: Presents, holder: Id, y: Id, a: Id, dwm: nat)
    requires Shape(P, dwm) && Pulls(P, y, a) && (OnChainOf(P, holder, y) || ComposedOnto(P, holder, y))
    ensures OnChainOf(P, holder, a) || ComposedOnto(P, holder, a)
  {
    if OnChainOf(P, holder, y) {
      if a in P[y].dependents { assert OnChainOf(P, a, a); }
    } else {
      var q, d :| OnChainOf(P, holder, q) && d in P[q].dependents && OnChainOf(P, d, y) && !P[d].completed;
      assert P[y].pid == P[d].pid != dwm;
      assert OnChainOf(P, d, a);
    }
  }

  /** With one compositor, what completes along with a lost present is known from the two presents and their chains. */
  lemma ReachesExactly(P: Presents, holder: Id, a: Id, dwm: nat)
    requires Shape(P, dwm) && holder in P && !P[holder].completed && a in P && !P[a].completed
    ensures Reaches(P, holder, a) <==> OnChainOf(P, holder, a) || ComposedOnto(P, holder, a)
  {
    hide Reaches, Path;
    if Reaches(P, holder, a) {
      PathOf(P, holder, a, dwm);
    }
    if OnChainOf(P, holder, a) {
      ReachesOnChain(P, holder, a);
    }
    if ComposedOnto(P, holder, a) {
      var q, d :| OnChainOf(P, holder, q) && d in P[q].dependents && OnChainOf(P, d, a) && !P[d].completed;
      ReachesOnChain(P, d, a);
      ReachesVia(P, q, d, a);
      if q != holder { ReachesVia(P, holder, q, a); }
    }
  }

  lemma PathOf(P: Presents, holder: Id, a: Id, dwm: nat)
    requires Shape(P, dwm) && holder in P && !P[holder].completed && Reaches(P, holder, a)
    ensures OnChainOf(P, holder, a) || ComposedOnto(P, holder, a)
  {
    hide Path, ComposedOnto, OnChainOf;
    var path :| Path(P, path, holder, a);
    PathForm(P, path, holder, a, dwm);
  }

  lemma ReachesOnChain(P: Presents, q: Id, a: Id)
    requires OnChainOf(P, q, a)
    ensures Reaches(P, q, a)
  {
    hide Reaches;
    ReachesItself(P, a);
    if a != q { ReachesVia(P, q, a, a); }
  }

  // ---------------------------------------------------------------------------------------------
  // What is lost with the holder

  /** The presents that complete when the holder is lost. */
  ghost function Along(P: Presents, holder: Id): set<Id> {
    set a | a in P && !P[a].completed && Reaches(P, holder, a)
  }

  /** Only keys differ. */
  ghost predicate SamePulls(P: Presents, Q: Presents) {
    P.Keys == Q.Keys && forall a :: a in P ==>
      && Q[a].completed == P[a].completed && Q[a].finalState == P[a].finalState && Q[a].dependents == P[a].dependents
      && Q[a].start == P[a].start && Q[a].pid == P[a].pid && Q[a].swapChain == P[a].swapChain
  }

  lemma ReachesSame(P: Presents, Q: Presents, id: Id, a: Id)
    requires SamePulls(P, Q) && Reaches(P, id, a)
    ensures Reaches(Q, id, a)
  {
    var path :| Path(P, path, id, a);
    forall i | 0 <= i < |path| - 1
      ensures Pulls(Q, path[i], path[i + 1])
    {
      assert Pulls(P, path[i], path[i + 1]);
    }
    assert Path(Q, path, id, a);
  }

  lemma AlongSame(P: Presents, Q: Presents, id: Id)
    requires SamePulls(P, Q)
    ensures Along(Q, id) == Along(P, id)
  {
    hide Reaches;
    forall a
      ensures a in Along(P, id) <==> a in Along(Q, id)
    {
      if Reaches(P, id, a) { ReachesSame(P, Q, id, a); }
      if Reaches(Q, id, a) { ReachesSame(Q, P, id, a); }
    }
  }

  /** Losing the holder completes exactly the presents along with it, and hands each of them to the ring once. */
  lemma LostAlong(t: State, s1: State, holder: Id, dwm: nat, shaped: bool)
    requires MadeRoom(t, s1, Some(holder), dwm, shaped) && holder in t.presents && !t.presents[holder].completed
    ensures t.presents.Keys == s1.presents.Keys && Moves(t, s1, {}) && Retired(t.presents, {}) && Retired(s1.presents, {})
    ensures forall a :: a in t.presents && !t.presents[a].completed ==> (s1.presents[a].completed <==> a in Along(t.presents, holder))
    ensures forall a :: LoggedIn(t, s1, a) <==> a in Along(t.presents, holder)
    ensures |s1.log| == |t.log| + |Along(t.presents, holder)|
  {
    hide Moves, Drags, Reaches, Ascends, LogExact, Retired;
    LostFacts(t, s1, holder, dwm, shaped);
    DragsFromLost(t.presents, s1.presents, holder);
    assert Newly(t.presents, s1.presents, holder);
    forall a | a in t.presents && !t.presents[a].completed
      ensures s1.presents[a].completed <==> a in Along(t.presents, holder)
    {
      DragsExactly(t.presents, s1.presents, holder, a);
    }
    hide MadeRoom;
    NewlyLogged(t, s1, Along(t.presents, holder));
  }

  lemma LostFacts(t: State, s1: State, holder: Id, dwm: nat, shaped: bool)
    requires MadeRoom(t, s1, Some(holder), dwm, shaped) && holder in t.presents && !t.presents[holder].completed
    ensures t.presents.Keys == s1.presents.Keys && Moves(t, s1, {}) && Retired(t.presents, {}) && Retired(s1.presents, {})
    ensures LogExact(t.presents, t.log, {}) && LogExact(s1.presents, s1.log, {}) && t.log <= s1.log
    ensures forall a :: a in t.presents && t.presents[a].completed ==> s1.presents[a].completed
    ensures s1.presents[holder].completed
    ensures Drags(t.presents[holder := t.presents[holder].(lost := true)], s1.presents, holder)
  {
    hide OrderedInv, LostFirst, RingInv, IxOk, TokensOk, Distinct, Retired, DependentsKnown, LogExact, ShapedInv, LosesAll, CompletedWith,
      Area, Evolves, Moves, Drags, Ascends, DependentOrder, Abandon;
    assert Traced(MarkLost(t, holder), s1, holder, dwm, shaped);
    MovesOnward(t, s1);
  }

  lemma NewlyLogged(t: State, s1: State, along: set<Id>)
    requires t.presents.Keys == s1.presents.Keys && t.log <= s1.log
    requires LogExact(t.presents, t.log, {}) && LogExact(s1.presents, s1.log, {})
    requires forall a :: a in t.presents && t.presents[a].completed ==> s1.presents[a].completed
    requires forall a :: a in along ==> a in t.presents && !t.presents[a].completed
    requires forall a :: a in t.presents && !t.presents[a].completed ==> (s1.presents[a].completed <==> a in along)
    ensures forall a :: LoggedIn(t, s1, a) <==> a in along
    ensures |s1.log| == |t.log| + |along|
  {
    assert forall i :: 0 <= i < |t.log| ==> s1.log[i] == t.log[i];
    forall a
      ensures LoggedIn(t, s1, a) <==> a in along
    {
      if LoggedIn(t, s1, a) {
        assert a !in LogIds(t.log);
      }
      if a in along {
        assert a in LogIds(s1.log);
      }
    }
    assert IdsFrom(s1.log, |t.log|) == along by {
      forall a
        ensures a in IdsFrom(s1.log, |t.log|) <==> LoggedIn(t, s1, a)
      {
      }
    }
    DistinctCount(s1.log, |t.log|);
  }

  ghost function IdsFrom(L: seq<Attempt>, from: nat): set<Id> {
    set i | from <= i < |L| :: L[i].id
  }

  lemma {:induction false} DistinctCount(L: seq<Attempt>, from: nat)
    requires from <= |L| && forall i, j :: 0 <= i < j < |L| ==> L[i].id != L[j].id
    ensures |IdsFrom(L, from)| == |L| - from
    decreases |L| - from
  {
    if from < |L| {
      DistinctCount(L, from + 1);
      assert IdsFrom(L, from) == {L[from].id} + IdsFrom(L, from + 1);
    }
  }

  // ---------------------------------------------------------------------------------------------
  // The token

  /** Losing a present that has completed already changes no keys. */
  lemma AbandonedOnly(t: State, s1: State, holder: Id, dwm: nat, shaped: bool)
    requires MadeRoom(t, s1, Some(holder), dwm, shaped) && holder in t.presents && t.presents[holder].completed
    ensures t.presents.Keys == s1.presents.Keys && forall a :: a in t.presents ==> s1.presents[a].keys == t.presents[a].keys
    ensures s1.released == t.released
  {
    hide Core, ShapedInv, LosesAll, Area, Evolves, LossTraced, UpdateReady;
  }

  lemma HolderKnown(s: State, id: Id, token: nat, dwm: nat, shaped: bool)
    requires Steady(s, dwm, shaped) && token in s.ix.byDxgkToken && id in s.presents && s.presents[id].keys.dxgkToken == 0
    ensures s.ix.byDxgkToken[token] in s.presents && token != 0
    ensures !s.presents[id].completed ==> s.ix.byDxgkToken[token] != id
  {
    hide Distinct, DependentsKnown, Retired, OrderedInv, LogExact, LostFirst, RingInv, TrackedOk, ThreadsOk, SubmitsOk, SubmitsOnce, KeyedBy,
      ShapedInv, AllOrderly;
  }

  lemma Noted(s: State, id: Id, token: nat)
    requires id in s.presents
    ensures var t := NoteDxgkToken(s, id, token);
            && SamePulls(s.presents, t.presents) && t.cfg == s.cfg && t.log == s.log && t.released == s.released && t.ring == s.ring
            && t.presents[id].keys.dxgkToken == token
            && forall a :: a in s.presents ==> t.presents[a].waitingForPresentStop == s.presents[a].waitingForPresentStop
  {
  }

  /** Who was in progress and has completed has lost its slot, and with it the token. */
  lemma TokenLost(t: State, s1: State, id: Id)
    requires id in t.presents && id in s1.presents && !t.presents[id].completed
    requires t.presents[id].keys.dxgkToken != 0 && Retired(t.presents, {}) && Retired(s1.presents, {})
    requires Grows(t.presents[id], s1.presents[id]) && (!s1.presents[id].completed ==> s1.presents[id] == t.presents[id])
    ensures s1.presents[id].keys.dxgkToken == t.presents[id].keys.dxgkToken <==> !s1.presents[id].completed
  {
  }

  lemma RoomGrows(t: State, s1: State, holder: Id, id: Id, dwm: nat, shaped: bool)
    requires MadeRoom(t, s1, Some(holder), dwm, shaped) && id in t.presents
    ensures id in s1.presents && Grows(t.presents[id], s1.presents[id])
    ensures !s1.presents[id].completed ==> s1.presents[id] == t.presents[id]
  {
    hide Core, ShapedInv, LosesAll, Area, LossTraced, Abandon, Grows, CompletedWith;
    assert Evolves(t, s1, {}, {});
  }

  /**
   A history token passes from its holder, which is lost, to a present.  Afterwards its entry leads to a present that
   carries it exactly if the holder had completed before, or else: if the taker was in progress, losing the holder
   does not complete it; if the taker had completed and waits for Present_Stop, it is not let go meanwhile.  It is let
   go only when a present enters the ring for which it has waited too long.
   */
  lemma TokenTakenExactly(s: State, s1: State, id: Id, token: nat, dwm: nat, shaped: bool)
    requires Steady(s, dwm, shaped) && token in s.ix.byDxgkToken && id in s.presents && s.presents[id].keys.dxgkToken == 0
    requires MadeRoom(NoteDxgkToken(s, id, token), s1, Some(s.ix.byDxgkToken[token]), dwm, shaped)
    ensures s.ix.byDxgkToken[token] in s.presents && id in s1.presents
    ensures var holder := s.ix.byDxgkToken[token];
            EnterDxgkToken(s1, id, token).presents[id].keys.dxgkToken == token
            <==> s.presents[holder].completed
                 || if s.presents[id].completed then !LetOffIn(s, s1, id) else !Reaches(s.presents, holder, id)
    ensures LetOffIn(s, s1, id) ==>
              exists a :: a in Along(s.presents, s.ix.byDxgkToken[token]) && Late(s.presents, s.cfg, id, a)
  {
    hide MadeRoom, Steady, Reaches, Moves, LetOffIn, LoggedIn, Grows, Retired, SamePulls, Late, NoteDxgkToken;
    HolderKnown(s, id, token, dwm, shaped);
    var holder, t := s.ix.byDxgkToken[token], NoteDxgkToken(s, id, token);
    Noted(s, id, token);
    PullsSame(s, t);
    RoomGrows(t, s1, holder, id, dwm, shaped);
    if s.presents[holder].completed {
      AbandonedOnly(t, s1, holder, dwm, shaped);
      NoneLetOff(s, s1, id);
    } else {
      LostAlong(t, s1, holder, dwm, shaped);
      AlongSame(s.presents, t.presents, holder);
      LetOffFacts(s, t, s1, id);
      if s.presents[id].completed {
        KeptUnlessLetOff(t, s1, id);
      } else {
        TokenLost(t, s1, id);
      }
    }
  }

  lemma PullsSame(s: State, t: State)
    requires SamePulls(s.presents, t.presents)
    ensures t.presents.Keys == s.presents.Keys
    ensures forall a :: a in s.presents ==>
              && t.presents[a].completed == s.presents[a].completed && t.presents[a].start == s.presents[a].start
  {
  }

  lemma NoneLetOff(s: State, s1: State, id: Id)
    requires s1.released == s.released
    ensures !LetOffIn(s, s1, id)
  {
  }

  lemma KeptUnlessLetOff(t: State, s1: State, id: Id)
    requires Moves(t, s1, {}) && id in t.presents && id in s1.presents && t.presents[id].completed && t.presents[id].keys.dxgkToken != 0
    ensures s1.presents[id].keys.dxgkToken == t.presents[id].keys.dxgkToken <==> !LetOffIn(t, s1, id)
  {
    hide LetOffLate, HeadHeld, LetOffIn;
  }

  lemma LetOffFacts(s: State, t: State, s1: State, id: Id)
    requires Moves(t, s1, {}) && t.released == s.released && t.cfg == s.cfg && t.presents.Keys == s.presents.Keys
    requires forall a :: a in s.presents ==> t.presents[a].start == s.presents[a].start
    ensures LetOffIn(s, s1, id) <==> LetOffIn(t, s1, id)
    ensures LetOffIn(s, s1, id) ==> exists a :: LoggedIn(t, s1, a) && Late(s.presents, s.cfg, id, a)
  {
    hide KeysKept, HeadHeld, LoggedIn;
    if LetOffIn(s, s1, id) {
      var i :| |s.released| <= i < |s1.released| && s1.released[i].id == id;
      var a := s1.released[i].cause;
      assert LoggedIn(t, s1, a) && Late(t.presents, t.cfg, id, a);
    }
  }

  /**
   For a taker that waits for Present_Stop at the head of the ring, with room behind it, the condition can be
   checked before: no present that completes along with the holder started too long after it.
   */
  lemma WaitingTakerExactly(s: State, s1: State, id: Id, token: nat, dwm: nat, shaped: bool)
    requires Steady(s, dwm, shaped) && token in s.ix.byDxgkToken && id in s.presents && s.presents[id].keys.dxgkToken == 0
    requires MadeRoom(NoteDxgkToken(s, id, token), s1, Some(s.ix.byDxgkToken[token]), dwm, shaped)
    requires s.presents[id].completed && s.ix.byDxgkToken[token] in s.presents && !s.presents[s.ix.byDxgkToken[token]].completed
    requires Held(s) && s.ring.queue[0] == id
    requires |s.ring.queue| + |Along(s.presents, s.ix.byDxgkToken[token])| <= s.cfg.capacity
    ensures id in s1.presents
    ensures EnterDxgkToken(s1, id, token).presents[id].keys.dxgkToken == token
            <==> forall a :: a in Along(s.presents, s.ix.byDxgkToken[token]) ==> !Late(s.presents, s.cfg, id, a)
  {
    hide MadeRoom, Steady, Reaches, Moves, LetOffIn, LoggedIn, SamePulls, Late, NoteDxgkToken, Along;
    TokenTakenExactly(s, s1, id, token, dwm, shaped);
    var holder, t := s.ix.byDxgkToken[token], NoteDxgkToken(s, id, token);
    Noted(s, id, token);
    PullsSame(s, t);
    LostAlong(t, s1, holder, dwm, shaped);
    AlongSame(s.presents, t.presents, holder);
    LetOffFacts(s, t, s1, id);
    HeadLetOff(s, t, s1, id, Along(s.presents, holder));
  }

  lemma HeadLetOff(s: State, t: State, s1: State, id: Id, along: set<Id>)
    requires Held(s) && s.ring.queue[0] == id && t.ring == s.ring && t.cfg == s.cfg && t.presents.Keys == s.presents.Keys
    requires forall a :: a in s.presents ==>
               t.presents[a].start == s.presents[a].start && t.presents[a].waitingForPresentStop == s.presents[a].waitingForPresentStop
    requires Moves(t, s1, {}) && |s1.log| == |t.log| + |along| && |s.ring.queue| + |along| <= s.cfg.capacity
    requires forall a :: LoggedIn(t, s1, a) <==> a in along
    ensures (exists a :: a in along && Late(s.presents, s.cfg, id, a)) ==> LetOffIn(t, s1, id)
  {
    hide KeysKept, LetOffLate, LetOffIn, LoggedIn;
    assert Held(t) && HeadHeld(t, s1);
    if a :| a in along && Late(s.presents, s.cfg, id, a) {
      assert LoggedIn(t, s1, a) && Late(t.presents, t.cfg, t.ring.queue[0], a);
      assert SomeLate(t, s1);
    }
  }
}
