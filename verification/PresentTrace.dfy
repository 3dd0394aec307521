/** What a completion does to presents that have completed before: which of them it lets go, and when. */
module PresentTrace {
  import opened Wrappers
  import opened PresentSpec
  import opened PresentInv
  import opened PresentSteps
  import opened PresentEvolution
  import opened PresentReach
  import opened PresentCalls

  /** The present has waited too long when the other one enters the ring. */
  ghost predicate Late(P: Presents, cfg: Config, a: Id, b: Id) {
    a in P && b in P && P[b].start >= P[a].start && P[b].start - P[a].start > cfg.deferralLimit
  }

  /** The present was let go between the two states. */
  ghost predicate LetOffIn(s: State, s': State, a: Id) {
    exists i :: |s.released| <= i < |s'.released| && s'.released[i].id == a
  }

  ghost predicate LoggedIn(s: State, s': State, a: Id) {
    exists i :: |s.log| <= i < |s'.log| && s'.log[i].id == a
  }

  /** A completed present loses its keys exactly if it is let go; those in `aside` are not considered. */
  ghost predicate KeysKept(s: State, s': State, aside: set<Id>) {
    forall a :: a in s.presents && a in s'.presents && s.presents[a].completed && a !in aside ==>
      s'.presents[a].keys == if LetOffIn(s, s', a) then ClearKeys(s.presents[a].keys) else s.presents[a].keys
  }

  /** Only overdue presents are let go, when another one enters the ring. */
  ghost predicate LetOffLate(s: State, s': State) {
    forall i :: |s.released| <= i < |s'.released| ==>
      Late(s.presents, s.cfg, s'.released[i].id, s'.released[i].cause) && LoggedIn(s, s', s'.released[i].cause)
  }

  /** The present at the head waits for Present_Stop, so nothing is ready. */
  ghost predicate Held(s: State) {
    s.ring.queue != [] && s.ring.ready == 0 && s.ring.queue[0] in s.presents && s.presents[s.ring.queue[0]].waitingForPresentStop
  }

  ghost predicate SomeLate(s: State, s': State) {
    s.ring.queue != [] && exists a :: LoggedIn(s, s', a) && Late(s.presents, s.cfg, s.ring.queue[0], a)
  }

  /** While there is room behind such a head, it stays there until something enters for which it has waited too long. */
  ghost predicate HeadHeld(s: State, s': State) {
    Held(s) && |s.ring.queue| + |s'.log| - |s.log| <= s.cfg.capacity ==>
      if SomeLate(s, s') then LetOffIn(s, s', s.ring.queue[0])
      else
        && Held(s') && s'.ring.queue[0] == s.ring.queue[0]
        && |s'.ring.queue| == |s.ring.queue| + |s'.log| - |s.log|
  }

  ghost predicate Onward(s: State, s': State) {
    && s'.cfg == s.cfg && s.log <= s'.log && s.released <= s'.released && Fixed(s.presents, s'.presents)
    && forall a :: a in s.presents && s.presents[a].completed ==> s'.presents[a].completed
  }

  ghost predicate Moves(s: State, s': State, aside: set<Id>) {
    Onward(s, s') && KeysKept(s, s', aside) && LetOffLate(s, s') && HeadHeld(s, s')
  }

  lemma LetOffEither(a: State, b: State, c: State, x: Id)
    requires a.released <= b.released <= c.released
    ensures LetOffIn(a, c, x) <==> LetOffIn(a, b, x) || LetOffIn(b, c, x)
  {
  }

  lemma LoggedEither(a: State, b: State, c: State, x: Id)
    requires a.log <= b.log <= c.log
    ensures LoggedIn(a, c, x) <==> LoggedIn(a, b, x) || LoggedIn(b, c, x)
  {
  }

  lemma KeysKeptTransitive(a: State, b: State, c: State, x: set<Id>, y: set<Id>)
    requires Onward(a, b) && Onward(b, c) && KeysKept(a, b, x) && KeysKept(b, c, y)
    requires forall e :: e in y && e in a.presents ==> !a.presents[e].completed
    ensures KeysKept(a, c, x)
  {
    forall e | e in a.presents && e in c.presents && a.presents[e].completed && e !in x
      ensures c.presents[e].keys == if LetOffIn(a, c, e) then ClearKeys(a.presents[e].keys) else a.presents[e].keys
    {
      LetOffEither(a, b, c, e);
      assert ClearKeys(ClearKeys(a.presents[e].keys)) == ClearKeys(a.presents[e].keys);
    }
  }

  lemma LetOffLateTransitive(a: State, b: State, c: State)
    requires Onward(a, b) && Onward(b, c) && LetOffLate(a, b) && LetOffLate(b, c)
    ensures LetOffLate(a, c)
  {
    hide LoggedIn;
    forall i | |a.released| <= i < |c.released|
      ensures Late(a.presents, a.cfg, c.released[i].id, c.released[i].cause) && LoggedIn(a, c, c.released[i].cause)
    {
      LoggedEither(a, b, c, c.released[i].cause);
      if i < |b.released| { assert c.released[i] == b.released[i]; }
    }
  }

  lemma HeadHeldTransitive(a: State, b: State, c: State)
    requires Onward(a, b) && Onward(b, c) && HeadHeld(a, b) && HeadHeld(b, c)
    ensures HeadHeld(a, c)
  {
    hide LetOffIn, LoggedIn, Held;
    if Held(a) && |a.ring.queue| + |c.log| - |a.log| <= a.cfg.capacity {
      assert a.ring.queue != [] by { assert Held(a); HeldQueue(a); }
      LetOffEither(a, b, c, a.ring.queue[0]);
      forall x
        ensures LoggedIn(a, c, x) <==> LoggedIn(a, b, x) || LoggedIn(b, c, x)
      {
        LoggedEither(a, b, c, x);
      }
    }
  }

  lemma HeldQueue(s: State)
    requires Held(s)
    ensures s.ring.queue != []
  {
  }

  lemma MovesTransitive(a: State, b: State, c: State, x: set<Id>, y: set<Id>)
    requires Moves(a, b, x) && Moves(b, c, y)
    requires forall e :: e in y && e in a.presents ==> !a.presents[e].completed
    ensures Moves(a, c, x)
  {
    hide KeysKept, LetOffLate, HeadHeld;
    KeysKeptTransitive(a, b, c, x, y);
    LetOffLateTransitive(a, b, c);
    HeadHeldTransitive(a, b, c);
  }

  /** Nothing enters the ring, and completed presents keep their keys and go on waiting. */
  ghost predicate Quiet(s: State, s': State) {
    && s'.cfg == s.cfg && s'.log == s.log && s'.released == s.released && s'.ring == s.ring && Fixed(s.presents, s'.presents)
    && forall a :: a in s.presents && s.presents[a].completed ==>
         && s'.presents[a].completed && s'.presents[a].keys == s.presents[a].keys
         && s'.presents[a].waitingForPresentStop == s.presents[a].waitingForPresentStop
  }

  lemma QuietMoves(s: State, s': State)
    requires Quiet(s, s') && ReadyOk(s.presents, s.ring)
    ensures Moves(s, s', {})
  {
    assert forall a :: !LetOffIn(s, s', a) && !LoggedIn(s, s', a);
    hide Late;
    if Held(s) { assert s.presents[s.ring.queue[0]].completed; }
  }

  // ---------------------------------------------------------------------------------------------
  // Entering the ring

  lemma StopTrackingQuiet(s: State, id: Id)
    requires id in s.presents && RingIndexOk(s, id)
    ensures var s' := StopTracking(s, id);
            && s'.cfg == s.cfg && s'.log == s.log && s'.released == s.released && s'.ring == s.ring && Fixed(s.presents, s'.presents)
            && s'.presents == s.presents[id := s.presents[id].(keys := ClearKeys(s.presents[id].keys))]
  {
  }

  lemma MatchQuiet(s: State, id: Id)
    requires Insertable(s, id)
    ensures var s' := MatchFrameIds(s, id);
            && s' == s.(presents := s'.presents) && Fixed(s.presents, s'.presents)
            && forall a :: a in s.presents ==>
                 && s'.presents[a].completed == s.presents[a].completed && s'.presents[a].keys == s.presents[a].keys
                 && s'.presents[a].waitingForPresentStop == s.presents[a].waitingForPresentStop
  {
    var entries := s.ring.queue[s.ring.ready..];
    assert forall e :: e in entries ==> e in s.ring.queue;
    MatchFramesExact(s.presents, entries, id);
    var Q := MatchFrames(s.presents, entries, id);
    hide MatchFrames;
    forall a | a in s.presents
      ensures Q[a] == s.presents[a].(appPropagated := Q[a].appPropagated, waitingForFrameId := Q[a].waitingForFrameId)
    {
      assert Matched(s.presents[a], Q[a], a == id);
    }
  }

  /** The first half: keys of other presents stay, and a waiting head stays at the head. */
  lemma EnterQuiet(s: State, id: Id, pend: set<Id>, taken: bool) returns (s3: State)
    requires Core(s, pend + {id}) && id !in pend
    ensures RingIndexOk(s, id) && s.ring.ready <= |s.ring.queue|
    ensures var s1 := StopTracking(s, id);
            var s2 := if taken then s1.(ring := Dequeue(s1.ring)) else s1;
            Insertable(s2, id) && s3 == MatchFrameIds(s2, id)
    ensures Core(s3, pend + {id}) && Insertable(s3, id) && Unmatched(s3.presents, s3.ring.queue, id)
    ensures !InOrdered(s3.ix.ordered, s3.presents[id]) && s3.presents[id].keys.ringIndex.None?
    ensures s3.cfg == s.cfg && s3.log == s.log && s3.released == s.released && Fixed(s.presents, s3.presents)
    ensures forall a :: a in s.presents && a != id ==>
              && s3.presents[a].completed == s.presents[a].completed && s3.presents[a].keys == s.presents[a].keys
              && s3.presents[a].waitingForPresentStop == s.presents[a].waitingForPresentStop
    ensures id in s.presents && s3.presents[id].completed && id !in s.ring.queue && ReadyOk(s3.presents, s3.ring)
    ensures s.ring.ready == 0 ==> s3.ring.queue == s.ring.queue && s3.ring.ready == 0
  {
    hide Core, StopTracking, MatchFrameIds, Evolves, RingIndexOk, SameOutcome, Unmatched, InOrdered;
    LeaveTracking(s, id, pend, taken);
    StopTrackingQuiet(s, id);
    s3 := FinishFirstHalf(s, id, pend, taken);
    var s1 := StopTracking(s, id);
    var s2 := if taken then s1.(ring := Dequeue(s1.ring)) else s1;
    MatchQuiet(s2, id);
    NotQueued(s, id, pend);
    ReadyOf(s3, pend + {id});
    assert s.ring.queue[0..] == s.ring.queue;
  }

  lemma ReadyOf(s: State, pend: set<Id>)
    requires Core(s, pend)
    ensures ReadyOk(s.presents, s.ring)
  {
  }

  lemma NotQueued(s: State, id: Id, pend: set<Id>)
    requires Core(s, pend + {id})
    ensures id !in s.ring.queue && id in s.presents && s.presents[id].completed
  {
    assert id in pend + {id};
    HeadNotPending(s, pend + {id});
  }

  /** Letting the head go records it, and clears its keys and no others. */
  lemma LetGoMoves(s: State, head: Id, cause: Id, pend: set<Id>)
    requires Core(s, pend) && head in s.presents && s.presents[head].completed
    ensures var s' := LetGo(s, head, cause, pend);
            && s'.cfg == s.cfg && s'.log == s.log && s'.released == s.released + [LetOff(head, cause)]
            && Fixed(s.presents, s'.presents)
            && forall a :: a in s.presents ==>
                 && s'.presents[a].completed == s.presents[a].completed
                 && s'.presents[a].keys == if a == head then ClearKeys(s.presents[a].keys) else s.presents[a].keys
  {
    hide Core, ClearDeferral, UpdateReady, ClearKeys;
    IxOf(s, pend);
    StopTrackingRingIndex(s, head);
    LetGoBy(s, head);
  }

  lemma IxOf(s: State, pend: set<Id>)
    requires Core(s, pend)
    ensures IxOk(s.presents, s.ix)
  {
  }

  lemma LetGoBy(s: State, head: Id)
    requires head in s.presents && RingIndexOk(s, head)
    ensures var s' := ClearDeferral(s, head);
            && s'.cfg == s.cfg && s'.log == s.log && s'.released == s.released
            && s'.presents.Keys == s.presents.Keys && (forall a :: a in s.presents && a != head ==> s'.presents[a] == s.presents[a])
            && s'.presents[head].keys == ClearKeys(s.presents[head].keys)
            && s'.presents[head].start == s.presents[head].start && s'.presents[head].pid == s.presents[head].pid
            && s'.presents[head].swapChain == s.presents[head].swapChain
            && s'.presents[head].completed == s.presents[head].completed
  {
    hide StopTrackingIx;
  }

  /** The ready count, and the head that is let go if it has waited too long. */
  lemma SettleMoves(s: State, id: Id, pend: set<Id>)
    requires Core(s, pend) && id in s.presents
    ensures var s' := Settle(s, id, pend);
            && s'.cfg == s.cfg && s'.log == s.log && Fixed(s.presents, s'.presents)
            && (s'.released == s.released
                || (s.ring.queue != [] && s'.released == s.released + [LetOff(s.ring.queue[0], id)]
                    && Late(s.presents, s.cfg, s.ring.queue[0], id)))
            && (forall a :: a in s.presents ==> s'.presents[a].completed == s.presents[a].completed)
            && (forall a :: a in s.presents ==>
                  s'.presents[a].keys == if s'.released != s.released && a == s.ring.queue[0] then ClearKeys(s.presents[a].keys)
                                         else s.presents[a].keys)
            && (Held(s) ==>
                  if Late(s.presents, s.cfg, s.ring.queue[0], id) then s'.released == s.released + [LetOff(s.ring.queue[0], id)]
                  else s' == s)
  {
    hide Core, LetGo, ReadyOk, ClearKeys;
    UpdateReadyKeeps(s, pend);
    var s1 := s.(ring := UpdateReady(s.ring, s.presents));
    ReadyOf(s1, pend);
    if s1.ring.ready == 0 && s1.ring.queue != [] {
      var head := s1.ring.queue[0];
      HeadCompleted(s1);
      if TooOld(s1, head, s1.presents[id].start) {
        LetGoMoves(s1, head, id, pend);
      }
    }
    if Held(s) { assert ReadyFrom(s.ring.queue, s.presents, 0) == 0; }
  }

  lemma FinishMoves(s: State, id: Id, pend: set<Id>, taken: bool)
    requires Core(s, pend + {id}) && id !in pend
    ensures Moves(s, Finish(s, id, pend, taken), {id})
    ensures LoggedIn(s, Finish(s, id, pend, taken), id)
  {
    hide Core, MatchFrameIds, StopTracking, Settle, RingIndexOk, Unmatched, InOrdered, KeysKept, LetOffLate, HeadHeld, Late, Held, Insert,
      LoggedIn;
    var s3 := EnterQuiet(s, id, pend, taken);
    AddCompletedKeeps(s3, id, pend);
    var s4 := AddCompleted(s3, id);
    var s' := Finish(s, id, pend, taken);
    if Drops(s3.ring, s3.presents, id, s3.cfg) {
      EnteredMoves(s, s3, s4, s4, id);
    } else {
      SettleMoves(s4, id, pend);
      EnteredMoves(s, s3, s4, Settle(s4, id, pend), id);
    }
  }

  /** From before the present leaves tracking to after the ring has settled. */
  lemma EnteredMoves(s: State, s3: State, s4: State, s': State, id: Id)
    requires s3.cfg == s.cfg && s3.log == s.log && s3.released == s.released && Fixed(s.presents, s3.presents) && id in s.presents
    requires forall a :: a in s.presents && a != id ==>
               && s3.presents[a].completed == s.presents[a].completed && s3.presents[a].keys == s.presents[a].keys
               && s3.presents[a].waitingForPresentStop == s.presents[a].waitingForPresentStop
    requires s3.presents[id].completed && id !in s.ring.queue && ReadyOk(s3.presents, s3.ring) && Insertable(s3, id)
    requires s.ring.ready == 0 ==> s3.ring.queue == s.ring.queue && s3.ring.ready == 0
    requires s4 == AddCompleted(s3, id)
    requires s'.cfg == s4.cfg && s'.log == s4.log && Fixed(s4.presents, s'.presents)
    requires s'.released == s4.released
             || (s4.ring.queue != [] && s'.released == s4.released + [LetOff(s4.ring.queue[0], id)]
                 && Late(s4.presents, s4.cfg, s4.ring.queue[0], id))
    requires forall a :: a in s4.presents ==> s'.presents[a].completed == s4.presents[a].completed
    requires forall a :: a in s4.presents ==>
               s'.presents[a].keys == if s'.released != s4.released && a == s4.ring.queue[0] then ClearKeys(s4.presents[a].keys)
                                      else s4.presents[a].keys
    requires Held(s4) && |s3.ring.queue| < s3.cfg.capacity && s' != s4 ==>
               Late(s4.presents, s4.cfg, s4.ring.queue[0], id) && s'.released == s4.released + [LetOff(s4.ring.queue[0], id)]
    requires Held(s4) && |s3.ring.queue| < s3.cfg.capacity && Late(s4.presents, s4.cfg, s4.ring.queue[0], id) ==>
               s'.released != s4.released
    ensures Moves(s, s', {id}) && LoggedIn(s, s', id)
  {
    EnteredLog(s, s', id);
    EnteredOff(s, s4, s', id);
    hide LoggedIn, LetOffIn, Insert;
    EnteredKeys(s, s3, s4, s', id);
    EnteredLate(s, s4, s', id);
    EnteredHead(s, s3, s4, s', id);
  }

  lemma EnteredLog(s: State, s': State, id: Id)
    requires |s'.log| == |s.log| + 1 && s'.log[|s.log|].id == id
    ensures forall a :: LoggedIn(s, s', a) <==> a == id
  {
    assert s'.log[|s.log|].id == id;
  }

  lemma EnteredOff(s: State, s4: State, s': State, id: Id)
    requires s4.released == s.released
    requires s'.released == s4.released || (s4.ring.queue != [] && s'.released == s4.released + [LetOff(s4.ring.queue[0], id)])
    ensures forall a :: LetOffIn(s, s', a) <==> s'.released != s4.released && a == s4.ring.queue[0]
  {
    if s'.released != s4.released { assert s'.released[|s.released|].id == s4.ring.queue[0]; }
  }

  lemma EnteredKeys(s: State, s3: State, s4: State, s': State, id: Id)
    requires Fixed(s.presents, s3.presents) && Fixed(s4.presents, s'.presents) && s4.presents == s3.presents
    requires forall a :: a in s.presents && a != id ==> s3.presents[a].keys == s.presents[a].keys
    requires s'.released == s4.released || s4.ring.queue != []
    requires forall a :: a in s4.presents ==>
               s'.presents[a].keys == if s'.released != s4.released && a == s4.ring.queue[0] then ClearKeys(s4.presents[a].keys)
                                      else s4.presents[a].keys
    requires forall a :: LetOffIn(s, s', a) <==> s'.released != s4.released && a == s4.ring.queue[0]
    ensures KeysKept(s, s', {id})
  {
    hide LetOffIn, ClearKeys;
  }

  lemma EnteredLate(s: State, s4: State, s': State, id: Id)
    requires s4.released == s.released && s4.cfg == s.cfg && Fixed(s.presents, s4.presents)
    requires s'.released == s4.released
             || (s4.ring.queue != [] && s'.released == s4.released + [LetOff(s4.ring.queue[0], id)]
                 && Late(s4.presents, s4.cfg, s4.ring.queue[0], id))
    requires LoggedIn(s, s', id)
    ensures LetOffLate(s, s')
  {
    hide LoggedIn;
  }

  lemma EnteredHead(s: State, s3: State, s4: State, s': State, id: Id)
    requires s3.cfg == s.cfg && s3.log == s.log && s3.released == s.released && Fixed(s.presents, s3.presents) && id in s.presents
    requires forall a :: a in s.presents && a != id ==> s3.presents[a].waitingForPresentStop == s.presents[a].waitingForPresentStop
    requires id !in s.ring.queue && Insertable(s3, id) && s4 == AddCompleted(s3, id)
    requires s.ring.ready == 0 ==> s3.ring.queue == s.ring.queue && s3.ring.ready == 0
    requires s'.log == s4.log
    requires Held(s4) && |s3.ring.queue| < s3.cfg.capacity && s' != s4 ==>
               Late(s4.presents, s4.cfg, s4.ring.queue[0], id) && s'.released == s4.released + [LetOff(s4.ring.queue[0], id)]
    requires Held(s4) && |s3.ring.queue| < s3.cfg.capacity && Late(s4.presents, s4.cfg, s4.ring.queue[0], id) ==>
               s'.released != s4.released
    requires s'.released == s4.released || s4.ring.queue != []
    requires forall a :: LetOffIn(s, s', a) <==> s'.released != s4.released && a == s4.ring.queue[0]
    requires forall a :: LoggedIn(s, s', a) <==> a == id
    ensures HeadHeld(s, s')
  {
    hide LetOffIn, LoggedIn;
    if Held(s) && |s.ring.queue| + 1 <= s.cfg.capacity {
      var h := s.ring.queue[0];
      assert h in s.ring.queue && h != id;
      assert s4.ring.queue == s.ring.queue + [id] && s4.ring.ready == 0 && s4.ring.queue[0] == h;
      assert Held(s4);
      assert Late(s4.presents, s4.cfg, h, id) <==> Late(s.presents, s.cfg, h, id);
    }
  }
}
