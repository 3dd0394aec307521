/** A run in which the present that takes a token has completed, and is let go when the token's old holder is lost. */
module PresentOverdue {
  import opened Wrappers
  import opened PresentSpec
  import opened PresentInv
  import opened PresentEvolution
  import opened PresentReach
  import opened PresentCalls
  import opened PresentTrace
  import opened PresentDrags
  import opened PresentCourse
  import opened PresentEvents
  import opened PresentKeys
  import opened PresentOutcomes
  import opened PresentTokens
  import opened PresentOvertaking
  import opened PresentStaleToken
  import opened PresentConsumer

  /** Present 1 has completed before Present_Stop, present 2 is in progress and started much later. */
  ghost predicate Waits(s: State) {
    && s.presents.Keys == {0, 1, 2} && s.presents[0].completed && s.presents[1].completed && !s.presents[2].completed
    && s.presents[1].start == 2 && s.presents[2].start == 20 && s.presents[1].waitingForPresentStop
    && s.presents[1].keys.dxgkToken == 0 && s.cfg.capacity == 3 && s.cfg.deferralLimit == 10
  }

  /** Present 1 is or is about to be alone in the ring. */
  ghost predicate Entered(s: State) {
    && Waits(s) && s.presents[2].keys.dxgkToken == 0 && s.ix.byDxgkToken == map[]
    && ((s.ring.queue == [0, 1] && s.ring.ready == 1) || (s.ring.queue == [1] && s.ring.ready == 0))
  }

  lemma FirstWaits(s: State, s': State)
    requires Both(s) && Completes(s, s', 1, DWM, true)
    ensures Entered(s')
  {
    hide Callable, Achieved, Traced, Alone, Both;
    OneOnly(s);
    WaitsAlone(s, s');
  }

  lemma OneOnly(s: State)
    requires Both(s)
    ensures s.hasCompleted && Lonely(s.presents, 1)
  {
  }

  lemma WaitsAlone(s: State, u: State)
    requires Both(s) && Alone(s, u, 1, {})
    ensures Entered(u)
  {
    hide Core, Finish, StopTrackingIx, MarkCompleted, Both, ClearKeys, Waiting;
    var t := MarkCompleted(s, 1);
    var taken: bool :| u == Finish(t, 1, {}, taken);
    MarkedWaits(s);
    FinishInto(t, 1, {}, taken);
    NoTokens(t.ix, 1, t.presents[1]);
    StillWaits(t.presents[1]);
    var q := (if taken then t.ring.queue[t.ring.ready..] else t.ring.queue) + [1];
    assert q == [0, 1] || q == [1];
    WaitingRing(u, q, if taken then 0 else t.ring.ready);
  }

  lemma StillWaits(p: Present)
    ensures p.waitingForPresentStop ==> Waiting(p.(keys := ClearKeys(p.keys)))
    ensures ClearKeys(p.keys).dxgkToken == 0
  {
  }

  lemma WaitingRing(u: State, q: seq<Id>, from: nat)
    requires (q == [0, 1] && from <= 1) || (q == [1] && from == 0)
    requires 0 in u.presents && 1 in u.presents && !Waiting(u.presents[0]) && Waiting(u.presents[1])
    ensures ReadyFrom(q, u.presents, from) == |q| - 1
  {
    hide Waiting;
  }

  lemma MarkedWaits(s: State)
    requires Both(s)
    ensures var t := MarkCompleted(s, 1);
            && t.ring == s.ring && t.ring.queue == [0] && t.ring.ready <= 1 && t.ix == s.ix && t.cfg == s.cfg
            && t.presents.Keys == {0, 1, 2} && t.ix.byDxgkToken == map[]
            && t.presents[0].completed && !Waiting(t.presents[0]) && t.presents[0].start == 1
            && t.presents[1].completed && t.presents[1].waitingForPresentStop && !t.presents[1].waitingForFrameId
            && t.presents[1].start == 2 && t.presents[1].keys.dxgkToken == 0
            && !t.presents[2].completed && t.presents[2].start == 20 && t.presents[2].keys.dxgkToken == 0
            && t.cfg.capacity == 3 && t.cfg.deferralLimit == 10
  {
  }

  /** The output thread has taken what was ready. */
  ghost predicate AtHead(s: State) {
    Waits(s) && s.ring.queue == [1] && s.ring.ready == 0
  }

  lemma HeadAfter(s: State)
    requires Entered(s)
    ensures var t := s.(ring := Dequeue(s.ring)); AtHead(t) && t.ix.byDxgkToken == map[] && t.presents[2].keys.dxgkToken == 0
  {
  }

  lemma HolderEnters(s: State, s1: State)
    requires AtHead(s) && s.ix.byDxgkToken == map[] && MadeRoom(NoteDxgkToken(s, 2, TOKEN), s1, None, DWM, true)
    ensures var u := EnterDxgkToken(s1, 2, TOKEN); AtHead(u) && TOKEN in u.ix.byDxgkToken && u.ix.byDxgkToken[TOKEN] == 2
  {
  }

  lemma OnlyHolder(s: State)
    requires AtHead(s)
    ensures Along(s.presents, 2) == {2} && Late(s.presents, s.cfg, 1, 2) && Held(s) && s.ring.queue[0] == 1
  {
    hide Reaches;
    ReachesItself(s.presents, 2);
  }

  /** Present 1 waits at the head of the ring when it takes the token from present 2, for which it has waited too long. */
  method OverdueTokenRun() returns (c: PMTraceConsumer)
    ensures fresh(c) && c.Valid() && Steady(c.S(), DWM, true) && 1 in c.presents && c.presents[1].completed
    ensures TOKEN in c.presentByDxgkToken && c.presentByDxgkToken[TOKEN] == 1 && c.presents[1].keys.dxgkToken != TOKEN
  {
    hide Core, ShapedInv, AllOrderly, Continues, SameOrigin, MadeRoom, Both, Waits, Callable, Achieved, Traced, Singly, Along, Held, Late;
    c := StartTwo();
    ghost var s := c.S();
    BothStarted(s);
    c.FinishPresent(1, DWM, true);
    FirstWaits(s, c.S());
    s := c.S();
    var _ := c.TakeReady(DWM, true);
    HeadAfter(s);
    s := c.S();
    WaitersKnown(s);
    ghost var s1 := c.TakeDxgkToken(2, TOKEN, DWM, true);
    HolderEnters(s, s1);
    s := c.S();
    WaitersKnown(s);
    s1 := c.TakeDxgkToken(1, TOKEN, DWM, true);
    OnlyHolder(s);
    WaitingTakerExactly(s, s1, 1, TOKEN, DWM, true);
    StillCompleted(s, c.S());
  }

  lemma WaitersKnown(s: State)
    requires AtHead(s)
    ensures 1 in s.presents && 2 in s.presents && s.presents[1].completed && !s.presents[2].completed
    ensures s.presents[1].keys.dxgkToken == 0 && s.cfg.capacity == 3
  {
  }

  lemma StillCompleted(s: State, s': State)
    requires Continues(s, s') && 1 in s.presents && s.presents[1].completed
    ensures 1 in s'.presents && s'.presents[1].completed
  {
    assert SameOrigin(s.presents[1], s'.presents[1]);
  }
}
