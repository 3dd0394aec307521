/** A run after which the index of history tokens leads to a completed present that does not carry the token. */
module PresentStaleToken {
  import opened Wrappers
  import opened PresentSpec
  import opened PresentInv
  import opened PresentEvolution
  import opened PresentCalls
  import opened PresentLoss
  import opened PresentEvents
  import opened PresentKeys
  import opened PresentOutcomes
  import opened PresentReach
  import opened PresentTokens
  import opened PresentOvertaking
  import opened PresentConsumer

  const TOKEN: nat := 77
  const SEQUENCE: nat := 8
  const CONTEXT: nat := 3

  /** Present 2 holds the token, and both presents are in progress on one swap chain. */
  ghost predicate Holds(s: State) {
    && 1 in s.presents && 2 in s.presents && s.hasCompleted && TOKEN in s.ix.byDxgkToken && s.ix.byDxgkToken[TOKEN] == 2
    && !s.presents[1].completed && !s.presents[2].completed && s.presents[1].keys.dxgkToken == 0
    && s.presents[1].pid == s.presents[2].pid == APP && SameChain(s.presents[1], s.presents[2])
    && s.presents[1].start < s.presents[2].start
  }

  /** Nothing was submitted under the number, and nothing is known yet of present 2. */
  ghost predicate Unsubmitted(s: State) {
    && SEQUENCE !in s.ix.bySubmit && 6 in s.ix.byThread && s.ix.byThread[6] == 2 && 2 in s.presents
    && s.presents[2].keys.submitSequence == 0 && s.presents[2].mode == ModeUnknown && s.presents[2].displayed == []
  }

  lemma SecondTakes(s: State, s1: State)
    requires Both(s) && Steady(s, DWM, true)
    requires MadeRoom(NoteDxgkToken(s, 2, TOKEN), s1, At(s.ix.byDxgkToken, TOKEN), DWM, true)
    ensures Holds(EnterDxgkToken(s1, 2, TOKEN)) && Unsubmitted(EnterDxgkToken(s1, 2, TOKEN))
  {
    hide Steady, MadeRoom, NoteDxgkToken, Unsubmitted, Holds;
    NoneSubmitted(s);
    NotedSecond(s);
    var t := NoteDxgkToken(s, 2, TOKEN);
    assert s1 == t by { NoHolder(t, s1); }
    TokenEnters(s1);
  }

  /** As Holds, before the token is entered for present 2. */
  ghost predicate Entering(s: State) {
    && 1 in s.presents && 2 in s.presents && s.hasCompleted
    && !s.presents[1].completed && !s.presents[2].completed && s.presents[1].keys.dxgkToken == 0
    && s.presents[1].pid == s.presents[2].pid == APP && SameChain(s.presents[1], s.presents[2])
    && s.presents[1].start < s.presents[2].start
  }

  lemma NotedSecond(s: State)
    requires Both(s) && SEQUENCE !in s.ix.bySubmit
    ensures var t := NoteDxgkToken(s, 2, TOKEN);
            && t.ix == s.ix && Entering(t) && Unsubmitted(t)
    ensures TOKEN !in s.ix.byDxgkToken
  {
  }

  lemma NoHolder(t: State, s1: State)
    requires MadeRoom(t, s1, None, DWM, true)
    ensures s1 == t
  {
  }

  lemma TokenEnters(s: State)
    requires Entering(s) && Unsubmitted(s)
    ensures Holds(EnterDxgkToken(s, 2, TOKEN)) && Unsubmitted(EnterDxgkToken(s, 2, TOKEN))
  {
  }

  lemma NoneSubmitted(s: State)
    requires Both(s) && Steady(s, DWM, true)
    ensures SEQUENCE !in s.ix.bySubmit
  {
    hide Distinct, DependentsKnown, Retired, OrderedInv, LogExact, LostFirst, RingInv, TokensOk, KeyedBy, ShapedInv, AllOrderly;
  }

  /** The submission of present 2 is the only one under the number, so the flip displays it. */
  lemma SecondDisplayed(s: State, s': State, id: Id)
    requires Holds(s) && Unsubmitted(s)
    requires var t := Submit(s, 2, SEQUENCE, CONTEXT, false);
             && OldestSubmitted(t.presents, t.ix.bySubmit[SEQUENCE], id) && id in t.presents
             && s' == With(t, id, ShowAt(t.presents[id], 9, NotSet))
    ensures Holds(s') && s'.presents[2].finalState == Presented
  {
  }

  lemma NoToken(s: State)
    requires Both(s)
    ensures 1 in s.presents && 2 in s.presents && s.presents[2].keys.dxgkToken == 0
  {
  }

  lemma FindsSecond(s: State)
    requires Unsubmitted(s)
    ensures 6 in s.ix.byThread && s.ix.byThread[6] == 2 && 2 in s.presents && s.presents[2].keys.submitSequence == 0
  {
  }

  lemma FlipsSecond(s: State)
    requires Unsubmitted(s)
    ensures var t := Submit(s, 2, SEQUENCE, CONTEXT, false);
            && SEQUENCE in t.ix.bySubmit
            && forall id :: OldestSubmitted(t.presents, t.ix.bySubmit[SEQUENCE], id) ==>
                 id == 2 && 2 in t.presents && t.presents[2].mode == ModeUnknown
  {
  }

  lemma Threatened(s: State)
    requires Holds(s) && s.presents[2].finalState == Presented
    ensures 1 in s.presents && 2 in s.presents && !s.presents[1].completed && s.presents[1].keys.dxgkToken == 0
    ensures TOKEN in s.ix.byDxgkToken && s.ix.byDxgkToken[TOKEN] == 2 && s.presents[2].pid != DWM
    ensures Reaches(s.presents, 2, 1)
  {
    hide Reaches;
    ReachesOnChain(s.presents, 2, 1);
  }

  /** Present 2, which holds the token, is displayed but not completed when present 1 takes it. */
  method StaleTokenRun() returns (c: PMTraceConsumer)
    ensures fresh(c) && c.Valid() && Steady(c.S(), DWM, true) && 1 in c.presents
    ensures TOKEN in c.presentByDxgkToken && c.presentByDxgkToken[TOKEN] == 1 && c.presents[1].keys.dxgkToken != TOKEN
  {
    hide Core, ShapedInv, AllOrderly, Continues, MadeRoom, Both, Holds, Unsubmitted, Submit;
    c := StartTwo();
    ghost var s := c.S();
    NoToken(s);
    ghost var s1 := c.TakeDxgkToken(2, TOKEN, DWM, true);
    SecondTakes(s, s1);
    s := c.S();
    FindsSecond(s);
    ghost var u, v := c.HandleDxgkQueueSubmit(6, CONTEXT, SEQUENCE, true, false, DWM, true);
    assert c.S() == Submit(s, 2, SEQUENCE, CONTEXT, false);
    FlipsSecond(s);
    c.HandleDxgkSyncDPC(9, SEQUENCE, DWM, true);
    ghost var id :| OldestSubmitted(Submit(s, 2, SEQUENCE, CONTEXT, false).presents, Submit(s, 2, SEQUENCE, CONTEXT, false).ix.bySubmit[SEQUENCE], id);
    SecondDisplayed(s, c.S(), id);
    s := c.S();
    Threatened(s);
    s1 := c.TakeDxgkToken(1, TOKEN, DWM, true);
    TokenTakenExactly(s, s1, 1, TOKEN, DWM, true);
  }
}
