/**
 Which presents complete along with one that is lost: exactly those that can be reached from it by going from a present
 to its dependents and, if it is displayed, to earlier presents of its swap chain.
 */
module PresentReach {
  import opened Wrappers
  import opened PresentSpec
  import opened PresentInv
  import opened PresentEvolution

  /** Completing y as lost completes x, which is in progress. */
  ghost predicate Pulls(P: Presents, y: Id, x: Id) {
    && x in P && y in P && !P[x].completed
    && (x in P[y].dependents || (P[y].finalState == Presented && SameChain(P[x], P[y]) && P[x].start < P[y].start))
  }

  ghost predicate Path(P: Presents, path: seq<Id>, id: Id, a: Id) {
    && path != [] && path[0] == id && path[|path| - 1] == a
    && forall i :: 0 <= i < |path| - 1 ==> Pulls(P, path[i], path[i + 1])
  }

  ghost predicate Reaches(P: Presents, id: Id, a: Id) {
    exists path :: Path(P, path, id, a)
  }

  ghost predicate Newly(P: Presents, Q: Presents, a: Id) {
    a in P && a in Q && !P[a].completed && Q[a].completed
  }

  /** What stays in progress is only ever marked lost. */
  ghost predicate Steadfast(P: Presents, Q: Presents) {
    P.Keys == Q.Keys && forall a :: a in P ==>
      (P[a].completed ==> Q[a].completed) && (!Q[a].completed ==> Q[a] == P[a].(lost := Q[a].lost))
  }

  ghost predicate Within(P: Presents, Q: Presents, id: Id) {
    forall a :: Newly(P, Q, a) ==> Reaches(P, id, a)
  }

  /** Whatever a completed present pulls is completed. */
  ghost predicate Closed(P: Presents, Q: Presents) {
    forall y, x :: Newly(P, Q, y) && Pulls(P, y, x) ==> x in Q && Q[x].completed
  }

  ghost predicate Drags(P: Presents, Q: Presents, id: Id) {
    Steadfast(P, Q) && Within(P, Q, id) && Closed(P, Q)
  }

  /** Completed presents keep their final state, and their dependents at most go away. */
  ghost predicate Settled(P: Presents, Q: Presents) {
    P.Keys == Q.Keys && forall a :: a in P && P[a].completed ==>
      Q[a].finalState == P[a].finalState && (Q[a].dependents == P[a].dependents || Q[a].dependents == [])
  }

  ghost predicate Fixed(P: Presents, Q: Presents) {
    P.Keys == Q.Keys && forall a :: a in P ==>
      Q[a].start == P[a].start && Q[a].pid == P[a].pid && Q[a].swapChain == P[a].swapChain
  }

  lemma FixedAfter(P: Presents, Q: Presents, pend: set<Id>, open: set<Id>)
    requires PresentsEvolve(P, Q, pend, open)
    ensures Fixed(P, Q) && Settled(P, Q)
  {
    forall a | a in P
      ensures Q[a].start == P[a].start && Q[a].pid == P[a].pid && Q[a].swapChain == P[a].swapChain
      ensures P[a].completed ==>
        Q[a].finalState == P[a].finalState && (Q[a].dependents == P[a].dependents || Q[a].dependents == [])
    {
      assert Grows(P[a], Q[a]);
    }
  }

  /** What is pulled later was pulled before, unless the puller completed in between. */
  lemma PullsBack(P: Presents, Q: Presents, y: Id, x: Id)
    requires Fixed(P, Q) && Settled(P, Q) && Steadfast(P, Q) && Pulls(Q, y, x) && !Newly(P, Q, y)
    ensures Pulls(P, y, x)
  {
  }

  lemma PathBack(P: Presents, Q: Presents, path: seq<Id>, id: Id, a: Id)
    requires Fixed(P, Q) && Settled(P, Q) && Steadfast(P, Q) && Path(Q, path, id, a) && !Newly(P, Q, id)
    ensures Path(P, path, id, a)
  {
    hide Fixed, Settled, Steadfast;
    forall i | 0 <= i < |path| - 1
      ensures Pulls(P, path[i], path[i + 1])
    {
      if i > 0 { assert Pulls(Q, path[i - 1], path[i]); }
      PullsBack(P, Q, path[i], path[i + 1]);
    }
  }

  lemma ReachesBack(P: Presents, Q: Presents, id: Id, a: Id)
    requires Fixed(P, Q) && Settled(P, Q) && Steadfast(P, Q) && Reaches(Q, id, a) && !Newly(P, Q, id)
    ensures Reaches(P, id, a)
  {
    hide Fixed, Settled, Steadfast, Path;
    var path :| Path(Q, path, id, a);
    PathBack(P, Q, path, id, a);
  }

  lemma ReachesVia(P: Presents, id: Id, x: Id, a: Id)
    requires Pulls(P, id, x) && Reaches(P, x, a)
    ensures Reaches(P, id, a)
  {
    hide Pulls;
    var path :| Path(P, path, x, a);
    var longer := [id] + path;
    forall i | 0 <= i < |longer| - 1
      ensures Pulls(P, longer[i], longer[i + 1])
    {
      if i > 0 { assert longer[i] == path[i - 1] && longer[i + 1] == path[i]; }
    }
    assert Path(P, longer, id, a);
  }

  lemma ReachesItself(P: Presents, id: Id)
    ensures Reaches(P, id, id)
  {
    assert Path(P, [id], id, id);
  }

  lemma SteadfastTransitive(P: Presents, Q: Presents, R: Presents)
    requires Steadfast(P, Q) && Steadfast(Q, R)
    ensures Steadfast(P, R)
  {
  }

  lemma ClosedTransitive(P: Presents, Q: Presents, R: Presents)
    requires Steadfast(P, Q) && Steadfast(Q, R) && Closed(P, Q) && Closed(Q, R) && Fixed(P, Q)
    ensures Closed(P, R)
  {
    forall y, x | Newly(P, R, y) && Pulls(P, y, x)
      ensures x in R && R[x].completed
    {
      if !Newly(P, Q, y) {
        assert Newly(Q, R, y);
        if !Q[x].completed { assert Pulls(Q, y, x); }
      }
    }
  }

  /** A nested completion of a present that p pulls adds to what p drags along. */
  lemma DragsNested(P: Presents, Q: Presents, R: Presents, id: Id, x: Id)
    requires Drags(P, Q, id) && Drags(Q, R, x) && Fixed(P, Q) && Settled(P, Q)
    requires Pulls(P, id, x) && x in Q && !Q[x].completed
    ensures Drags(P, R, id)
  {
    SteadfastTransitive(P, Q, R);
    ClosedTransitive(P, Q, R);
    hide Pulls, Fixed, Settled, Steadfast, Closed, Reaches;
    forall a | Newly(P, R, a)
      ensures Reaches(P, id, a)
    {
      if !Newly(P, Q, a) {
        assert Newly(Q, R, a) by { assert Steadfast(P, Q); StillThere(P, Q, R, a); }
        ReachesBack(P, Q, x, a);
        ReachesVia(P, id, x, a);
      }
    }
  }

  lemma StillThere(P: Presents, Q: Presents, R: Presents, a: Id)
    requires P.Keys == Q.Keys || Steadfast(P, Q)
    ensures Newly(P, R, a) && !Newly(P, Q, a) ==> Newly(Q, R, a)
  {
  }

  /** Two stages of completing p, which has completed itself. */
  lemma DragsSelf(P: Presents, Q: Presents, R: Presents, id: Id)
    requires Drags(P, Q, id) && Drags(Q, R, id) && Fixed(P, Q) && Settled(P, Q) && !Newly(P, Q, id)
    ensures Drags(P, R, id)
  {
    SteadfastTransitive(P, Q, R);
    ClosedTransitive(P, Q, R);
    hide Pulls, Fixed, Settled, Steadfast, Closed, Reaches;
    forall a | Newly(P, R, a)
      ensures Reaches(P, id, a)
    {
      if !Newly(P, Q, a) {
        StillThere(P, Q, R, a);
        ReachesBack(P, Q, id, a);
      }
    }
  }

  /** Nothing completes. */
  lemma DragsNothing(P: Presents, Q: Presents, id: Id)
    requires P.Keys == Q.Keys && forall a :: a in P ==> Q[a].completed == P[a].completed
    requires forall a :: a in P && !P[a].completed ==> Q[a] == P[a].(lost := Q[a].lost)
    ensures Drags(P, Q, id)
  {
  }

  /** P1 is P with p marked as completed; all that p pulls has completed by then. */
  lemma DragsMarked(P: Presents, P1: Presents, Q: Presents, id: Id)
    requires id in P && id in P1 && P1 == P[id := P1[id]] && !P[id].completed && P1[id].completed
    requires P1[id].finalState == P[id].finalState && P1[id].dependents == P[id].dependents
    requires P1[id].start == P[id].start && P1[id].pid == P[id].pid && P1[id].swapChain == P[id].swapChain
    requires Drags(P1, Q, id) && forall x :: Pulls(P, id, x) ==> x in Q && Q[x].completed
    ensures Drags(P, Q, id)
  {
    hide Reaches;
    forall a | Newly(P, Q, a)
      ensures Reaches(P, id, a)
    {
      if a == id { ReachesItself(P, id); } else { MarkedReaches(P, P1, id, a); }
    }
    forall y, x | Newly(P, Q, y) && Pulls(P, y, x)
      ensures x in Q && Q[x].completed
    {
      if y != id && x != id { assert Newly(P1, Q, y) && Pulls(P1, y, x); }
    }
  }

  lemma MarkedReaches(P: Presents, P1: Presents, id: Id, a: Id)
    requires id in P && id in P1 && P1 == P[id := P1[id]] && P1[id].completed
    requires P1[id].finalState == P[id].finalState && P1[id].dependents == P[id].dependents
    requires P1[id].start == P[id].start && P1[id].pid == P[id].pid && P1[id].swapChain == P[id].swapChain
    requires Reaches(P1, id, a)
    ensures Reaches(P, id, a)
  {
    var path :| Path(P1, path, id, a);
    forall i | 0 <= i < |path| - 1
      ensures Pulls(P, path[i], path[i + 1])
    {
      assert Pulls(P1, path[i], path[i + 1]);
    }
    assert Path(P, path, id, a);
  }

  /** The completion of p adds nothing any more. */
  lemma DragsAfter(P: Presents, Q: Presents, R: Presents, id: Id)
    requires Drags(P, Q, id) && Q.Keys == R.Keys && forall a :: a in Q ==> R[a].completed == Q[a].completed
    requires forall a :: a in Q && !Q[a].completed ==> R[a] == Q[a].(lost := R[a].lost)
    ensures Drags(P, R, id)
  {
    hide Pulls, Reaches;
    assert forall a :: Newly(P, R, a) <==> Newly(P, Q, a);
  }

  /** What can be reached from a completed present has completed. */
  lemma {:induction false} ReachedCompletes(P: Presents, Q: Presents, path: seq<Id>, id: Id, a: Id)
    requires Closed(P, Q) && Steadfast(P, Q) && Newly(P, Q, id) && Path(P, path, id, a)
    ensures a in Q && Q[a].completed
    decreases |path|
  {
    if |path| > 1 {
      var n := |path| - 1;
      assert path[..n][n - 1] == path[n - 1] && Pulls(P, path[n - 1], path[n]);
      forall i | 0 <= i < n - 1
        ensures Pulls(P, path[..n][i], path[..n][i + 1])
      {
        assert Pulls(P, path[i], path[i + 1]);
      }
      ReachedCompletes(P, Q, path[..n], id, path[n - 1]);
      if n > 1 { assert Pulls(P, path[n - 2], path[n - 1]); }
      assert Newly(P, Q, path[n - 1]);
    }
  }

  /** A present in progress completes along with p exactly if it can be reached from p. */
  lemma DragsExactly(P: Presents, Q: Presents, id: Id, a: Id)
    requires Drags(P, Q, id) && Newly(P, Q, id) && a in P && !P[a].completed
    ensures a in Q && (Q[a].completed <==> Reaches(P, id, a))
  {
    hide Pulls;
    if Reaches(P, id, a) {
      var path :| Path(P, path, id, a);
      ReachedCompletes(P, Q, path, id, a);
    }
  }

  /** Marking p lost first makes no difference. */
  lemma DragsFromLost(P: Presents, Q: Presents, id: Id)
    requires id in P && Drags(P[id := P[id].(lost := true)], Q, id)
    ensures Drags(P, Q, id)
  {
    hide Reaches, Pulls, Steadfast, Newly;
    var P1 := P[id := P[id].(lost := true)];
    SteadfastFromLost(P, Q, id);
    forall a | Newly(P, Q, a)
      ensures Reaches(P, id, a)
    {
      NewlyFromLost(P, Q, id, a);
      LostReaches(P, P1, id, a);
    }
    forall y, x | Newly(P, Q, y) && Pulls(P, y, x)
      ensures x in Q && Q[x].completed
    {
      NewlyFromLost(P, Q, id, y);
      PullsFromLost(P, id, y, x);
    }
  }

  lemma SteadfastFromLost(P: Presents, Q: Presents, id: Id)
    requires id in P && Steadfast(P[id := P[id].(lost := true)], Q)
    ensures Steadfast(P, Q)
  {
  }

  lemma NewlyFromLost(P: Presents, Q: Presents, id: Id, a: Id)
    requires id in P && Newly(P, Q, a)
    ensures Newly(P[id := P[id].(lost := true)], Q, a)
  {
  }

  lemma PullsFromLost(P: Presents, id: Id, y: Id, x: Id)
    requires id in P && Pulls(P, y, x)
    ensures Pulls(P[id := P[id].(lost := true)], y, x)
  {
  }

  lemma LostReaches(P: Presents, P1: Presents, id: Id, a: Id)
    requires id in P && P1 == P[id := P[id].(lost := true)] && Reaches(P1, id, a)
    ensures Reaches(P, id, a)
  {
    var path :| Path(P1, path, id, a);
    forall i | 0 <= i < |path| - 1
      ensures Pulls(P, path[i], path[i + 1])
    {
      assert Pulls(P1, path[i], path[i + 1]);
    }
    assert Path(P, path, id, a);
  }
}
