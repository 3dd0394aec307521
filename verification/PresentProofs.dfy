/** What follows from the invariants of the trace consumer for its users: which presents are reported, and in what order. */
module PresentProofs {
  import opened Wrappers
  import opened PresentSpec
  import opened PresentInv
  import opened PresentSteps
  import opened PresentEvolution
  import opened PresentCalls
  import opened PresentStages
  import opened PresentEvents
  import opened PresentLoss
  import opened PresentKeys
  import opened PresentReach
  import opened PresentTrace
  import opened PresentDrags
  import opened PresentOrder
  import opened PresentCourse
  import opened PresentOutcomes

  // ---------------------------------------------------------------------------------------------
  // Every completed present has one fate

  /** The presents in the order in which they completed. */
  function Completions(L: seq<Attempt>): (r: seq<Id>)
    ensures |r| == |L|
  {
    seq(|L|, i requires 0 <= i < |L| => L[i].id)
  }

  /** What the output thread received. */
  function Deliveries(removed: seq<Removal>): seq<Id> {
    if removed == [] then []
    else
      var n := |removed| - 1;
      Deliveries(removed[..n]) + if removed[n].Delivered? then [removed[n].id] else []
  }

  /** What was overwritten in a full ring. */
  function Evictees(removed: seq<Removal>): seq<Id> {
    if removed == [] then []
    else
      var n := |removed| - 1;
      Evictees(removed[..n]) + if removed[n].Evicted? then [removed[n].id] else []
  }

  /** What never entered the ring. */
  function Dropped(L: seq<Attempt>): seq<Id> {
    if L == [] then []
    else
      var n := |L| - 1;
      Dropped(L[..n]) + if L[n].accepted then [] else [L[n].id]
  }

  lemma {:induction false} AttemptsSplit(L: seq<Attempt>)
    ensures multiset(Completions(L)) == multiset(Accepted(L)) + multiset(Dropped(L))
  {
    if L != [] {
      var n := |L| - 1;
      AttemptsSplit(L[..n]);
      assert Completions(L) == Completions(L[..n]) + [L[n].id];
    }
  }

  lemma {:induction false} RemovalsSplit(removed: seq<Removal>)
    ensures multiset(RemovedIds(removed)) == multiset(Deliveries(removed)) + multiset(Evictees(removed))
    ensures |Evictees(removed)| == Evictions(removed)
  {
    if removed != [] {
      var n := |removed| - 1;
      RemovalsSplit(removed[..n]);
      LastRemoval(removed);
      hide RemovedIds, Deliveries, Evictees, Evictions;
    }
  }

  lemma LastRemoval(removed: seq<Removal>)
    requires removed != []
    ensures var n := |removed| - 1;
            && RemovedIds(removed) == RemovedIds(removed[..n]) + [removed[n].id]
            && Deliveries(removed) == Deliveries(removed[..n]) + (if removed[n].Delivered? then [removed[n].id] else [])
            && Evictees(removed) == Evictees(removed[..n]) + (if removed[n].Evicted? then [removed[n].id] else [])
            && Evictions(removed) == Evictions(removed[..n]) + (if removed[n].Evicted? then 1 else 0)
  {
    hide RemovedIds;
    LastRemoved(removed);
  }

  lemma LastRemoved(removed: seq<Removal>)
    requires removed != []
    ensures var n := |removed| - 1; RemovedIds(removed) == RemovedIds(removed[..n]) + [removed[n].id]
  {
  }

  /** Conservation: what completed was delivered, overwritten, dropped, or is still in the ring. */
  lemma FatesExact(s: State)
    requires Core(s, {})
    ensures multiset(Completions(s.log)) == multiset(Deliveries(s.ring.removed)) + multiset(Evictees(s.ring.removed))
                                            + multiset(s.ring.queue) + multiset(Dropped(s.log))
    ensures |s.log| == |Deliveries(s.ring.removed)| + s.ring.overflowed + |s.ring.queue| + |Dropped(s.log)|
  {
    hide Core, Completions, Deliveries, Evictees, Dropped, Accepted, Evictions, RemovedIds;
    AttemptsSplit(s.log);
    RemovalsSplit(s.ring.removed);
    FifoOf(s);
    var d, e, q, x := Deliveries(s.ring.removed), Evictees(s.ring.removed), s.ring.queue, Dropped(s.log);
    assert multiset(RemovedIds(s.ring.removed) + q) == multiset(RemovedIds(s.ring.removed)) + multiset(q);
    assert |multiset(Completions(s.log))| == |s.log|;
    assert |multiset(d) + multiset(e) + multiset(q) + multiset(x)| == |d| + |e| + |q| + |x|;
  }

  lemma FifoOf(s: State)
    requires Core(s, {})
    ensures Fifo(s.ring, s.log) && LogExact(s.presents, s.log, {})
  {
  }

  /** No present is inserted twice, and exactly the completed presents are inserted. */
  lemma InsertedOnce(s: State, a: Id)
    requires Core(s, {})
    ensures multiset(Completions(s.log))[a] == if a in s.presents && s.presents[a].completed then 1 else 0
  {
    FifoOf(s);
    var c := Completions(s.log);
    forall i, j | 0 <= i < j < |c|
      ensures c[i] != c[j]
    {
      assert s.log[i].id != s.log[j].id;
    }
    DistinctCount(c, a);
    if i :| 0 <= i < |c| && c[i] == a { assert s.log[i].id == a; }
    if a in s.presents && s.presents[a].completed {
      assert a in LogIds(s.log);
      var i :| 0 <= i < |s.log| && s.log[i].id == a;
      assert c[i] == a;
    }
  }

  lemma {:induction false} DistinctCount(c: seq<Id>, a: Id)
    requires forall i, j :: 0 <= i < j < |c| ==> c[i] != c[j]
    ensures multiset(c)[a] == if a in c then 1 else 0
  {
    if c != [] {
      var n := |c| - 1;
      DistinctCount(c[..n], a);
      assert c == c[..n] + [c[n]];
    }
  }

  // ---------------------------------------------------------------------------------------------
  // The order of delivery

  ghost predicate Embeds(pos: seq<int>, a: seq<Id>, b: seq<Id>) {
    && |pos| == |a|
    && (forall i, j :: 0 <= i < j < |pos| ==> pos[i] < pos[j])
    && (forall i :: 0 <= i < |pos| ==> 0 <= pos[i] < |b| && a[i] == b[pos[i]])
  }

  ghost predicate Subsequence(a: seq<Id>, b: seq<Id>) {
    exists pos :: Embeds(pos, a, b)
  }

  lemma SubsequenceTransitive(a: seq<Id>, b: seq<Id>, c: seq<Id>)
    requires Subsequence(a, b) && Subsequence(b, c)
    ensures Subsequence(a, c)
  {
    var p :| Embeds(p, a, b);
    var q :| Embeds(q, b, c);
    var pos := seq(|a|, i requires 0 <= i < |a| => q[p[i]]);
    assert Embeds(pos, a, c);
  }

  lemma SubsequenceGrows(a: seq<Id>, b: seq<Id>, x: Id)
    requires Subsequence(a, b)
    ensures Subsequence(a, b + [x]) && Subsequence(a + [x], b + [x])
  {
    var pos :| Embeds(pos, a, b);
    assert Embeds(pos, a, b + [x]);
    assert Embeds(pos + [|b|], a + [x], b + [x]);
  }

  lemma SubsequencePrefix(a: seq<Id>, b: seq<Id>)
    ensures Subsequence(a, a + b)
  {
    assert Embeds(seq(|a|, i => i), a, a + b);
  }

  lemma {:induction false} AcceptedSubsequence(L: seq<Attempt>)
    ensures Subsequence(Accepted(L), Completions(L))
  {
    if L == [] {
      assert Embeds([], Accepted(L), Completions(L));
    } else {
      var n := |L| - 1;
      AcceptedSubsequence(L[..n]);
      hide Subsequence;
      SubsequenceGrows(Accepted(L[..n]), Completions(L[..n]), L[n].id);
      assert Completions(L) == Completions(L[..n]) + [L[n].id];
    }
  }

  lemma {:induction false} DeliveredSubsequence(removed: seq<Removal>)
    ensures Subsequence(Deliveries(removed), RemovedIds(removed))
  {
    if removed == [] {
      assert Embeds([], Deliveries(removed), RemovedIds(removed));
    } else {
      var n := |removed| - 1;
      DeliveredSubsequence(removed[..n]);
      hide Subsequence;
      SubsequenceGrows(Deliveries(removed[..n]), RemovedIds(removed[..n]), removed[n].id);
      assert RemovedIds(removed) == RemovedIds(removed[..n]) + [removed[n].id];
      assert Deliveries(removed[..n]) + [] == Deliveries(removed[..n]);
    }
  }

  /** All dequeues together are a subsequence of the order of completion. */
  lemma DeliveredInOrder(s: State)
    requires Core(s, {})
    ensures Subsequence(Deliveries(s.ring.removed), Completions(s.log))
  {
    hide Core, Subsequence, Deliveries, Completions, Accepted, RemovedIds, LogExact;
    FifoOf(s);
    AcceptedSubsequence(s.log);
    DeliveredSubsequence(s.ring.removed);
    SubsequencePrefix(RemovedIds(s.ring.removed), s.ring.queue);
    SubsequenceTransitive(Deliveries(s.ring.removed), RemovedIds(s.ring.removed), Accepted(s.log));
    SubsequenceTransitive(Deliveries(s.ring.removed), Accepted(s.log), Completions(s.log));
  }

  ghost predicate WasDisplayed(L: seq<Attempt>, id: Id) {
    exists i :: 0 <= i < |L| && L[i].id == id && L[i].snapshot.finalState == Presented
  }

  /** After a displayed present no earlier present of its swap chain is ever delivered. */
  lemma DisplayedInOrder(s: State, dwm: nat, i: nat, j: nat)
    requires Steady(s, dwm, true)
    requires var d := Deliveries(s.ring.removed);
             i < j < |d| && WasDisplayed(s.log, d[i]) && d[i] in s.presents && d[j] in s.presents
             && SameChain(s.presents[d[i]], s.presents[d[j]])
    ensures s.presents[Deliveries(s.ring.removed)[i]].start < s.presents[Deliveries(s.ring.removed)[j]].start
  {
    DeliveredInOrder(s);
    FifoOf(s);
    var L, d := s.log, Deliveries(s.ring.removed);
    var pos :| Embeds(pos, d, Completions(L));
    assert L[pos[i]].id == d[i] && L[pos[j]].id == d[j] && pos[i] < pos[j];
    var k :| 0 <= k < |L| && L[k].id == d[i] && L[k].snapshot.finalState == Presented;
    SameAttempt(s.presents, L, k, pos[i]);
    assert ChainOrder(s.presents, L, {});
  }

  lemma SameAttempt(P: Presents, L: seq<Attempt>, i: int, j: int)
    requires LogExact(P, L, {}) && 0 <= i < |L| && 0 <= j < |L| && L[i].id == L[j].id
    ensures i == j
  {
  }

  // ---------------------------------------------------------------------------------------------
  // The documented order, and when it fails

  /** An earlier present of the same swap chain is still in progress. */
  ghost predicate HasEarlier(P: Presents, id: Id) {
    id in P && exists a :: a in P && !P[a].completed && SameChain(P[a], P[id]) && P[a].start < P[id].start
  }

  /** The earlier present of the swap chain was in progress when the other one was about to complete. */
  ghost predicate EarlierInProgress(P: Presents, a: Id, b: Id) {
    a in P && b in P && !P[a].completed && SameChain(P[a], P[b]) && P[a].start < P[b].start
  }

  /**
   The order is documented for every present.  A present overtakes an earlier one of its chain exactly if it
   was not displayed and the earlier one was in progress when it completed.  Presents of its process that complete along
   with it overtake none.
   */
  lemma OvertakesExactly(s: State, s': State, id: Id, dwm: nat)
    requires Completes(s, s', id, dwm, true) && id in s.presents && !s.presents[id].completed
    requires s.hasCompleted || s.presents[id].lost
    ensures forall a :: EarlierInProgress(s.presents, a, id) ==>
              (Overtakes(s'.log, id, a) <==> s.presents[id].finalState != Presented)
    ensures forall a, b ::
      CompletesAlong(s.presents, s'.presents, b, id) && s.presents[b].pid == s.presents[id].pid && EarlierInProgress(s.presents, a, b)
      ==> !Overtakes(s'.log, b, a)
    ensures HasEarlier(s'.presents, id) <==> s.presents[id].finalState != Presented && HasEarlier(s.presents, id)
    ensures forall a ::
      CompletesAlong(s.presents, s'.presents, a, id) && (s.presents[id].pid != dwm || s.presents[a].pid == dwm)
      ==> !HasEarlier(s'.presents, a)
  {
    hide Completes, Grows, Footprint, Overtakes, Called, Ascends, NoneEarlier, HasEarlier;
    var P, Q := s.presents, s'.presents;
    CompletionFacts(s, s', id, dwm);
    OvertakesBy(P, Q, id, dwm);
    CompletionCalled(s, s', id, dwm);
    forall a | EarlierInProgress(P, a, id)
      ensures Overtakes(s'.log, id, a) <==> P[id].finalState != Presented
    {
      OvertakesSelf(s, s', id, a, dwm);
    }
    forall a, b | CompletesAlong(P, Q, b, id) && P[b].pid == P[id].pid && EarlierInProgress(P, a, b)
      ensures !Overtakes(s'.log, b, a)
    {
      OvertakesAlong(s, s', id, a, b, dwm);
    }
  }

  /** What the completion hands to the ring, in which order. */
  lemma CompletionCalled(s: State, s': State, id: Id, dwm: nat)
    requires Completes(s, s', id, dwm, true) && id in s.presents && !s.presents[id].completed
    requires s.hasCompleted || s.presents[id].lost
    ensures Called(s, s', id, {}, dwm) && Ascends(s, s', s.presents[id].pid, s.presents[id].start + 1)
    ensures DependentsIn(MarkCompleted(s, id).presents, id) && DependentOrder(MarkCompleted(s, id).presents, s'.log, id, dwm)
  {
    hide Callable, Achieved, Called, Ascends, DependentOrder, DependentsIn, Moves, Dragging, MarkCompleted;
    CalledFacts(s, s', id, {}, dwm);
  }

  lemma OvertakesSelf(s: State, s': State, id: Id, a: Id, dwm: nat)
    requires Called(s, s', id, {}, dwm) && Ascends(s, s', s.presents[id].pid, s.presents[id].start + 1)
    requires EarlierInProgress(s.presents, a, id) && !s.presents[id].completed
    ensures Overtakes(s'.log, id, a) <==> s.presents[id].finalState != Presented
  {
    hide Overtakes, Ascends, LogExact;
    if s.presents[id].finalState == Presented {
      assert SameChain(s'.presents[id], s'.presents[a]);
      OvertakesNone(s, s', id, a, id, {}, dwm, s.presents[id].start + 1);
    } else {
      OvertakesMissing(s, s', id, a, id, {}, dwm);
    }
  }

  lemma OvertakesAlong(s: State, s': State, id: Id, a: Id, b: Id, dwm: nat)
    requires Called(s, s', id, {}, dwm) && Ascends(s, s', s.presents[id].pid, s.presents[id].start + 1)
    requires CompletesAlong(s.presents, s'.presents, b, id) && s.presents[b].pid == s.presents[id].pid
    requires EarlierInProgress(s.presents, a, b)
    ensures !Overtakes(s'.log, b, a)
  {
    hide Overtakes, Ascends, LogExact;
    assert SameChain(s'.presents[id], s'.presents[a]);
    OvertakesNone(s, s', b, a, id, {}, dwm, s.presents[id].start + 1);
  }

  /**
   The compositor's dependents complete from the last to the first.  What they complete, b, overtakes an earlier present
   a of its chain exactly if it comes before a and before every displayed present later than a; b was not displayed then.
   */
  lemma DependentsOvertakeExactly(s: State, s': State, id: Id, a: Id, b: Id, dwm: nat)
    requires Completes(s, s', id, dwm, true) && id in s.presents && !s.presents[id].completed
    requires s.hasCompleted || s.presents[id].lost
    ensures var P := MarkCompleted(s, id).presents;
            && DependentsIn(P, id)
            && (Pair(Decided(P, id), b, a, dwm) && Taken(Decided(P, id), P[id].dependents, 0, b) ==>
                  && (Overtakes(s'.log, b, a) <==> ComesFirst(Decided(P, id), P[id].dependents, 0, b, a))
                  && (Overtakes(s'.log, b, a) ==> Decided(P, id)[b].finalState != Presented))
  {
    hide Completes, Called, Ascends, MarkCompleted, Overtakes, Taken, Decided;
    CompletionCalled(s, s', id, dwm);
    var P := MarkCompleted(s, id).presents;
    if Pair(Decided(P, id), b, a, dwm) && ComesFirst(Decided(P, id), P[id].dependents, 0, b, a) {
      FirstNotDisplayed(Decided(P, id), P[id].dependents, b, a, dwm);
    }
  }

  lemma FirstNotDisplayed(R: Presents, deps: seq<Id>, b: Id, a: Id, dwm: nat)
    requires Pair(R, b, a, dwm) && ComesFirst(R, deps, 0, b, a)
    ensures R[b].finalState != Presented
  {
    var j :| 0 <= j < |deps| && deps[j] == b && forall k :: j <= k < |deps| ==> !Takes(R, deps[k], a);
    assert !Takes(R, deps[j], a);
  }

  /** If the frame is lost, or shows none of them, its dependents of one chain enter the ring in reverse. */
  lemma UndisplayedReversed(s: State, s': State, id: Id, i: nat, j: nat, dwm: nat)
    requires Completes(s, s', id, dwm, true) && id in s.presents && !s.presents[id].completed
    requires s.hasCompleted || s.presents[id].lost
    requires i < j < |s.presents[id].dependents| && RepeatFree(s.presents[id].dependents)
    requires DependentsIn(MarkCompleted(s, id).presents, id)
    requires var deps, R := s.presents[id].dependents, Decided(MarkCompleted(s, id).presents, id);
             && Pair(R, deps[j], deps[i], dwm)
             && forall k :: j <= k < |deps| && deps[k] in R && SameChain(R[deps[k]], R[deps[i]]) ==> R[deps[k]].finalState != Presented
    ensures Overtakes(s'.log, s.presents[id].dependents[j], s.presents[id].dependents[i])
  {
    hide Completes, MarkCompleted, Overtakes, Decided;
    var P, deps := MarkCompleted(s, id).presents, s.presents[id].dependents;
    MarkedBy(s, id);
    var R := Decided(P, id);
    assert Takes(R, deps[j], deps[j]);
    forall k | j <= k < |deps|
      ensures !Takes(R, deps[k], deps[i])
    {
      assert deps[k] != deps[i];
    }
    DependentsOvertakeExactly(s, s', id, deps[i], deps[j], dwm);
  }

  ghost predicate CompletesAlong(P: Presents, Q: Presents, a: Id, id: Id) {
    a != id && a in P && a in Q && !P[a].completed && Q[a].completed
  }

  lemma CompletionFacts(s: State, s': State, id: Id, dwm: nat)
    requires Completes(s, s', id, dwm, true) && id in s.presents && !s.presents[id].completed
    requires s.hasCompleted || s.presents[id].lost
    ensures s.presents.Keys == s'.presents.Keys && forall a :: a in s.presents ==> Grows(s.presents[a], s'.presents[a])
    ensures Footprint(s.presents, s'.presents, id, dwm)
    ensures s.presents[id].finalState == Presented ==> NoneEarlier(s'.presents, id)
  {
    hide Core, ShapedInv, Inherited, LosesAll, Outcome, AllCompleted, Forgotten, SameOutcomes, Evolves, Footprint, Grows, NoneEarlier;
    assert Evolves(s, s', {}, {}) && CompletedWith(s, s', id);
    EvolvesGrows(s, s', {}, {});
  }

  lemma OvertakesBy(P: Presents, Q: Presents, id: Id, dwm: nat)
    requires P.Keys == Q.Keys && (forall a :: a in P ==> Grows(P[a], Q[a])) && Footprint(P, Q, id, dwm) && id in P
    requires P[id].finalState == Presented ==> NoneEarlier(Q, id)
    ensures HasEarlier(Q, id) <==> P[id].finalState != Presented && HasEarlier(P, id)
    ensures forall a :: CompletesAlong(P, Q, a, id) && (P[id].pid != dwm || P[a].pid == dwm) ==> !HasEarlier(Q, a)
  {
    forall a | CompletesAlong(P, Q, a, id) && (P[id].pid != dwm || P[a].pid == dwm)
      ensures !HasEarlier(Q, a)
    {
      assert Grows(P[a], Q[a]) && Grows(P[id], Q[id]);
      forall b | b in Q && SameChain(Q[b], Q[a]) && Q[b].start < Q[a].start
        ensures Q[b].completed
      {
        assert SameChain(Q[id], Q[b]);
      }
    }
    if HasEarlier(P, id) && P[id].finalState != Presented {
      var a :| a in P && !P[a].completed && SameChain(P[a], P[id]) && P[a].start < P[id].start;
      assert Grows(P[a], Q[a]) && Grows(P[id], Q[id]);
      assert !Q[a].completed;
    }
    if HasEarlier(Q, id) {
      var a :| a in Q && !Q[a].completed && SameChain(Q[a], Q[id]) && Q[a].start < Q[id].start;
      assert Grows(P[a], Q[a]) && Grows(P[id], Q[id]);
      assert SameChain(Q[id], Q[a]);
    }
  }

  /** Whatever is in progress when a present completes enters the ring after it. */
  lemma OvertakenLater(s: State, s': State, id: Id, a: Id, dwm: nat, shaped: bool)
    requires Steady(s, dwm, shaped) && Steady(s', dwm, shaped) && Continues(s, s')
    requires id in s.presents && s.presents[id].completed && a in s.presents && !s.presents[a].completed
    requires a in s'.presents && s'.presents[a].completed
    ensures exists i, j :: 0 <= i < j < |s'.log| && s'.log[i].id == id && s'.log[j].id == a
  {
    hide Core, ShapedInv, AllOrderly, Fifo;
    FifoOf(s);
    FifoOf(s');
    assert id in LogIds(s.log) && a in LogIds(s'.log);
    var i :| 0 <= i < |s.log| && s.log[i].id == id;
    var j :| 0 <= j < |s'.log| && s'.log[j].id == a;
    assert s'.log[i] == s.log[i];
    LaterAttempt(s, s', a, j);
  }

  lemma LaterAttempt(s: State, s': State, a: Id, j: int)
    requires s.log <= s'.log && LogExact(s.presents, s.log, {}) && a in s.presents && !s.presents[a].completed
    requires 0 <= j < |s'.log| && s'.log[j].id == a
    ensures |s.log| <= j
  {
  }

  // ---------------------------------------------------------------------------------------------
  // The first completion

  /** Before the first present completes, the output thread sees only lost presents. */
  lemma OnlyLostBeforeFirst(s: State, a: Id)
    requires Core(s, {}) && !s.hasCompleted
    ensures a in s.ring.queue || a in Deliveries(s.ring.removed) ==> a in s.presents && s.presents[a].lost
  {
    hide Deliveries, Completions, Evictees, Dropped;
    FatesExact(s);
    InsertedOnce(s, a);
    assert LostFirst(s.presents, s.hasCompleted);
    if a in s.ring.queue { assert multiset(s.ring.queue)[a] > 0; }
    if a in Deliveries(s.ring.removed) { assert multiset(Deliveries(s.ring.removed))[a] > 0; }
  }

  /** The first completion of a present that is not lost throws away everything that was in progress, and itself. */
  lemma FirstCompletionDiscards(s: State, s': State, id: Id, dwm: nat, shaped: bool)
    requires Completes(s, s', id, dwm, shaped) && !s.hasCompleted && id in s.presents && !s.presents[id].lost
    ensures s'.hasCompleted && s'.presents.Keys == s.presents.Keys
    ensures forall a :: a in s'.presents ==> s'.presents[a].completed && s'.presents[a].lost
    ensures forall pid :: pid in s'.ix.ordered ==> s'.ix.ordered[pid] == map[]
    ensures forall a :: a in s'.presents ==> multiset(Completions(s'.log))[a] == 1
  {
    assert Core(s', {}) && Flushed(s, s') && Evolves(s, s', {}, {}) && LostFirst(s.presents, s.hasCompleted);
    hide Core, ShapedInv, Evolves, Completions;
    EvolvesGrows(s, s', {}, {});
    forall a | a in s'.presents
      ensures s'.presents[a].lost && multiset(Completions(s'.log))[a] == 1
    {
      assert Grows(s.presents[a], s'.presents[a]);
      InsertedOnce(s', a);
    }
  }

  // ---------------------------------------------------------------------------------------------
  // The ready prefix

  /** Counting leaves exactly the longest prefix of presents that wait for nothing. */
  lemma ReadyLongest(P: Presents, r: Ring, m: nat)
    requires ReadyOk(P, r) && m <= |r.queue|
    ensures m <= UpdateReady(r, P).ready <==> forall k :: 0 <= k < m ==> !Waiting(P[r.queue[k]])
  {
    var n := UpdateReady(r, P).ready;
    if n < m { assert Waiting(P[r.queue[n]]); }
    forall k | 0 <= k < n
      ensures !Waiting(P[r.queue[k]])
    {
    }
  }

  /** With backpressure nothing that is ready is ever overwritten: it stays ready or is delivered. */
  lemma ReadyIsSafe(r: Ring, P: Presents, id: Id, cfg: Config, i: nat)
    requires 0 < cfg.capacity && r.ready <= |r.queue| <= cfg.capacity
    requires id in P && (forall q :: q in r.queue ==> q in P) && !cfg.realtime && !cfg.disableBackpressure && i < r.ready
    ensures var r' := Insert(r, P, id, cfg);
            if r'.ready == r.ready then r'.queue[..r.ready] == r.queue[..r.ready] && r'.removed == r.removed
            else r'.removed == r.removed + Delivery(r.queue[..r.ready]) && r'.queue == r.queue[r.ready..] + [id]
    ensures Insert(r, P, id, cfg).overflowed == r.overflowed
  {
    if |r.queue| == cfg.capacity { assert Blocks(r, cfg); }
  }

  /** Times of generated frames come from at most one entry of the ring. */
  lemma {:induction false} OneSource(P: Presents, entries: seq<Id>, id: Id)
    requires id in P && id !in entries && (forall e :: e in entries ==> e in P) && OneWaiting(P, entries)
    ensures forall i :: 0 <= i < |entries| && Matches(P[entries[i]], P[id])
                        ==> MatchFrames(P, entries, id) == MatchFrame(P, entries[i], id)
    ensures (forall i :: 0 <= i < |entries| ==> !Matches(P[entries[i]], P[id])) ==> MatchFrames(P, entries, id) == P
    decreases |entries|
  {
    if entries != [] {
      var e, rest := entries[0], entries[1..];
      var P1 := MatchFrame(P, e, id);
      assert MatchFrames(P, entries, id) == MatchFrames(P1, rest, id);
      SourceSpent(P, e, rest, id);
      hide MatchFrame, MatchFrames, Matches;
      OneSource(P1, rest, id);
      forall i | 0 <= i < |entries| && Matches(P[entries[i]], P[id])
        ensures MatchFrames(P, entries, id) == MatchFrame(P, entries[i], id)
      {
        if i > 0 {
          assert rest[i - 1] == entries[i];
        }
      }
    }
  }

  /** A matching entry stops waiting, and no other entry of its process was waiting. */
  lemma SourceSpent(P: Presents, e: Id, rest: seq<Id>, id: Id)
    requires id in P && e in P && e != id && id !in rest && (forall x :: x in rest ==> x in P) && OneWaiting(P, [e] + rest)
    ensures var P1 := MatchFrame(P, e, id);
            if Matches(P[e], P[id]) then
              OneWaiting(P1, rest) && forall i :: 0 <= i < |rest| ==> !Matches(P[rest[i]], P[id]) && !Matches(P1[rest[i]], P1[id])
            else P1 == P && OneWaiting(P1, rest)
  {
    OthersWaiting(P, e, rest);
    if Matches(P[e], P[id]) {
      MatchFrameExact(P, e, id);
      var P1 := MatchFrame(P, e, id);
      forall i | 0 <= i < |rest|
        ensures !Matches(P[rest[i]], P[id]) && P1[rest[i]] == P[rest[i]] && P1[id].pid == P[id].pid
      {
        assert Matched(P[id], P1[id], true);
      }
      hide MatchFrame;
    }
  }

  lemma OthersWaiting(P: Presents, e: Id, rest: seq<Id>)
    requires OneWaiting(P, [e] + rest) && e in P && forall x :: x in rest ==> x in P
    ensures OneWaiting(P, rest)
    ensures P[e].waitingForFrameId ==>
            forall i :: 0 <= i < |rest| ==> rest[i] != e && !(P[rest[i]].waitingForFrameId && P[rest[i]].pid == P[e].pid)
  {
    var q := [e] + rest;
    forall i | 0 <= i < |rest|
      ensures q[i + 1] == rest[i]
    {
    }
    assert q[0] == e;
  }

  // ---------------------------------------------------------------------------------------------
  // Composition

  predicate RepeatFree(ids: seq<Id>) {
    forall i, j :: 0 <= i < j < |ids| ==> ids[i] != ids[j]
  }

  /** The windows for which a dependent after position i was composed and still in progress. */
  function SeenBehind(P: Presents, deps: seq<Id>, i: nat, seen: set<nat>): set<nat>
    requires i < |deps| && forall d :: d in deps ==> d in P
    decreases |deps|
  {
    var n := |deps| - 1;
    if i == n then seen
    else SeenBehind(P, deps[..n], i, SeenAfter(P[deps[n]], seen))
  }

  /** A window is among them exactly if such a dependent exists. */
  lemma {:induction false} SeenBehindExact(P: Presents, deps: seq<Id>, i: nat, seen: set<nat>, hwnd: nat)
    requires i < |deps| && forall d :: d in deps ==> d in P
    ensures hwnd in SeenBehind(P, deps, i, seen) <==>
            hwnd in seen || exists j :: i < j < |deps| && Shows(P[deps[j]], hwnd)
    decreases |deps|
  {
    var n := |deps| - 1;
    if i < n {
      SeenBehindExact(P, deps[..n], i, SeenAfter(P[deps[n]], seen), hwnd);
      if j :| i < j < |deps| && Shows(P[deps[j]], hwnd) {
        assert j < n ==> deps[..n][j] == deps[j];
      }
      if j :| i < j < n && Shows(P[deps[..n][j]], hwnd) {
        assert deps[..n][j] == deps[j];
      }
      if hwnd in SeenAfter(P[deps[n]], seen) && hwnd !in seen {
        assert Shows(P[deps[n]], hwnd);
      }
    }
  }

  /** The modes in which the compositor shows the present in its window. */
  predicate InComposition(mode: PresentMode) {
    mode in {ComposedFlip, ComposedCopyGpuGdi, ComposedCopyCpuGdi}
  }

  /** A present in progress that would be composed into a window. */
  predicate Shows(p: Present, hwnd: nat) {
    !p.completed && InComposition(p.mode) && p.keys.hwnd == hwnd
  }

  /** Every dependent is given its part once, by what the list holds behind it. */
  lemma {:induction false} PropagateAt(P: Presents, deps: seq<Id>, seen: set<nat>, parent: Present, i: nat)
    requires i < |deps| && (forall d :: d in deps ==> d in P) && RepeatFree(deps)
    ensures Propagate(P, deps, seen, parent)[deps[i]] == PropagateOne(P[deps[i]], SeenBehind(P, deps, i, seen), parent)
    decreases |deps|
  {
    hide PropagateOne, SeenAfter;
    var n := |deps| - 1;
    var d, front := deps[n], deps[..n];
    var P1 := P[d := PropagateOne(P[d], seen, parent)];
    if i == n {
      PropagateExact(P1, front, SeenAfter(P[d], seen), parent);
    } else {
      PropagateAt(P1, front, SeenAfter(P[d], seen), parent, i);
      SeenBehindSame(P, P1, front, i, SeenAfter(P[d], seen));
    }
  }

  lemma {:induction false} SeenBehindSame(P: Presents, Q: Presents, deps: seq<Id>, i: nat, seen: set<nat>)
    requires i < |deps| && forall d :: d in deps ==> d in P && d in Q && Q[d] == P[d]
    ensures SeenBehind(Q, deps, i, seen) == SeenBehind(P, deps, i, seen)
    decreases |deps|
  {
    var n := |deps| - 1;
    if i < n { SeenBehindSame(P, Q, deps[..n], i, SeenAfter(P[deps[n]], seen)); }
  }

  /** The screen times of the parent come first; the child's own frame types stay. */
  ghost predicate TakesScreenTimes(own: seq<Shown>, from: seq<Shown>, r: seq<Shown>) {
    && |r| == (if |own| < |from| then |from| else |own|)
    && (forall k :: 0 <= k < |from| ==> r[k].time == from[k].time)
    && (forall k :: 0 <= k < |own| ==> r[k].frameType == own[k].frameType)
    && (forall k :: |own| <= k < |from| ==> r[k] == from[k])
    && (forall k :: |from| <= k < |own| ==> r[k] == own[k])
  }

  /** The outcome of the dependent at position i of the list, given its record before and after. */
  ghost predicate ComposedOutcome(P: Presents, deps: seq<Id>, i: nat, parent: Present, r: Present)
    requires i < |deps| && forall d :: d in deps ==> d in P
  {
    var p := P[deps[i]];
    var hidden := InComposition(p.mode) && exists j :: i < j < |deps| && Shows(P[deps[j]], p.keys.hwnd);
    if p.completed then r.finalState == p.finalState && r.displayed == p.displayed
    else if hidden then r.finalState == Discarded && r.displayed == []
    else if p.finalState == Discarded then r.finalState == Discarded && r.displayed == p.displayed
    else r.finalState == parent.finalState && TakesScreenTimes(p.displayed, parent.displayed, r.displayed)
  }

  lemma InheritsTimes(p: Present, parent: Present)
    ensures Inherit(p, parent).finalState == parent.finalState
    ensures TakesScreenTimes(p.displayed, parent.displayed, Inherit(p, parent).displayed)
  {
  }

  lemma PropagateOutcome(P: Presents, deps: seq<Id>, parent: Present, i: nat)
    requires i < |deps| && (forall d :: d in deps ==> d in P) && RepeatFree(deps)
    ensures ComposedOutcome(P, deps, i, parent, Propagate(P, deps, {}, parent)[deps[i]])
  {
    hide Propagate, SeenBehind, Shows, Inherit, TakesScreenTimes, RepeatFree;
    var p := P[deps[i]];
    PropagateAt(P, deps, {}, parent, i);
    SeenBehindExact(P, deps, i, {}, p.keys.hwnd);
    InheritsTimes(p, parent);
  }

  /**
   A displayed or discarded frame of the compositor decides its dependents: what happened to each of them by the
   time the completion returns, in terms of what they were before.
   */
  lemma CompositionDecides(s: State, s': State, id: Id, i: nat, dwm: nat)
    requires Completes(s, s', id, dwm, true) && s.hasCompleted && id in s.presents
    requires !s.presents[id].completed && !s.presents[id].lost
    requires i < |s.presents[id].dependents| && RepeatFree(s.presents[id].dependents)
    ensures var deps := s.presents[id].dependents;
            && (forall d :: d in deps ==> d in s.presents && d in s'.presents)
            && s'.presents[deps[i]].completed
            && ComposedOutcome(s.presents, deps, i, s.presents[id], s'.presents[deps[i]])
  {
    var deps, P, P1 := s.presents[id].dependents, s.presents, MarkCompleted(s, id).presents;
    assert Evolves(s, s', {}, {}) && CompletedWith(s, s', id) && Inherited(P1, s'.presents, id) && Shape(P, dwm);
    hide Core, ShapedInv, LosesAll, Outcome, Forgotten, Area, Inherited;
    forall d | d in deps
      ensures d in P && d in s'.presents && d != id
    {
    }
    assert forall d :: d in deps ==> P1[d] == P[d];
    PropagateOutcome(P1, deps, P1[id], i);
    assert deps[i] in deps;
    assert Inherited(P1, s'.presents, id);
    OutcomeSame(P, P1, deps, i, P[id], P1[id], Propagate(P1, deps, {}, P1[id])[deps[i]], s'.presents[deps[i]]);
  }

  lemma OutcomeSame(P: Presents, Q: Presents, deps: seq<Id>, i: nat, parent: Present, marked: Present, r: Present, r': Present)
    requires i < |deps| && forall d :: d in deps ==> d in P && d in Q && Q[d] == P[d]
    requires marked.finalState == parent.finalState && marked.displayed == parent.displayed
    requires r'.finalState == r.finalState && r'.displayed == r.displayed && ComposedOutcome(Q, deps, i, marked, r)
    ensures ComposedOutcome(P, deps, i, parent, r')
  {
    assert P[deps[i]] == Q[deps[i]];
    assert forall j :: 0 <= j < |deps| ==> Q[deps[j]] == P[deps[j]];
  }

  /** Of the dependents that were to be composed into one window, only the last one can be displayed. */
  lemma OneShownPerWindow(s: State, s': State, id: Id, i: nat, j: nat, dwm: nat)
    requires Completes(s, s', id, dwm, true) && s.hasCompleted && id in s.presents
    requires !s.presents[id].completed && !s.presents[id].lost && RepeatFree(s.presents[id].dependents)
    requires i < j < |s.presents[id].dependents| && forall d :: d in s.presents[id].dependents ==> d in s.presents
    requires var deps := s.presents[id].dependents;
             var hwnd := s.presents[deps[i]].keys.hwnd;
             Shows(s.presents[deps[i]], hwnd) && Shows(s.presents[deps[j]], hwnd)
    ensures var d := s.presents[id].dependents[i];
            d in s'.presents && s'.presents[d].finalState == Discarded && s'.presents[d].displayed == []
  {
    hide Completes;
    CompositionDecides(s, s', id, i, dwm);
  }

  // ---------------------------------------------------------------------------------------------
  // The end of tracking

  /** The entries of other presents. */
  ghost function Purge<K>(index: map<K, Id>, id: Id): map<K, Id> {
    map k | k in index && index[k] != id :: index[k]
  }

  ghost function PurgeSlots(tracked: seq<Option<Id>>, id: Id): seq<Option<Id>> {
    seq(|tracked|, i requires 0 <= i < |tracked| => if tracked[i] == Some(id) then None else tracked[i])
  }

  ghost function PurgeThreads(index: map<nat, Id>, id: Id, p: Present): map<nat, Id> {
    map t | t in index && (index[t] != id || (p.waitingForPresentStop && t == p.tid && (t == 0 || t != p.keys.driverTid))) :: index[t]
  }

  /** The indexes without any entry of the present, except for its thread while Present_Stop is awaited. */
  ghost function PurgeAll(ix: Indexes, id: Id, p: Present): Indexes {
    Indexes(
      PurgeSlots(ix.tracked, id),
      PurgeThreads(ix.byThread, id, p),
      map pid | pid in ix.ordered :: Purge(ix.ordered[pid], id),
      map q | q in ix.bySubmit && Purge(ix.bySubmit[q], id) != map[] :: Purge(ix.bySubmit[q], id),
      Purge(ix.byWin32K, id),
      Purge(ix.byDxgkToken, id),
      Purge(ix.byDxgkTokenData, id),
      Purge(ix.byDxgkContext, id))
  }

  lemma PurgeKeyed(P: Presents, index: map<nat, Id>, key: Keys -> nat, id: Id)
    requires KeyedBy(P, index, key) && 0 !in index && id in P
    ensures EraseUnlessZero(index, key(P[id].keys), id) == Purge(index, id)
  {
  }

  lemma PurgeTokens(P: Presents, index: map<nat, Id>, pend: set<Id>, id: Id)
    requires TokensOk(P, index, pend) && 0 !in index && id in P && (P[id].completed ==> id in pend)
    ensures EraseUnlessZero(index, P[id].keys.dxgkToken, id) == Purge(index, id)
  {
  }

  lemma PurgeSubmits(P: Presents, bySubmit: map<nat, map<nat, Id>>, id: Id)
    requires SubmitsOk(P, bySubmit) && id in P
    ensures EraseSubmit(bySubmit, id, P[id].keys.submitSequence)
            == map q | q in bySubmit && Purge(bySubmit[q], id) != map[] :: Purge(bySubmit[q], id)
  {
    var sequence := P[id].keys.submitSequence;
    forall q | q in bySubmit
      ensures if q == sequence then Purge(bySubmit[q], id) == Others(bySubmit[q], id) else Purge(bySubmit[q], id) == bySubmit[q]
    {
    }
  }

  lemma PurgeOrdered(P: Presents, O: Ordered, id: Id)
    requires Distinct(P) && Keyed(P, O) && Covers(P, O) && id in P
    ensures EraseOrdered(O, P[id]) == map pid | pid in O :: Purge(O[pid], id)
  {
    var p := P[id];
    forall pid | pid in O
      ensures Purge(O[pid], id) == if pid == p.pid then O[pid] - {p.start} else O[pid]
    {
    }
  }

  /** Looking the present up by its own keys removes all its entries, and nothing else from any index. */
  lemma StopTrackingPurges(s: State, id: Id, pend: set<Id>)
    requires Core(s, pend) && id in s.presents && (s.presents[id].completed ==> id in pend)
    ensures RingIndexOk(s, id) && StopTracking(s, id).ix == PurgeAll(s.ix, id, s.presents[id])
  {
    hide Distinct, DependentsKnown, Retired, TokensOk, Keyed, Covers, OnlyPending, LogExact, LostFirst, RingInv, TrackedOk, ThreadsOk, SubmitsOk,
      SubmitsOnce, KeyedBy, Purge, PurgeThreads, EraseThreads, EraseOrdered, EraseSubmit, EraseIf, EraseUnlessZero;
    var P, ix := s.presents, s.ix;
    PurgeOrdered(P, ix.ordered, id);
    PurgeSubmits(P, ix.bySubmit, id);
    NoZeroToken(P, ix);
    PurgeTokens(P, ix.byDxgkToken, pend, id);
    PurgeKeyed(P, ix.byDxgkTokenData, (k: Keys) => k.dxgkTokenData, id);
    PurgeKeyed(P, ix.byDxgkContext, (k: Keys) => k.dxgkContext, id);
    PurgeWin32K(P, ix.byWin32K, id);
    PurgeRest(s, id);
  }

  lemma PurgeWin32K(P: Presents, index: map<Win32KToken, Id>, id: Id)
    requires KeyedBy(P, index, (k: Keys) => k.win32K) && id in P && forall k :: k in index ==> k.luid != 0
    ensures (if P[id].keys.win32K.luid != 0 then EraseIf(index, P[id].keys.win32K, id) else index) == Purge(index, id)
  {
  }

  lemma PurgeRest(s: State, id: Id)
    requires TrackedOk(s.presents, s.ix.tracked) && ThreadsOk(s.presents, s.ix.byThread) && id in s.presents
    ensures var p := s.presents[id];
            && RingIndexOk(s, id)
            && EraseThreads(s.ix.byThread, id, p) == PurgeThreads(s.ix.byThread, id, p)
            && (if p.keys.ringIndex.Some? then s.ix.tracked[p.keys.ringIndex.value := None] else s.ix.tracked)
               == PurgeSlots(s.ix.tracked, id)
  {
    hide TrackedOk, PurgeSlots;
    PurgeSlot(s.presents, s.ix.tracked, id);
  }

  lemma PurgeSlot(P: Presents, tracked: seq<Option<Id>>, id: Id)
    requires TrackedOk(P, tracked) && id in P
    ensures var r := P[id].keys.ringIndex;
            && (r.Some? ==> r.value < |tracked|)
            && (if r.Some? then tracked[r.value := None] else tracked) == PurgeSlots(tracked, id)
  {
  }
}
