/** In which order presents enter the ring that complete in one call of CompletePresent. */
module PresentOrder {
  import opened Wrappers
  import opened PresentSpec
  import opened PresentInv
  import opened PresentSteps
  import opened PresentEvolution
  import opened PresentReach
  import opened PresentCalls
  import opened PresentStages
  import opened PresentLoss
  import opened PresentLoops

  /** Present b was handed to the ring while a had not been. */
  ghost predicate Overtakes(L: seq<Attempt>, b: Id, a: Id) {
    exists i :: 0 <= i < |L| && L[i].id == b && forall j :: 0 <= j < i ==> L[j].id != a
  }

  // ---------------------------------------------------------------------------------------------
  // Presents of one process

  ghost predicate Mine(s: State, i: nat, pid: nat) {
    i < |s.log| && s.log[i].id in s.presents && s.presents[s.log[i].id].pid == pid
  }

  /** What was handed over of the process since then is in the order of start times, all of them before `to`. */
  ghost predicate Ascends(s: State, s': State, pid: nat, to: nat) {
    && s.log <= s'.log
    && (forall i :: |s.log| <= i < |s'.log| && Mine(s', i, pid) ==> s'.presents[s'.log[i].id].start < to)
    && (forall i, j :: |s.log| <= i < j < |s'.log| && Mine(s', i, pid) && Mine(s', j, pid) ==>
          s'.presents[s'.log[i].id].start < s'.presents[s'.log[j].id].start)
  }

  lemma MineKept(b: State, c: State, pid: nat)
    requires b.log <= c.log && Fixed(b.presents, c.presents)
    ensures forall i :: 0 <= i < |b.log| ==> (Mine(c, i, pid) <==> Mine(b, i, pid))
  {
  }

  lemma AscendsOn(a: State, b: State, c: State, pid: nat, from: nat, to: nat)
    requires Ascends(a, b, pid, from) && b.log <= c.log && Fixed(b.presents, c.presents) && from <= to
    requires forall i, j :: |b.log| <= i < |c.log| && |b.log| <= j < |c.log| && Mine(c, i, pid) && Mine(c, j, pid) ==> i == j
    requires forall i :: |b.log| <= i < |c.log| && Mine(c, i, pid) ==> from <= c.presents[c.log[i].id].start < to
    ensures Ascends(a, c, pid, to)
  {
    MineKept(b, c, pid);
    hide Mine;
    assert forall i :: 0 <= i < |b.log| ==> c.log[i] == b.log[i];
    assert forall i :: 0 <= i < |b.log| && Mine(c, i, pid) ==> b.log[i].id in b.presents by { MineKnown(b, pid); }
  }

  lemma MineKnown(b: State, pid: nat)
    ensures forall i :: 0 <= i < |b.log| && Mine(b, i, pid) ==> b.log[i].id in b.presents
  {
  }

  lemma AscendsSame(a: State, b: State, c: State, pid: nat, from: nat, to: nat)
    requires Ascends(a, b, pid, from) && c.log == b.log && Fixed(b.presents, c.presents) && from <= to
    ensures Ascends(a, c, pid, to)
  {
    AscendsOn(a, b, c, pid, from, to);
  }

  lemma AscendsNothing(s: State, t: State, pid: nat, to: nat)
    requires t.log == s.log
    ensures Ascends(s, t, pid, to)
  {
  }

  /** What is known after a call for x with one compositor. */
  ghost predicate Called(t: State, u: State, x: Id, pend: set<Id>, dwm: nat) {
    && t.log <= u.log && Fixed(t.presents, u.presents)
    && LogExact(t.presents, t.log, pend) && LogExact(u.presents, u.log, pend)
    && (forall a :: a in t.presents && t.presents[a].completed ==> u.presents[a].completed)
    && x in t.presents && u.presents[x].completed
    && Footprint(t.presents, u.presents, x, dwm)
    && (t.presents[x].finalState == Presented ==> NoneEarlier(u.presents, x))
  }

  lemma CalledFacts(t: State, u: State, x: Id, pend: set<Id>, dwm: nat)
    requires Callable(t, x, pend, dwm, true) && Achieved(t, u, x, pend, dwm, true)
    requires !t.presents[x].completed && (t.hasCompleted || t.presents[x].lost)
    ensures Called(t, u, x, pend, dwm)
  {
    hide OrderedInv, LostFirst, RingInv, IxOk, TokensOk, Distinct, Retired, DependentsKnown, LogExact, ShapedInv, LosesAll, Outcome, Inherited,
      AllCompleted, Forgotten, NoneEarlier, Footprint, Fixed, Settled, PresentsEvolve;
    assert Evolves(t, u, pend, {}) && CompletedWith(t, u, x) && Area(t.presents, u.presents, x, dwm);
    FixedAfter(t.presents, u.presents, pend, {});
    NestedFlags(t, u, pend);
  }

  /** What was handed over in a call has completed in it. */
  lemma NewEntries(t: State, u: State, x: Id, pend: set<Id>, dwm: nat)
    requires Called(t, u, x, pend, dwm)
    ensures forall i :: |t.log| <= i < |u.log| ==>
              u.log[i].id in t.presents && !t.presents[u.log[i].id].completed && u.presents[u.log[i].id].completed
  {
    hide Footprint, NoneEarlier;
    assert forall j :: 0 <= j < |t.log| ==> u.log[j] == t.log[j];
    forall i | |t.log| <= i < |u.log|
      ensures u.log[i].id in t.presents && !t.presents[u.log[i].id].completed && u.presents[u.log[i].id].completed
    {
      assert u.log[i].id !in LogIds(t.log);
    }
  }

  /** Completing an earlier present of the chain, when all before it are done, hands over nothing else of the process. */
  lemma EntryAscends(s: State, t: State, u: State, x: Id, id: Id, k: nat, pend: set<Id>, dwm: nat)
    requires Called(t, u, x, pend, dwm) && Ascends(s, t, t.presents[x].pid, k)
    requires id in t.presents && DoneBefore(t.presents, id, k) && Entry(t.presents, x, id, k) && SameChain(t.presents[x], t.presents[id])
    ensures Ascends(s, u, t.presents[x].pid, k + 1)
  {
    NewEntries(t, u, x, pend, dwm);
    var pid := t.presents[x].pid;
    forall i | |t.log| <= i < |u.log| && Mine(u, i, pid)
      ensures u.log[i].id == x
    {
    }
    hide Footprint, NoneEarlier, Ascends;
    AscendsOn(s, t, u, pid, k, k + 1);
  }

  // ---------------------------------------------------------------------------------------------
  // The compositor's dependents

  /** Completing x, which is in progress, completes a. */
  ghost predicate Takes(R: Presents, x: Id, a: Id) {
    && x in R && a in R && !R[x].completed
    && (a == x || (R[x].finalState == Presented && SameChain(R[a], R[x]) && R[a].start < R[x].start))
  }

  ghost predicate Taken(R: Presents, deps: seq<Id>, from: nat, a: Id) {
    exists k :: from <= k < |deps| && Takes(R, deps[k], a)
  }

  /** Going from the last dependent to the first, b comes before anything that completes a. */
  ghost predicate ComesFirst(R: Presents, deps: seq<Id>, from: nat, b: Id, a: Id) {
    exists j :: from <= j < |deps| && deps[j] == b && forall k :: j <= k < |deps| ==> !Takes(R, deps[k], a)
  }

  /** Both are in progress, in an application, and a started before b on the same chain. */
  ghost predicate Pair(R: Presents, b: Id, a: Id, dwm: nat) {
    && a in R && b in R && !R[a].completed && !R[b].completed
    && SameChain(R[a], R[b]) && R[a].start < R[b].start && R[b].pid != dwm
  }

  /** The dependents from the last down to number `from` have been completed. */
  ghost predicate Serial(r: State, t: State, deps: seq<Id>, from: nat, dwm: nat) {
    && r.log <= t.log && Fixed(r.presents, t.presents)
    && (forall a :: a in r.presents && !r.presents[a].completed && r.presents[a].pid != dwm ==>
          (t.presents[a].completed <==> Taken(r.presents, deps, from, a)))
    && (forall a, b :: Pair(r.presents, b, a, dwm) && Taken(r.presents, deps, from, b) ==>
          (Overtakes(t.log, b, a) <==> ComesFirst(r.presents, deps, from, b, a)))
  }

  lemma SerialStart(r: State, deps: seq<Id>, dwm: nat)
    ensures Serial(r, r, deps, |deps|, dwm)
  {
  }

  /** A later present of the chain that is taken by a displayed one takes the earlier one with it. */
  lemma TakesEarlier(R: Presents, x: Id, b: Id, a: Id, dwm: nat)
    requires Takes(R, x, b) && Pair(R, b, a, dwm) && b != x
    ensures Takes(R, x, a)
  {
  }

  lemma TakesThrough(R: Presents, y: Id, x: Id, a: Id)
    requires Takes(R, y, x) && Takes(R, x, a)
    ensures Takes(R, y, a)
  {
  }

  lemma TakenThrough(R: Presents, deps: seq<Id>, from: nat, x: Id, a: Id)
    requires Taken(R, deps, from, x) && Takes(R, x, a)
    ensures Taken(R, deps, from, a)
  {
    hide Takes;
    var k :| from <= k < |deps| && Takes(R, deps[k], x);
    TakesThrough(R, deps[k], x, a);
  }

  lemma TakenNext(R: Presents, deps: seq<Id>, from: nat, a: Id)
    requires from < |deps|
    ensures Taken(R, deps, from, a) <==> Taken(R, deps, from + 1, a) || Takes(R, deps[from], a)
  {
    hide Takes;
  }

  /** Nothing that comes before the others comes first only later. */
  lemma FirstNext(R: Presents, deps: seq<Id>, from: nat, b: Id, a: Id, dwm: nat)
    requires from < |deps| && Pair(R, b, a, dwm)
    ensures Taken(R, deps, from + 1, b) ==> (ComesFirst(R, deps, from, b, a) <==> ComesFirst(R, deps, from + 1, b, a))
    ensures ComesFirst(R, deps, from, b, a) && !Taken(R, deps, from + 1, b) ==> deps[from] == b
    ensures deps[from] == b && !Taken(R, deps, from, a) ==> ComesFirst(R, deps, from, b, a)
    ensures deps[from] == b && !Taken(R, deps, from + 1, b) && Taken(R, deps, from, a) ==> !ComesFirst(R, deps, from, b, a)
  {
    if Taken(R, deps, from + 1, b) && ComesFirst(R, deps, from, b, a) {
      var k :| from + 1 <= k < |deps| && Takes(R, deps[k], b);
      if deps[k] != b { TakesEarlier(R, deps[k], b, a, dwm); }
    }
    if ComesFirst(R, deps, from, b, a) && !Taken(R, deps, from + 1, b) {
      var j :| from <= j < |deps| && deps[j] == b && forall k :: j <= k < |deps| ==> !Takes(R, deps[k], a);
      assert Takes(R, deps[j], b);
    }
    hide Takes, Pair;
  }

  lemma OvertakesKept(L: seq<Attempt>, L': seq<Attempt>, b: Id, a: Id)
    requires L <= L' && b in LogIds(L) && forall i, j :: 0 <= i < j < |L'| ==> L'[i].id != L'[j].id
    ensures Overtakes(L', b, a) <==> Overtakes(L, b, a)
  {
    var i :| 0 <= i < |L| && L[i].id == b;
    assert L'[i] == L[i];
  }

  /** What is handed over in this call comes after what was handed over before. */
  lemma OvertakesNew(t: State, u: State, b: Id, a: Id, x: Id, pend: set<Id>, dwm: nat)
    requires Called(t, u, x, pend, dwm) && a in t.presents && t.presents[a].completed && a !in pend
    requires b in t.presents && !t.presents[b].completed
    ensures !Overtakes(u.log, b, a)
  {
    hide Footprint, NoneEarlier, Fixed;
    assert a in LogIds(t.log);
    var j :| 0 <= j < |t.log| && t.log[j].id == a;
    assert forall i :: 0 <= i < |t.log| ==> u.log[i] == t.log[i];
  }

  /** What is not handed over at all is overtaken. */
  lemma OvertakesMissing(t: State, u: State, b: Id, a: Id, x: Id, pend: set<Id>, dwm: nat)
    requires Called(t, u, x, pend, dwm) && a in u.presents && !u.presents[a].completed
    requires b in u.presents && u.presents[b].completed && b !in pend
    ensures Overtakes(u.log, b, a)
  {
    hide Footprint, NoneEarlier;
    assert b in LogIds(u.log);
    var i :| 0 <= i < |u.log| && u.log[i].id == b;
    assert forall j :: 0 <= j < i ==> u.log[j].id in u.presents && u.presents[u.log[j].id].completed;
  }

  /** Of two that are handed over in the same call the earlier one is first. */
  lemma OvertakesNone(t: State, u: State, b: Id, a: Id, x: Id, pend: set<Id>, dwm: nat, to: nat)
    requires Called(t, u, x, pend, dwm) && Ascends(t, u, t.presents[x].pid, to) && pend !! {a, b}
    requires a in t.presents && b in t.presents && !t.presents[a].completed && !t.presents[b].completed
    requires u.presents[a].completed && u.presents[b].completed
    requires t.presents[a].pid == t.presents[b].pid == t.presents[x].pid && t.presents[a].start < t.presents[b].start
    ensures !Overtakes(u.log, b, a)
  {
    hide Footprint, NoneEarlier;
    assert a in LogIds(u.log);
    var j :| 0 <= j < |u.log| && u.log[j].id == a;
    forall i | 0 <= i < |u.log| && u.log[i].id == b
      ensures j < i
    {
      InOrder(t, u, j, i, x, pend, dwm, to);
    }
  }

  lemma InOrder(t: State, u: State, j: nat, i: nat, x: Id, pend: set<Id>, dwm: nat, to: nat)
    requires Called(t, u, x, pend, dwm) && Ascends(t, u, t.presents[x].pid, to) && i < |u.log| && j < |u.log|
    requires u.log[i].id in t.presents && u.log[j].id in t.presents
    requires var p, q := t.presents[u.log[j].id], t.presents[u.log[i].id];
             !p.completed && !q.completed && p.pid == q.pid == t.presents[x].pid && p.start < q.start
    ensures j < i
  {
    hide Footprint, NoneEarlier, LogExact;
    OldEntry(t, u, j, x, pend, dwm);
    OldEntry(t, u, i, x, pend, dwm);
    var pid := t.presents[x].pid;
    assert Mine(u, i, pid) && Mine(u, j, pid);
  }

  lemma OldEntry(t: State, u: State, i: nat, x: Id, pend: set<Id>, dwm: nat)
    requires Called(t, u, x, pend, dwm) && i < |u.log| && u.log[i].id in t.presents && !t.presents[u.log[i].id].completed
    ensures |t.log| <= i
  {
    assert forall j :: 0 <= j < |t.log| ==> u.log[j] == t.log[j];
  }

  /** One dependent after another. */
  lemma SerialCalled(r: State, t: State, u: State, deps: seq<Id>, from: nat, pend: set<Id>, dwm: nat, to: nat)
    requires from < |deps| && Serial(r, t, deps, from + 1, dwm) && SameOutcomes(r.presents, t.presents)
    requires var x := deps[from];
             && Called(t, u, x, pend, dwm) && x in r.presents && !t.presents[x].completed && t.presents[x].pid != dwm
             && Ascends(t, u, t.presents[x].pid, to)
    requires forall a :: a in r.presents && r.presents[a].completed ==> t.presents[a].completed
    requires forall q :: q in pend ==> q in r.presents && r.presents[q].completed
    ensures Serial(r, u, deps, from, dwm)
  {
    hide Called, Taken, Overtakes, ComesFirst, Pair, Takes, SameOutcomes, Fixed, Ascends;
    var R, x := r.presents, deps[from];
    SerialTaken(r, t, u, deps, from, pend, dwm);
    forall a, b | Pair(R, b, a, dwm) && Taken(R, deps, from, b)
      ensures Overtakes(u.log, b, a) <==> ComesFirst(R, deps, from, b, a)
    {
      SerialPair(r, t, u, deps, from, pend, dwm, to, a, b);
    }
    assert r.log <= u.log && Fixed(r.presents, u.presents) by { CalledFixed(r, t, u, x, pend, dwm); }
  }

  lemma CalledFixed(r: State, t: State, u: State, x: Id, pend: set<Id>, dwm: nat)
    requires r.log <= t.log && Fixed(r.presents, t.presents) && Called(t, u, x, pend, dwm)
    ensures r.log <= u.log && Fixed(r.presents, u.presents)
  {
    hide Footprint, NoneEarlier, LogExact;
  }

  lemma SerialTaken(r: State, t: State, u: State, deps: seq<Id>, from: nat, pend: set<Id>, dwm: nat)
    requires from < |deps| && Serial(r, t, deps, from + 1, dwm) && SameOutcomes(r.presents, t.presents)
    requires var x := deps[from];
             && Called(t, u, x, pend, dwm) && x in r.presents && !t.presents[x].completed && t.presents[x].pid != dwm
    requires forall a :: a in r.presents && r.presents[a].completed ==> t.presents[a].completed
    ensures forall a :: a in r.presents && !r.presents[a].completed && r.presents[a].pid != dwm ==>
              (u.presents[a].completed <==> Taken(r.presents, deps, from, a))
  {
    var R, x := r.presents, deps[from];
    hide LogExact, ComesFirst, Overtakes, Taken;
    forall a | a in R && !R[a].completed && R[a].pid != dwm
      ensures u.presents[a].completed <==> Taken(R, deps, from, a)
    {
      TakenNext(R, deps, from, a);
      if !t.presents[a].completed {
        if Takes(R, x, a) && a != x { assert SameChain(u.presents[x], u.presents[a]); }
      }
    }
  }

  lemma SerialPair(r: State, t: State, u: State, deps: seq<Id>, from: nat, pend: set<Id>, dwm: nat, to: nat, a: Id, b: Id)
    requires from < |deps| && Serial(r, t, deps, from + 1, dwm)
    requires var x := deps[from];
             && Called(t, u, x, pend, dwm) && x in r.presents && !t.presents[x].completed && t.presents[x].pid != dwm
             && Ascends(t, u, t.presents[x].pid, to)
    requires forall c :: c in r.presents && !r.presents[c].completed && r.presents[c].pid != dwm ==>
               (u.presents[c].completed <==> Taken(r.presents, deps, from, c))
    requires forall c :: c in r.presents && r.presents[c].completed ==> t.presents[c].completed
    requires forall q :: q in pend ==> q in r.presents && r.presents[q].completed
    requires Pair(r.presents, b, a, dwm) && Taken(r.presents, deps, from, b)
    ensures Overtakes(u.log, b, a) <==> ComesFirst(r.presents, deps, from, b, a)
  {
    hide Taken, Overtakes, ComesFirst, Fixed, Serial, Ascends, Footprint, NoneEarlier, LogExact, Pair;
    var R, x := r.presents, deps[from];
    PairFacts(r, t, deps, from, a, b, dwm);
    assert x in R && !R[x].completed;
    FirstNext(R, deps, from, b, a, dwm);
    TakenNext(R, deps, from, a);
    TakenNext(R, deps, from, b);
    CalledFixed(r, t, u, x, pend, dwm);
    CalledLogs(t, u, x, pend, dwm);
    hide Called;
    if t.presents[b].completed {
      LoggedThen(t, u, b, x, pend, dwm);
      OvertakesKept(t.log, u.log, b, a);
    } else if t.presents[a].completed {
      OvertakesNew(t, u, b, a, x, pend, dwm);
      assert !ComesFirst(R, deps, from, b, a);
    } else if u.presents[a].completed {
      PairOfCall(R, t, x, a, b, dwm);
      OvertakesNone(t, u, b, a, x, pend, dwm, to);
    } else {
      OvertakesMissing(t, u, b, a, x, pend, dwm);
      if deps[from] != b { TakesEarlier(R, x, b, a, dwm); }
    }
  }

  lemma PairFacts(r: State, t: State, deps: seq<Id>, from: nat, a: Id, b: Id, dwm: nat)
    requires from < |deps| && Serial(r, t, deps, from + 1, dwm) && Pair(r.presents, b, a, dwm)
    ensures a in r.presents && b in r.presents && !r.presents[a].completed && !r.presents[b].completed
    ensures r.presents[a].pid != dwm && r.presents[b].pid != dwm
    ensures a in t.presents && (t.presents[a].completed <==> Taken(r.presents, deps, from + 1, a))
    ensures b in t.presents && (t.presents[b].completed <==> Taken(r.presents, deps, from + 1, b))
    ensures Taken(r.presents, deps, from + 1, b) ==> (Overtakes(t.log, b, a) <==> ComesFirst(r.presents, deps, from + 1, b, a))
    ensures r.log <= t.log && Fixed(r.presents, t.presents)
  {
    hide Taken, Overtakes, ComesFirst;
  }

  lemma CalledLogs(t: State, u: State, x: Id, pend: set<Id>, dwm: nat)
    requires Called(t, u, x, pend, dwm)
    ensures t.log <= u.log && t.presents.Keys == u.presents.Keys
    ensures forall i, j :: 0 <= i < j < |u.log| ==> u.log[i].id != u.log[j].id
  {
    hide Footprint, NoneEarlier;
  }

  lemma LoggedThen(t: State, u: State, b: Id, x: Id, pend: set<Id>, dwm: nat)
    requires Called(t, u, x, pend, dwm) && b in t.presents && t.presents[b].completed && b !in pend
    ensures b in LogIds(t.log)
  {
    hide Footprint, NoneEarlier;
  }

  lemma PairOfCall(R: Presents, t: State, x: Id, a: Id, b: Id, dwm: nat)
    requires Pair(R, b, a, dwm) && Fixed(R, t.presents) && x in R && Takes(R, x, b)
    ensures t.presents[a].pid == t.presents[b].pid == t.presents[x].pid && t.presents[a].start < t.presents[b].start
  {
  }

  /** A dependent that has completed before takes nothing any more. */
  lemma SerialSkipped(r: State, t: State, deps: seq<Id>, from: nat, dwm: nat)
    requires from < |deps| && Serial(r, t, deps, from + 1, dwm)
    requires var x := deps[from]; x in r.presents && t.presents[x].completed && r.presents[x].pid != dwm
    ensures Serial(r, t, deps, from, dwm)
  {
    var R, x := r.presents, deps[from];
    forall a | a in R
      ensures Taken(R, deps, from, a) <==> Taken(R, deps, from + 1, a)
    {
      TakenNext(R, deps, from, a);
      if Takes(R, x, a) { TakenThrough(R, deps, from + 1, x, a); }
    }
    forall a, b | Pair(R, b, a, dwm) && Taken(R, deps, from, b)
      ensures Overtakes(t.log, b, a) <==> ComesFirst(R, deps, from, b, a)
    {
      assert Taken(R, deps, from + 1, b);
      FirstNext(R, deps, from, b, a, dwm);
    }
  }
}
