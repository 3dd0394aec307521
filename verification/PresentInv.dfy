/**
 The invariants of the trace consumer, one predicate per concern, and what every elementary step keeps.
 The set `pend` holds the presents that are marked completed but not yet handed to the ring: those on the
 call stack of CompletePresent.  It is empty between events.
 */
module PresentInv {
  import opened Wrappers
  import opened PresentSpec

  // ---------------------------------------------------------------------------------------------
  // Predicates

  /** A process starts one present at a time. */
  ghost predicate Distinct(P: Presents) {
    forall a, b :: a in P && b in P && P[a].pid == P[b].pid && P[a].start == P[b].start ==> a == b
  }

  ghost predicate DependentsKnown(P: Presents) {
    forall a :: a in P ==> forall d :: d in P[a].dependents ==> d in P
  }

  ghost predicate InOrdered(O: Ordered, p: Present) {
    p.pid in O && p.start in O[p.pid]
  }

  /** An entry of the ordered map is stored under its own process and start time. */
  ghost predicate Keyed(P: Presents, O: Ordered) {
    forall pid, t :: pid in O && t in O[pid] ==> O[pid][t] in P && P[O[pid][t]].pid == pid && P[O[pid][t]].start == t
  }

  /** Every process is known, and every present in progress is in its process's map. */
  ghost predicate Covers(P: Presents, O: Ordered) {
    forall a :: a in P ==> P[a].pid in O && (!P[a].completed ==> InOrdered(O, P[a]))
  }

  /** Between events no completed present is in an ordered map. */
  ghost predicate OnlyPending(P: Presents, O: Ordered, pend: set<Id>) {
    forall a :: a in P && P[a].completed && InOrdered(O, P[a]) ==> a in pend
  }

  /** Between events the presents in progress are exactly those that occupy a slot of the ring of tracked presents. */
  ghost predicate Retired(P: Presents, pend: set<Id>) {
    forall a :: a in P && a !in pend ==> (P[a].completed <==> P[a].keys.ringIndex.None?)
  }

  ghost function LogIds(L: seq<Attempt>): set<Id> {
    set i | 0 <= i < |L| :: L[i].id
  }

  /** Every completed present was handed to the ring, once, unless it is still on the call stack. */
  ghost predicate LogExact(P: Presents, L: seq<Attempt>, pend: set<Id>) {
    && (forall i, j :: 0 <= i < j < |L| ==> L[i].id != L[j].id)
    && (forall a :: a in pend ==> a in P && P[a].completed)
    && (forall i :: 0 <= i < |L| ==> L[i].id in P && P[L[i].id].completed && L[i].id !in pend)
    && (forall a :: a in P && P[a].completed && a !in pend ==> a in LogIds(L))
  }

  /** Before the first present completes, everything that completed is lost. */
  ghost predicate LostFirst(P: Presents, hasCompleted: bool) {
    !hasCompleted ==> forall a :: a in P && P[a].completed ==> P[a].lost
  }

  function Accepted(L: seq<Attempt>): seq<Id> {
    if L == [] then []
    else
      var n := |L| - 1;
      if L[n].accepted then Accepted(L[..n]) + [L[n].id] else Accepted(L[..n])
  }

  function RemovedIds(removed: seq<Removal>): (r: seq<Id>)
    ensures |r| == |removed|
  {
    seq(|removed|, i requires 0 <= i < |removed| => removed[i].id)
  }

  function Evictions(removed: seq<Removal>): nat {
    if removed == [] then 0
    else Evictions(removed[..|removed| - 1]) + if removed[|removed| - 1].Evicted? then 1 else 0
  }

  /** First in, first out: what the ring took is what left it followed by what is in it. */
  ghost predicate Fifo(r: Ring, L: seq<Attempt>) {
    && Accepted(L) == RemovedIds(r.removed) + r.queue
    && r.overflowed == Evictions(r.removed)
  }

  /** No present is evicted for one that is less worth keeping; with backpressure none is while others are ready. */
  ghost predicate Fair(cfg: Config, removed: seq<Removal>) {
    forall i :: 0 <= i < |removed| && removed[i].Evicted? ==>
      && (removed[i].forLost ==> removed[i].lost)
      && (!cfg.realtime && !cfg.disableBackpressure ==> removed[i].ready == 0)
  }

  /** The ready prefix waits for nothing. */
  ghost predicate ReadyOk(P: Presents, r: Ring) {
    && r.ready <= |r.queue|
    && (forall i :: 0 <= i < |r.queue| ==> r.queue[i] in P && P[r.queue[i]].completed)
    && (forall i :: 0 <= i < r.ready ==> !Waiting(P[r.queue[i]]))
  }

  /** At most one entry of each process waits for a frame id. */
  ghost predicate OneWaiting(P: Presents, q: seq<Id>) {
    forall i, j :: 0 <= i < j < |q| && q[i] in P && q[j] in P && P[q[i]].waitingForFrameId && P[q[j]].waitingForFrameId
                   ==> P[q[i]].pid != P[q[j]].pid
  }

  ghost predicate RingInv(s: State) {
    && 0 < s.cfg.capacity && |s.ring.queue| <= s.cfg.capacity
    && Fifo(s.ring, s.log)
    && Fair(s.cfg, s.ring.removed)
    && ReadyOk(s.presents, s.ring)
    && OneWaiting(s.presents, s.ring.queue)
  }

  // Index consistency: an entry's key is the key stored in its present.

  ghost predicate TrackedOk(P: Presents, tracked: seq<Option<Id>>) {
    && (forall i :: 0 <= i < |tracked| && tracked[i].Some? ==>
          tracked[i].value in P && P[tracked[i].value].keys.ringIndex == Some(i))
    && (forall a :: a in P && P[a].keys.ringIndex.Some? ==>
          P[a].keys.ringIndex.value < |tracked| && tracked[P[a].keys.ringIndex.value] == Some(a))
  }

  ghost predicate ThreadsOk(P: Presents, byThread: map<nat, Id>) {
    forall t :: t in byThread ==>
      byThread[t] in P && (t == P[byThread[t]].tid || (t == P[byThread[t]].keys.driverTid && t != 0))
  }

  ghost predicate SubmitsOk(P: Presents, bySubmit: map<nat, map<nat, Id>>) {
    && (forall q :: q in bySubmit ==> q != 0 && bySubmit[q] != map[])
    && (forall q, c :: q in bySubmit && c in bySubmit[q] ==>
          bySubmit[q][c] in P && P[bySubmit[q][c]].keys.submitSequence == q)
  }

  /** A present is submitted to one context only. */
  ghost predicate SubmitsOnce(bySubmit: map<nat, map<nat, Id>>) {
    forall q, c, d :: q in bySubmit && c in bySubmit[q] && d in bySubmit[q] && bySubmit[q][c] == bySubmit[q][d] ==> c == d
  }

  ghost predicate KeyedBy<K(!new)>(P: Presents, index: map<K, Id>, key: Keys -> K) {
    forall k :: k in index ==> index[k] in P && key(P[index[k]].keys) == k
  }

  /**
   A history token leads to the present that carries it.  One kind of stale entry is possible: its present has
   completed, because losing the previous holder of the token completed the one that takes it, too.
   */
  ghost predicate TokensOk(P: Presents, index: map<nat, Id>, pend: set<Id>) {
    forall k :: k in index ==>
      index[k] in P && (P[index[k]].keys.dxgkToken == k || (P[index[k]].completed && index[k] !in pend))
  }

  ghost predicate IxOk(P: Presents, ix: Indexes) {
    && TrackedOk(P, ix.tracked)
    && ThreadsOk(P, ix.byThread)
    && SubmitsOk(P, ix.bySubmit) && SubmitsOnce(ix.bySubmit)
    && KeyedBy(P, ix.byWin32K, (k: Keys) => k.win32K) && NO_TOKEN.luid == 0
    && (forall k :: k in ix.byWin32K ==> k.luid != 0)
    && 0 !in ix.byDxgkToken
    && KeyedBy(P, ix.byDxgkTokenData, (k: Keys) => k.dxgkTokenData) && 0 !in ix.byDxgkTokenData
    && KeyedBy(P, ix.byDxgkContext, (k: Keys) => k.dxgkContext) && 0 !in ix.byDxgkContext
  }

  ghost predicate OrderedInv(s: State, pend: set<Id>) {
    Keyed(s.presents, s.ix.ordered) && Covers(s.presents, s.ix.ordered) && OnlyPending(s.presents, s.ix.ordered, pend)
  }

  ghost predicate Core(s: State, pend: set<Id>) {
    && Distinct(s.presents)
    && DependentsKnown(s.presents)
    && OrderedInv(s, pend)
    && Retired(s.presents, pend)
    && LogExact(s.presents, s.log, pend)
    && LostFirst(s.presents, s.hasCompleted)
    && RingInv(s)
    && IxOk(s.presents, s.ix)
    && TokensOk(s.presents, s.ix.byDxgkToken, pend)
  }

  // The order theorem needs the shape of composition: only one process, the compositor, has dependents.

  ghost predicate Shape(P: Presents, dwm: nat) {
    forall a, d :: a in P && d in P[a].dependents ==> P[a].pid == dwm && d in P && P[d].pid != dwm
  }

  ghost predicate SameChain(p: Present, q: Present) {
    p.pid == q.pid && p.swapChain == q.swapChain
  }

  /** Nothing earlier on the chain of a displayed present enters the ring after it. */
  ghost predicate ChainOrder(P: Presents, L: seq<Attempt>, pend: set<Id>) {
    && (forall i, j :: 0 <= i < j < |L| && L[i].snapshot.finalState == Presented
          && L[i].id in P && L[j].id in P && SameChain(P[L[i].id], P[L[j].id])
          ==> P[L[i].id].start < P[L[j].id].start)
    && (forall i, a :: 0 <= i < |L| && L[i].snapshot.finalState == Presented && L[i].id in P
          && a in P && (!P[a].completed || a in pend) && SameChain(P[L[i].id], P[a])
          ==> P[L[i].id].start < P[a].start)
  }

  /** The call stack above a call of CompletePresent(p): later presents of p's chain, or the compositor's. */
  ghost predicate StackOk(P: Presents, pend: set<Id>, id: Id, dwm: nat) {
    id in P && forall q :: q in pend ==>
      q in P && ((SameChain(P[q], P[id]) && P[id].start < P[q].start) || (P[q].pid == dwm && P[id].pid != dwm))
  }

  ghost predicate ShapedInv(s: State, pend: set<Id>, dwm: nat) {
    Shape(s.presents, dwm) && ChainOrder(s.presents, s.log, pend)
  }

  // ---------------------------------------------------------------------------------------------
  // Soft changes: a record changes, but nothing that the invariants of other structures depend on

  ghost predicate Soft(p: Present, q: Present) {
    && q.start == p.start && q.pid == p.pid && q.tid == p.tid && q.swapChain == p.swapChain
    && q.completed == p.completed
    && (p.lost ==> q.lost)
    && (q.dependents == p.dependents || q.dependents == [])
    && (p.completed ==>
          && (q.waitingForPresentStop ==> p.waitingForPresentStop)
          && (q.waitingForFlipFrameType ==> p.waitingForFlipFrameType)
          && (q.waitingForFrameId ==> p.waitingForFrameId))
  }

  ghost predicate SoftChange(P: Presents, Q: Presents) {
    P.Keys == Q.Keys && forall a :: a in P ==> Soft(P[a], Q[a])
  }

  ghost predicate SameKeys(P: Presents, Q: Presents) {
    P.Keys == Q.Keys && forall a :: a in P ==> Q[a].keys == P[a].keys && Q[a].tid == P[a].tid
  }

  lemma SoftRecords(P: Presents, Q: Presents)
    requires SoftChange(P, Q)
    ensures Distinct(P) ==> Distinct(Q)
    ensures DependentsKnown(P) ==> DependentsKnown(Q)
  {
  }

  lemma SoftOrdered(P: Presents, Q: Presents, O: Ordered, pend: set<Id>)
    requires SoftChange(P, Q)
    requires Keyed(P, O) && Covers(P, O) && OnlyPending(P, O, pend)
    ensures Keyed(Q, O) && Covers(Q, O) && OnlyPending(Q, O, pend)
  {
  }

  lemma SoftLog(P: Presents, Q: Presents, L: seq<Attempt>, pend: set<Id>, hasCompleted: bool)
    requires SoftChange(P, Q)
    ensures LogExact(P, L, pend) ==> LogExact(Q, L, pend)
    ensures LostFirst(P, hasCompleted) ==> LostFirst(Q, hasCompleted)
  {
  }

  lemma SoftRing(P: Presents, Q: Presents, r: Ring)
    requires SoftChange(P, Q) && ReadyOk(P, r) && OneWaiting(P, r.queue)
    ensures ReadyOk(Q, r) && OneWaiting(Q, r.queue)
  {
  }

  lemma SoftIx(P: Presents, Q: Presents, ix: Indexes)
    requires SameKeys(P, Q) && IxOk(P, ix)
    ensures IxOk(Q, ix)
  {
  }

  lemma SameShape(P: Presents, Q: Presents, dwm: nat)
    requires Shape(P, dwm) && P.Keys == Q.Keys
    requires forall a :: a in P ==> Q[a].pid == P[a].pid && (Q[a].dependents == P[a].dependents || Q[a].dependents == [])
    ensures Shape(Q, dwm)
  {
    forall a | a in Q
      ensures forall d :: d in Q[a].dependents ==> Q[a].pid == dwm && d in Q && Q[d].pid != dwm
    {
      SameShapeAt(P, Q, a, dwm);
    }
  }

  lemma SameShapeAt(P: Presents, Q: Presents, a: Id, dwm: nat)
    requires Shape(P, dwm) && P.Keys == Q.Keys && a in Q
    requires forall x :: x in P ==> Q[x].pid == P[x].pid && (Q[x].dependents == P[x].dependents || Q[x].dependents == [])
    ensures forall d :: d in Q[a].dependents ==> Q[a].pid == dwm && d in Q && Q[d].pid != dwm
  {
    forall d | d in Q[a].dependents
      ensures Q[a].pid == dwm && d in P && Q[d].pid == P[d].pid && P[d].pid != dwm
    {
      assert a in P && Q[a].pid == P[a].pid && d in P[a].dependents;
      assert Q[d].pid == P[d].pid;
    }
  }

  lemma SoftShape(P: Presents, Q: Presents, L: seq<Attempt>, pend: set<Id>, dwm: nat)
    requires SoftChange(P, Q) && Shape(P, dwm) && ChainOrder(P, L, pend)
    ensures Shape(Q, dwm) && ChainOrder(Q, L, pend)
  {
    hide Shape;
    SameShape(P, Q, dwm);
  }

  lemma SoftRetired(P: Presents, Q: Presents, pend: set<Id>)
    requires SoftChange(P, Q) && SameKeys(P, Q) && Retired(P, pend)
    ensures Retired(Q, pend)
  {
  }

  lemma SoftTokens(P: Presents, Q: Presents, index: map<nat, Id>, pend: set<Id>)
    requires SoftChange(P, Q) && SameKeys(P, Q) && TokensOk(P, index, pend)
    ensures TokensOk(Q, index, pend)
  {
  }

  lemma NoZeroToken(P: Presents, ix: Indexes)
    requires IxOk(P, ix)
    ensures 0 !in ix.byDxgkToken
  {
  }

  /** A soft change that keeps the keys keeps every invariant. */
  lemma SoftKeeps(s: State, Q: Presents, pend: set<Id>)
    requires Core(s, pend) && SoftChange(s.presents, Q) && SameKeys(s.presents, Q)
    ensures Core(s.(presents := Q), pend)
  {
    hide Distinct, DependentsKnown, Retired, TokensOk, Keyed, Covers, OnlyPending, LogExact, LostFirst, ReadyOk, OneWaiting, IxOk, SoftChange,
      SameKeys, Fifo, Fair;
    SoftRecords(s.presents, Q);
    SoftOrdered(s.presents, Q, s.ix.ordered, pend);
    SoftLog(s.presents, Q, s.log, pend, s.hasCompleted);
    SoftRing(s.presents, Q, s.ring);
    SoftIx(s.presents, Q, s.ix);
    SoftRetired(s.presents, Q, pend);
    SoftTokens(s.presents, Q, s.ix.byDxgkToken, pend);
  }

  /** Changing one record softly. */
  lemma SoftOne(P: Presents, id: Id, p: Present)
    requires id in P && Soft(P[id], p)
    ensures SoftChange(P, P[id := p])
    ensures p.keys == P[id].keys ==> SameKeys(P, P[id := p])
  {
  }

  lemma SoftTransitive(P: Presents, Q: Presents, R: Presents)
    requires SoftChange(P, Q) && SoftChange(Q, R)
    ensures SoftChange(P, R)
  {
    forall a | a in P
      ensures Soft(P[a], R[a])
    {
      assert Soft(P[a], Q[a]) && Soft(Q[a], R[a]);
    }
  }
}
