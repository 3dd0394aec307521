/** What the events do to the consumer, apart from completing presents, and that they keep its invariants. */
module PresentEvents {
  import opened Wrappers
  import opened RingIndex
  import opened PresentSpec
  import opened PresentInv
  import opened PresentSteps
  import opened PresentEvolution
  import opened PresentCalls
  import opened PresentLoss
  import opened PresentCourse

  // ---------------------------------------------------------------------------------------------
  // Between events

  /** What holds of every record between events, so that a present is never given a key that it has already. */
  ghost predicate Orderly(p: Present) {
    && (p.waitingForFlipFrameType || p.waitingForPresentStop ==> p.completed)
    && (p.keys.dxgkTokenData != 0 ==> p.keys.dxgkToken != 0)
    && (p.keys.win32K.luid != 0 ==> p.evidence.seenWin32KEvents)
    && (p.keys.dxgkContext != 0 ==> p.keys.submitSequence != 0)
  }

  ghost predicate AllOrderly(P: Presents) {
    forall a :: a in P ==> Orderly(P[a])
  }

  /** The invariant between events; with `shaped`, only the compositor `dwm` has dependents. */
  ghost predicate Steady(s: State, dwm: nat, shaped: bool) {
    Core(s, {}) && AllOrderly(s.presents) && (shaped ==> ShapedInv(s, {}, dwm))
  }

  ghost predicate SameOrigin(p: Present, q: Present) {
    && q.start == p.start && q.pid == p.pid && q.tid == p.tid && q.swapChain == p.swapChain
    && (p.completed ==> q.completed) && (p.lost ==> q.lost)
  }

  /** The past is never rewritten: no event undoes a completion, an attempt or a removal. */
  ghost predicate Continues(s: State, s': State) {
    && s'.cfg == s.cfg && s.log <= s'.log && s.ring.removed <= s'.ring.removed
    && (s.hasCompleted ==> s'.hasCompleted)
    && s.presents.Keys <= s'.presents.Keys
    && (forall a :: a in s.presents ==> SameOrigin(s.presents[a], s'.presents[a]))
  }

  lemma ContinuesTransitive(a: State, b: State, c: State)
    requires Continues(a, b) && Continues(b, c)
    ensures Continues(a, c)
  {
    forall x | x in a.presents
      ensures x in c.presents && SameOrigin(a.presents[x], c.presents[x])
    {
      assert x in b.presents && SameOrigin(a.presents[x], b.presents[x]) && SameOrigin(b.presents[x], c.presents[x]);
    }
  }

  lemma EvolvesContinues(s: State, s': State)
    requires Evolves(s, s', {}, {})
    ensures Continues(s, s')
  {
    forall a | a in s.presents
      ensures SameOrigin(s.presents[a], s'.presents[a])
    {
      assert Grows(s.presents[a], s'.presents[a]);
    }
  }

  lemma EvolvesOrderly(P: Presents, Q: Presents)
    requires PresentsEvolve(P, Q, {}, {}) && AllOrderly(P)
    ensures AllOrderly(Q)
  {
    forall a | a in Q
      ensures Orderly(Q[a])
    {
      assert Grows(P[a], Q[a]) && Orderly(P[a]);
    }
  }

  /** Completing and losing presents lead from one steady state to another. */
  lemma EvolvesSteady(s: State, s': State, dwm: nat, shaped: bool)
    requires Steady(s, dwm, shaped) && Evolves(s, s', {}, {})
    requires Core(s', {}) && (shaped ==> ShapedInv(s', {}, dwm))
    ensures Steady(s', dwm, shaped) && Continues(s, s')
  {
    EvolvesContinues(s, s');
    EvolvesOrderly(s.presents, s'.presents);
    hide Core, ShapedInv, Evolves, AllOrderly, Continues;
  }

  /** One record changes softly, and the indexes change with its keys. */
  lemma RecordSteady(s: State, id: Id, p: Present, ix: Indexes, dwm: nat, shaped: bool)
    requires Steady(s, dwm, shaped) && id in s.presents && Soft(s.presents[id], p) && Orderly(p)
    requires p.keys.ringIndex == s.presents[id].keys.ringIndex
    requires ix.ordered == s.ix.ordered && IxOk(s.presents[id := p], ix)
    requires ix.byDxgkToken == s.ix.byDxgkToken && KeepsToken(s.presents[id], p)
    ensures Steady(With(s, id, p).(ix := ix), dwm, shaped) && Continues(s, With(s, id, p).(ix := ix))
  {
    hide Distinct, DependentsKnown, Retired, TokensOk, Keyed, Covers, OnlyPending, LogExact, LostFirst, ReadyOk, OneWaiting, IxOk, Fifo,
      SoftChange, Shape, ChainOrder, Orderly;
    var P, Q := s.presents, s.presents[id := p];
    SoftOne(P, id, p);
    RecordRetired(P, id, p);
    NoZeroToken(P, s.ix);
    RecordTokens(P, s.ix.byDxgkToken, id, p);
    SoftRecords(P, Q);
    SoftOrdered(P, Q, s.ix.ordered, {});
    SoftLog(P, Q, s.log, {}, s.hasCompleted);
    SoftRing(P, Q, s.ring);
    if shaped { SoftShape(P, Q, s.log, {}, dwm); }
  }

  /** A present in progress that has a history token keeps it. */
  predicate KeepsToken(p: Present, q: Present) {
    p.completed || p.keys.dxgkToken == 0 || q.keys.dxgkToken == p.keys.dxgkToken
  }

  lemma RecordTokens(P: Presents, index: map<nat, Id>, id: Id, p: Present)
    requires TokensOk(P, index, {}) && 0 !in index && id in P && p.completed == P[id].completed && KeepsToken(P[id], p)
    ensures TokensOk(P[id := p], index, {})
  {
  }

  lemma RecordRetired(P: Presents, id: Id, p: Present)
    requires id in P && p.completed == P[id].completed && p.keys.ringIndex == P[id].keys.ringIndex
    ensures Retired(P, {}) ==> Retired(P[id := p], {})
  {
  }

  /** One record changes softly and keeps its keys. */
  lemma SameKeysSteady(s: State, id: Id, p: Present, dwm: nat, shaped: bool)
    requires Steady(s, dwm, shaped) && id in s.presents && Soft(s.presents[id], p) && Orderly(p)
    requires p.keys == s.presents[id].keys
    ensures Steady(With(s, id, p), dwm, shaped) && Continues(s, With(s, id, p))
  {
    hide Distinct, DependentsKnown, Retired, TokensOk, OrderedInv, LogExact, LostFirst, RingInv, IxOk, ShapedInv, AllOrderly, Soft, Orderly;
    assert SameKeys(s.presents, s.presents[id := p]) by { SameTid(s.presents[id], p); }
    SoftIx(s.presents, s.presents[id := p], s.ix);
    RecordSteady(s, id, p, s.ix, dwm, shaped);
  }

  lemma SameTid(p: Present, q: Present)
    requires Soft(p, q)
    ensures q.tid == p.tid
  {
  }

  lemma RingSteady(s: State, r: Ring, dwm: nat, shaped: bool)
    requires Steady(s, dwm, shaped) && Core(s.(ring := r), {}) && s.ring.removed <= r.removed
    ensures Steady(s.(ring := r), dwm, shaped) && Continues(s, s.(ring := r))
  {
    hide Core, AllOrderly, Shape, ChainOrder;
  }

  function At<K>(m: map<K, Id>, k: K): Option<Id> {
    if k in m then Some(m[k]) else None
  }

  /** What happens to the present that is in the way, if any. */
  ghost predicate MadeRoom(s: State, s': State, occupant: Option<Id>, dwm: nat, shaped: bool) {
    if occupant.Some? then
      && Core(s, {}) && occupant.value in s.presents && (shaped ==> ShapedInv(s, {}, dwm))
      && RemovedLost(s, s', occupant.value, dwm, shaped) && LossTraced(s, s', occupant.value, dwm, shaped)
    else
      s' == s
  }

  /** Making room completes a present or leaves it alone. */
  lemma RoomKeeps(s: State, s1: State, occupant: Option<Id>, id: Id, dwm: nat, shaped: bool)
    requires Steady(s, dwm, shaped) && MadeRoom(s, s1, occupant, dwm, shaped) && id in s.presents
    ensures id in s1.presents && (s1.presents[id].completed || s1.presents[id] == s.presents[id])
  {
    hide Core, ShapedInv, AllOrderly, LosesAll, Area, Abandon, Grows;
  }

  /** Once its occupant is lost, the next slot is free, and the clock of the process has not moved. */
  lemma SlotFree(s: State, s1: State, id: Id, p: Present, dwm: nat, shaped: bool)
    requires Steady(s, dwm, shaped) && Steady(s1, dwm, shaped)
    requires s.nextFree < |s.ix.tracked| == |s1.ix.tracked| && id !in s.presents && Latest(s.presents, p.pid, p.start)
    requires MadeRoom(s, s1, s.ix.tracked[s.nextFree], dwm, shaped)
    ensures s1.nextFree == s.nextFree && s1.ix.tracked[s1.nextFree].None?
    ensures id !in s1.presents && Latest(s1.presents, p.pid, p.start)
  {
    hide Core, ShapedInv, AllOrderly, RemovedLost, ClearKeys, Grows;
    var slot := s.ix.tracked[s.nextFree];
    if slot.Some? {
      SlotOccupant(s, slot.value);
      SlotGrows(s, s1, slot.value, dwm, shaped);
      SlotsKnown(s);
      SlotsKnown(s1);
      SlotCleared(s.presents, s1.presents, s.ix.tracked, s1.ix.tracked, s.nextFree, slot.value);
      StillLatest(s.presents, s1.presents, p.pid, p.start);
    }
  }

  lemma SlotOccupant(s: State, x: Id)
    requires Core(s, {}) && Some(x) in s.ix.tracked
    ensures x in s.presents
  {
    assert TrackedOk(s.presents, s.ix.tracked);
  }

  lemma SlotsKnown(s: State)
    requires Core(s, {})
    ensures TrackedOk(s.presents, s.ix.tracked) && Retired(s.presents, {})
  {
  }

  /** The occupant was the only present of its slot, and it has completed. */
  lemma SlotCleared(P: Presents, Q: Presents, tracked: seq<Option<Id>>, after: seq<Option<Id>>, n: nat, x: Id)
    requires P.Keys == Q.Keys && forall a :: a in P ==> Grows(P[a], Q[a])
    requires TrackedOk(P, tracked) && TrackedOk(Q, after) && Retired(Q, {})
    requires n < |tracked| == |after| && tracked[n] == Some(x) && x in Q && Q[x].completed
    ensures after[n].None?
  {
    hide Grows, Retired;
    RetiredAt(Q, x);
    if after[n].Some? {
      GrowsRing(P[after[n].value], Q[after[n].value]);
    }
  }

  lemma StillLatest(P: Presents, Q: Presents, pid: nat, start: nat)
    requires P.Keys == Q.Keys && (forall a :: a in P ==> Grows(P[a], Q[a])) && Latest(P, pid, start)
    ensures Latest(Q, pid, start)
  {
    forall a | a in Q
      ensures Q[a].pid == P[a].pid && Q[a].start == P[a].start
    {
      GrowsRing(P[a], Q[a]);
    }
  }

  lemma RetiredAt(P: Presents, a: Id)
    requires Retired(P, {}) && a in P && P[a].completed
    ensures P[a].keys.ringIndex.None?
  {
  }

  lemma GrowsRing(p: Present, q: Present)
    requires Grows(p, q)
    ensures q.pid == p.pid && q.start == p.start && (q.keys.ringIndex.Some? ==> q.keys.ringIndex == p.keys.ringIndex)
  {
  }

  lemma SlotGrows(s: State, s1: State, x: Id, dwm: nat, shaped: bool)
    requires Core(s, {}) && x in s.presents && (shaped ==> ShapedInv(s, {}, dwm)) && RemovedLost(s, s1, x, dwm, shaped)
    ensures s1.nextFree == s.nextFree && s1.presents.Keys == s.presents.Keys
    ensures x in s1.presents && s1.presents[x].completed
    ensures forall a :: a in s.presents ==> Grows(s.presents[a], s1.presents[a])
  {
    hide Core, ShapedInv, Area, LosesAll, Grows, Abandon;
  }

  // ---------------------------------------------------------------------------------------------
  // A new present

  /** What Present_FrameType announced for the next present of a thread. */
  datatype Announced = Announced(frameId: nat, frameType: FrameType)

  const NO_KEYS := Keys(None, 0, 0, NO_TOKEN, 0, 0, 0, 0)

  /** The serial number stands in for the frame id unless one was announced. */
  function NewPresent(serial: nat, start: nat, pid: nat, tid: nat, swapChain: nat, runtime: Runtime,
                      announced: Option<Announced>): Present
  {
    Present(start, pid, tid, swapChain, if announced.Some? then announced.value.frameId else serial, runtime, 0, NO_TIMES,
            ModeUnknown, NO_EVIDENCE, ResultUnknown,
            if announced.Some? then [Shown(announced.value.frameType, 0)] else [], NO_TIMES, [],
            NO_KEYS, false, false, false, false, false, announced.Some?)
  }

  /** A process starts its presents one after another. */
  predicate Latest(P: Presents, pid: nat, start: nat) {
    forall a :: a in P && P[a].pid == pid ==> P[a].start < start
  }

  predicate Unused(p: Present) {
    && p.keys == NO_KEYS && p.dependents == []
    && !p.completed && !p.lost && !p.waitingForPresentStop && !p.waitingForFlipFrameType
  }

  function EnterProcess(s: State, pid: nat): State {
    if pid in s.ix.ordered then s else s.(ix := s.ix.(ordered := s.ix.ordered[pid := map[]]))
  }

  /** The map keeps an entry that is there already. */
  function EnterOrdered(ordered: Ordered, id: Id, p: Present): Ordered {
    var own := if p.pid in ordered then ordered[p.pid] else map[];
    ordered[p.pid := if p.start in own then own else own[p.start := id]]
  }

  /** The present takes the next slot of the ring of tracked presents and its place among those of its process. */
  function Track(s: State, id: Id, p: Present): State
    requires s.nextFree < |s.ix.tracked|
  {
    var n := s.nextFree;
    s.(presents := s.presents[id := p.(keys := p.keys.(ringIndex := Some(n)))],
       nextFree := Wrap(n, 1, |s.ix.tracked|),
       ix := s.ix.(tracked := s.ix.tracked[n := Some(id)], ordered := EnterOrdered(s.ix.ordered, id, p)))
  }

  lemma EnterProcessSteady(s: State, pid: nat, dwm: nat, shaped: bool)
    requires Steady(s, dwm, shaped)
    ensures Steady(EnterProcess(s, pid), dwm, shaped) && Continues(s, EnterProcess(s, pid))
  {
    hide Distinct, DependentsKnown, Retired, TokensOk, Keyed, Covers, OnlyPending, LogExact, LostFirst, ReadyOk, OneWaiting, IxOk, Fifo,
      Shape, ChainOrder, AllOrderly;
    if pid !in s.ix.ordered {
      EmptyProcess(s.presents, s.ix.ordered, pid);
      OrderedAside(s.presents, s.ix, s.ix.ordered[pid := map[]]);
    }
  }

  lemma EmptyProcess(P: Presents, O: Ordered, pid: nat)
    requires Keyed(P, O) && Covers(P, O) && OnlyPending(P, O, {}) && pid !in O
    ensures Keyed(P, O[pid := map[]]) && Covers(P, O[pid := map[]]) && OnlyPending(P, O[pid := map[]], {})
  {
  }

  lemma OrderedAside(P: Presents, ix: Indexes, O: Ordered)
    requires IxOk(P, ix)
    ensures IxOk(P, ix.(ordered := O))
  {
  }

  /** No ordered map holds the start time yet. */
  lemma StartIsNew(P: Presents, O: Ordered, pid: nat, start: nat)
    requires Keyed(P, O) && Latest(P, pid, start)
    ensures pid in O ==> start !in O[pid]
  {
  }

  lemma TrackOrdered(s: State, id: Id, p: Present)
    requires OrderedInv(s, {}) && id !in s.presents && Unused(p) && Latest(s.presents, p.pid, p.start)
    requires s.nextFree < |s.ix.tracked|
    ensures OrderedInv(Track(s, id, p), {})
  {
    hide EnterOrdered, Keyed, Covers, OnlyPending, Latest;
    var t := Track(s, id, p);
    StartIsNew(s.presents, s.ix.ordered, p.pid, p.start);
    EnterKeyed(s.presents, s.ix.ordered, id, p, t.presents[id]);
    EnterCovers(s.presents, s.ix.ordered, id, p, t.presents[id]);
  }

  lemma EnterKeyed(P: Presents, O: Ordered, id: Id, p: Present, q: Present)
    requires Keyed(P, O) && id !in P && q.pid == p.pid && q.start == p.start && (p.pid in O ==> p.start !in O[p.pid])
    ensures Keyed(P[id := q], EnterOrdered(O, id, p))
  {
  }

  lemma EnterCovers(P: Presents, O: Ordered, id: Id, p: Present, q: Present)
    requires Covers(P, O) && OnlyPending(P, O, {}) && id !in P && q.pid == p.pid && q.start == p.start && !q.completed
    requires (p.pid in O ==> p.start !in O[p.pid]) && Latest(P, p.pid, p.start)
    ensures Covers(P[id := q], EnterOrdered(O, id, p)) && OnlyPending(P[id := q], EnterOrdered(O, id, p), {})
  {
  }

  lemma TrackRecords(s: State, id: Id, p: Present)
    requires Core(s, {}) && id !in s.presents && Unused(p) && Latest(s.presents, p.pid, p.start)
    requires s.nextFree < |s.ix.tracked|
    ensures var s' := Track(s, id, p);
            && Distinct(s'.presents) && DependentsKnown(s'.presents) && Retired(s'.presents, {})
            && LogExact(s'.presents, s'.log, {}) && LostFirst(s'.presents, s'.hasCompleted)
  {
    hide OrderedInv, RingInv, IxOk;
    assert Distinct(s.presents) && DependentsKnown(s.presents);
  }

  lemma TrackTokens(s: State, id: Id, p: Present)
    requires TokensOk(s.presents, s.ix.byDxgkToken, {}) && id !in s.presents && s.nextFree < |s.ix.tracked|
    ensures TokensOk(Track(s, id, p).presents, Track(s, id, p).ix.byDxgkToken, {})
  {
  }

  lemma TrackRing(s: State, id: Id, p: Present)
    requires RingInv(s) && id !in s.presents && s.nextFree < |s.ix.tracked|
    ensures RingInv(Track(s, id, p))
  {
  }

  lemma TrackIx(s: State, id: Id, p: Present)
    requires IxOk(s.presents, s.ix) && id !in s.presents && Unused(p)
    requires s.nextFree < |s.ix.tracked| && s.ix.tracked[s.nextFree].None?
    ensures IxOk(Track(s, id, p).presents, Track(s, id, p).ix)
  {
    var P, Q, ix := s.presents, Track(s, id, p).presents, Track(s, id, p).ix;
    assert ThreadsOk(Q, ix.byThread) && SubmitsOk(Q, ix.bySubmit);
    KeyedWider(P, id, Q[id], ix.byWin32K, (k: Keys) => k.win32K);
    KeyedWider(P, id, Q[id], ix.byDxgkTokenData, (k: Keys) => k.dxgkTokenData);
    KeyedWider(P, id, Q[id], ix.byDxgkContext, (k: Keys) => k.dxgkContext);
    hide KeyedBy, SubmitsOk, SubmitsOnce, ThreadsOk;
  }

  lemma KeyedWider<K(!new)>(P: Presents, id: Id, p: Present, index: map<K, Id>, key: Keys -> K)
    requires KeyedBy(P, index, key) && id !in P
    ensures KeyedBy(P[id := p], index, key)
  {
  }

  lemma TrackShape(s: State, id: Id, p: Present, dwm: nat)
    requires ShapedInv(s, {}, dwm) && DependentsKnown(s.presents) && LogExact(s.presents, s.log, {})
    requires id !in s.presents && Unused(p) && Latest(s.presents, p.pid, p.start) && s.nextFree < |s.ix.tracked|
    ensures ShapedInv(Track(s, id, p), {}, dwm)
  {
    TrackChain(s.presents, Track(s, id, p).presents, s.log, id, p);
    assert Shape(Track(s, id, p).presents, dwm);
  }

  /** A new present starts after every displayed one of its chain. */
  lemma TrackChain(P: Presents, Q: Presents, L: seq<Attempt>, id: Id, p: Present)
    requires ChainOrder(P, L, {}) && id !in P && id in Q && Q == P[id := Q[id]]
    requires forall i :: 0 <= i < |L| ==> L[i].id in P
    requires Latest(P, p.pid, p.start) && Q[id].pid == p.pid && Q[id].start == p.start && Q[id].swapChain == p.swapChain
    ensures ChainOrder(Q, L, {})
  {
  }

  lemma TrackSteady(s: State, id: Id, p: Present, dwm: nat, shaped: bool)
    requires Steady(s, dwm, shaped) && id !in s.presents && Unused(p) && Latest(s.presents, p.pid, p.start)
    requires s.nextFree < |s.ix.tracked| && s.ix.tracked[s.nextFree].None?
    ensures Steady(Track(s, id, p), dwm, shaped) && Continues(s, Track(s, id, p))
  {
    hide Distinct, DependentsKnown, Retired, TokensOk, OrderedInv, LogExact, LostFirst, RingInv, IxOk, ShapedInv, Orderly;
    TrackRecords(s, id, p);
    TrackOrdered(s, id, p);
    TrackRing(s, id, p);
    TrackIx(s, id, p);
    TrackTokens(s, id, p);
    if shaped { TrackShape(s, id, p, dwm); }
    assert Orderly(Track(s, id, p).presents[id]) by { UnusedOrderly(p, s.nextFree); }
  }

  lemma UnusedOrderly(p: Present, n: nat)
    requires Unused(p)
    ensures Orderly(p.(keys := p.keys.(ringIndex := Some(n))))
  {
  }

  /**
   A new present is tracked: s1 is the state after the occupant of its slot was lost, s2 the state after
   whatever its thread worked on before was lost.
   */
  ghost predicate Tracks(s: State, s1: State, s2: State, s': State, id: Id, p: Present, dwm: nat, shaped: bool) {
    && s.nextFree < |s.ix.tracked| && MadeRoom(s, s1, s.ix.tracked[s.nextFree], dwm, shaped)
    && s1.nextFree < |s1.ix.tracked| && s1.ix.tracked[s1.nextFree].None? && id !in s1.presents
    && MadeRoom(Track(s1, id, p), s2, At(s1.ix.byThread, p.tid), dwm, shaped)
    && s' == SetThread(s2, p.tid, id)
  }

  // ---------------------------------------------------------------------------------------------
  // The present of a thread

  /** The index keeps an entry that is there already. */
  function SetThread(s: State, t: nat, id: Id): State {
    if t in s.ix.byThread then s else s.(ix := s.ix.(byThread := s.ix.byThread[t := id]))
  }

  lemma SetThreadSteady(s: State, t: nat, id: Id, dwm: nat, shaped: bool)
    requires Steady(s, dwm, shaped) && id in s.presents
    requires t == s.presents[id].tid || (t == s.presents[id].keys.driverTid && t != 0)
    ensures Steady(SetThread(s, t, id), dwm, shaped) && Continues(s, SetThread(s, t, id))
  {
    hide Distinct, DependentsKnown, Retired, TokensOk, Keyed, Covers, OnlyPending, LogExact, LostFirst, ReadyOk, OneWaiting, IxOk, Fifo,
      Shape, ChainOrder, AllOrderly;
    if t !in s.ix.byThread { ThreadAdded(s.presents, s.ix, t, id); }
  }

  lemma ThreadAdded(P: Presents, ix: Indexes, t: nat, id: Id)
    requires IxOk(P, ix) && id in P && (t == P[id].tid || (t == P[id].keys.driverTid && t != 0))
    ensures IxOk(P, ix.(byThread := ix.byThread[t := id]))
  {
    hide KeyedBy, TrackedOk, SubmitsOk, SubmitsOnce;
    assert ThreadsOk(P, ix.byThread[t := id]);
  }

  /** Only the application's own events were seen, so the driver may have deferred the present to another thread. */
  predicate Undriven(p: Present) {
    p.keys.driverTid == 0 && !p.evidence.seenDxgkPresent && !p.evidence.seenWin32KEvents && p.mode == ModeUnknown
  }

  function Drive(s: State, id: Id, t: nat): State
    requires id in s.presents
  {
    With(s, id, s.presents[id].(keys := s.presents[id].keys.(driverTid := t)))
  }

  lemma DriveSteady(s: State, id: Id, t: nat, dwm: nat, shaped: bool)
    requires Steady(s, dwm, shaped) && id in s.presents && s.presents[id].keys.driverTid == 0
    ensures Steady(Drive(s, id, t), dwm, shaped) && Continues(s, Drive(s, id, t))
  {
    var p := Drive(s, id, t).presents[id];
    DriveIx(s.presents, s.ix, id, p);
    RecordSteady(s, id, p, s.ix, dwm, shaped);
    hide Steady, Continues;
    assert With(s, id, p).(ix := s.ix) == Drive(s, id, t);
  }

  lemma DriveIx(P: Presents, ix: Indexes, id: Id, p: Present)
    requires IxOk(P, ix) && id in P && P[id].keys.driverTid == 0
    requires p == P[id].(keys := P[id].keys.(driverTid := p.keys.driverTid))
    ensures IxOk(P[id := p], ix)
  {
    assert ThreadsOk(P[id := p], ix.byThread) && SubmitsOk(P[id := p], ix.bySubmit);
    KeyedSame(P, id, p, ix.byWin32K, (k: Keys) => k.win32K);
    KeyedSame(P, id, p, ix.byDxgkTokenData, (k: Keys) => k.dxgkTokenData);
    KeyedSame(P, id, p, ix.byDxgkContext, (k: Keys) => k.dxgkContext);
    hide KeyedBy, SubmitsOk, SubmitsOnce, ThreadsOk;
  }

  lemma KeyedSame<K(!new)>(P: Presents, id: Id, p: Present, index: map<K, Id>, key: Keys -> K)
    requires KeyedBy(P, index, key) && id in P && key(p.keys) == key(P[id].keys)
    ensures KeyedBy(P[id := p], index, key)
  {
  }

  /** The oldest present in progress of the process that the driver may have deferred. */
  ghost predicate OldestUndriven(P: Presents, id: Id, pid: nat) {
    && id in P && P[id].pid == pid && !P[id].completed && Undriven(P[id])
    && forall a :: a in P && P[a].pid == pid && !P[a].completed && Undriven(P[a]) ==> P[id].start <= P[a].start
  }

  /** No present of the process that started before `from` was deferred. */
  ghost predicate DrivenBefore(P: Presents, pid: nat, from: nat) {
    forall a :: a in P && P[a].pid == pid && !P[a].completed && P[a].start < from ==> !Undriven(P[a])
  }

  ghost predicate NoneUndriven(P: Presents, pid: nat) {
    forall a :: a in P && P[a].pid == pid && !P[a].completed ==> !Undriven(P[a])
  }

  lemma DrivenUpTo(s: State, pid: nat, from: nat, to: nat)
    requires OrderedInv(s, {}) && DrivenBefore(s.presents, pid, from)
    requires pid in s.ix.ordered && forall k :: k in s.ix.ordered[pid] && from <= k ==> to <= k
    ensures DrivenBefore(s.presents, pid, to)
  {
  }

  /** An entry of an ordered map between events is a present in progress. */
  lemma OrderedEntry(s: State, pid: nat, k: nat)
    requires OrderedInv(s, {}) && pid in s.ix.ordered && k in s.ix.ordered[pid]
    ensures var a := s.ix.ordered[pid][k];
            a in s.presents && s.presents[a].pid == pid && s.presents[a].start == k && !s.presents[a].completed
  {
    assert Keyed(s.presents, s.ix.ordered);
    assert InOrdered(s.ix.ordered, s.presents[s.ix.ordered[pid][k]]);
  }

  lemma NotUndriven(s: State, pid: nat, k: nat)
    requires OrderedInv(s, {}) && Distinct(s.presents) && DrivenBefore(s.presents, pid, k)
    requires pid in s.ix.ordered && k in s.ix.ordered[pid]
    requires s.ix.ordered[pid][k] in s.presents && !Undriven(s.presents[s.ix.ordered[pid][k]])
    ensures DrivenBefore(s.presents, pid, k + 1)
  {
    OrderedEntry(s, pid, k);
  }

  lemma NoMoreUndriven(s: State, pid: nat, from: nat)
    requires OrderedInv(s, {}) && DrivenBefore(s.presents, pid, from)
    requires pid in s.ix.ordered && forall k :: k in s.ix.ordered[pid] ==> k < from
    ensures NoneUndriven(s.presents, pid)
  {
  }

  lemma StartOfProcess(P: Presents, pid: nat)
    ensures DrivenBefore(P, pid, 0)
  {
  }

  lemma OldestFound(s: State, id: Id, pid: nat, k: nat)
    requires DrivenBefore(s.presents, pid, k)
    requires id in s.presents && s.presents[id].pid == pid && s.presents[id].start == k && !s.presents[id].completed
    requires Undriven(s.presents[id])
    ensures OldestUndriven(s.presents, id, pid)
  {
  }

  lemma OldestKnown(P: Presents, id: Id, pid: nat)
    requires OldestUndriven(P, id, pid)
    ensures id in P && P[id].pid == pid && !P[id].completed && P[id].keys.driverTid == 0
  {
  }

  lemma ContinuesRefl(s: State)
    ensures Continues(s, s)
  {
  }

  lemma EnterProcessKnown(s: State, pid: nat)
    ensures EnterProcess(s, pid) == s.(ix := EnterProcess(s, pid).ix)
    ensures EnterProcess(s, pid).ix == s.ix.(ordered := EnterProcess(s, pid).ix.ordered)
  {
  }

  /** The driver's thread works on the deferred present from now on; so does the application's. */
  function TakeOver(s: State, id: Id, t: nat): State
    requires id in s.presents
  {
    SetThread(Drive(s, id, t), t, id)
  }

  lemma DriveDeferred(s: State, id: Id, t: nat, dwm: nat, shaped: bool)
    requires Steady(s, dwm, shaped) && id in s.presents && s.presents[id].keys.driverTid == 0
    ensures Steady(Drive(s, id, t), dwm, shaped) && Continues(s, Drive(s, id, t))
    ensures Drive(s, id, t).ix == s.ix && id in Drive(s, id, t).presents && Drive(s, id, t).presents[id].keys.driverTid == t
  {
    DriveSteady(s, id, t, dwm, shaped);
  }

  /** The present of an event: found by thread, or deferred by the driver, or new; none if filtered out. */
  ghost predicate Found(s: State, s1: State, s2: State, s': State, r: Option<Id>, id: Id, p: Present, filteredOut: bool,
                        dwm: nat, shaped: bool)
  {
    var e := EnterProcess(s, p.pid);
    if p.tid in s.ix.byThread then r == Some(s.ix.byThread[p.tid]) && s' == s
    else if r.Some? && r.value in e.presents then
      OldestUndriven(e.presents, r.value, p.pid) && s' == TakeOver(e, r.value, p.tid)
    else
      && NoneUndriven(e.presents, p.pid)
      && (if filteredOut then r == None && s' == e else r == Some(id) && Tracks(e, s1, s2, s', id, p, dwm, shaped))
  }

  // A search that visits the keys in ascending order comes to an end.

  function Span(keys: set<nat>, k: nat): nat {
    |set j | j in keys && k <= j|
  }

  lemma SpanShrinks(keys: set<nat>, k: nat, next: nat)
    requires k in keys && k < next
    ensures Span(keys, next) < Span(keys, k)
  {
    var a, b := set j | j in keys && next <= j, set j | j in keys && k <= j;
    assert a <= b && k in b - a;
    assert b == a + (b - a);
  }
}
