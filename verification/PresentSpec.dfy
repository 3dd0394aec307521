/**
 What the trace consumer does with presents, on plain values: the record of a present, the structures that
 track it, and one function for every elementary step of completing it.  A shared pointer to a PresentEvent
 is an id; the map from ids to records is the heap those pointers refer to.
 */
module PresentSpec {
  import opened Wrappers

  type Id = nat

  datatype PresentMode =
    | ModeUnknown
    | HardwareLegacyFlip
    | HardwareLegacyCopyToFrontBuffer
    | HardwareIndependentFlip
    | ComposedFlip
    | HardwareComposedIndependentFlip
    | ComposedCopyGpuGdi
    | ComposedCopyCpuGdi

  datatype PresentResult = ResultUnknown | Presented | Discarded

  datatype FrameType = NotSet | Unspecified | Application | Repeated | IntelXefg | AmdAfmf

  datatype Runtime = Dxgi | D3d9 | OtherRuntime

  /** One time at which a frame was displayed. */
  datatype Shown = Shown(frameType: FrameType, time: nat)

  /** Present and GPU times, as reported for the application frame behind a generated frame. */
  datatype FrameTimes = FrameTimes(
    presentStart: nat,
    timeInPresent: nat,
    gpuStart: nat,
    ready: nat,
    gpuDuration: nat,
    gpuVideoDuration: nat)

  const NO_TIMES := FrameTimes(0, 0, 0, 0, 0, 0)

  datatype Win32KToken = Win32KToken(luid: nat, presentCount: nat, bindId: nat)

  const NO_TOKEN := Win32KToken(0, 0, 0)

  datatype Present = Present(
    // fixed when the present is created
    start: nat,
    pid: nat,
    tid: nat,
    swapChain: nat,
    frameId: nat,
    // deduced from events
    runtime: Runtime,
    timeInPresent: nat,
    gpu: FrameTimes,
    mode: PresentMode,
    evidence: Evidence,
    finalState: PresentResult,
    displayed: seq<Shown>,
    appPropagated: FrameTimes,
    dependents: seq<Id>,
    // the keys under which the tracking structures hold the present
    keys: Keys,
    // progress of the analysis
    completed: bool,
    lost: bool,
    waitingForPresentStop: bool,
    waitingForFlipFrameType: bool,
    doneWaitingForFlipFrameType: bool,
    waitingForFrameId: bool)

  /** Which kinds of events the present has seen, and which it still expects. */
  datatype Evidence = Evidence(
    seenDxgkPresent: bool,
    seenWin32KEvents: bool,
    seenInFrameEvent: bool,
    waitForFlipEvent: bool,
    waitForMPOFlipEvent: bool)

  const NO_EVIDENCE := Evidence(false, false, false, false, false)

  datatype Keys = Keys(
    ringIndex: Option<nat>,
    driverTid: nat,
    submitSequence: nat,
    win32K: Win32KToken,
    dxgkToken: nat,
    dxgkTokenData: nat,
    dxgkContext: nat,
    hwnd: nat)

  predicate Waiting(p: Present) {
    p.waitingForPresentStop || p.waitingForFlipFrameType || p.waitingForFrameId
  }

  type Presents = map<Id, Present>

  /** In-progress presents of each process, by start time. */
  type Ordered = map<nat, map<nat, Id>>

  datatype Indexes = Indexes(
    tracked: seq<Option<Id>>,
    byThread: map<nat, Id>,
    ordered: Ordered,
    bySubmit: map<nat, map<nat, Id>>,
    byWin32K: map<Win32KToken, Id>,
    byDxgkToken: map<nat, Id>,
    byDxgkTokenData: map<nat, Id>,
    byDxgkContext: map<nat, Id>)

  // ---------------------------------------------------------------------------------------------
  // The completed ring

  datatype Config = Config(capacity: nat, realtime: bool, disableBackpressure: bool, deferralLimit: nat, trackDisplay: bool)

  /** How a present left the ring; for an eviction, how many were ready, and whether it and the newcomer were lost. */
  datatype Removal = Delivered(id: Id) | Evicted(id: Id, ready: nat, lost: bool, forLost: bool)

  /** The queue of completed presents, and every removal so far. */
  datatype Ring = Ring(queue: seq<Id>, ready: nat, overflowed: nat, removed: seq<Removal>)

  function Delivery(ids: seq<Id>): (r: seq<Removal>)
    ensures |r| == |ids|
  {
    seq(|ids|, i requires 0 <= i < |ids| => Delivered(ids[i]))
  }

  function Dequeue(r: Ring): Ring
    requires r.ready <= |r.queue|
  {
    Ring(r.queue[r.ready..], 0, r.overflowed, r.removed + Delivery(r.queue[..r.ready]))
  }

  /** The first position at or after i whose present is still waiting, or the length. */
  function ReadyFrom(queue: seq<Id>, presents: Presents, i: nat): (n: nat)
    requires i <= |queue| && forall id :: id in queue ==> id in presents
    ensures i <= n <= |queue|
    ensures forall k :: i <= k < n ==> !Waiting(presents[queue[k]])
    ensures n < |queue| ==> Waiting(presents[queue[n]])
    decreases |queue| - i
  {
    if i < |queue| && !Waiting(presents[queue[i]]) then ReadyFrom(queue, presents, i + 1) else i
  }

  function UpdateReady(r: Ring, presents: Presents): Ring
    requires r.ready <= |r.queue| && forall id :: id in r.queue ==> id in presents
  {
    r.(ready := ReadyFrom(r.queue, presents, r.ready))
  }

  /** A full ring blocks the producer only offline, with backpressure, and when there is something to dequeue. */
  predicate Blocks(r: Ring, cfg: Config) {
    !cfg.realtime && r.ready != 0 && !cfg.disableBackpressure
  }

  /** A full ring that does not block drops a lost present rather than evict one that is not lost. */
  predicate Drops(r: Ring, presents: Presents, id: Id, cfg: Config)
    requires id in presents && forall q :: q in r.queue ==> q in presents
  {
    |r.queue| == cfg.capacity && r.queue != [] && !Blocks(r, cfg) && !presents[r.queue[0]].lost && presents[id].lost
  }

  function Evict(r: Ring, presents: Presents, id: Id): Removal
    requires r.queue != [] && id in presents && r.queue[0] in presents
  {
    Evicted(r.queue[0], r.ready, presents[r.queue[0]].lost, presents[id].lost)
  }

  function Insert(r: Ring, presents: Presents, id: Id, cfg: Config): Ring
    requires 0 < cfg.capacity && r.ready <= |r.queue| <= cfg.capacity
    requires id in presents && forall q :: q in r.queue ==> q in presents
  {
    if |r.queue| < cfg.capacity then r.(queue := r.queue + [id])
    else if Blocks(r, cfg) then var d := Dequeue(r); d.(queue := d.queue + [id])
    else if Drops(r, presents, id, cfg) then r
    else Ring(r.queue[1..] + [id], if r.ready > 0 then r.ready - 1 else 0, r.overflowed + 1, r.removed + [Evict(r, presents, id)])
  }

  // ---------------------------------------------------------------------------------------------
  // The consumer

  /** An attempt to insert a completed present: its record at that moment, and whether the ring took it. */
  datatype Attempt = Attempt(id: Id, snapshot: Present, accepted: bool)

  /** A present at the head of the ring was let go when the other one entered, because it had waited too long. */
  datatype LetOff = LetOff(id: Id, cause: Id)

  datatype State = State(
    cfg: Config,
    presents: Presents,
    ix: Indexes,
    nextFree: nat,
    hasCompleted: bool,
    flipEvents: bool,
    ring: Ring,
    log: seq<Attempt>,
    released: seq<LetOff>)

  function With(s: State, id: Id, p: Present): State {
    s.(presents := s.presents[id := p])
  }

  function MarkLost(s: State, id: Id): State
    requires id in s.presents
  {
    With(s, id, s.presents[id].(lost := true))
  }

  /** The present is completed; it may have to wait for Present_Stop or for flip frame types. */
  function MarkCompleted(s: State, id: Id): State
    requires id in s.presents
  {
    var p := s.presents[id];
    With(s, id, p.(
      completed := true,
      waitingForPresentStop := p.waitingForPresentStop || (!p.lost && p.runtime != OtherRuntime && p.timeInPresent == 0),
      waitingForFlipFrameType := p.waitingForFlipFrameType ||
        (!p.lost && !p.doneWaitingForFlipFrameType && s.flipEvents && p.finalState == Presented)))
  }

  /** Everything that depends on a lost present is lost. */
  function LoseAll(presents: Presents, ids: seq<Id>): (r: Presents)
    requires forall d :: d in ids ==> d in presents
    ensures r.Keys == presents.Keys
  {
    if ids == [] then presents
    else LoseAll(presents[ids[0] := presents[ids[0]].(lost := true)], ids[1..])
  }

  predicate Composed(p: Present) {
    p.mode == ComposedFlip || p.mode == ComposedCopyGpuGdi || p.mode == ComposedCopyCpuGdi
  }

  /** The child's frame types with the parent's screen times; further times come with the parent's types. */
  function MergeShown(own: seq<Shown>, from: seq<Shown>): (r: seq<Shown>)
    ensures |r| == if |own| < |from| then |from| else |own|
  {
    seq(if |own| < |from| then |from| else |own|, i requires 0 <= i =>
      if i < |own| && i < |from| then Shown(own[i].frameType, from[i].time)
      else if i < |from| then from[i]
      else if i < |own| then own[i] else Shown(NotSet, 0))
  }

  function Inherit(child: Present, parent: Present): Present {
    child.(finalState := parent.finalState,
           displayed := if parent.displayed == [] then child.displayed else MergeShown(child.displayed, parent.displayed),
           waitingForFlipFrameType := parent.waitingForFlipFrameType,
           doneWaitingForFlipFrameType := parent.doneWaitingForFlipFrameType)
  }

  /** One dependent, given the windows for which a later dependent was already seen. */
  function PropagateOne(d: Present, seen: set<nat>, parent: Present): Present {
    if d.completed then d
    else if Composed(d) && d.keys.hwnd in seen then d.(finalState := Discarded, displayed := [])
    else if d.finalState != Discarded then Inherit(d, parent)
    else d
  }

  function SeenAfter(d: Present, seen: set<nat>): set<nat> {
    if !d.completed && Composed(d) then seen + {d.keys.hwnd} else seen
  }

  /** Dependents take over the state of a displayed or discarded parent, the last one first. */
  function Propagate(presents: Presents, deps: seq<Id>, seen: set<nat>, parent: Present): (r: Presents)
    requires forall d :: d in deps ==> d in presents
    ensures r.Keys == presents.Keys
  {
    if deps == [] then presents
    else
      var n := |deps| - 1;
      var d := deps[n];
      Propagate(presents[d := PropagateOne(presents[d], seen, parent)], deps[..n], SeenAfter(presents[d], seen), parent)
  }

  // ---------------------------------------------------------------------------------------------
  // The end of tracking

  function EraseIf<K>(m: map<K, Id>, k: K, id: Id): map<K, Id> {
    if k in m && m[k] == id then m - {k} else m
  }

  /** Keys are never zero: a zero key means that the present is not in the index. */
  function EraseUnlessZero(m: map<nat, Id>, k: nat, id: Id): map<nat, Id> {
    if k != 0 then EraseIf(m, k, id) else m
  }

  function EraseThreads(byThread: map<nat, Id>, id: Id, p: Present): map<nat, Id> {
    EraseUnlessZero(if p.waitingForPresentStop then byThread else EraseIf(byThread, p.tid, id), p.keys.driverTid, id)
  }

  function EraseOrdered(ordered: Ordered, p: Present): Ordered {
    ordered[p.pid := (if p.pid in ordered then ordered[p.pid] else map[]) - {p.start}]
  }

  /** The submissions of other presents under the same sequence. */
  function Others(inner: map<nat, Id>, id: Id): map<nat, Id> {
    map c | c in inner && inner[c] != id :: inner[c]
  }

  function EraseSubmit(bySubmit: map<nat, map<nat, Id>>, id: Id, sequence: nat): map<nat, map<nat, Id>> {
    if sequence == 0 || sequence !in bySubmit then bySubmit
    else
      var rest := Others(bySubmit[sequence], id);
      if rest == map[] then bySubmit - {sequence} else bySubmit[sequence := rest]
  }

  function ClearKeys(k: Keys): Keys {
    Keys(None, k.driverTid, 0, if k.win32K.luid != 0 then NO_TOKEN else k.win32K, 0, 0, 0, 0)
  }

  function StopTrackingIx(ix: Indexes, id: Id, p: Present): Indexes
    requires p.keys.ringIndex.Some? ==> p.keys.ringIndex.value < |ix.tracked|
  {
    var k := p.keys;
    Indexes(
      if k.ringIndex.Some? then ix.tracked[k.ringIndex.value := None] else ix.tracked,
      EraseThreads(ix.byThread, id, p),
      EraseOrdered(ix.ordered, p),
      EraseSubmit(ix.bySubmit, id, k.submitSequence),
      if k.win32K.luid != 0 then EraseIf(ix.byWin32K, k.win32K, id) else ix.byWin32K,
      EraseUnlessZero(ix.byDxgkToken, k.dxgkToken, id),
      EraseUnlessZero(ix.byDxgkTokenData, k.dxgkTokenData, id),
      EraseUnlessZero(ix.byDxgkContext, k.dxgkContext, id))
  }

  /** A present's ring index, if any, is a slot of the tracked ring. */
  predicate RingIndexOk(s: State, id: Id)
    requires id in s.presents
  {
    var r := s.presents[id].keys.ringIndex;
    r.Some? ==> r.value < |s.ix.tracked|
  }

  function StopTracking(s: State, id: Id): State
    requires id in s.presents && RingIndexOk(s, id)
  {
    var p := s.presents[id];
    With(s, id, p.(keys := ClearKeys(p.keys))).(ix := StopTrackingIx(s.ix, id, p))
  }

  // ---------------------------------------------------------------------------------------------
  // Into the ring

  function OwnTimes(p: Present): FrameTimes {
    FrameTimes(p.start, p.timeInPresent, p.gpu.gpuStart, p.gpu.ready, p.gpu.gpuDuration, p.gpu.gpuVideoDuration)
  }

  predicate Generated(p: Present) {
    exists i :: 0 <= i < |p.displayed| && p.displayed[i].frameType == IntelXefg
  }

  /** An entry of the same process stops waiting for its frame id. */
  predicate Matches(e: Present, p: Present) {
    e.waitingForFrameId && e.pid == p.pid
  }

  /** What a present takes over from a matching entry: the times behind a generated frame with its frame id. */
  function TakeTimes(p: Present, e: Present): Present {
    if e.frameId == p.frameId && Generated(e) then
      p.(appPropagated := if e.appPropagated.presentStart != 0 then e.appPropagated else OwnTimes(e))
    else
      p
  }

  /** What is left of a matching entry: times that it handed on are not handed on again. */
  function HandOn(e: Present, p: Present): Present {
    if e.frameId == p.frameId && Generated(e) && e.appPropagated.presentStart != 0 then
      e.(appPropagated := NO_TIMES, waitingForFrameId := false)
    else
      e.(waitingForFrameId := false)
  }

  function MatchFrame(presents: Presents, entry: Id, id: Id): (r: Presents)
    requires entry in presents && id in presents
    ensures r.Keys == presents.Keys
  {
    var e, p := presents[entry], presents[id];
    if Matches(e, p) then presents[id := TakeTimes(p, e)][entry := HandOn(e, p)] else presents
  }

  function MatchFrames(presents: Presents, entries: seq<Id>, id: Id): (r: Presents)
    requires id in presents && forall e :: e in entries ==> e in presents
    ensures r.Keys == presents.Keys
    decreases |entries|
  {
    if entries == [] then presents
    else MatchFrames(MatchFrame(presents, entries[0], id), entries[1..], id)
  }

  predicate Insertable(s: State, id: Id) {
    && 0 < s.cfg.capacity && s.ring.ready <= |s.ring.queue| <= s.cfg.capacity
    && id in s.presents && id !in s.ring.queue
    && (forall q :: q in s.ring.queue ==> q in s.presents)
  }

  function MatchFrameIds(s: State, id: Id): State
    requires Insertable(s, id)
  {
    if s.presents[id].waitingForFrameId
    then s.(presents := MatchFrames(s.presents, s.ring.queue[s.ring.ready..], id))
    else s
  }

  function AddCompleted(s: State, id: Id): State
    requires Insertable(s, id)
  {
    s.(ring := Insert(s.ring, s.presents, id, s.cfg),
       log := s.log + [Attempt(id, s.presents[id], !Drops(s.ring, s.presents, id, s.cfg))])
  }

  function EndWait(s: State, id: Id): State
    requires id in s.presents
  {
    var p := s.presents[id];
    With(s, id, p.(
      waitingForPresentStop := false,
      lost := p.lost || p.waitingForPresentStop,
      waitingForFlipFrameType := false))
  }

  /** The present at the head of the ring stopped waiting because it became too old. */
  function ClearDeferral(s: State, id: Id): State
    requires id in s.presents && RingIndexOk(s, id)
  {
    StopTracking(EndWait(s, id), id)
  }

  predicate TooOld(s: State, id: Id, start: nat)
    requires id in s.presents
  {
    start >= s.presents[id].start && start - s.presents[id].start > s.cfg.deferralLimit
  }
}
