/**
 What GpuTrace means, on plain values: every node queue is a sequence whose head is the running packet,
 and every event is a function from state to state.  The classes in GpuTrace.dfy are proved to compute
 these functions; GpuProofs.dfy proves what the functions guarantee over whole runs.

 Pointers become names.  A PacketTrace lives inside the frame information of one process, so its address
 is the process id and the engine class.  A Node is either an engine of an adapter, or was allocated for a
 hardware queue, in which case the allocation number is its address.
 */
module GpuSpec {
  import opened Wrappers

  const TWO_TO_THE_32: int := 0x1_0000_0000
  const TWO_TO_THE_64: int := 0x1_0000_0000_0000_0000

  type uint32 = x: int | 0 <= x < TWO_TO_THE_32
  type uint64 = x: int | 0 <= x < TWO_TO_THE_64

  /** Unsigned arithmetic as the source performs it; GpuProofs shows that no reachable state ever wraps. */
  function Sub64(a: uint64, b: uint64): uint64 {
    if b <= a then a - b else a - b + TWO_TO_THE_64
  }

  function Add64(a: uint64, b: uint64): uint64 {
    if a + b < TWO_TO_THE_64 then a + b else a + b - TWO_TO_THE_64
  }

  function Inc32(c: uint32): uint32 {
    if c + 1 < TWO_TO_THE_32 then c + 1 else 0
  }

  function Dec32(c: uint32): uint32 {
    if c == 0 then TWO_TO_THE_32 - 1 else c - 1
  }

  // ---------------------------------------------------------------------------------------------
  // One process and engine class

  datatype TraceId = Video(pid: uint32) | Other(pid: uint32)

  datatype Trace = Trace(
    firstPacketTime: uint64,
    lastPacketTime: uint64,
    accumulatedPacketTime: uint64,
    runningPacketStartTime: uint64,
    runningPacketCount: uint32)

  const ZERO_TRACE := Trace(0, 0, 0, 0, 0)

  function StartPacket(tr: Trace, t: uint64): Trace {
    var counted := tr.(runningPacketCount := Inc32(tr.runningPacketCount));
    if counted.runningPacketCount == 1 then
      counted.(runningPacketStartTime := t,
               firstPacketTime := if tr.firstPacketTime == 0 then t else tr.firstPacketTime)
    else
      counted
  }

  function CompletePacket(tr: Trace, t: uint64): Trace {
    tr.(lastPacketTime := t,
        accumulatedPacketTime := Add64(tr.accumulatedPacketTime, Sub64(t, tr.runningPacketStartTime)),
        runningPacketStartTime := 0)
  }

  /** The front packet of some node stops being the running packet. */
  function FinishPacket(tr: Trace, t: uint64): Trace {
    var counted := tr.(runningPacketCount := Dec32(tr.runningPacketCount));
    if counted.runningPacketCount == 0 then CompletePacket(counted, t) else counted
  }

  // ---------------------------------------------------------------------------------------------
  // One node queue

  /** A packet whose trace is None is a wait packet: it blocks its node but is not GPU work. */
  datatype Packet = Packet(trace: Option<TraceId>, sequenceId: uint32, completed: bool)

  function Front(q: seq<Packet>): Option<TraceId> {
    if q == [] then None else q[0].trace
  }

  /** Every trace that the queue refers to is known. */
  ghost predicate RefersTo(q: seq<Packet>, known: map<TraceId, Trace>) {
    forall i :: 0 <= i < |q| && q[i].trace.Some? ==> q[i].trace.value in known
  }

  /** Position of the first packet at or after i that carries the sequence id, or |q|. */
  function FirstMatch(q: seq<Packet>, id: uint32, i: nat): (r: nat)
    requires i <= |q|
    ensures i <= r <= |q|
    ensures forall j :: i <= j < r ==> q[j].sequenceId != id
    ensures r < |q| ==> q[r].sequenceId == id
    decreases |q| - i
  {
    if i == |q| || q[i].sequenceId == id then i else FirstMatch(q, id, i + 1)
  }

  /** Drops the wait packets at the head that completed out of order while they were queued. */
  function DropDone(q: seq<Packet>): seq<Packet> {
    if q != [] && q[0].trace.None? && q[0].completed then DropDone(q[1..]) else q
  }

  /** What a completion does to a node: nothing, flag an early wait packet, or finish the running packet. */
  datatype Outcome = Ignored | Flagged(at: nat) | Finished(through: nat)

  function Classify(q: seq<Packet>, id: uint32): (o: Outcome)
    ensures o.Flagged? ==> 0 < o.at < |q| && q[o.at].trace.None? && q[o.at].sequenceId == id
    ensures o.Finished? ==> o.through < |q| && q[o.through].sequenceId == id
  {
    if q == [] || id < q[0].sequenceId then Ignored
    else
      var k := FirstMatch(q, id, 0);
      if k == |q| then Ignored
      else if k > 0 && q[k].trace.None? then Flagged(k)
      else Finished(k)
  }

  function QueueAfter(q: seq<Packet>, o: Outcome): seq<Packet>
    requires o.Flagged? ==> o.at < |q|
    requires o.Finished? ==> o.through < |q|
  {
    match o
    case Ignored => q
    case Flagged(k) => q[k := q[k].(completed := true)]
    case Finished(k) => DropDone(q[k + 1..])
  }

  lemma {:induction false} DropDoneRefersTo(q: seq<Packet>, known: map<TraceId, Trace>)
    requires RefersTo(q, known)
    ensures RefersTo(DropDone(q), known)
  {
    if q != [] && q[0].trace.None? && q[0].completed {
      DropDoneRefersTo(q[1..], known);
    }
  }

  /** A completion brings no new trace into a queue. */
  lemma QueueAfterRefersTo(q: seq<Packet>, o: Outcome, known: map<TraceId, Trace>)
    requires o.Flagged? ==> o.at < |q|
    requires o.Finished? ==> o.through < |q|
    requires RefersTo(q, known)
    ensures RefersTo(QueueAfter(q, o), known)
  {
    if o.Finished? { DropDoneRefersTo(q[o.through + 1..], known); }
  }

  // ---------------------------------------------------------------------------------------------
  // The whole tracker

  datatype NodeId = Engine(adapter: uint64, ordinal: uint32) | HwNode(allocation: nat)

  datatype Node = Node(queue: seq<Packet>, isVideo: bool)

  datatype Context = Context(
    trace: Option<TraceId>,
    node: NodeId,
    parent: uint64,
    isParent: bool,
    isHwQueue: bool)

  /** The part of a PresentEvent that GpuTrace reads and writes. */
  datatype Frame = Frame(
    pid: uint32,
    gpuFrameCompleted: bool,
    gpuStartTime: uint64,
    readyTime: uint64,
    gpuDuration: uint64,
    gpuVideoDuration: uint64)

  datatype State = State(
    trackVideo: bool,
    devices: map<uint64, uint64>,
    nodes: map<NodeId, Node>,
    nextAllocation: nat,
    contexts: map<uint64, Context>,
    traces: map<TraceId, Trace>)

  function Initial(trackVideo: bool): State {
    State(trackVideo, map[], map[], 0, map[], map[])
  }

  /** The frame information of a process holds both of its traces. */
  ghost predicate Paired(traces: map<TraceId, Trace>) {
    forall p: uint32 :: Other(p) in traces <==> Video(p) in traces
  }

  ghost predicate ContextsClosed(contexts: map<uint64, Context>, nodes: map<NodeId, Node>, traces: map<TraceId, Trace>) {
    forall h :: h in contexts ==>
      contexts[h].node in nodes && (contexts[h].trace.Some? ==> contexts[h].trace.value in traces)
  }

  ghost predicate QueuesClosed(nodes: map<NodeId, Node>, traces: map<TraceId, Trace>) {
    forall n :: n in nodes ==> RefersTo(nodes[n].queue, traces)
  }

  /** No pointer dangles: what the source may dereference exists. */
  ghost predicate Closed(s: State) {
    && Paired(s.traces)
    && ContextsClosed(s.contexts, s.nodes, s.traces)
    && QueuesClosed(s.nodes, s.traces)
  }

  function RegisterDevice(s: State, hDevice: uint64, adapter: uint64): State {
    if hDevice in s.devices then s else s.(devices := s.devices[hDevice := adapter])
  }

  function UnregisterDevice(s: State, hDevice: uint64): State {
    s.(devices := s.devices - {hDevice})
  }

  function EnsureNode(s: State, n: NodeId): State {
    if n in s.nodes then s else s.(nodes := s.nodes[n := Node([], false)])
  }

  function EnsureProcess(s: State, pid: uint32): State {
    if Other(pid) in s.traces then s
    else s.(traces := s.traces[Video(pid) := ZERO_TRACE][Other(pid) := ZERO_TRACE])
  }

  function SetContextProcessId(s: State, h: uint64, pid: uint32): State
    requires h in s.contexts && s.contexts[h].node in s.nodes
  {
    var c := s.contexts[h];
    var id := if s.trackVideo && s.nodes[c.node].isVideo then Video(pid) else Other(pid);
    var s1 := EnsureProcess(s, pid);
    s1.(contexts := s1.contexts[h := c.(trace := Some(id))])
  }

  function RegisterContext(s: State, h: uint64, hDevice: uint64, ordinal: uint32, pid: uint32): State {
    if hDevice !in s.devices then s
    else
      var n := Engine(s.devices[hDevice], ordinal);
      var s1 := EnsureNode(s, n);
      var s2 := s1.(contexts := s1.contexts[h := Context(None, n, 0, false, false)]);
      if pid != 0 then SetContextProcessId(s2, h, pid) else s2
  }

  function RegisterHwQueueContext(s: State, h: uint64, hwQueue: uint64): State
    requires h in s.contexts ==> s.contexts[h].node in s.nodes
  {
    if h !in s.contexts then s
    else
      var parent := s.contexts[h].(isParent := true);
      var n := HwNode(s.nextAllocation);
      s.(nextAllocation := s.nextAllocation + 1,
         nodes := s.nodes[n := Node([], s.nodes[parent.node].isVideo)],
         contexts := s.contexts[h := parent][hwQueue := Context(parent.trace, n, h, false, true)])
  }

  /** The hardware queues that go away together with their parent context. */
  function Children(contexts: map<uint64, Context>, h: uint64): set<uint64> {
    set k | k in contexts && contexts[k].parent == h
  }

  function DeletedNodes(s: State, h: uint64): set<NodeId> {
    if h in s.contexts && s.contexts[h].isParent then
      var rest := s.contexts - {h};
      set k | k in Children(rest, h) :: rest[k].node
    else
      {}
  }

  function UnregisterContext(s: State, h: uint64): State {
    if h !in s.contexts then s
    else
      var rest := s.contexts - {h};
      if s.contexts[h].isParent then
        s.(contexts := rest - Children(rest, h), nodes := s.nodes - DeletedNodes(s, h))
      else
        s.(contexts := rest)
  }

  function SetEngineType(s: State, adapter: uint64, ordinal: uint32, isVideoEngine: bool): State {
    var n := Engine(adapter, ordinal);
    var s1 := EnsureNode(s, n);
    if isVideoEngine then s1.(nodes := s1.nodes[n := s1.nodes[n].(isVideo := true)]) else s1
  }

  function SetQueue(s: State, n: NodeId, q: seq<Packet>): State
    requires n in s.nodes
  {
    s.(nodes := s.nodes[n := s.nodes[n].(queue := q)])
  }

  function StartFront(s: State, f: Option<TraceId>, t: uint64): State
    requires f.Some? ==> f.value in s.traces
  {
    if f.None? then s else s.(traces := s.traces[f.value := StartPacket(s.traces[f.value], t)])
  }

  function FinishFront(s: State, f: Option<TraceId>, t: uint64): State
    requires f.Some? ==> f.value in s.traces
  {
    if f.None? then s else s.(traces := s.traces[f.value := FinishPacket(s.traces[f.value], t)])
  }

  function EnqueueWork(s: State, h: uint64, id: uint32, t: uint64, isWait: bool): State
    requires Closed(s) && h in s.contexts
  {
    var c := s.contexts[h];
    if c.trace.None? then s
    else
      var q := s.nodes[c.node].queue;
      var p := Packet(if isWait then None else c.trace, id, false);
      StartFront(SetQueue(s, c.node, q + [p]), if q == [] then p.trace else None, t)
  }

  function CompleteOnNode(s: State, n: NodeId, id: uint32, t: uint64): State
    requires Closed(s) && n in s.nodes
  {
    var q := s.nodes[n].queue;
    var o := Classify(q, id);
    var q' := QueueAfter(q, o);
    QueueAfterRefersTo(q, o, s.traces);
    var s1 := SetQueue(s, n, q');
    if o.Finished? then StartFront(FinishFront(s1, Front(q), t), Front(q'), t) else s1
  }

  function CompleteWork(s: State, h: uint64, id: uint32, t: uint64): State
    requires Closed(s) && h in s.contexts
  {
    var c := s.contexts[h];
    if c.trace.None? then s else CompleteOnNode(s, c.node, id, t)
  }

  lemma SetContextProcessIdClosed(s: State, h: uint64, pid: uint32)
    requires Closed(s) && h in s.contexts
    ensures Closed(SetContextProcessId(s, h, pid))
  {
    var s' := SetContextProcessId(s, h, pid);
    assert ContextsClosed(s'.contexts, s'.nodes, s'.traces);
    forall n | n in s.nodes
      ensures RefersTo(s.nodes[n].queue, s'.traces)
    {
      assert RefersTo(s.nodes[n].queue, s.traces);
    }
  }

  function EnqueueQueuePacket(s: State, h: uint64, id: uint32, pid: uint32, t: uint64, isWait: bool): State
    requires Closed(s)
  {
    if h !in s.contexts then s
    else
      var s1 := if s.contexts[h].trace.None? then SetContextProcessId(s, h, pid) else s;
      SetContextProcessIdClosed(s, h, pid);
      if s.contexts[h].isHwQueue then EnqueueWork(s1, h, id, t, isWait) else s1
  }

  function CompleteQueuePacket(s: State, h: uint64, id: uint32, t: uint64): State
    requires Closed(s)
  {
    if h in s.contexts && s.contexts[h].isHwQueue then CompleteWork(s, h, id, t) else s
  }

  function EnqueueDmaPacket(s: State, h: uint64, id: uint32, t: uint64): State
    requires Closed(s)
  {
    if h in s.contexts then EnqueueWork(s, h, id, t, false) else s
  }

  function CompleteDmaPacket(s: State, h: uint64, id: uint32, t: uint64): State
    requires Closed(s)
  {
    if h in s.contexts then CompleteWork(s, h, id, t) else s
  }

  // ---------------------------------------------------------------------------------------------
  // Frames

  /** Cuts the non-video trace at t: what the frame receives and what is left for the next frame. */
  function CutOther(tr: Trace, f: Frame, t: uint64): (Trace, Frame) {
    var (tr1, f1) :=
      if tr.firstPacketTime != 0 then
        (tr.(firstPacketTime := 0, lastPacketTime := 0, accumulatedPacketTime := 0),
         f.(gpuStartTime := tr.firstPacketTime, readyTime := tr.lastPacketTime, gpuDuration := tr.accumulatedPacketTime))
      else
        (tr, f);
    if tr1.runningPacketCount > 0 then
      var running := Sub64(t, tr1.runningPacketStartTime);
      var f2 := f1.(readyTime := t);
      if running > 0 then
        (tr1.(firstPacketTime := t, runningPacketStartTime := t), f2.(gpuDuration := Add64(f2.gpuDuration, running)))
      else
        (tr1, f2)
    else
      (tr1, f1)
  }

  function CutVideo(tr: Trace, f: Frame, t: uint64): (Trace, Frame) {
    var tr1 := tr.(firstPacketTime := 0, lastPacketTime := 0, accumulatedPacketTime := 0);
    var f1 := f.(gpuVideoDuration := tr.accumulatedPacketTime);
    if tr1.runningPacketCount > 0 then
      (tr1.(firstPacketTime := t, runningPacketStartTime := t),
       f1.(gpuVideoDuration := Add64(f1.gpuVideoDuration, Sub64(t, tr.runningPacketStartTime))))
    else
      (tr1, f1)
  }

  /** Cuts both traces of the frame's process. */
  function CutFrame(s: State, f: Frame, t: uint64): (State, Frame)
    requires Other(f.pid) in s.traces && Video(f.pid) in s.traces
  {
    var (other, f1) := CutOther(s.traces[Other(f.pid)], f, t);
    var (video, f2) := CutVideo(s.traces[Video(f.pid)], f1, t);
    (s.(traces := s.traces[Other(f.pid) := other][Video(f.pid) := video]), f2)
  }

  function GiveWork(s: State, f: Frame, t: uint64): (State, Frame)
    requires Closed(s)
  {
    var f1 := f.(gpuFrameCompleted := true);
    if Other(f.pid) in s.traces then CutFrame(s, f1, t) else (s, f1)
  }

  function CompleteFrame(s: State, f: Frame, t: uint64): (State, Frame)
    requires Closed(s)
  {
    if f.gpuFrameCompleted then (s, f)
    else
      var (s', f') := GiveWork(s, f, t);
      (s', if f'.readyTime == 0 then f'.(readyTime := t) else f')
  }
}
