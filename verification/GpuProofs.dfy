/**
 What the GPU tracker guarantees over every run: counters that summarise all queues never underflow,
 GPU time is neither lost nor counted twice, and a frame's duration fits between its start and ready times.
 */
module GpuProofs {
  import opened Wrappers
  import opened GpuSpec

  // ---------------------------------------------------------------------------------------------
  // Runs

  datatype Op =
    | RegisterDevice(hDevice: uint64, adapter: uint64)
    | UnregisterDevice(hDevice: uint64)
    | RegisterContext(h: uint64, hDevice: uint64, ordinal: uint32, pid: uint32)
    | RegisterHwQueueContext(h: uint64, hwQueue: uint64)
    | UnregisterContext(h: uint64)
    | SetEngineType(adapter: uint64, ordinal: uint32, isVideoEngine: bool)
    | EnqueueQueuePacket(h: uint64, id: uint32, pid: uint32, isWait: bool)
    | CompleteQueuePacket(h: uint64, id: uint32)
    | EnqueueDmaPacket(h: uint64, id: uint32)
    | CompleteDmaPacket(h: uint64, id: uint32)
    | NewPresent(pid: uint32, readyTime: uint64)
    | CompleteFrame(frame: nat)

  datatype Event = Event(t: uint64, op: Op)

  /** The tracker, every PresentEvent created so far, and the time of the last event. */
  datatype World = World(s: State, frames: seq<Frame>, now: uint64)

  /** Every allocated node was numbered below the next allocation. */
  ghost predicate NodesNumbered(nodes: map<NodeId, Node>, next: nat) {
    forall n :: n in nodes && n.HwNode? ==> n.allocation < next
  }

  /** An allocated node belongs to one context, and only such contexts have a parent. */
  ghost predicate ContextsOwn(contexts: map<uint64, Context>) {
    && (forall h :: h in contexts && contexts[h].parent != 0 ==> contexts[h].node.HwNode?)
    && (forall h, k :: h in contexts && k in contexts && h != k && contexts[h].node == contexts[k].node
                       ==> contexts[h].node.Engine?)
  }

  ghost predicate WellFormed(s: State) {
    Closed(s) && NodesNumbered(s.nodes, s.nextAllocation) && ContextsOwn(s.contexts)
  }

  /** The nodes whose running packet belongs to the trace: the reference for every counter below. */
  ghost function Running(nodes: map<NodeId, Node>, id: TraceId): set<NodeId> {
    set n | n in nodes && Front(nodes[n].queue) == Some(id)
  }

  /** Events arrive in time order; a pointer to a live present; a context handle is never null. */
  ghost predicate Admissible(w: World, e: Event) {
    && w.now <= e.t && 0 < e.t
    && match e.op
       case RegisterContext(h, _, _, _) => h != 0 && |w.s.nodes| < TWO_TO_THE_32 - 1
       case RegisterHwQueueContext(h, k) => h != 0 && k != 0 && |w.s.nodes| < TWO_TO_THE_32 - 1
       case SetEngineType(_, _, _) => |w.s.nodes| < TWO_TO_THE_32 - 1
       case UnregisterContext(h) => h != 0 && QueuesIdle(w.s, h)
       case CompleteFrame(i) => i < |w.frames|
       case _ => true
  }

  /** The hardware queues deleted with context h have no running packet. */
  ghost predicate QueuesIdle(s: State, h: uint64) {
    forall n :: n in DeletedNodes(s, h) && n in s.nodes ==> Front(s.nodes[n].queue).None?
  }

  function NewFrame(pid: uint32, readyTime: uint64): Frame {
    Frame(pid, false, 0, readyTime, 0, 0)
  }

  ghost function ApplyTracker(s: State, op: Op, t: uint64): State
    requires Closed(s)
  {
    match op
    case RegisterDevice(d, a) => GpuSpec.RegisterDevice(s, d, a)
    case UnregisterDevice(d) => GpuSpec.UnregisterDevice(s, d)
    case RegisterContext(h, d, o, pid) => GpuSpec.RegisterContext(s, h, d, o, pid)
    case RegisterHwQueueContext(h, k) => GpuSpec.RegisterHwQueueContext(s, h, k)
    case UnregisterContext(h) => GpuSpec.UnregisterContext(s, h)
    case SetEngineType(a, o, v) => GpuSpec.SetEngineType(s, a, o, v)
    case EnqueueQueuePacket(h, id, pid, wait) => GpuSpec.EnqueueQueuePacket(s, h, id, pid, t, wait)
    case CompleteQueuePacket(h, id) => GpuSpec.CompleteQueuePacket(s, h, id, t)
    case EnqueueDmaPacket(h, id) => GpuSpec.EnqueueDmaPacket(s, h, id, t)
    case CompleteDmaPacket(h, id) => GpuSpec.CompleteDmaPacket(s, h, id, t)
    case NewPresent(_, _) => s
    case CompleteFrame(_) => s
  }

  ghost function Apply(w: World, e: Event): World
    requires Closed(w.s) && Admissible(w, e)
  {
    match e.op
    case NewPresent(pid, ready) => World(w.s, w.frames + [NewFrame(pid, ready)], e.t)
    case CompleteFrame(i) =>
      var (s', f') := GpuSpec.CompleteFrame(w.s, w.frames[i], e.t);
      World(s', w.frames[i := f'], e.t)
    case _ => World(ApplyTracker(w.s, e.op, e.t), w.frames, e.t)
  }

  // ---------------------------------------------------------------------------------------------
  // The invariant of every reachable state

  /** The counter of one trace summarises all nodes; its clock fields make sense at the given time. */
  ghost predicate TraceOk(tr: Trace, running: nat, now: nat) {
    && tr.runningPacketCount == running
    && (running > 0 ==> 0 < tr.runningPacketStartTime <= now && tr.accumulatedPacketTime <= tr.runningPacketStartTime)
    && (running == 0 ==> tr.runningPacketStartTime == 0 && tr.accumulatedPacketTime <= now)
  }

  /** Only wait packets complete early, and never the packet at the head. */
  ghost predicate QueueOk(q: seq<Packet>) {
    && (forall i :: 0 <= i < |q| && q[i].completed ==> q[i].trace.None?)
    && (q != [] ==> !q[0].completed)
  }

  ghost predicate FrameOk(f: Frame) {
    !f.gpuFrameCompleted ==> f.gpuStartTime == f.gpuDuration == f.gpuVideoDuration == 0
  }

  ghost predicate QueuesOk(nodes: map<NodeId, Node>) {
    forall n :: n in nodes ==> QueueOk(nodes[n].queue)
  }

  ghost predicate CountsOk(nodes: map<NodeId, Node>, traces: map<TraceId, Trace>, now: nat) {
    forall id :: id in traces ==> TraceOk(traces[id], |Running(nodes, id)|, now)
  }

  ghost predicate TrackerInv(s: State, now: nat) {
    && WellFormed(s)
    && |s.nodes| < TWO_TO_THE_32
    && QueuesOk(s.nodes)
    && CountsOk(s.nodes, s.traces, now)
  }

  ghost predicate Inv(w: World) {
    && TrackerInv(w.s, w.now)
    && (forall f :: f in w.frames ==> FrameOk(f))
  }

  /** GPU time observed but not yet given to a frame. */
  ghost function Held(traces: map<TraceId, Trace>, id: TraceId, now: nat): int {
    if id in traces then HeldBy(traces[id], now) else 0
  }

  function HeldBy(tr: Trace, now: nat): int {
    tr.accumulatedPacketTime + if tr.runningPacketCount > 0 then now - tr.runningPacketStartTime else 0
  }

  function Duration(f: Frame, id: TraceId): nat {
    if f.pid != id.pid then 0 else if id.Other? then f.gpuDuration else f.gpuVideoDuration
  }

  /** The sum of the durations given to frames. */
  function Credited(frames: seq<Frame>, id: TraceId): nat {
    if frames == [] then 0 else Credited(frames[..|frames| - 1], id) + Duration(frames[|frames| - 1], id)
  }

  lemma {:induction false} CreditedUpdate(frames: seq<Frame>, i: nat, f: Frame, id: TraceId)
    requires i < |frames|
    ensures Credited(frames[i := f], id) == Credited(frames, id) - Duration(frames[i], id) + Duration(f, id)
  {
    var n := |frames| - 1;
    if i == n {
      assert frames[i := f][..n] == frames[..n];
    } else {
      CreditedUpdate(frames[..n], i, f, id);
      assert frames[i := f][..n] == frames[..n][i := f];
    }
  }

  // ---------------------------------------------------------------------------------------------
  // Steps that start and finish no packet

  /** The invariant holds after the step and no trace gained or lost time. */
  ghost predicate Keeps(s: State, s': State, t: nat) {
    TrackerInv(s', t) && forall id :: Held(s'.traces, id, t) == Held(s.traces, id, t)
  }

  /** A context may be written when it refers to a known trace and to a node that no other context owns. */
  lemma SetContextKeeps(s: State, h: uint64, c: Context, t: nat)
    requires TrackerInv(s, t)
    requires c.node in s.nodes && (c.trace.Some? ==> c.trace.value in s.traces)
    requires c.parent != 0 ==> c.node.HwNode?
    requires c.node.HwNode? ==> forall k :: k in s.contexts && k != h ==> s.contexts[k].node != c.node
    ensures Keeps(s, s.(contexts := s.contexts[h := c]), t)
  {
    assert ContextsOwn(s.contexts[h := c]);
  }

  lemma NodeAdded(m: map<NodeId, Node>, n: NodeId, v: Node)
    ensures |m[n := v]| <= |m| + 1
  {
    assert m[n := v].Keys == m.Keys + {n};
    CardinalityMonotone(m.Keys + {n}, m.Keys + {n});
    if n in m.Keys { assert m.Keys + {n} == m.Keys; } else { }
  }

  lemma {:induction false} CardinalityMonotone<T>(a: set<T>, b: set<T>)
    requires a <= b
    ensures |a| <= |b|
  {
    assert b == a + (b - a);
  }

  /** A node with an unchanged queue, or a new empty one, runs the same work. */
  lemma SetNodeKeeps(s: State, n: NodeId, v: Node, next: nat, t: nat)
    requires TrackerInv(s, t) && |s.nodes| < TWO_TO_THE_32 - 1
    requires v.queue == if n in s.nodes then s.nodes[n].queue else []
    requires s.nextAllocation <= next && (n.HwNode? ==> n.allocation < next)
    ensures Keeps(s, s.(nodes := s.nodes[n := v], nextAllocation := next), t)
  {
    hide Running, TraceOk, ContextsClosed;
    var nodes := s.nodes[n := v];
    NodeAdded(s.nodes, n, v);
    SameRunning(s.nodes, n, v);
    StillClosed(s, n, v);
  }

  lemma SameRunning(nodes: map<NodeId, Node>, n: NodeId, v: Node)
    requires v.queue == if n in nodes then nodes[n].queue else []
    ensures forall id :: Running(nodes[n := v], id) == Running(nodes, id)
  {
    forall id
      ensures Running(nodes[n := v], id) == Running(nodes, id)
    {
    }
  }

  lemma StillClosed(s: State, n: NodeId, v: Node)
    requires ContextsClosed(s.contexts, s.nodes, s.traces)
    ensures ContextsClosed(s.contexts, s.nodes[n := v], s.traces)
  {
  }

  /** No queue runs work of a process that is not yet known. */
  lemma UnknownIdle(nodes: map<NodeId, Node>, traces: map<TraceId, Trace>, id: TraceId)
    requires QueuesClosed(nodes, traces) && id !in traces
    ensures Running(nodes, id) == {}
  {
    forall n | n in nodes
      ensures Front(nodes[n].queue) != Some(id)
    {
      assert RefersTo(nodes[n].queue, traces);
    }
  }

  lemma EnsureProcessKeeps(s: State, pid: uint32, t: nat)
    requires TrackerInv(s, t)
    ensures Keeps(s, EnsureProcess(s, pid), t)
  {
    if Other(pid) !in s.traces {
      var s' := EnsureProcess(s, pid);
      UnknownIdle(s.nodes, s.traces, Other(pid));
      UnknownIdle(s.nodes, s.traces, Video(pid));
      WiderTraces(s, s'.traces);
    }
  }

  /** Adding traces leaves no pointer dangling. */
  lemma WiderTraces(s: State, traces: map<TraceId, Trace>)
    requires WellFormed(s) && Paired(traces) && s.traces.Keys <= traces.Keys
    ensures WellFormed(s.(traces := traces))
  {
    forall n | n in s.nodes
      ensures RefersTo(s.nodes[n].queue, traces)
    {
      assert RefersTo(s.nodes[n].queue, s.traces);
    }
  }

  lemma SetContextProcessIdKeeps(s: State, h: uint64, pid: uint32, t: nat)
    requires TrackerInv(s, t) && h in s.contexts
    ensures Keeps(s, GpuSpec.SetContextProcessId(s, h, pid), t)
  {
    var c := s.contexts[h];
    var id := if s.trackVideo && s.nodes[c.node].isVideo then Video(pid) else Other(pid);
    EnsureProcessKeeps(s, pid, t);
    SetContextKeeps(EnsureProcess(s, pid), h, c.(trace := Some(id)), t);
  }

  lemma EnsureNodeKeeps(s: State, n: NodeId, t: nat)
    requires TrackerInv(s, t) && |s.nodes| < TWO_TO_THE_32 - 1 && n.Engine?
    ensures Keeps(s, EnsureNode(s, n), t)
  {
    if n !in s.nodes { SetNodeKeeps(s, n, Node([], false), s.nextAllocation, t); }
  }

  lemma RegisterContextKeeps(s: State, h: uint64, d: uint64, o: uint32, pid: uint32, t: nat)
    requires TrackerInv(s, t) && |s.nodes| < TWO_TO_THE_32 - 1
    ensures Keeps(s, GpuSpec.RegisterContext(s, h, d, o, pid), t)
  {
    if d in s.devices {
      var n := Engine(s.devices[d], o);
      var s1 := EnsureNode(s, n);
      EnsureNodeKeeps(s, n, t);
      SetContextKeeps(s1, h, Context(None, n, 0, false, false), t);
      var s2 := s1.(contexts := s1.contexts[h := Context(None, n, 0, false, false)]);
      if pid != 0 { SetContextProcessIdKeeps(s2, h, pid, t); }
    }
  }

  lemma RegisterHwQueueContextKeeps(s: State, h: uint64, k: uint64, t: nat)
    requires TrackerInv(s, t) && |s.nodes| < TWO_TO_THE_32 - 1
    ensures Keeps(s, GpuSpec.RegisterHwQueueContext(s, h, k), t)
  {
    hide QueuesOk, CountsOk, Held;
    if h in s.contexts {
      var n := HwNode(s.nextAllocation);
      var parent := s.contexts[h].(isParent := true);
      SetNodeKeeps(s, n, Node([], s.nodes[parent.node].isVideo), s.nextAllocation + 1, t);
      var s1 := s.(nodes := s.nodes[n := Node([], s.nodes[parent.node].isVideo)], nextAllocation := s.nextAllocation + 1);
      SetContextKeeps(s1, h, parent, t);
      SetContextKeeps(s1.(contexts := s1.contexts[h := parent]), k, Context(parent.trace, n, h, false, true), t);
    }
  }

  lemma SetEngineTypeKeeps(s: State, a: uint64, o: uint32, video: bool, t: nat)
    requires TrackerInv(s, t) && |s.nodes| < TWO_TO_THE_32 - 1
    ensures Keeps(s, GpuSpec.SetEngineType(s, a, o, video), t)
  {
    hide WellFormed, QueuesOk, CountsOk, Held;
    var n := Engine(a, o);
    var v := Node(if n in s.nodes then s.nodes[n].queue else [], video || (n in s.nodes && s.nodes[n].isVideo));
    SetNodeKeeps(s, n, v, s.nextAllocation, t);
    assert GpuSpec.SetEngineType(s, a, o, video).nodes == s.nodes[n := v];
  }

  // ---------------------------------------------------------------------------------------------
  // Packets start and finish

  ghost function Unit(b: bool): nat { if b then 1 else 0 }

  /** Replacing one queue moves at most that node between the running sets. */
  lemma RunningAfterSetQueue(s: State, n: NodeId, q: seq<Packet>, id: TraceId)
    requires n in s.nodes
    ensures |Running(SetQueue(s, n, q).nodes, id)| ==
            |Running(s.nodes, id)| - Unit(Front(s.nodes[n].queue) == Some(id)) + Unit(Front(q) == Some(id))
  {
    var before := Running(s.nodes, id);
    var after := Running(SetQueue(s, n, q).nodes, id);
    assert n in before <==> Front(s.nodes[n].queue) == Some(id);
    assert n in after <==> Front(q) == Some(id);
    assert before - {n} == after - {n};
    assert |before| == |before - {n}| + Unit(n in before);
    assert |after| == |after - {n}| + Unit(n in after);
  }

  lemma RunningBounded(nodes: map<NodeId, Node>, id: TraceId)
    ensures |Running(nodes, id)| <= |nodes|
  {
    CardinalityMonotone(Running(nodes, id), nodes.Keys);
  }

  lemma StartOk(tr: Trace, running: nat, t: uint64)
    requires TraceOk(tr, running, t) && running + 1 < TWO_TO_THE_32 && 0 < t
    ensures TraceOk(StartPacket(tr, t), running + 1, t) && HeldBy(StartPacket(tr, t), t) == HeldBy(tr, t)
  {
  }

  lemma FinishOk(tr: Trace, running: nat, t: uint64)
    requires TraceOk(tr, running, t) && 0 < running && 0 < t
    ensures TraceOk(FinishPacket(tr, t), running - 1, t) && HeldBy(FinishPacket(tr, t), t) == HeldBy(tr, t)
  {
  }

  lemma SetQueueWellFormed(s: State, n: NodeId, q: seq<Packet>)
    requires WellFormed(s) && n in s.nodes && RefersTo(q, s.traces)
    ensures WellFormed(SetQueue(s, n, q)) && |SetQueue(s, n, q).nodes| == |s.nodes|
  {
    assert SetQueue(s, n, q).nodes.Keys == s.nodes.Keys;
  }

  lemma SetQueueOk(nodes: map<NodeId, Node>, n: NodeId, v: Node)
    requires QueuesOk(nodes) && QueueOk(v.queue)
    ensures QueuesOk(nodes[n := v])
  {
  }

  /** The counters once the head of one queue finished but its successor has not started yet. */
  ghost predicate CountsBut(nodes: map<NodeId, Node>, traces: map<TraceId, Trace>, now: nat, pending: Option<TraceId>) {
    forall id :: id in traces ==>
      && Unit(pending == Some(id)) <= |Running(nodes, id)|
      && TraceOk(traces[id], |Running(nodes, id)| - Unit(pending == Some(id)), now)
  }

  /** Starting the pending packet makes every counter right again. */
  lemma StartFrontKeeps(s: State, pending: Option<TraceId>, t: uint64)
    requires WellFormed(s) && |s.nodes| < TWO_TO_THE_32 && QueuesOk(s.nodes) && 0 < t
    requires CountsBut(s.nodes, s.traces, t, pending) && (pending.Some? ==> pending.value in s.traces)
    ensures Keeps(s, StartFront(s, pending, t), t)
  {
    var s' := StartFront(s, pending, t);
    WiderTraces(s, s'.traces);
    forall id | id in s.traces
      ensures TraceOk(s'.traces[id], |Running(s.nodes, id)|, t) && HeldBy(s'.traces[id], t) == HeldBy(s.traces[id], t)
    {
      if pending == Some(id) {
        RunningBounded(s.nodes, id);
        StartOk(s.traces[id], |Running(s.nodes, id)| - 1, t);
      }
    }
  }

  /** Enqueueing keeps the invariant and moves no time. */
  lemma EnqueueWorkKeeps(s: State, h: uint64, id: uint32, t: uint64, isWait: bool)
    requires TrackerInv(s, t) && h in s.contexts && 0 < t
    ensures Keeps(s, GpuSpec.EnqueueWork(s, h, id, t, isWait), t)
  {
    var c := s.contexts[h];
    if c.trace.Some? {
      AppendKeeps(s, c.node, Packet(if isWait then None else c.trace, id, false), t);
    }
  }

  lemma AppendKeeps(s: State, n: NodeId, p: Packet, t: uint64)
    requires TrackerInv(s, t) && n in s.nodes && 0 < t
    requires !p.completed && (p.trace.Some? ==> p.trace.value in s.traces)
    ensures var q := s.nodes[n].queue;
            Keeps(s, StartFront(SetQueue(s, n, q + [p]), if q == [] then p.trace else None, t), t)
  {
    var q := s.nodes[n].queue;
    var s1 := SetQueue(s, n, q + [p]);
    assert RefersTo(q, s.traces);
    EnqueueRefersTo(q, p, s.traces);
    SetQueueWellFormed(s, n, q + [p]);
    SetQueueOk(s.nodes, n, s1.nodes[n]);
    EnqueueCounts(s, n, p, t);
    StartFrontKeeps(s1, if q == [] then p.trace else None, t);
  }

  /** A packet appended to an empty queue is the only one that has yet to start. */
  lemma EnqueueCounts(s: State, n: NodeId, p: Packet, t: uint64)
    requires CountsOk(s.nodes, s.traces, t) && n in s.nodes
    ensures var q := s.nodes[n].queue;
            CountsBut(SetQueue(s, n, q + [p]).nodes, s.traces, t, if q == [] then p.trace else None)
  {
    forall k | k in s.traces
      ensures |Running(SetQueue(s, n, s.nodes[n].queue + [p]).nodes, k)|
              == |Running(s.nodes, k)| + Unit(s.nodes[n].queue == [] && p.trace == Some(k))
    {
      RunningAfterSetQueue(s, n, s.nodes[n].queue + [p], k);
    }
  }

  lemma EnqueueRefersTo(q: seq<Packet>, p: Packet, known: map<TraceId, Trace>)
    requires RefersTo(q, known) && (p.trace.Some? ==> p.trace.value in known)
    ensures RefersTo(q + [p], known)
  {
  }

  lemma {:induction false} DropDoneOk(q: seq<Packet>)
    requires forall i :: 0 <= i < |q| && q[i].completed ==> q[i].trace.None?
    ensures QueueOk(DropDone(q))
  {
    if q != [] && q[0].trace.None? && q[0].completed {
      DropDoneOk(q[1..]);
    }
  }

  lemma ClassifyOk(q: seq<Packet>, id: uint32)
    requires QueueOk(q)
    ensures QueueOk(QueueAfter(q, Classify(q, id)))
  {
    match Classify(q, id)
    case Ignored =>
    case Flagged(k) =>
    case Finished(k) => DropDoneOk(q[k + 1..]);
  }

  /** Completing keeps the invariant and moves no time. */
  lemma CompleteWorkKeeps(s: State, h: uint64, id: uint32, t: uint64)
    requires TrackerInv(s, t) && h in s.contexts && 0 < t
    ensures Keeps(s, GpuSpec.CompleteWork(s, h, id, t), t)
  {
    var c := s.contexts[h];
    if c.trace.Some? {
      var q := s.nodes[c.node].queue;
      var o := Classify(q, id);
      var q' := QueueAfter(q, o);
      QueueAfterRefersTo(q, o, s.traces);
      ClassifyOk(q, id);
      SetQueueWellFormed(s, c.node, q');
      if o.Finished? {
        assert RefersTo(q, s.traces);
        FinishThenStartKeeps(s, c.node, q', t);
      } else {
        SetQueueSameFront(s, c.node, q', t);
      }
    }
  }

  lemma SetQueueSameFront(s: State, n: NodeId, q': seq<Packet>, t: uint64)
    requires TrackerInv(s, t) && n in s.nodes && QueueOk(q') && RefersTo(q', s.traces)
    requires Front(q') == Front(s.nodes[n].queue)
    ensures Keeps(s, SetQueue(s, n, q'), t)
  {
    SetQueueWellFormed(s, n, q');
    forall k
      ensures |Running(SetQueue(s, n, q').nodes, k)| == |Running(s.nodes, k)|
    {
      RunningAfterSetQueue(s, n, q', k);
    }
  }

  /** One counter when the head of one queue finishes and the head of its replacement has yet to start. */
  lemma FinishFrontCount(s: State, n: NodeId, q': seq<Packet>, t: uint64, k: TraceId)
    requires CountsOk(s.nodes, s.traces, t) && n in s.nodes && s.nodes[n].queue != [] && 0 < t && k in s.traces
    ensures var front := Front(s.nodes[n].queue);
            var tr := if front == Some(k) then FinishPacket(s.traces[k], t) else s.traces[k];
            var running := |Running(SetQueue(s, n, q').nodes, k)|;
            var starts := Unit(Front(q') == Some(k));
            starts <= running && TraceOk(tr, running - starts, t) && HeldBy(tr, t) == HeldBy(s.traces[k], t)
  {
    RunningAfterSetQueue(s, n, q', k);
    if Front(s.nodes[n].queue) == Some(k) {
      assert n in Running(s.nodes, k);
      FinishOk(s.traces[k], |Running(s.nodes, k)|, t);
    }
  }

  lemma FinishFrontCounts(s: State, n: NodeId, q': seq<Packet>, t: uint64)
    requires CountsOk(s.nodes, s.traces, t) && n in s.nodes && s.nodes[n].queue != [] && 0 < t
    requires RefersTo(s.nodes[n].queue, s.traces)
    ensures var s2 := FinishFront(SetQueue(s, n, q'), Front(s.nodes[n].queue), t);
            && s2.traces.Keys == s.traces.Keys
            && CountsBut(s2.nodes, s2.traces, t, Front(q'))
            && forall k :: Held(s2.traces, k, t) == Held(s.traces, k, t)
  {
    var s2 := FinishFront(SetQueue(s, n, q'), Front(s.nodes[n].queue), t);
    forall k | k in s.traces
      ensures
        && Unit(Front(q') == Some(k)) <= |Running(s2.nodes, k)|
        && TraceOk(s2.traces[k], |Running(s2.nodes, k)| - Unit(Front(q') == Some(k)), t)
        && HeldBy(s2.traces[k], t) == HeldBy(s.traces[k], t)
    {
      FinishFrontCount(s, n, q', t, k);
      hide Running, TraceOk, HeldBy, FinishPacket;
    }
  }

  /** Replacing a queue whose head runs by one whose head starts now keeps every counter right. */
  lemma FinishThenStartKeeps(s: State, n: NodeId, q': seq<Packet>, t: uint64)
    requires TrackerInv(s, t) && n in s.nodes && s.nodes[n].queue != [] && 0 < t
    requires QueueOk(q') && RefersTo(q', s.traces)
    requires RefersTo(s.nodes[n].queue, s.traces)
    ensures Keeps(s, StartFront(FinishFront(SetQueue(s, n, q'), Front(s.nodes[n].queue), t), Front(q'), t), t)
  {
    var s1 := SetQueue(s, n, q');
    var s2 := FinishFront(s1, Front(s.nodes[n].queue), t);
    FinishFrontCounts(s, n, q', t);
    SetQueueWellFormed(s, n, q');
    SetQueueOk(s.nodes, n, s1.nodes[n]);
    WiderTraces(s1, s2.traces);
    StartFrontKeeps(s2, Front(q'), t);
  }

  // ---------------------------------------------------------------------------------------------
  // Contexts go away

  lemma UnregisterContextsClosed(s: State, h: uint64)
    requires WellFormed(s) && h != 0
    ensures var s' := GpuSpec.UnregisterContext(s, h); ContextsClosed(s'.contexts, s'.nodes, s'.traces)
  {
    var rest := s.contexts - {h};
    forall k, c | k in rest && rest[k].parent != h && c in Children(rest, h)
      ensures rest[k].node != rest[c].node
    {
      assert rest[c].node.HwNode?;
    }
  }

  lemma UnregisterWellFormed(s: State, h: uint64)
    requires WellFormed(s) && h != 0
    ensures WellFormed(GpuSpec.UnregisterContext(s, h))
  {
    UnregisterContextsClosed(s, h);
  }

  lemma RunningAfterUnregister(s: State, h: uint64, id: TraceId)
    ensures Running(GpuSpec.UnregisterContext(s, h).nodes, id) == Running(s.nodes, id) - DeletedNodes(s, h)
  {
  }

  /**
   UnregisterContext deletes hardware-queue nodes without adjusting the counters.  The counters stay right
   exactly when none of the deleted queues has a running packet.
   */
  lemma UnregisterContextExact(s: State, h: uint64, now: nat)
    requires TrackerInv(s, now) && h != 0
    ensures TrackerInv(GpuSpec.UnregisterContext(s, h), now) <==> QueuesIdle(s, h)
  {
    if QueuesIdle(s, h) {
      UnregisterIdleKeeps(s, h, now);
    } else {
      var n :| n in DeletedNodes(s, h) && n in s.nodes && Front(s.nodes[n].queue).Some?;
      LostRunningNode(s, h, n, now);
    }
  }

  lemma UnregisterIdleKeeps(s: State, h: uint64, now: nat)
    requires TrackerInv(s, now) && h != 0 && QueuesIdle(s, h)
    ensures Keeps(s, GpuSpec.UnregisterContext(s, h), now)
  {
    UnregisterWellFormed(s, h);
    var nodes' := GpuSpec.UnregisterContext(s, h).nodes;
    IdleNodesDeleted(s.nodes, nodes', s.traces, now);
  }

  lemma IdleNodesDeleted(nodes: map<NodeId, Node>, nodes': map<NodeId, Node>, traces: map<TraceId, Trace>, now: nat)
    requires CountsOk(nodes, traces, now) && QueuesOk(nodes)
    requires forall n :: n in nodes' ==> n in nodes && nodes'[n] == nodes[n]
    requires forall n :: n in nodes && n !in nodes' ==> Front(nodes[n].queue).None?
    ensures CountsOk(nodes', traces, now) && QueuesOk(nodes') && |nodes'| <= |nodes|
  {
    assert nodes'.Keys <= nodes.Keys;
    CardinalityMonotone(nodes'.Keys, nodes.Keys);
    forall id
      ensures Running(nodes', id) == Running(nodes, id)
    {
    }
  }

  /** A deleted running node leaves its trace counted once too often. */
  lemma LostRunningNode(s: State, h: uint64, n: NodeId, now: nat)
    requires TrackerInv(s, now) && n in DeletedNodes(s, h) && n in s.nodes && Front(s.nodes[n].queue).Some?
    ensures !CountsOk(GpuSpec.UnregisterContext(s, h).nodes, s.traces, now)
  {
    var nodes' := GpuSpec.UnregisterContext(s, h).nodes;
    var id := Front(s.nodes[n].queue).value;
    assert RefersTo(s.nodes[n].queue, s.traces);
    RunningAfterUnregister(s, h, id);
    assert n in Running(s.nodes, id);
    assert Running(nodes', id) <= Running(s.nodes, id) - {n};
    CardinalityMonotone(Running(nodes', id), Running(s.nodes, id) - {n});
    assert TraceOk(s.traces[id], |Running(s.nodes, id)|, now);
    assert !TraceOk(s.traces[id], |Running(nodes', id)|, now);
  }

  // ---------------------------------------------------------------------------------------------
  // Frames cut time

  lemma CutOtherKeeps(tr: Trace, f: Frame, t: uint64, running: nat)
    requires TraceOk(tr, running, t) && f.gpuDuration == 0 && 0 < t
    ensures var (tr', f') := CutOther(tr, f, t);
            && TraceOk(tr', running, t)
            && f' == f.(gpuStartTime := f'.gpuStartTime, readyTime := f'.readyTime, gpuDuration := f'.gpuDuration)
            && f'.gpuDuration + HeldBy(tr', t) == HeldBy(tr, t)
  {
  }

  lemma CutVideoKeeps(tr: Trace, f: Frame, t: uint64, running: nat)
    requires TraceOk(tr, running, t) && 0 < t
    ensures var (tr', f') := CutVideo(tr, f, t);
            && TraceOk(tr', running, t)
            && f' == f.(gpuVideoDuration := f'.gpuVideoDuration)
            && f'.gpuVideoDuration + HeldBy(tr', t) == HeldBy(tr, t)
  {
  }

  /** Completing a frame moves time from the trace to the frame and nowhere else. */
  lemma CompleteFrameKeeps(s: State, f: Frame, t: uint64)
    requires TrackerInv(s, t) && FrameOk(f) && 0 < t
    ensures var (s', f') := GpuSpec.CompleteFrame(s, f, t);
            && TrackerInv(s', t) && f'.pid == f.pid && f'.gpuFrameCompleted
            && forall id :: Held(s'.traces, id, t) + Duration(f', id) == Held(s.traces, id, t) + Duration(f, id)
  {
    hide NodesNumbered, ContextsOwn, QueuesOk, ContextsClosed, QueuesClosed, Credited, CutOther, CutVideo, Running, TraceOk;
    var f1 := f.(gpuFrameCompleted := true);
    if !f.gpuFrameCompleted && Other(f.pid) in s.traces {
      var o, v := Other(f.pid), Video(f.pid);
      assert v in s.traces;
      var (s', f') := GpuSpec.CompleteFrame(s, f, t);
      var f2 := CutOther(s.traces[o], f1, t).1;
      CutOtherKeeps(s.traces[o], f1, t, |Running(s.nodes, o)|);
      CutVideoKeeps(s.traces[v], f2, t, |Running(s.nodes, v)|);
      WiderTraces(s, s'.traces);
    }
  }

  // ---------------------------------------------------------------------------------------------
  // One event

  /** The clock advances: held time grows exactly while some node runs the trace. */
  lemma TickHolds(s: State, now: nat, t: nat)
    requires TrackerInv(s, now) && now <= t
    ensures TrackerInv(s, t)
    ensures forall id :: Held(s.traces, id, t) == Held(s.traces, id, now) + if Running(s.nodes, id) != {} then t - now else 0
  {
    forall id
      ensures Held(s.traces, id, t) == Held(s.traces, id, now) + if Running(s.nodes, id) != {} then t - now else 0
    {
      if id !in s.traces {
        UnknownIdle(s.nodes, s.traces, id);
      } else {
        assert TraceOk(s.traces[id], |Running(s.nodes, id)|, now);
      }
    }
  }

  lemma TrackerStep(w: World, op: Op, t: uint64)
    requires w.now <= t && Admissible(w, Event(t, op)) && TrackerInv(w.s, t)
    ensures Keeps(w.s, ApplyTracker(w.s, op, t), t)
  {
    var s := w.s;
    match op
    case RegisterDevice(d, a) =>
    case UnregisterDevice(d) =>
    case RegisterContext(h, d, o, pid) => RegisterContextKeeps(s, h, d, o, pid, t);
    case RegisterHwQueueContext(h, k) => RegisterHwQueueContextKeeps(s, h, k, t);
    case UnregisterContext(h) => UnregisterIdleKeeps(s, h, t);
    case SetEngineType(a, o, v) => SetEngineTypeKeeps(s, a, o, v, t);
    case EnqueueQueuePacket(h, id, pid, wait) => EnqueueQueuePacketKeeps(s, h, id, pid, t, wait);
    case CompleteQueuePacket(h, id) => if h in s.contexts { CompleteWorkKeeps(s, h, id, t); }
    case EnqueueDmaPacket(h, id) => if h in s.contexts { EnqueueWorkKeeps(s, h, id, t, false); }
    case CompleteDmaPacket(h, id) => if h in s.contexts { CompleteWorkKeeps(s, h, id, t); }
    case NewPresent(_, _) =>
    case CompleteFrame(_) =>
  }

  lemma EnqueueQueuePacketKeeps(s: State, h: uint64, id: uint32, pid: uint32, t: uint64, wait: bool)
    requires TrackerInv(s, t) && 0 < t
    ensures Keeps(s, GpuSpec.EnqueueQueuePacket(s, h, id, pid, t, wait), t)
  {
    if h in s.contexts {
      SetContextProcessIdKeeps(s, h, pid, t);
      var s1 := if s.contexts[h].trace.None? then GpuSpec.SetContextProcessId(s, h, pid) else s;
      if s.contexts[h].isHwQueue { EnqueueWorkKeeps(s1, h, id, t, wait); }
    }
  }

  /** The balance of one trace: credited to frames plus held by the tracker. */
  ghost function Balance(w: World, id: TraceId): int {
    Credited(w.frames, id) + Held(w.s.traces, id, w.now)
  }

  /** Time that passes before the event while at least one node runs the trace. */
  ghost function BusyBefore(w: World, e: Event, id: TraceId): nat
    requires w.now <= e.t
  {
    if Running(w.s.nodes, id) != {} then e.t - w.now else 0
  }

  /** Every admissible event keeps the invariant and conserves time. */
  lemma Step(w: World, e: Event)
    requires Inv(w) && Admissible(w, e)
    ensures Inv(Apply(w, e))
    ensures forall id :: Balance(Apply(w, e), id) == Balance(w, id) + BusyBefore(w, e, id)
  {
    TickHolds(w.s, w.now, e.t);
    match e.op {
      case NewPresent(pid, ready) => NewPresentStep(w, e);
      case CompleteFrame(i) => CompleteFrameStep(w, e);
      case _ => TrackerStep(w, e.op, e.t);
    }
  }

  lemma NewPresentStep(w: World, e: Event)
    requires Inv(w) && Admissible(w, e) && e.op.NewPresent?
    ensures var frames' := Apply(w, e).frames;
            && (forall f :: f in frames' ==> FrameOk(f))
            && (forall id :: Credited(frames', id) == Credited(w.frames, id))
  {
    assert Apply(w, e).frames[..|w.frames|] == w.frames;
  }

  lemma CompleteFrameStep(w: World, e: Event)
    requires Inv(w) && TrackerInv(w.s, e.t) && Admissible(w, e) && e.op.CompleteFrame?
    ensures var w' := Apply(w, e);
            && Inv(w')
            && (forall id :: Credited(w'.frames, id) + Held(w'.s.traces, id, e.t)
                             == Credited(w.frames, id) + Held(w.s.traces, id, e.t))
  {
    var i := e.op.frame;
    var f := w.frames[i];
    var w' := Apply(w, e);
    assert f in w.frames;
    CompleteFrameKeeps(w.s, f, e.t);
    forall id
      ensures Credited(w'.frames, id) == Credited(w.frames, id) - Duration(f, id) + Duration(w'.frames[i], id)
    {
      CreditedUpdate(w.frames, i, w'.frames[i], id);
    }
  }

  // ---------------------------------------------------------------------------------------------
  // Whole runs

  ghost predicate Legal(w: World, events: seq<Event>)
    requires Inv(w)
    decreases |events|
  {
    events == [] ||
    (Admissible(w, events[0]) && (Step(w, events[0]); Legal(Apply(w, events[0]), events[1..])))
  }

  ghost function Exec(w: World, events: seq<Event>): World
    requires Inv(w) && Legal(w, events)
    decreases |events|
  {
    if events == [] then w else Step(w, events[0]); Exec(Apply(w, events[0]), events[1..])
  }

  /** Time during which the front packet of at least one node belonged to the trace. */
  ghost function BusyTime(w: World, events: seq<Event>, id: TraceId): nat
    requires Inv(w) && Legal(w, events)
    decreases |events|
  {
    if events == [] then 0
    else Step(w, events[0]); BusyBefore(w, events[0], id) + BusyTime(Apply(w, events[0]), events[1..], id)
  }

  ghost function Start(trackVideo: bool): (w: World)
    ensures Inv(w)
  {
    World(Initial(trackVideo), [], 0)
  }

  /** GPU time is conserved from any state of any run. */
  lemma {:induction false} TimeConserved(w: World, events: seq<Event>, id: TraceId)
    requires Inv(w) && Legal(w, events)
    ensures Balance(Exec(w, events), id) == Balance(w, id) + BusyTime(w, events, id)
    decreases |events|
  {
    if events != [] {
      Step(w, events[0]);
      TimeConserved(Apply(w, events[0]), events[1..], id);
    }
  }

  /**
   In every run, what frames received plus what the tracker still holds is the time during which
   at least one node was running work of that process and engine class.
   */
  lemma GpuTimeConserved(trackVideo: bool, events: seq<Event>, id: TraceId)
    requires Legal(Start(trackVideo), events)
    ensures var w := Exec(Start(trackVideo), events);
            Credited(w.frames, id) + Held(w.s.traces, id, w.now) == BusyTime(Start(trackVideo), events, id)
  {
    TimeConserved(Start(trackVideo), events, id);
  }

  /** Every reachable state satisfies the invariant. */
  lemma {:induction false} ReachableInv(w: World, events: seq<Event>)
    requires Inv(w) && Legal(w, events)
    ensures Inv(Exec(w, events))
    decreases |events|
  {
    if events != [] {
      Step(w, events[0]);
      ReachableInv(Apply(w, events[0]), events[1..]);
    }
  }

  /** The counters of a reachable state, spelled out. */
  lemma CountersSummariseQueues(trackVideo: bool, events: seq<Event>, id: TraceId)
    requires Legal(Start(trackVideo), events)
    requires id in Exec(Start(trackVideo), events).s.traces
    ensures var w := Exec(Start(trackVideo), events);
            var tr := w.s.traces[id];
            && tr.runningPacketCount == |Running(w.s.nodes, id)|
            && (tr.runningPacketStartTime != 0 <==> Running(w.s.nodes, id) != {})
            && tr.runningPacketStartTime <= w.now
            && tr.accumulatedPacketTime <= w.now
  {
    ReachableInv(Start(trackVideo), events);
  }
}
