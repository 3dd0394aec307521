/**
 The tracker as the trace consumer drives it: nodes, traces and contexts updated in place.  Each method is
 proved to take the abstract state exactly where GpuSpec says.
 */
module GpuTracker {
  import opened Wrappers
  import opened GpuNode
  import S = GpuSpec
  import GpuQueues

  /** The fields of a PresentEvent that GPU tracking fills in. */
  class PresentEvent {
    const processId: S.uint32
    var gpuFrameCompleted: bool
    var gpuStartTime: S.uint64
    var readyTime: S.uint64
    var gpuDuration: S.uint64
    var gpuVideoDuration: S.uint64

    constructor (pid: S.uint32)
      ensures Value() == S.Frame(pid, false, 0, 0, 0, 0)
    {
      processId, gpuFrameCompleted := pid, false;
      gpuStartTime, readyTime, gpuDuration, gpuVideoDuration := 0, 0, 0, 0;
    }

    ghost function Value(): S.Frame
      reads this
    {
      S.Frame(processId, gpuFrameCompleted, gpuStartTime, readyTime, gpuDuration, gpuVideoDuration)
    }
  }

  /** The execution information of one process and engine class, shared by all its packets. */
  class PacketTrace {
    var firstPacketTime: S.uint64
    var lastPacketTime: S.uint64
    var accumulatedPacketTime: S.uint64
    var runningPacketStartTime: S.uint64
    var runningPacketCount: S.uint32

    constructor ()
      ensures Value() == S.ZERO_TRACE
    {
      firstPacketTime, lastPacketTime, accumulatedPacketTime := 0, 0, 0;
      runningPacketStartTime, runningPacketCount := 0, 0;
    }

    ghost function Value(): S.Trace
      reads this
    {
      S.Trace(firstPacketTime, lastPacketTime, accumulatedPacketTime, runningPacketStartTime, runningPacketCount)
    }

    method StartPacket(timestamp: S.uint64)
      modifies this
      ensures Value() == S.StartPacket(old(Value()), timestamp)
    {
      runningPacketCount := S.Inc32(runningPacketCount);
      if runningPacketCount == 1 {
        runningPacketStartTime := timestamp;
        if firstPacketTime == 0 {
          firstPacketTime := timestamp;
        }
      }
    }

    method CompletePacket(timestamp: S.uint64)
      modifies this
      ensures Value() == S.CompletePacket(old(Value()), timestamp)
    {
      var accumulatedTime := S.Sub64(timestamp, runningPacketStartTime);
      lastPacketTime := timestamp;
      accumulatedPacketTime := S.Add64(accumulatedPacketTime, accumulatedTime);
      runningPacketStartTime := 0;
    }

    /** Gives the tracked work to the frame; work still running is split at the timestamp. */
    method CutOther(present: PresentEvent, timestamp: S.uint64)
      modifies this, present
      ensures (Value(), present.Value()) == S.CutOther(old(Value()), old(present.Value()), timestamp)
    {
      if firstPacketTime != 0 {
        present.gpuStartTime := firstPacketTime;
        present.readyTime := lastPacketTime;
        present.gpuDuration := accumulatedPacketTime;
        firstPacketTime := 0;
        lastPacketTime := 0;
        accumulatedPacketTime := 0;
      }
      if runningPacketCount > 0 {
        present.readyTime := timestamp;
        var accumulatedTime := S.Sub64(timestamp, runningPacketStartTime);
        if accumulatedTime > 0 {
          present.gpuDuration := S.Add64(present.gpuDuration, accumulatedTime);
          firstPacketTime := timestamp;
          runningPacketStartTime := timestamp;
        }
      }
    }

    method CutVideo(present: PresentEvent, timestamp: S.uint64)
      modifies this, present
      ensures (Value(), present.Value()) == S.CutVideo(old(Value()), old(present.Value()), timestamp)
    {
      present.gpuVideoDuration := accumulatedPacketTime;
      firstPacketTime := 0;
      lastPacketTime := 0;
      accumulatedPacketTime := 0;
      if runningPacketCount > 0 {
        present.gpuVideoDuration := S.Add64(present.gpuVideoDuration, S.Sub64(timestamp, runningPacketStartTime));
        firstPacketTime := timestamp;
        runningPacketStartTime := timestamp;
      }
    }
  }

  ghost predicate NodesValid(nodes: map<S.NodeId, Node>)
    reads nodes.Values
  {
    forall n :: n in nodes ==> nodes[n].Valid()
  }

  ghost predicate DistinctNodes(nodes: map<S.NodeId, Node>) {
    forall m, n :: m in nodes && n in nodes && m != n ==> nodes[m] != nodes[n]
  }

  ghost predicate DistinctTraces(traces: map<S.TraceId, PacketTrace>) {
    forall i, j :: i in traces && j in traces && i != j ==> traces[i] != traces[j]
  }

  ghost function NodeValues(nodes: map<S.NodeId, Node>): map<S.NodeId, S.Node>
    requires NodesValid(nodes)
    reads nodes.Values
  {
    map n | n in nodes :: nodes[n].Value()
  }

  ghost function TraceValues(traces: map<S.TraceId, PacketTrace>): map<S.TraceId, S.Trace>
    reads traces.Values
  {
    map id | id in traces :: traces[id].Value()
  }

  ghost function NodesOf(contexts: map<S.uint64, S.Context>, hs: set<S.uint64>): set<S.NodeId> {
    set k | k in hs && k in contexts :: contexts[k].node
  }

  lemma NodesRemoved(nodes: map<S.NodeId, Node>, gone: set<S.NodeId>)
    requires NodesValid(nodes) && DistinctNodes(nodes)
    ensures NodesValid(nodes - gone) && DistinctNodes(nodes - gone)
    ensures NodeValues(nodes - gone) == NodeValues(nodes) - gone
    ensures (nodes - gone).Values <= nodes.Values
  {
  }

  lemma NodeInserted(nodes: map<S.NodeId, Node>, id: S.NodeId, node: Node)
    requires NodesValid(nodes) && DistinctNodes(nodes) && node.Valid() && node !in nodes.Values
    ensures NodesValid(nodes[id := node]) && DistinctNodes(nodes[id := node])
    ensures NodeValues(nodes[id := node]) == NodeValues(nodes)[id := node.Value()]
  {
  }

  lemma TraceInserted(traces: map<S.TraceId, PacketTrace>, id: S.TraceId, trace: PacketTrace)
    requires DistinctTraces(traces) && trace !in traces.Values
    ensures DistinctTraces(traces[id := trace])
    ensures TraceValues(traces[id := trace]) == TraceValues(traces)[id := trace.Value()]
  {
  }

  lemma MinusOneMore<K, V>(m: map<K, V>, gone: set<K>, k: K)
    ensures m - gone - {k} == m - (gone + {k})
  {
  }

  /** Writing one node changes one abstract node. */
  lemma NodeWritten(nodes: map<S.NodeId, Node>, k: S.NodeId, before: map<S.NodeId, S.Node>)
    requires k in nodes && NodesValid(nodes) && nodes.Keys == before.Keys
    requires forall n :: n in nodes && n != k ==> nodes[n].Value() == before[n]
    ensures NodeValues(nodes) == before[k := nodes[k].Value()]
  {
  }

  /** Writing one trace changes one abstract trace. */
  lemma TraceWritten(traces: map<S.TraceId, PacketTrace>, k: S.TraceId, before: map<S.TraceId, S.Trace>)
    requires k in traces && traces.Keys == before.Keys
    requires forall i :: i in traces && i != k ==> traces[i].Value() == before[i]
    ensures TraceValues(traces) == before[k := traces[k].Value()]
  {
  }

  class GpuTrace {
    const trackGpuVideo: bool
    var devices: map<S.uint64, S.uint64>
    var nodes: map<S.NodeId, Node>
    var nextAllocation: nat
    var contexts: map<S.uint64, S.Context>
    var frameInfo: map<S.TraceId, PacketTrace>

    constructor (trackVideo: bool)
      ensures Valid() && Abs() == S.Initial(trackVideo)
      ensures nodes == map[] && frameInfo == map[]
    {
      trackGpuVideo := trackVideo;
      devices, nodes, nextAllocation, contexts, frameInfo := map[], map[], 0, map[], map[];
    }

    /** Distinct names are distinct objects, and every ring is in order. */
    ghost predicate Valid()
      reads this, nodes.Values, frameInfo.Values
    {
      NodesValid(nodes) && DistinctNodes(nodes) && DistinctTraces(frameInfo)
    }

    ghost function Abs(): S.State
      requires Valid()
      reads this, nodes.Values, frameInfo.Values
    {
      S.State(trackGpuVideo, devices, NodeValues(nodes), nextAllocation, contexts, TraceValues(frameInfo))
    }

    method RegisterDevice(hDevice: S.uint64, adapter: S.uint64)
      requires Valid()
      modifies this
      ensures Valid() && nodes == old(nodes) && frameInfo == old(frameInfo)
      ensures Abs() == S.RegisterDevice(old(Abs()), hDevice, adapter)
    {
      if hDevice !in devices {
        devices := devices[hDevice := adapter];
      }
    }

    method UnregisterDevice(hDevice: S.uint64)
      requires Valid()
      modifies this
      ensures Valid() && nodes == old(nodes) && frameInfo == old(frameInfo)
      ensures Abs() == S.UnregisterDevice(old(Abs()), hDevice)
    {
      devices := devices - {hDevice};
    }

    method EnsureNode(n: S.NodeId)
      requires Valid()
      modifies this`nodes
      ensures Valid() && Abs() == S.EnsureNode(old(Abs()), n) && n in nodes
      ensures fresh(nodes.Values - old(nodes.Values))
    {
      if n !in nodes {
        AddNode(n, false);
      }
    }

    /** A fresh object becomes the node named n. */
    method AddNode(n: S.NodeId, video: bool)
      requires Valid() && n !in nodes
      modifies this`nodes
      ensures Valid() && n in nodes && fresh(nodes[n]) && nodes == old(nodes)[n := nodes[n]]
      ensures NodeValues(nodes) == old(NodeValues(nodes))[n := S.Node([], video)]
    {
      var node := new Node(video);
      NodeInserted(nodes, n, node);
      nodes := nodes[n := node];
    }

    method AddTrace(id: S.TraceId)
      requires Valid()
      modifies this`frameInfo
      ensures Valid() && frameInfo.Keys == old(frameInfo.Keys) + {id}
      ensures Abs() == old(Abs()).(traces := old(Abs()).traces[id := S.ZERO_TRACE])
      ensures fresh(frameInfo.Values - old(frameInfo.Values))
    {
      var trace := new PacketTrace();
      TraceInserted(frameInfo, id, trace);
      frameInfo := frameInfo[id := trace];
    }

    method EnsureProcess(pid: S.uint32)
      requires Valid()
      modifies this`frameInfo
      ensures Valid() && Abs() == S.EnsureProcess(old(Abs()), pid)
      ensures fresh(frameInfo.Values - old(frameInfo.Values))
    {
      if S.Other(pid) !in frameInfo {
        AddTrace(S.Video(pid));
        AddTrace(S.Other(pid));
      }
    }

    method SetContextProcessId(h: S.uint64, pid: S.uint32)
      requires Valid() && h in contexts && contexts[h].node in nodes
      modifies this`frameInfo, this`contexts
      ensures Valid() && Abs() == S.SetContextProcessId(old(Abs()), h, pid)
      ensures fresh(frameInfo.Values - old(frameInfo.Values))
    {
      EnsureProcess(pid);
      var context := contexts[h];
      var id := if trackGpuVideo && nodes[context.node].isVideo then S.Video(pid) else S.Other(pid);
      contexts := contexts[h := context.(trace := Some(id))];
    }

    method RegisterContext(h: S.uint64, hDevice: S.uint64, ordinal: S.uint32, pid: S.uint32)
      requires Valid()
      modifies this`nodes, this`frameInfo, this`contexts
      ensures Valid() && Abs() == S.RegisterContext(old(Abs()), h, hDevice, ordinal, pid)
      ensures fresh(nodes.Values - old(nodes.Values)) && fresh(frameInfo.Values - old(frameInfo.Values))
    {
      if hDevice !in devices {
        return;
      }
      var n := S.Engine(devices[hDevice], ordinal);
      EnsureNode(n);
      ghost var s1 := S.EnsureNode(old(Abs()), n);
      contexts := contexts[h := S.Context(None, n, 0, false, false)];
      assert Abs() == s1.(contexts := s1.contexts[h := S.Context(None, n, 0, false, false)]);
      if pid != 0 {
        SetContextProcessId(h, pid);
      }
    }

    /** Allocates a node that no other pointer refers to. */
    method AllocateNode(video: bool) returns (n: S.NodeId)
      requires Valid() && S.HwNode(nextAllocation) !in nodes
      modifies this`nodes, this`nextAllocation
      ensures Valid() && n == S.HwNode(old(nextAllocation)) && n in nodes
      ensures Abs() == old(Abs()).(nodes := old(Abs()).nodes[n := S.Node([], video)], nextAllocation := old(nextAllocation) + 1)
      ensures fresh(nodes.Values - old(nodes.Values))
    {
      n := S.HwNode(nextAllocation);
      AddNode(n, video);
      nextAllocation := nextAllocation + 1;
    }

    method PutContext(h: S.uint64, context: S.Context)
      requires Valid()
      modifies this`contexts
      ensures Valid() && contexts == old(contexts)[h := context]
      ensures Abs() == old(Abs()).(contexts := contexts)
    {
      contexts := contexts[h := context];
    }

    method RegisterHwQueueContext(h: S.uint64, parentDxgHwQueue: S.uint64)
      requires Valid() && S.HwNode(nextAllocation) !in nodes
      requires h in contexts ==> contexts[h].node in nodes
      modifies this`nodes, this`nextAllocation, this`contexts
      ensures Valid() && Abs() == S.RegisterHwQueueContext(old(Abs()), h, parentDxgHwQueue)
      ensures fresh(nodes.Values - old(nodes.Values))
    {
      if h !in contexts {
        return;
      }
      var parent := contexts[h].(isParent := true);
      PutContext(h, parent);
      var n := AllocateNode(nodes[parent.node].isVideo);
      PutContext(parentDxgHwQueue, S.Context(parent.trace, n, h, false, true));
    }

    /** Erases the hardware queues of context h one by one, each with its node. */
    method EraseChildren(h: S.uint64)
      modifies this`nodes, this`contexts
      ensures contexts == old(contexts) - S.Children(old(contexts), h)
      ensures nodes == old(nodes) - NodesOf(old(contexts), S.Children(old(contexts), h))
    {
      ghost var all := contexts;
      ghost var done: set<S.uint64> := {};
      var todo := contexts.Keys;
      while todo != {}
        invariant todo <= all.Keys && done == S.Children(all, h) - todo
        invariant contexts == all - done && nodes == old(nodes) - NodesOf(all, done)
        decreases todo
      {
        var k :| k in todo;
        todo := todo - {k};
        if contexts[k].parent == h {
          MinusOneMore(old(nodes), NodesOf(all, done), all[k].node);
          MinusOneMore(all, done, k);
          nodes := nodes - {contexts[k].node};
          contexts := contexts - {k};
          assert NodesOf(all, done + {k}) == NodesOf(all, done) + {all[k].node};
          done := done + {k};
        }
      }
    }

    /** The children of an erased parent context go away, and no other context or node. */
    method DeleteHwQueues(h: S.uint64)
      requires Valid()
      modifies this`nodes, this`contexts
      ensures Valid() && nodes.Values <= old(nodes.Values)
      ensures var gone := S.Children(old(contexts), h);
              Abs() == old(Abs()).(contexts := old(contexts) - gone, nodes := old(Abs()).nodes - NodesOf(old(contexts), gone))
    {
      ghost var gone := S.Children(contexts, h);
      NodesRemoved(nodes, NodesOf(contexts, gone));
      EraseChildren(h);
    }

    method UnregisterContext(h: S.uint64)
      requires Valid()
      modifies this`nodes, this`contexts
      ensures Valid() && Abs() == S.UnregisterContext(old(Abs()), h)
      ensures nodes.Values <= old(nodes.Values)
    {
      if h !in contexts {
        return;
      }
      ghost var rest := contexts - {h};
      ghost var s := Abs();
      var isParentContext := contexts[h].isParent;
      contexts := contexts - {h};
      assert Abs() == s.(contexts := rest);
      if isParentContext {
        DeleteHwQueues(h);
        assert NodesOf(rest, S.Children(rest, h)) == S.DeletedNodes(s, h);
      }
    }

    method MarkVideo(id: S.NodeId)
      requires Valid() && id in nodes
      modifies nodes.Values
      ensures Valid() && NodeValues(nodes) == old(NodeValues(nodes))[id := S.Node(old(nodes[id].Live()), true)]
    {
      nodes[id].isVideo := true;
      NodeWritten(nodes, id, old(NodeValues(nodes)));
    }

    method SetEngineType(adapter: S.uint64, ordinal: S.uint32, isVideoEngine: bool)
      requires Valid()
      modifies this`nodes, nodes.Values
      ensures Valid() && Abs() == S.SetEngineType(old(Abs()), adapter, ordinal, isVideoEngine)
      ensures fresh(nodes.Values - old(nodes.Values))
    {
      var n := S.Engine(adapter, ordinal);
      EnsureNode(n);
      if isVideoEngine {
        MarkVideo(n);
      }
    }

    /** The front packet of some node starts running. */
    method StartFront(front: Option<S.TraceId>, timestamp: S.uint64)
      requires Valid() && (front.Some? ==> front.value in frameInfo)
      modifies frameInfo.Values
      ensures Valid() && Abs() == S.StartFront(old(Abs()), front, timestamp)
    {
      if front.Some? {
        frameInfo[front.value].StartPacket(timestamp);
        TraceWritten(frameInfo, front.value, old(TraceValues(frameInfo)));
      }
    }

    /** The front packet of some node stops running; the last one to stop accumulates the duration. */
    method FinishFront(front: Option<S.TraceId>, timestamp: S.uint64)
      requires Valid() && (front.Some? ==> front.value in frameInfo)
      modifies frameInfo.Values
      ensures Valid() && Abs() == S.FinishFront(old(Abs()), front, timestamp)
    {
      if front.Some? {
        var packetTrace := frameInfo[front.value];
        packetTrace.runningPacketCount := S.Dec32(packetTrace.runningPacketCount);
        if packetTrace.runningPacketCount == 0 {
          packetTrace.CompletePacket(timestamp);
        }
        TraceWritten(frameInfo, front.value, old(TraceValues(frameInfo)));
      }
    }

    /** One packet stops running and the next one starts, both at the same time. */
    method HandOver(finished: Option<S.TraceId>, next: Option<S.TraceId>, timestamp: S.uint64)
      requires Valid()
      requires (finished.Some? ==> finished.value in frameInfo) && (next.Some? ==> next.value in frameInfo)
      modifies frameInfo.Values
      ensures Valid() && Abs() == S.StartFront(S.FinishFront(old(Abs()), finished, timestamp), next, timestamp)
    {
      FinishFront(finished, timestamp);
      StartFront(next, timestamp);
    }

    method EnqueueWork(h: S.uint64, sequenceId: S.uint32, timestamp: S.uint64, isWaitPacket: bool)
      requires Valid() && S.Closed(Abs()) && h in contexts
      modifies nodes.Values, frameInfo.Values
      ensures Valid() && Abs() == S.EnqueueWork(old(Abs()), h, sequenceId, timestamp, isWaitPacket)
    {
      var context := contexts[h];
      if context.trace.None? {
        return;
      }
      var node := nodes[context.node];
      var packetTrace := if isWaitPacket then None else context.trace;
      node.Append(S.Packet(packetTrace, sequenceId, false));
      NodeWritten(nodes, context.node, old(NodeValues(nodes)));
      assert Abs() == S.SetQueue(old(Abs()), context.node, node.Live());
      if packetTrace.Some? && node.queueCount == 1 {
        StartFront(packetTrace, timestamp);
      }
    }

    /** The node side of a completion: its queue advances, its counters are left to the caller. */
    method CompleteNode(n: S.NodeId, sequenceId: S.uint32)
      returns (outcome: S.Outcome, finished: Option<S.TraceId>, next: Option<S.TraceId>)
      requires Valid() && n in nodes && nodes[n].queueCount > 0
      requires S.RefersTo(nodes[n].Live(), TraceValues(frameInfo))
      modifies nodes.Values
      ensures Valid()
      ensures finished.Some? ==> finished.value in frameInfo
      ensures next.Some? ==> next.value in frameInfo
      ensures var q := old(nodes[n].Live());
              && outcome == S.Classify(q, sequenceId)
              && Abs() == S.SetQueue(old(Abs()), n, S.QueueAfter(q, outcome))
              && (if outcome.Finished? then finished == S.Front(q) && next == S.Front(S.QueueAfter(q, outcome))
                  else finished == next == None)
    {
      hide S.Classify, S.QueueAfter, GpuQueues.CompletionOf;
      assert S.Front(nodes[n].Live()).Some? ==> S.Front(nodes[n].Live()).value in frameInfo;
      ghost var q := nodes[n].Live();
      outcome, finished, next := nodes[n].Complete(sequenceId);
      S.QueueAfterRefersTo(q, outcome, TraceValues(frameInfo));
      NodeWritten(nodes, n, old(NodeValues(nodes)));
    }

    /** A completion event for node n, whose queue is not empty. */
    method CompleteOnNode(n: S.NodeId, sequenceId: S.uint32, timestamp: S.uint64) returns (tracked: bool)
      requires Valid() && S.Closed(Abs()) && n in nodes && nodes[n].queueCount > 0
      modifies nodes.Values, frameInfo.Values
      ensures Valid() && Abs() == S.CompleteOnNode(old(Abs()), n, sequenceId, timestamp)
      ensures tracked == !S.Classify(old(Abs()).nodes[n].queue, sequenceId).Ignored?
    {
      ghost var s := Abs();
      assert S.RefersTo(s.nodes[n].queue, s.traces);
      var outcome, finished, next := CompleteNode(n, sequenceId);
      HandOver(finished, next, timestamp);
      return !outcome.Ignored?;
    }

    method CompleteWork(h: S.uint64, sequenceId: S.uint32, timestamp: S.uint64) returns (tracked: bool)
      requires Valid() && S.Closed(Abs()) && h in contexts
      modifies nodes.Values, frameInfo.Values
      ensures Valid() && Abs() == S.CompleteWork(old(Abs()), h, sequenceId, timestamp)
      ensures tracked == (contexts[h].trace.Some?
                          && !S.Classify(old(Abs()).nodes[contexts[h].node].queue, sequenceId).Ignored?)
    {
      var context := contexts[h];
      if context.trace.None? || nodes[context.node].queueCount == 0 {
        assert context.trace.Some? ==> S.SetQueue(Abs(), context.node, []) == Abs();
        return false;
      }
      tracked := CompleteOnNode(context.node, sequenceId, timestamp);
    }

    method EnqueueQueuePacket(h: S.uint64, sequenceId: S.uint32, pid: S.uint32, timestamp: S.uint64, isWaitPacket: bool)
      requires Valid() && S.Closed(Abs())
      modifies this`frameInfo, this`contexts, nodes.Values, frameInfo.Values
      ensures Valid() && Abs() == S.EnqueueQueuePacket(old(Abs()), h, sequenceId, pid, timestamp, isWaitPacket)
      ensures fresh(frameInfo.Values - old(frameInfo.Values))
    {
      hide S.QueuesClosed, S.Paired, S.EnqueueWork;
      if h in contexts {
        S.SetContextProcessIdClosed(Abs(), h, pid);
        if contexts[h].trace.None? {
          SetContextProcessId(h, pid);
        }
        if contexts[h].isHwQueue {
          EnqueueWork(h, sequenceId, timestamp, isWaitPacket);
        }
      }
    }

    method CompleteQueuePacket(h: S.uint64, sequenceId: S.uint32, timestamp: S.uint64)
      requires Valid() && S.Closed(Abs())
      modifies nodes.Values, frameInfo.Values
      ensures Valid() && Abs() == S.CompleteQueuePacket(old(Abs()), h, sequenceId, timestamp)
    {
      if h in contexts && contexts[h].isHwQueue {
        var _ := CompleteWork(h, sequenceId, timestamp);
      }
    }

    method EnqueueDmaPacket(h: S.uint64, sequenceId: S.uint32, timestamp: S.uint64)
      requires Valid() && S.Closed(Abs())
      modifies nodes.Values, frameInfo.Values
      ensures Valid() && Abs() == S.EnqueueDmaPacket(old(Abs()), h, sequenceId, timestamp)
    {
      if h in contexts {
        EnqueueWork(h, sequenceId, timestamp, false);
      }
    }

    method CompleteDmaPacket(h: S.uint64, sequenceId: S.uint32, timestamp: S.uint64)
      requires Valid() && S.Closed(Abs())
      modifies nodes.Values, frameInfo.Values
      ensures Valid() && Abs() == S.CompleteDmaPacket(old(Abs()), h, sequenceId, timestamp)
    {
      if h in contexts {
        var _ := CompleteWork(h, sequenceId, timestamp);
      }
    }

    method CutOther(present: PresentEvent, timestamp: S.uint64)
      requires Valid() && S.Other(present.processId) in frameInfo
      modifies present, frameInfo.Values
      ensures Valid()
      ensures var id := S.Other(present.processId);
              var (other, frame) := S.CutOther(old(Abs()).traces[id], old(present.Value()), timestamp);
              present.Value() == frame && Abs() == old(Abs()).(traces := old(Abs()).traces[id := other])
    {
      frameInfo[S.Other(present.processId)].CutOther(present, timestamp);
      TraceWritten(frameInfo, S.Other(present.processId), old(TraceValues(frameInfo)));
    }

    method CutVideo(present: PresentEvent, timestamp: S.uint64)
      requires Valid() && S.Video(present.processId) in frameInfo
      modifies present, frameInfo.Values
      ensures Valid()
      ensures var id := S.Video(present.processId);
              var (video, frame) := S.CutVideo(old(Abs()).traces[id], old(present.Value()), timestamp);
              present.Value() == frame && Abs() == old(Abs()).(traces := old(Abs()).traces[id := video])
    {
      frameInfo[S.Video(present.processId)].CutVideo(present, timestamp);
      TraceWritten(frameInfo, S.Video(present.processId), old(TraceValues(frameInfo)));
    }

    method CutFrame(present: PresentEvent, timestamp: S.uint64)
      requires Valid() && S.Other(present.processId) in frameInfo && S.Video(present.processId) in frameInfo
      modifies present, frameInfo.Values
      ensures Valid()
      ensures Abs() == S.CutFrame(old(Abs()), old(present.Value()), timestamp).0
      ensures present.Value() == S.CutFrame(old(Abs()), old(present.Value()), timestamp).1
    {
      CutOther(present, timestamp);
      CutVideo(present, timestamp);
    }

    /** The first completion of a frame gives it the work tracked for its process, if any. */
    method GiveWork(present: PresentEvent, timestamp: S.uint64)
      requires Valid() && S.Closed(Abs())
      modifies present, frameInfo.Values
      ensures Valid()
      ensures Abs() == S.GiveWork(old(Abs()), old(present.Value()), timestamp).0
      ensures present.Value() == S.GiveWork(old(Abs()), old(present.Value()), timestamp).1
    {
      ghost var s := Abs();
      present.gpuFrameCompleted := true;
      assert Abs() == s;
      if S.Other(present.processId) in frameInfo {
        assert S.Video(present.processId) in s.traces;
        CutFrame(present, timestamp);
      }
    }

    method CompleteFrame(present: PresentEvent, timestamp: S.uint64)
      requires Valid() && S.Closed(Abs())
      modifies present, frameInfo.Values
      ensures Valid()
      ensures Abs() == S.CompleteFrame(old(Abs()), old(present.Value()), timestamp).0
      ensures present.Value() == S.CompleteFrame(old(Abs()), old(present.Value()), timestamp).1
    {
      if present.gpuFrameCompleted {
        return;
      }
      GiveWork(present, timestamp);
      if present.readyTime == 0 {
        present.readyTime := timestamp;
      }
    }
  }
}
