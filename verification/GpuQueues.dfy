/**
 What enqueueing and completing packets does to a node's queue and to what runs, and to which engine class the packets
 of a context belong.
 */
module GpuQueues {
  import opened Wrappers
  import opened GpuSpec
  import opened GpuProofs

  // ---------------------------------------------------------------------------------------------
  // A completion

  /** The first packet with the sequence id. */
  predicate FirstWith(q: seq<Packet>, id: uint32, k: nat) {
    k < |q| && q[k].sequenceId == id && forall j :: 0 <= j < k ==> q[j].sequenceId != id
  }

  predicate WaitOver(p: Packet) {
    p.trace.None? && p.completed
  }

  /** Everything through packet k is gone, then every leading wait packet that is over, and nothing else. */
  ghost predicate GoneThrough(q: seq<Packet>, q': seq<Packet>, k: nat) {
    exists m :: k < m <= |q| && q' == q[m..] && GoneUpTo(q, k, m)
  }

  /** Behind packet k every wait packet before position m is over, and the packet there is not. */
  ghost predicate GoneUpTo(q: seq<Packet>, k: nat, m: nat) {
    k < m <= |q| && (forall j :: k < j < m ==> WaitOver(q[j])) && (m < |q| ==> !WaitOver(q[m]))
  }

  /** A stale or unknown completion does nothing, an early wait packet is noted, any other one ends what ran before it. */
  ghost predicate CompletionOf(q: seq<Packet>, q': seq<Packet>, id: uint32) {
    && (q == [] || id < q[0].sequenceId || (forall k :: 0 <= k < |q| ==> q[k].sequenceId != id) ==> q' == q)
    && (forall k: nat :: FirstWith(q, id, k) && q[0].sequenceId <= id ==>
          if k > 0 && q[k].trace.None? then q' == q[k := q[k].(completed := true)] else GoneThrough(q, q', k))
  }

  lemma {:induction false} DropDoneExactly(q: seq<Packet>) returns (m: nat)
    ensures m <= |q| && DropDone(q) == q[m..] && (forall j :: 0 <= j < m ==> WaitOver(q[j])) && (m < |q| ==> !WaitOver(q[m]))
  {
    m := 0;
    if q != [] && WaitOver(q[0]) {
      var n := DropDoneExactly(q[1..]);
      m := n + 1;
      forall j | 0 <= j < m
        ensures WaitOver(q[j])
      {
        if j > 0 { assert q[1..][j - 1] == q[j]; }
      }
    }
  }

  lemma QueueAfterExactly(q: seq<Packet>, id: uint32)
    ensures CompletionOf(q, QueueAfter(q, Classify(q, id)), id)
  {
    var o := Classify(q, id);
    if o.Finished? {
      var k := o.through;
      var n := DropDoneExactly(q[k + 1..]);
      assert forall j :: k < j < |q| ==> q[j] == q[k + 1..][j - k - 1];
      assert q[k + 1..][n..] == q[k + 1 + n..];
      assert k < k + 1 + n <= |q|;
      assert GoneUpTo(q, k, k + 1 + n);
      assert GoneThrough(q, QueueAfter(q, o), k);
    }
    forall l: nat | FirstWith(q, id, l)
      ensures o.Flagged? ==> l == o.at
      ensures o.Finished? ==> l == o.through
    {
      var k := FirstMatch(q, id, 0);
      assert !(l < k) && !(k < l);
    }
  }

  /** There is only one such queue. */
  lemma CompletionOnce(q: seq<Packet>, a: seq<Packet>, b: seq<Packet>, id: uint32)
    requires CompletionOf(q, a, id) && CompletionOf(q, b, id)
    ensures a == b
  {
    var k := FirstMatch(q, id, 0);
    if k < |q| && q[0].sequenceId <= id {
      assert FirstWith(q, id, k);
      if k == 0 || q[k].trace.Some? { GoneOnce(q, a, b, k); }
    }
  }

  lemma GoneOnce(q: seq<Packet>, a: seq<Packet>, b: seq<Packet>, k: nat)
    requires GoneThrough(q, a, k) && GoneThrough(q, b, k)
    ensures a == b
  {
    hide WaitOver;
    var m :| k < m <= |q| && a == q[m..] && GoneUpTo(q, k, m);
    var n :| k < n <= |q| && b == q[n..] && GoneUpTo(q, k, n);
    OneEnd(q, k, m, n);
    OneEnd(q, k, n, m);
  }

  lemma OneEnd(q: seq<Packet>, k: nat, m: nat, n: nat)
    requires GoneUpTo(q, k, m) && GoneUpTo(q, k, n)
    ensures n <= m
  {
    hide WaitOver;
  }

  /** The completion ends the running packet: it is known, and not that of a wait packet that is not at the head. */
  ghost predicate Ends(q: seq<Packet>, id: uint32) {
    exists k: nat :: FirstWith(q, id, k) && q[0].sequenceId <= id && (k == 0 || q[k].trace.Some?)
  }

  /** The packet at the head of the queue starts or stops running; a wait packet never runs. */
  ghost predicate FrontMoves(s: State, s': State, n: NodeId)
    requires n in s.nodes && n in s'.nodes
  {
    forall id :: Running(s'.nodes, id)
                 == (Running(s.nodes, id) - {n}) + if Front(s'.nodes[n].queue) == Some(id) then {n} else {}
  }

  /** Only the queue of the node and the traces of its old and new front packets change. */
  ghost predicate OnlyQueue(s: State, s': State, n: NodeId) {
    && n in s.nodes && n in s'.nodes && s'.nodes == s.nodes[n := s.nodes[n].(queue := s'.nodes[n].queue)]
    && s' == s.(nodes := s'.nodes, traces := s'.traces) && s'.traces.Keys == s.traces.Keys
    && forall id :: id in s.traces && Front(s.nodes[n].queue) != Some(id) && Front(s'.nodes[n].queue) != Some(id) ==>
         s'.traces[id] == s.traces[id]
  }

  /** The completion of a packet of a context, without reference to how it is computed. */
  lemma CompleteWorkExactly(s: State, h: uint64, id: uint32, t: uint64)
    requires Closed(s) && h in s.contexts
    ensures s.contexts[h].trace.None? ==> CompleteWork(s, h, id, t) == s
    ensures var n, s' := s.contexts[h].node, CompleteWork(s, h, id, t);
            s.contexts[h].trace.Some? ==>
              && OnlyQueue(s, s', n) && FrontMoves(s, s', n)
              && CompletionOf(s.nodes[n].queue, s'.nodes[n].queue, id)
              && (!Ends(s.nodes[n].queue, id) ==> s'.traces == s.traces)
  {
    var c := s.contexts[h];
    if c.trace.Some? {
      var q := s.nodes[c.node].queue;
      QueueAfterExactly(q, id);
      EndsExactly(q, id);
      QueueAfterRefersTo(q, Classify(q, id), s.traces);
      CompletedQueue(s, c.node, id, t);
    }
  }

  lemma EndsExactly(q: seq<Packet>, id: uint32)
    ensures Classify(q, id).Finished? <==> Ends(q, id)
  {
    var k := FirstMatch(q, id, 0);
    if Classify(q, id).Finished? { assert FirstWith(q, id, k); }
    assert forall l: nat :: FirstWith(q, id, l) ==> !(l < k) && !(k < l);
  }

  lemma CompletedQueue(s: State, n: NodeId, id: uint32, t: uint64)
    requires Closed(s) && n in s.nodes
    ensures var s' := CompleteOnNode(s, n, id, t);
            && OnlyQueue(s, s', n) && FrontMoves(s, s', n)
            && s'.nodes[n].queue == QueueAfter(s.nodes[n].queue, Classify(s.nodes[n].queue, id))
            && (!Classify(s.nodes[n].queue, id).Finished? ==> s'.traces == s.traces)
  {
    hide Classify, QueueAfter, FinishPacket, StartPacket, FrontMoves;
    QueueAfterRefersTo(s.nodes[n].queue, Classify(s.nodes[n].queue, id), s.traces);
    SetQueueMoves(s, CompleteOnNode(s, n, id, t), n);
  }

  lemma SetQueueMoves(s: State, s': State, n: NodeId)
    requires n in s.nodes && n in s'.nodes && s'.nodes == s.nodes[n := s.nodes[n].(queue := s'.nodes[n].queue)]
    ensures FrontMoves(s, s', n)
  {
  }

  // ---------------------------------------------------------------------------------------------
  // A submission

  /** A packet joins the end of the queue; it runs at once exactly if it is work and nothing is queued before it. */
  lemma EnqueueWorkExactly(s: State, h: uint64, id: uint32, t: uint64, isWait: bool)
    requires Closed(s) && h in s.contexts
    ensures s.contexts[h].trace.None? ==> EnqueueWork(s, h, id, t, isWait) == s
    ensures var n, s' := s.contexts[h].node, EnqueueWork(s, h, id, t, isWait);
            s.contexts[h].trace.Some? ==>
              && OnlyQueue(s, s', n) && s'.contexts == s.contexts
              && |s'.nodes[n].queue| == |s.nodes[n].queue| + 1 && s.nodes[n].queue <= s'.nodes[n].queue
              && (var p := s'.nodes[n].queue[|s.nodes[n].queue|];
                  p.sequenceId == id && !p.completed && (p.trace.Some? <==> !isWait)
                  && (!isWait ==> p.trace == s.contexts[h].trace))
              && (forall x :: Running(s'.nodes, x) == Running(s.nodes, x)
                    + if s.nodes[n].queue == [] && !isWait && s.contexts[h].trace == Some(x) then {n} else {})
  {
    hide StartPacket;
    if s.contexts[h].trace.Some? {
      var n, s' := s.contexts[h].node, EnqueueWork(s, h, id, t, isWait);
      SetQueueMoves(s, s', n);
    }
  }

  /** Packets of hardware queues count for the process that the event names if the context has none, and others do not count. */
  lemma EnqueueQueuePacketExactly(s: State, h: uint64, id: uint32, pid: uint32, t: uint64, isWait: bool)
    requires Closed(s)
    ensures var s' := GpuSpec.EnqueueQueuePacket(s, h, id, pid, t, isWait);
            && (h !in s.contexts ==> s' == s)
            && (h in s.contexts ==>
                  && h in s'.contexts && s'.contexts[h].node == s.contexts[h].node
                  && s'.contexts[h].trace.Some?
                  && (if s.contexts[h].trace.Some? then s'.contexts[h] == s.contexts[h]
                      else s'.contexts[h].trace.value == ClassOf(s, s.contexts[h].node, pid))
                  && s'.contexts == s.contexts[h := s'.contexts[h]]
                  && (forall x :: Running(s'.nodes, x) == Running(s.nodes, x)
                        + if s.contexts[h].isHwQueue && s.nodes[s.contexts[h].node].queue == [] && !isWait
                             && s'.contexts[h].trace == Some(x) then {s.contexts[h].node} else {}))
  {
    hide EnqueueWork, Running, OnlyQueue;
    if h in s.contexts {
      var s1 := if s.contexts[h].trace.None? then SetContextProcessId(s, h, pid) else s;
      SetContextProcessIdClosed(s, h, pid);
      EnqueueWorkExactly(s1, h, id, t, isWait);
    }
  }

  // ---------------------------------------------------------------------------------------------
  // The engine class

  /** Work on a video engine belongs to the process's video class if that is tracked at all. */
  ghost function ClassOf(s: State, n: NodeId, pid: uint32): TraceId {
    if s.trackVideo && n in s.nodes && s.nodes[n].isVideo then Video(pid) else Other(pid)
  }

  /** The class of every context that has one is that of its node. */
  ghost predicate Classed(s: State) {
    forall h :: h in s.contexts && s.contexts[h].trace.Some? ==>
      s.contexts[h].trace.value == ClassOf(s, s.contexts[h].node, s.contexts[h].trace.value.pid)
  }

  /** The event does not turn an engine that contexts of known processes use into a video engine. */
  ghost predicate TypedInTime(s: State, op: Op) {
    op.SetEngineType? && op.isVideoEngine && s.trackVideo ==>
      var n := Engine(op.adapter, op.ordinal);
      (n in s.nodes && s.nodes[n].isVideo) || forall h :: h in s.contexts && s.contexts[h].trace.Some? ==> s.contexts[h].node != n
  }

  /** A new context gets the class of its engine. */
  lemma RegisterContextClass(s: State, h: uint64, hDevice: uint64, ordinal: uint32, pid: uint32)
    requires hDevice in s.devices
    ensures var s' := GpuSpec.RegisterContext(s, h, hDevice, ordinal, pid);
            && h in s'.contexts && s'.contexts[h].node == Engine(s.devices[hDevice], ordinal) && s'.contexts[h].node in s'.nodes
            && !s'.contexts[h].isHwQueue && s'.contexts[h].parent == 0
            && s'.contexts[h].trace == (if pid == 0 then None else Some(ClassOf(s, Engine(s.devices[hDevice], ordinal), pid)))
            && (pid != 0 ==> Other(pid) in s'.traces)
  {
    var n := Engine(s.devices[hDevice], ordinal);
    var s1 := EnsureNode(s, n);
    var s2 := s1.(contexts := s1.contexts[h := Context(None, n, 0, false, false)]);
    if pid != 0 { ProcessClass(s2, h, pid); }
    hide SetContextProcessId;
  }

  lemma ProcessClass(s: State, h: uint64, pid: uint32)
    requires h in s.contexts && s.contexts[h].node in s.nodes
    ensures var s' := SetContextProcessId(s, h, pid);
            && s'.contexts == s.contexts[h := s.contexts[h].(trace := Some(ClassOf(s, s.contexts[h].node, pid)))]
            && s'.nodes == s.nodes && Other(pid) in s'.traces
  {
  }

  /** A hardware queue gets the class of the context that it was made for. */
  lemma RegisterHwQueueClass(s: State, h: uint64, hwQueue: uint64)
    requires h in s.contexts && s.contexts[h].node in s.nodes && hwQueue != h
    ensures var s' := GpuSpec.RegisterHwQueueContext(s, h, hwQueue);
            && hwQueue in s'.contexts && s'.contexts[hwQueue].isHwQueue && s'.contexts[hwQueue].parent == h
            && s'.contexts[hwQueue].trace == s.contexts[h].trace
            && s'.contexts[hwQueue].node in s'.nodes && s'.nodes[s'.contexts[hwQueue].node].queue == []
            && (s'.nodes[s'.contexts[hwQueue].node].isVideo <==> s.nodes[s.contexts[h].node].isVideo)
            && h in s'.contexts && s'.contexts[h] == s.contexts[h].(isParent := true)
  {
  }

  /** Contexts stay, and nodes keep their types. */
  ghost predicate SameTypes(s: State, s': State) {
    && s'.contexts == s.contexts && s'.trackVideo == s.trackVideo
    && forall n :: n in s.nodes ==> n in s'.nodes && s'.nodes[n].isVideo == s.nodes[n].isVideo
  }

  lemma SameTypesClassed(s: State, s': State)
    requires SameTypes(s, s') && Closed(s)
    ensures Classed(s') <==> Classed(s)
  {
    hide QueuesClosed, Paired;
  }

  lemma CompletesTypes(s: State, h: uint64, id: uint32, t: uint64)
    requires Closed(s) && h in s.contexts
    ensures SameTypes(s, CompleteWork(s, h, id, t))
  {
    hide CompletionOf, Ends, FrontMoves, Closed;
    CompleteWorkExactly(s, h, id, t);
  }

  lemma EnqueuesTypes(s: State, h: uint64, id: uint32, t: uint64, isWait: bool)
    requires Closed(s) && h in s.contexts
    ensures SameTypes(s, EnqueueWork(s, h, id, t, isWait))
  {
    hide Running, Closed;
    EnqueueWorkExactly(s, h, id, t, isWait);
  }

  lemma QueuePacketClassed(s: State, h: uint64, id: uint32, pid: uint32, t: uint64, isWait: bool)
    requires Closed(s) && Classed(s)
    ensures Classed(GpuSpec.EnqueueQueuePacket(s, h, id, pid, t, isWait))
  {
    if h in s.contexts {
      var s1 := if s.contexts[h].trace.None? then SetContextProcessId(s, h, pid) else s;
      SetContextProcessIdClosed(s, h, pid);
      ProcessClassed(s, h, pid);
      hide Classed;
      if s.contexts[h].isHwQueue {
        EnqueuesTypes(s1, h, id, t, isWait);
        SameTypesClassed(s1, EnqueueWork(s1, h, id, t, isWait));
      }
    }
  }

  lemma ProcessClassed(s: State, h: uint64, pid: uint32)
    requires Classed(s) && h in s.contexts && s.contexts[h].node in s.nodes
    ensures Classed(SetContextProcessId(s, h, pid))
  {
  }

  lemma RegisterClassed(s: State, h: uint64, hDevice: uint64, ordinal: uint32, pid: uint32)
    requires Closed(s) && Classed(s)
    ensures Classed(GpuSpec.RegisterContext(s, h, hDevice, ordinal, pid))
  {
    if hDevice in s.devices {
      var n := Engine(s.devices[hDevice], ordinal);
      var s1 := EnsureNode(s, n);
      SameTypesClassed(s, s1);
      var s2 := s1.(contexts := s1.contexts[h := Context(None, n, 0, false, false)]);
      assert Classed(s2);
      ProcessClassed(s2, h, pid);
    }
  }

  lemma HwQueueClassed(s: State, h: uint64, hwQueue: uint64)
    requires WellFormed(s) && Classed(s)
    ensures Classed(GpuSpec.RegisterHwQueueContext(s, h, hwQueue))
  {
    hide QueuesClosed, Paired;
    if h in s.contexts { assert HwNode(s.nextAllocation) !in s.nodes; }
  }

  lemma UnregisterClassed(s: State, h: uint64)
    requires WellFormed(s) && Classed(s)
    ensures Classed(GpuSpec.UnregisterContext(s, h))
  {
    hide QueuesClosed, Paired;
    var s' := GpuSpec.UnregisterContext(s, h);
    forall k | k in s'.contexts
      ensures k in s.contexts && s'.contexts[k] == s.contexts[k]
      ensures s.contexts[k].node in s'.nodes && s'.nodes[s.contexts[k].node] == s.nodes[s.contexts[k].node]
    {
    }
  }

  lemma EngineTypeClassed(s: State, adapter: uint64, ordinal: uint32, isVideoEngine: bool)
    requires Closed(s) && Classed(s)
    ensures Classed(GpuSpec.SetEngineType(s, adapter, ordinal, isVideoEngine))
            <==> TypedInTime(s, SetEngineType(adapter, ordinal, isVideoEngine))
  {
    hide QueuesClosed, Paired;
  }

  /** Only a late change of an engine's type separates the class of a context from the type of its engine. */
  lemma ClassedStep(w: World, e: Event)
    requires Inv(w) && Admissible(w, e) && Classed(w.s)
    ensures Classed(Apply(w, e).s) <==> TypedInTime(w.s, e.op)
  {
    hide Classed, Inv, WellFormed, CompleteWork, EnqueueWork, GpuSpec.RegisterContext, GpuSpec.RegisterHwQueueContext,
      GpuSpec.UnregisterContext, GpuSpec.SetEngineType, GpuSpec.EnqueueQueuePacket, GpuSpec.CompleteFrame, QueuesIdle;
    StillFormed(w);
    var s, s' := w.s, Apply(w, e).s;
    match e.op
    case RegisterContext(h, d, o, pid) => RegisterClassed(s, h, d, o, pid);
    case RegisterHwQueueContext(h, k) => HwQueueClassed(s, h, k);
    case UnregisterContext(h) => UnregisterClassed(s, h);
    case SetEngineType(a, o, v) => EngineTypeClassed(s, a, o, v);
    case EnqueueQueuePacket(h, id, pid, wait) => QueuePacketClassed(s, h, id, pid, e.t, wait);
    case CompleteQueuePacket(h, id) => { if h in s.contexts { CompletesTypes(s, h, id, e.t); } SameTypesClassed(s, s'); }
    case EnqueueDmaPacket(h, id) => { if h in s.contexts { EnqueuesTypes(s, h, id, e.t, false); } SameTypesClassed(s, s'); }
    case CompleteDmaPacket(h, id) => { if h in s.contexts { CompletesTypes(s, h, id, e.t); } SameTypesClassed(s, s'); }
    case CompleteFrame(i) => { FrameTypes(s, w.frames[i], e.t); SameTypesClassed(s, s'); }
    case _ => SameTypesClassed(s, s');
  }

  lemma FrameTypes(s: State, f: Frame, t: uint64)
    requires Closed(s)
    ensures SameTypes(s, GpuSpec.CompleteFrame(s, f, t).0)
  {
    hide CutOther, CutVideo;
  }

  lemma StillFormed(w: World)
    requires Inv(w)
    ensures WellFormed(w.s) && Closed(w.s)
  {
  }

  ghost predicate AllTypedInTime(w: World, events: seq<Event>)
    requires Inv(w) && Legal(w, events)
    decreases |events|
  {
    events == [] ||
    (TypedInTime(w.s, events[0].op) && (Step(w, events[0]); AllTypedInTime(Apply(w, events[0]), events[1..])))
  }

  /** In every run in which engines are typed in time, the class of every context is that of its engine. */
  lemma {:induction false} ClassesExactly(w: World, events: seq<Event>)
    requires Inv(w) && Legal(w, events) && Classed(w.s) && AllTypedInTime(w, events)
    ensures Classed(Exec(w, events).s)
    decreases |events|
  {
    if events != [] {
      Step(w, events[0]);
      ClassedStep(w, events[0]);
      ClassesExactly(Apply(w, events[0]), events[1..]);
    }
  }

  // ---------------------------------------------------------------------------------------------
  // Which contexts and devices count

  /** Packets complete through their own kind of context: those of hardware queues only where one is registered. */
  lemma CompletionsExactly(s: State, h: uint64, id: uint32, t: uint64)
    requires Closed(s)
    ensures h !in s.contexts || !s.contexts[h].isHwQueue ==> GpuSpec.CompleteQueuePacket(s, h, id, t) == s
    ensures h in s.contexts && s.contexts[h].isHwQueue ==>
              GpuSpec.CompleteQueuePacket(s, h, id, t) == GpuSpec.CompleteDmaPacket(s, h, id, t)
    ensures h !in s.contexts ==> GpuSpec.CompleteDmaPacket(s, h, id, t) == GpuSpec.EnqueueDmaPacket(s, h, id, t) == s
    ensures h in s.contexts && s.contexts[h].trace.Some? ==>
              var n := s.contexts[h].node;
              && CompletionOf(s.nodes[n].queue, GpuSpec.CompleteDmaPacket(s, h, id, t).nodes[n].queue, id)
              && |GpuSpec.EnqueueDmaPacket(s, h, id, t).nodes[n].queue| == |s.nodes[n].queue| + 1
  {
    hide CompletionOf, OnlyQueue, FrontMoves, Ends, Running, CompleteWork, EnqueueWork;
    if h in s.contexts {
      CompleteWorkExactly(s, h, id, t);
      EnqueueWorkExactly(s, h, id, t, false);
      if s.contexts[h].trace.Some? { NodesStay(s, h, id, t); }
    }
  }

  lemma NodesStay(s: State, h: uint64, id: uint32, t: uint64)
    requires Closed(s) && h in s.contexts && s.contexts[h].trace.Some?
    ensures s.contexts[h].node in s.nodes && s.contexts[h].node in CompleteWork(s, h, id, t).nodes
    ensures s.contexts[h].node in EnqueueWork(s, h, id, t, false).nodes
  {
    hide CompletionOf, FrontMoves, Ends, Running;
    CompleteWorkExactly(s, h, id, t);
    EnqueueWorkExactly(s, h, id, t, false);
  }

  /** A device keeps the adapter with which it was registered until it is unregistered. */
  lemma DevicesExactly(s: State, hDevice: uint64, adapter: uint64, other: uint64, k: uint64)
    ensures var a := GpuSpec.RegisterDevice(s, hDevice, adapter);
            var b := GpuSpec.RegisterDevice(a, hDevice, other);
            && hDevice in a.devices && b == a
            && (hDevice !in s.devices ==> a.devices[hDevice] == adapter)
            && (hDevice in s.devices ==> a.devices[hDevice] == s.devices[hDevice])
            && (k != hDevice ==> (k in a.devices <==> k in s.devices) && (k in s.devices ==> a.devices[k] == s.devices[k]))
    ensures var a := GpuSpec.UnregisterDevice(s, hDevice);
            && hDevice !in a.devices
            && (k != hDevice ==> (k in a.devices <==> k in s.devices) && (k in s.devices ==> a.devices[k] == s.devices[k]))
            && GpuSpec.RegisterDevice(a, hDevice, adapter).devices[hDevice] == adapter
  {
  }
}
