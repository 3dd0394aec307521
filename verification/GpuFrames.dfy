/**
 A frame's GPU duration fits between the start of its first packet and its ready time, in every run that
 never completes a frame at the very instant its running period began.  GpuRuns shows why that proviso is needed.
 */
module GpuFrames {
  import opened Wrappers
  import opened GpuSpec
  import opened GpuProofs

  /** Accumulated time lies between the first packet and the last completion, or the running period's start. */
  ghost predicate Clean(tr: Trace, now: nat) {
    if tr.runningPacketCount > 0 then
      && 0 < tr.firstPacketTime <= tr.runningPacketStartTime
      && tr.accumulatedPacketTime <= tr.runningPacketStartTime - tr.firstPacketTime
    else if tr.firstPacketTime == 0 then
      tr.accumulatedPacketTime == 0
    else
      && tr.firstPacketTime <= tr.lastPacketTime <= now
      && tr.accumulatedPacketTime <= tr.lastPacketTime - tr.firstPacketTime
  }

  ghost predicate AllClean(traces: map<TraceId, Trace>, now: nat) {
    forall id :: id in traces ==> Clean(traces[id], now)
  }

  /** The frame's work fits into the frame; no work without a start. */
  ghost predicate Fits(f: Frame) {
    if f.gpuStartTime == 0 then f.gpuDuration == 0
    else f.gpuStartTime <= f.readyTime && f.gpuDuration <= f.readyTime - f.gpuStartTime
  }

  ghost predicate FitsIfCompleted(f: Frame) {
    f.gpuFrameCompleted ==> Fits(f)
  }

  /** The frame is cut at the very instant at which the running period of its process began. */
  ghost predicate CutAtStart(s: State, f: Frame, t: uint64) {
    && !f.gpuFrameCompleted && Other(f.pid) in s.traces
    && s.traces[Other(f.pid)].runningPacketCount > 0
    && s.traces[Other(f.pid)].runningPacketStartTime == t
  }

  lemma StartClean(tr: Trace, running: nat, t: uint64)
    requires TraceOk(tr, running, t) && running + 1 < TWO_TO_THE_32 && 0 < t && Clean(tr, t)
    ensures Clean(StartPacket(tr, t), t)
  {
  }

  lemma FinishClean(tr: Trace, running: nat, t: uint64)
    requires TraceOk(tr, running, t) && 0 < running && Clean(tr, t)
    ensures Clean(FinishPacket(tr, t), t)
  {
  }

  /** Cutting a clean trace leaves it clean exactly when the cut is not at the start of the running period. */
  lemma CutOtherExact(tr: Trace, f: Frame, t: uint64, running: nat)
    requires TraceOk(tr, running, t) && 0 < t && Clean(tr, t)
    requires f.gpuStartTime == 0 && f.gpuDuration == 0
    ensures var (tr', f') := CutOther(tr, f, t);
            && (Clean(tr', t) <==> !(running > 0 && tr.runningPacketStartTime == t))
            && Fits(f')
  {
  }

  lemma CutVideoClean(tr: Trace, f: Frame, t: uint64, running: nat)
    requires TraceOk(tr, running, t) && 0 < t
    ensures Clean(CutVideo(tr, f, t).0, t)
  {
  }

  lemma CompleteFrameClean(s: State, f: Frame, t: uint64)
    requires TrackerInv(s, t) && AllClean(s.traces, t) && FrameOk(f) && FitsIfCompleted(f) && 0 < t
    requires !CutAtStart(s, f, t)
    ensures var (s', f') := GpuSpec.CompleteFrame(s, f, t); AllClean(s'.traces, t) && Fits(f')
  {
    var o, v := Other(f.pid), Video(f.pid);
    if !f.gpuFrameCompleted && o in s.traces {
      assert v in s.traces;
      var f1 := f.(gpuFrameCompleted := true);
      var f2 := CutOther(s.traces[o], f1, t).1;
      CutOtherExact(s.traces[o], f1, t, |Running(s.nodes, o)|);
      CutVideoClean(s.traces[v], f2, t, |Running(s.nodes, v)|);
    }
  }

  lemma StartFrontClean(s: State, pending: Option<TraceId>, t: uint64)
    requires |s.nodes| < TWO_TO_THE_32 && 0 < t && AllClean(s.traces, t)
    requires CountsBut(s.nodes, s.traces, t, pending) && (pending.Some? ==> pending.value in s.traces)
    ensures AllClean(StartFront(s, pending, t).traces, t)
  {
    if pending.Some? {
      RunningBounded(s.nodes, pending.value);
      StartClean(s.traces[pending.value], |Running(s.nodes, pending.value)| - 1, t);
    }
  }

  lemma EnqueueWorkClean(s: State, h: uint64, id: uint32, t: uint64, isWait: bool)
    requires TrackerInv(s, t) && AllClean(s.traces, t) && h in s.contexts && 0 < t
    ensures AllClean(GpuSpec.EnqueueWork(s, h, id, t, isWait).traces, t)
  {
    var c := s.contexts[h];
    if c.trace.Some? {
      var q := s.nodes[c.node].queue;
      var p := Packet(if isWait then None else c.trace, id, false);
      EnqueueCounts(s, c.node, p, t);
      assert SetQueue(s, c.node, q + [p]).nodes.Keys == s.nodes.Keys;
      StartFrontClean(SetQueue(s, c.node, q + [p]), if q == [] then p.trace else None, t);
    }
  }

  lemma CompleteWorkClean(s: State, h: uint64, id: uint32, t: uint64)
    requires TrackerInv(s, t) && AllClean(s.traces, t) && h in s.contexts && 0 < t
    ensures AllClean(GpuSpec.CompleteWork(s, h, id, t).traces, t)
  {
    var c := s.contexts[h];
    if c.trace.Some? {
      var q := s.nodes[c.node].queue;
      var o := Classify(q, id);
      if o.Finished? {
        var q' := QueueAfter(q, o);
        assert RefersTo(q, s.traces);
        QueueAfterRefersTo(q, o, s.traces);
        FinishFrontClean(s, c.node, q', t);
        FinishFrontCounts(s, c.node, q', t);
        StartFrontClean(FinishFront(SetQueue(s, c.node, q'), Front(q), t), Front(q'), t);
      }
    }
  }

  lemma FinishFrontClean(s: State, n: NodeId, q': seq<Packet>, t: uint64)
    requires TrackerInv(s, t) && AllClean(s.traces, t) && n in s.nodes && s.nodes[n].queue != [] && 0 < t
    requires RefersTo(s.nodes[n].queue, s.traces)
    ensures var s2 := FinishFront(SetQueue(s, n, q'), Front(s.nodes[n].queue), t);
            AllClean(s2.traces, t) && |s2.nodes| < TWO_TO_THE_32
  {
    assert SetQueue(s, n, q').nodes.Keys == s.nodes.Keys;
    var f := Front(s.nodes[n].queue);
    if f.Some? {
      assert n in Running(s.nodes, f.value);
      FinishClean(s.traces[f.value], |Running(s.nodes, f.value)|, t);
    }
  }

  lemma EnqueueQueuePacketClean(s: State, h: uint64, id: uint32, pid: uint32, t: uint64, wait: bool)
    requires TrackerInv(s, t) && AllClean(s.traces, t) && 0 < t
    ensures AllClean(GpuSpec.EnqueueQueuePacket(s, h, id, pid, t, wait).traces, t)
  {
    hide NodesNumbered, ContextsOwn, QueuesOk, CountsOk, Clean, GpuSpec.EnqueueWork;
    if h in s.contexts {
      var s1 := if s.contexts[h].trace.None? then GpuSpec.SetContextProcessId(s, h, pid) else s;
      SetContextProcessIdKeeps(s, h, pid, t);
      SetContextProcessIdClean(s, h, pid, t);
      if s.contexts[h].isHwQueue { EnqueueWorkClean(s1, h, id, t, wait); }
    }
  }

  lemma SetContextProcessIdClean(s: State, h: uint64, pid: uint32, now: nat)
    requires Closed(s) && AllClean(s.traces, now) && h in s.contexts
    ensures AllClean(GpuSpec.SetContextProcessId(s, h, pid).traces, now)
  {
    assert Clean(ZERO_TRACE, now);
    hide Clean;
  }

  lemma RegisterContextClean(s: State, h: uint64, d: uint64, o: uint32, pid: uint32, now: nat)
    requires Closed(s) && AllClean(s.traces, now)
    ensures AllClean(GpuSpec.RegisterContext(s, h, d, o, pid).traces, now)
  {
  }

  lemma TrackerStepClean(w: World, op: Op, t: uint64)
    requires w.now <= t && Admissible(w, Event(t, op)) && TrackerInv(w.s, t) && AllClean(w.s.traces, t)
    ensures AllClean(ApplyTracker(w.s, op, t).traces, t)
  {
    hide QueuesOk, CountsOk, ContextsOwn, NodesNumbered;
    var s := w.s;
    match op
    case RegisterDevice(d, a) =>
    case UnregisterDevice(d) =>
    case RegisterContext(h, d, o, pid) => RegisterContextClean(s, h, d, o, pid, t);
    case RegisterHwQueueContext(h, k) =>
    case UnregisterContext(h) =>
    case SetEngineType(a, o, v) =>
    case EnqueueQueuePacket(h, id, pid, wait) => EnqueueQueuePacketClean(s, h, id, pid, t, wait);
    case CompleteQueuePacket(h, id) => if h in s.contexts { CompleteWorkClean(s, h, id, t); }
    case EnqueueDmaPacket(h, id) => if h in s.contexts { EnqueueWorkClean(s, h, id, t, false); }
    case CompleteDmaPacket(h, id) => if h in s.contexts { CompleteWorkClean(s, h, id, t); }
    case NewPresent(_, _) =>
    case CompleteFrame(_) =>
  }

  ghost predicate FramesFit(w: World) {
    AllClean(w.s.traces, w.now) && forall f :: f in w.frames ==> FitsIfCompleted(f)
  }

  ghost predicate Punctual(w: World, e: Event)
    requires Admissible(w, e)
  {
    e.op.CompleteFrame? ==> !CutAtStart(w.s, w.frames[e.op.frame], e.t)
  }

  lemma StepFits(w: World, e: Event)
    requires Inv(w) && Admissible(w, e) && FramesFit(w) && Punctual(w, e)
    ensures FramesFit(Apply(w, e))
  {
    TickHolds(w.s, w.now, e.t);
    match e.op {
      case NewPresent(pid, ready) =>
      case CompleteFrame(i) =>
        assert w.frames[i] in w.frames;
        CompleteFrameClean(w.s, w.frames[i], e.t);
      case _ => TrackerStepClean(w, e.op, e.t);
    }
  }

  /** No frame of the run is completed at the instant its running period began. */
  ghost predicate AllPunctual(w: World, events: seq<Event>)
    requires Inv(w) && Legal(w, events)
    decreases |events|
  {
    events == [] ||
    (Punctual(w, events[0]) && (Step(w, events[0]); AllPunctual(Apply(w, events[0]), events[1..])))
  }

  lemma {:induction false} RunFits(w: World, events: seq<Event>)
    requires Inv(w) && Legal(w, events) && FramesFit(w) && AllPunctual(w, events)
    ensures FramesFit(Exec(w, events))
    decreases |events|
  {
    if events != [] {
      Step(w, events[0]);
      StepFits(w, events[0]);
      RunFits(Apply(w, events[0]), events[1..]);
    }
  }

  /** In every punctual run every completed frame has GPUDuration <= ReadyTime - GPUStartTime. */
  lemma DurationFitsFrame(trackVideo: bool, events: seq<Event>, f: Frame)
    requires Legal(Start(trackVideo), events) && AllPunctual(Start(trackVideo), events)
    requires f in Exec(Start(trackVideo), events).frames && f.gpuFrameCompleted && f.gpuStartTime != 0
    ensures f.gpuDuration <= f.readyTime - f.gpuStartTime
  {
    RunFits(Start(trackVideo), events);
  }
}
