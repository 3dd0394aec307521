/**
 When the GPU time of a frame starts and ends: from the first instant since the previous frame of the process at which
 a node ran its work, to the last one.
 */
module GpuSpans {
  import opened Wrappers
  import opened GpuSpec
  import opened GpuProofs
  import opened GpuFrames

  /** The first instant at which work ran since the last frame, and the last instant at which it stopped; 0 for none. */
  datatype Span = Span(first: nat, last: nat)

  ghost predicate Busy(w: World, id: TraceId) {
    Running(w.s.nodes, id) != {}
  }

  /** The event completes a frame of the process. */
  ghost predicate Cuts(w: World, e: Event, pid: uint32)
    requires Admissible(w, e)
  {
    e.op.CompleteFrame? && w.frames[e.op.frame].pid == pid && !w.frames[e.op.frame].gpuFrameCompleted
  }

  /** What one event does to the span, in terms of which queues run work of the process before and after it. */
  ghost function SpanAfter(sp: Span, w: World, e: Event, pid: uint32): Span
    requires Inv(w) && Admissible(w, e)
  {
    var before, after := Busy(w, Other(pid)), Busy(Apply(w, e), Other(pid));
    if Cuts(w, e, pid) then Span(if before then e.t else 0, 0)
    else Span(if sp.first == 0 && !before && after then e.t else sp.first, if before && !after then e.t else sp.last)
  }

  ghost function SpanOf(sp: Span, w: World, events: seq<Event>, pid: uint32): Span
    requires Inv(w) && Legal(w, events)
    decreases |events|
  {
    if events == [] then sp
    else Step(w, events[0]); SpanOf(SpanAfter(sp, w, events[0], pid), Apply(w, events[0]), events[1..], pid)
  }

  ghost function Get(traces: map<TraceId, Trace>, id: TraceId): Trace {
    if id in traces then traces[id] else ZERO_TRACE
  }

  /** The span as the tracker keeps it. */
  ghost predicate Keeps(tr: Trace, sp: Span) {
    && tr.firstPacketTime == sp.first
    && (tr.runningPacketCount == 0 ==> tr.lastPacketTime == sp.last)
    && (sp.first == 0 ==> tr.lastPacketTime == 0 && sp.last == 0)
  }

  // ---------------------------------------------------------------------------------------------
  // One trace

  ghost predicate Moves(tr: Trace, tr': Trace, t: nat) {
    && tr'.firstPacketTime == (if tr.firstPacketTime == 0 && tr.runningPacketCount == 0 < tr'.runningPacketCount then t
                               else tr.firstPacketTime)
    && (tr'.runningPacketCount == 0 ==> tr'.lastPacketTime == if tr.runningPacketCount > 0 then t else tr.lastPacketTime)
    && (tr'.firstPacketTime == 0 ==> tr'.lastPacketTime == tr.lastPacketTime && tr'.runningPacketCount == 0)
  }

  ghost predicate AllMove(s: State, s': State, t: nat) {
    forall id :: Moves(Get(s.traces, id), Get(s'.traces, id), t)
  }

  lemma StaysPut(tr: Trace, t: nat, now: nat)
    requires Clean(tr, now)
    ensures Moves(tr, tr, t)
  {
  }

  lemma StartMoves(tr: Trace, running: nat, t: uint64)
    requires TraceOk(tr, running, t) && running + 1 < TWO_TO_THE_32 && 0 < t && Clean(tr, t)
    ensures Moves(tr, StartPacket(tr, t), t)
  {
  }

  lemma FinishMoves(tr: Trace, running: nat, t: uint64)
    requires TraceOk(tr, running, t) && 0 < running && 0 < t && Clean(tr, t)
    ensures Moves(tr, FinishPacket(tr, t), t)
    ensures running < TWO_TO_THE_32 ==> Moves(tr, StartPacket(FinishPacket(tr, t), t), t)
  {
  }

  lemma ZeroClean(traces: map<TraceId, Trace>, id: TraceId, now: nat)
    requires AllClean(traces, now)
    ensures Clean(Get(traces, id), now)
  {
  }

  // ---------------------------------------------------------------------------------------------
  // One event

  lemma SameTraces(s: State, s': State, t: nat, now: nat)
    requires AllClean(s.traces, now) && forall id :: Get(s'.traces, id) == Get(s.traces, id)
    ensures AllMove(s, s', t)
  {
    forall id
      ensures Moves(Get(s.traces, id), Get(s'.traces, id), t)
    {
      ZeroClean(s.traces, id, now);
      StaysPut(Get(s.traces, id), t, now);
    }
  }

  lemma EnqueueMoves(s: State, h: uint64, id: uint32, t: uint64, isWait: bool)
    requires TrackerInv(s, t) && AllClean(s.traces, t) && h in s.contexts && 0 < t
    ensures AllMove(s, GpuSpec.EnqueueWork(s, h, id, t, isWait), t)
  {
    hide Moves, StartPacket;
    var s' := GpuSpec.EnqueueWork(s, h, id, t, isWait);
    var c := s.contexts[h];
    var starts := if c.trace.Some? && s.nodes[c.node].queue == [] && !isWait then c.trace else None;
    forall k
      ensures Moves(Get(s.traces, k), Get(s'.traces, k), t)
    {
      ZeroClean(s.traces, k, t);
      if starts == Some(k) {
        RunningBelow(s, c.node, k);
        StartMoves(s.traces[k], |Running(s.nodes, k)|, t);
      } else {
        StaysPut(Get(s.traces, k), t, t);
      }
    }
  }

  /** An idle node leaves room in the count. */
  lemma RunningBelow(s: State, n: NodeId, k: TraceId)
    requires n in s.nodes && |s.nodes| < TWO_TO_THE_32 && Front(s.nodes[n].queue) != Some(k)
    ensures |Running(s.nodes, k)| + 1 < TWO_TO_THE_32
  {
    var all := s.nodes.Keys;
    assert Running(s.nodes, k) <= all - {n};
    CardinalityMonotone(Running(s.nodes, k), all - {n});
  }

  lemma CompleteMoves(s: State, h: uint64, id: uint32, t: uint64)
    requires TrackerInv(s, t) && AllClean(s.traces, t) && h in s.contexts && 0 < t
    ensures AllMove(s, GpuSpec.CompleteWork(s, h, id, t), t)
  {
    hide Moves, StartPacket, FinishPacket, Classify, QueueAfter;
    var s' := GpuSpec.CompleteWork(s, h, id, t);
    var c := s.contexts[h];
    if c.trace.Some? && Classify(s.nodes[c.node].queue, id).Finished? {
      var q := s.nodes[c.node].queue;
      QueueAfterRefersTo(q, Classify(q, id), s.traces);
      var q' := QueueAfter(q, Classify(q, id));
      forall k
        ensures Moves(Get(s.traces, k), Get(s'.traces, k), t)
      {
        ZeroClean(s.traces, k, t);
        FrontsMove(s, c.node, q', k, t);
      }
    } else {
      SameTraces(s, s', t, t);
    }
  }

  lemma FrontsMove(s: State, n: NodeId, q': seq<Packet>, k: TraceId, t: uint64)
    requires TrackerInv(s, t) && AllClean(s.traces, t) && n in s.nodes && 0 < t
    requires RefersTo(s.nodes[n].queue, s.traces) && RefersTo(q', s.traces)
    ensures var s1 := FinishFront(SetQueue(s, n, q'), Front(s.nodes[n].queue), t);
            Moves(Get(s.traces, k), Get(StartFront(s1, Front(q'), t).traces, k), t)
  {
    hide Moves, StartPacket, FinishPacket, QueuesOk, WellFormed, Clean;
    ZeroClean(s.traces, k, t);
    if Front(s.nodes[n].queue) == Some(k) {
      assert n in Running(s.nodes, k);
      RunningBounded(s.nodes, k);
      FinishMoves(s.traces[k], |Running(s.nodes, k)|, t);
    } else if Front(q') == Some(k) {
      RunningBelow(s, n, k);
      StartMoves(s.traces[k], |Running(s.nodes, k)|, t);
    } else {
      StaysPut(Get(s.traces, k), t, t);
    }
  }

  lemma ProcessTraces(s: State, h: uint64, pid: uint32)
    requires Closed(s) && h in s.contexts
    ensures forall id :: Get(GpuSpec.SetContextProcessId(s, h, pid).traces, id) == Get(s.traces, id)
  {
  }

  lemma RegisterTraces(s: State, h: uint64, d: uint64, o: uint32, pid: uint32)
    requires Closed(s)
    ensures forall id :: Get(GpuSpec.RegisterContext(s, h, d, o, pid).traces, id) == Get(s.traces, id)
  {
  }

  lemma QueuePacketMoves(s: State, h: uint64, id: uint32, pid: uint32, t: uint64, wait: bool)
    requires TrackerInv(s, t) && AllClean(s.traces, t) && 0 < t
    ensures AllMove(s, GpuSpec.EnqueueQueuePacket(s, h, id, pid, t, wait), t)
  {
    hide TrackerInv, AllMove, AllClean, GpuSpec.EnqueueWork, Moves;
    if h in s.contexts {
      ClosedOf(s, t);
      var s1 := if s.contexts[h].trace.None? then GpuSpec.SetContextProcessId(s, h, pid) else s;
      SetContextProcessIdKeeps(s, h, pid, t);
      SetContextProcessIdClean(s, h, pid, t);
      ProcessTraces(s, h, pid);
      SameTraces(s, s1, t, t);
      if s.contexts[h].isHwQueue {
        EnqueueMoves(s1, h, id, t, wait);
        AllMoveFrom(s, s1, GpuSpec.EnqueueWork(s1, h, id, t, wait), t);
      }
    } else {
      SameTraces(s, s, t, t);
    }
  }

  lemma AllMoveFrom(s: State, s1: State, s': State, t: nat)
    requires AllMove(s1, s', t) && forall id :: Get(s1.traces, id) == Get(s.traces, id)
    ensures AllMove(s, s', t)
  {
    hide Moves;
  }

  lemma ClosedOf(s: State, t: nat)
    requires TrackerInv(s, t)
    ensures Closed(s)
  {
  }

  lemma TrackerMoves(w: World, op: Op, t: uint64)
    requires w.now <= t && Admissible(w, Event(t, op)) && TrackerInv(w.s, t) && AllClean(w.s.traces, t)
    ensures AllMove(w.s, ApplyTracker(w.s, op, t), t)
  {
    hide AllMove, AllClean, Moves, QueuesIdle;
    var s := w.s;
    ClosedOf(s, t);
    hide TrackerInv;
    match op
    case RegisterContext(h, d, o, pid) => { RegisterTraces(s, h, d, o, pid); SameTraces(s, ApplyTracker(s, op, t), t, t); }
    case EnqueueQueuePacket(h, id, pid, wait) => QueuePacketMoves(s, h, id, pid, t, wait);
    case CompleteQueuePacket(h, id) =>
      if h in s.contexts && s.contexts[h].isHwQueue { CompleteMoves(s, h, id, t); } else { SameTraces(s, s, t, t); }
    case EnqueueDmaPacket(h, id) => if h in s.contexts { EnqueueMoves(s, h, id, t, false); } else { SameTraces(s, s, t, t); }
    case CompleteDmaPacket(h, id) => if h in s.contexts { CompleteMoves(s, h, id, t); } else { SameTraces(s, s, t, t); }
    case _ => SameTraces(s, ApplyTracker(s, op, t), t, t);
  }

  // ---------------------------------------------------------------------------------------------
  // Whole runs

  lemma BusyCount(w: World, id: TraceId)
    requires Inv(w)
    ensures Busy(w, id) <==> Get(w.s.traces, id).runningPacketCount > 0
  {
    if id in w.s.traces {
      assert TraceOk(w.s.traces[id], |Running(w.s.nodes, id)|, w.now);
    } else {
      UnknownIdle(w.s.nodes, w.s.traces, id);
    }
  }

  lemma MovedKeeps(tr: Trace, tr': Trace, sp: Span, t: nat)
    requires Moves(tr, tr', t) && Keeps(tr, sp) && 0 < t
    ensures var before, after := tr.runningPacketCount > 0, tr'.runningPacketCount > 0;
            Keeps(tr', Span(if sp.first == 0 && !before && after then t else sp.first, if before && !after then t else sp.last))
  {
  }

  /** What a cut leaves of the trace, and what the frame gets of its span. */
  lemma CutKeeps(tr: Trace, f: Frame, t: uint64, running: nat, sp: Span)
    requires TraceOk(tr, running, t) && 0 < t && Clean(tr, t) && Keeps(tr, sp)
    requires f.gpuStartTime == 0
    ensures var (tr', f') := CutOther(tr, f, t);
            && (!(running > 0 && tr.runningPacketStartTime == t) ==> Keeps(tr', Span(if running > 0 then t else 0, 0)))
            && f'.gpuStartTime == sp.first
            && f'.readyTime == if running > 0 then t else if sp.first != 0 then sp.last else f.readyTime
  {
  }

  lemma SpanStep(w: World, e: Event, pid: uint32, sp: Span)
    requires Inv(w) && Admissible(w, e) && FramesFit(w) && Punctual(w, e) && Keeps(Get(w.s.traces, Other(pid)), sp)
    ensures Inv(Apply(w, e)) && Keeps(Get(Apply(w, e).s.traces, Other(pid)), SpanAfter(sp, w, e, pid))
  {
    hide Moves, Busy, TrackerInv, Keeps, Clean;
    ClosedOf(w.s, w.now);
    var id, w' := Other(pid), Apply(w, e);
    Step(w, e);
    BusyCount(w, id);
    BusyCount(w', id);
    Ticks(w, e.t);
    if Cuts(w, e, pid) {
      CutSpan(w, e, pid, sp);
    } else {
      StepMoves(w, e, pid);
      MovedKeeps(Get(w.s.traces, id), Get(w'.s.traces, id), sp, e.t);
    }
  }

  lemma Ticks(w: World, t: uint64)
    requires Inv(w) && FramesFit(w) && w.now <= t
    ensures TrackerInv(w.s, t) && AllClean(w.s.traces, t)
  {
    TickHolds(w.s, w.now, t);
  }

  lemma StepMoves(w: World, e: Event, pid: uint32)
    requires Inv(w) && Admissible(w, e) && TrackerInv(w.s, e.t) && AllClean(w.s.traces, e.t) && !Cuts(w, e, pid)
    ensures Moves(Get(w.s.traces, Other(pid)), Get(Apply(w, e).s.traces, Other(pid)), e.t)
  {
    hide Moves, Clean, TrackerInv, AllClean, ApplyTracker, GpuSpec.CompleteFrame, AllMove, Get;
    match e.op
    case NewPresent(_, _) => { SameTraces(w.s, w.s, e.t, e.t); MoveOf(w.s, w.s, e.t, Other(pid)); }
    case CompleteFrame(i) =>
      ClosedOf(w.s, e.t);
      OtherCut(w.s, w.frames[i], e.t, pid);
      ZeroClean(w.s.traces, Other(pid), e.t);
      StaysPut(Get(w.s.traces, Other(pid)), e.t, e.t);
    case _ => { TrackerMoves(w, e.op, e.t); ClosedOf(w.s, e.t); MoveOf(w.s, ApplyTracker(w.s, e.op, e.t), e.t, Other(pid)); }
  }

  lemma MoveOf(s: State, s': State, t: nat, id: TraceId)
    requires AllMove(s, s', t)
    ensures Moves(Get(s.traces, id), Get(s'.traces, id), t)
  {
    hide Moves;
  }

  /** A frame of another process, or one that was completed before, cuts nothing here. */
  lemma OtherCut(s: State, f: Frame, t: uint64, pid: uint32)
    requires Closed(s) && (f.pid != pid || f.gpuFrameCompleted)
    ensures Get(GpuSpec.CompleteFrame(s, f, t).0.traces, Other(pid)) == Get(s.traces, Other(pid))
  {
    hide CutOther, CutVideo;
  }

  lemma CutSpan(w: World, e: Event, pid: uint32, sp: Span)
    requires Inv(w) && Admissible(w, e) && TrackerInv(w.s, e.t) && AllClean(w.s.traces, e.t) && Cuts(w, e, pid) && Punctual(w, e)
    requires Keeps(Get(w.s.traces, Other(pid)), sp)
    ensures Keeps(Get(Apply(w, e).s.traces, Other(pid)), SpanAfter(sp, w, e, pid))
  {
    hide CutOther, CutVideo, Busy, Clean;
    var f, id := w.frames[e.op.frame], Other(pid);
    assert f in w.frames;
    BusyCount(w, id);
    if id in w.s.traces {
      CutKeeps(w.s.traces[id], f.(gpuFrameCompleted := true), e.t, |Running(w.s.nodes, id)|, sp);
    }
  }

  lemma {:induction false} RunSpans(w: World, events: seq<Event>, pid: uint32, sp: Span)
    requires Inv(w) && Legal(w, events) && FramesFit(w) && AllPunctual(w, events) && Keeps(Get(w.s.traces, Other(pid)), sp)
    ensures Keeps(Get(Exec(w, events).s.traces, Other(pid)), SpanOf(sp, w, events, pid))
    ensures FramesFit(Exec(w, events)) && Inv(Exec(w, events))
    decreases |events|
  {
    if events != [] {
      SpanStep(w, events[0], pid, sp);
      StepFits(w, events[0]);
      RunSpans(Apply(w, events[0]), events[1..], pid, SpanAfter(sp, w, events[0], pid));
    }
  }

  /**
   In every punctual run a frame that is completed starts when work of its process first ran since the previous frame, and
   is ready when that work last stopped, or now if it still runs; without any work it keeps its ready time, if it has one.
   */
  lemma FrameSpanExactly(trackVideo: bool, events: seq<Event>, e: Event)
    requires Legal(Start(trackVideo), events) && AllPunctual(Start(trackVideo), events)
    requires Admissible(Exec(Start(trackVideo), events), e) && e.op.CompleteFrame?
    requires !Exec(Start(trackVideo), events).frames[e.op.frame].gpuFrameCompleted
    ensures var w := Exec(Start(trackVideo), events);
            var f := w.frames[e.op.frame];
            Inv(w) && e.op.frame < |Apply(w, e).frames|
    ensures var w := Exec(Start(trackVideo), events);
            var f := w.frames[e.op.frame];
            var f' := Apply(w, e).frames[e.op.frame];
            var sp := SpanOf(Span(0, 0), Start(trackVideo), events, f.pid);
            && f'.gpuFrameCompleted && f'.pid == f.pid && f'.gpuStartTime == sp.first
            && f'.readyTime == if Busy(w, Other(f.pid)) then e.t
                               else if sp.first != 0 then sp.last
                               else if f.readyTime != 0 then f.readyTime else e.t
  {
    var w := Exec(Start(trackVideo), events);
    var f := w.frames[e.op.frame];
    RunSpans(Start(trackVideo), events, f.pid, Span(0, 0));
    Ticks(w, e.t);
    FrameSpan(w, e, SpanOf(Span(0, 0), Start(trackVideo), events, f.pid));
  }

  lemma FrameSpan(w: World, e: Event, sp: Span)
    requires Inv(w) && Admissible(w, e) && TrackerInv(w.s, e.t) && AllClean(w.s.traces, e.t)
    requires e.op.CompleteFrame? && !w.frames[e.op.frame].gpuFrameCompleted
    requires Keeps(Get(w.s.traces, Other(w.frames[e.op.frame].pid)), sp)
    ensures e.op.frame < |Apply(w, e).frames|
    ensures var f := w.frames[e.op.frame];
            var f' := Apply(w, e).frames[e.op.frame];
            && f'.gpuFrameCompleted && f'.pid == f.pid && f'.gpuStartTime == sp.first
            && f'.readyTime == if Busy(w, Other(f.pid)) then e.t
                               else if sp.first != 0 then sp.last
                               else if f.readyTime != 0 then f.readyTime else e.t
  {
    hide Busy;
    var f := w.frames[e.op.frame];
    var id := Other(f.pid);
    assert f in w.frames;
    BusyCount(w, id);
    if id in w.s.traces {
      CutKeeps(w.s.traces[id], f.(gpuFrameCompleted := true), e.t, |Running(w.s.nodes, id)|, sp);
      hide CutOther;
    }
  }
}
