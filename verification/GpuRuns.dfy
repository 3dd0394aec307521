/** Runs that show where the accounting of GPU time depends on its provisos. */
module GpuRuns {
  import opened Wrappers
  import opened GpuSpec
  import opened GpuProofs
  import opened GpuFrames

  ghost predicate Reachable(w: World) {
    exists trackVideo, events :: Legal(Start(trackVideo), events) && Exec(Start(trackVideo), events) == w
  }

  lemma {:induction false} OneMoreEvent(w: World, events: seq<Event>, e: Event)
    requires Inv(w) && Legal(w, events) && Admissible(Exec(w, events), e)
    ensures Inv(Exec(w, events))
    ensures Legal(w, events + [e]) && Exec(w, events + [e]) == Apply(Exec(w, events), e)
    decreases |events|
  {
    ReachableInv(w, events);
    var all := events + [e];
    if events == [] {
      Step(w, e);
      assert all[1..] == [];
    } else {
      Step(w, events[0]);
      OneMoreEvent(Apply(w, events[0]), events[1..], e);
      assert all[1..] == events[1..] + [e];
    }
  }

  lemma ReachNext(w: World, e: Event)
    requires Reachable(w) && Closed(w.s) && Admissible(w, e)
    ensures Inv(w) && Inv(Apply(w, e)) && Reachable(Apply(w, e))
  {
    var trackVideo, events :| Legal(Start(trackVideo), events) && Exec(Start(trackVideo), events) == w;
    OneMoreEvent(Start(trackVideo), events, e);
    Step(w, e);
  }

  lemma ReachStart(trackVideo: bool)
    ensures Reachable(Start(trackVideo)) && Inv(Start(trackVideo))
  {
    assert Legal(Start(trackVideo), []) && Exec(Start(trackVideo), []) == Start(trackVideo);
  }

  // ---------------------------------------------------------------------------------------------
  // A context with one engine

  const ENGINE := Engine(5, 0)

  /** Context 10 of process 7 on one engine, whose queue and trace are given. */
  ghost predicate Single(w: World, q: seq<Packet>, tr: Trace) {
    && w.s.trackVideo == false && 10 in w.s.contexts
    && w.s.contexts[10] == Context(Some(Other(7)), ENGINE, 0, false, false)
    && ENGINE in w.s.nodes && w.s.nodes[ENGINE] == Node(q, false) && |w.s.nodes| == 1
    && Other(7) in w.s.traces && w.s.traces[Other(7)] == tr
    && Reachable(w) && Inv(w)
  }

  lemma ReachSingle() returns (w: World)
    ensures Single(w, [], ZERO_TRACE) && w.frames == [] && w.now == 2 && w.s.nextAllocation == 0
  {
    ReachStart(false);
    var w0 := Start(false);
    var e1 := Event(1, Op.RegisterDevice(1, 5));
    ReachNext(w0, e1);
    var w1 := Apply(w0, e1);
    var e2 := Event(2, Op.RegisterContext(10, 1, 0, 7));
    ReachNext(w1, e2);
    w := Apply(w1, e2);
  }

  lemma Enqueues(w: World, tr: Trace, id: uint32, t: uint64) returns (w': World)
    requires Single(w, [], tr) && w.now <= t && 0 < t
    ensures Single(w', [Packet(Some(Other(7)), id, false)], StartPacket(tr, t)) && w'.frames == w.frames && w'.now == t
  {
    var e := Event(t, Op.EnqueueDmaPacket(10, id));
    ReachNext(w, e);
    w' := Apply(w, e);
    assert [] + [Packet(Some(Other(7)), id, false)] == [Packet(Some(Other(7)), id, false)];
  }

  lemma Completes(w: World, tr: Trace, id: uint32, t: uint64) returns (w': World)
    requires Single(w, [Packet(Some(Other(7)), id, false)], tr) && w.now <= t && 0 < t
    ensures Single(w', [], FinishPacket(tr, t)) && w'.frames == w.frames && w'.now == t
  {
    var e := Event(t, Op.CompleteDmaPacket(10, id));
    ReachNext(w, e);
    var q := [Packet(Some(Other(7)), id, false)];
    assert FirstMatch(q, id, 0) == 0;
    assert q[0 + 1..] == [] && DropDone([]) == [];
    w' := Apply(w, e);
  }

  lemma Presents(w: World, q: seq<Packet>, tr: Trace) returns (w': World)
    requires Single(w, q, tr) && 0 < w.now
    ensures Single(w', q, tr) && w'.frames == w.frames + [NewFrame(7, 0)] && w'.now == w.now
  {
    var e := Event(w.now, Op.NewPresent(7, 0));
    ReachNext(w, e);
    w' := Apply(w, e);
  }

  lemma Cuts(w: World, q: seq<Packet>, tr: Trace, i: nat, t: uint64) returns (w': World)
    requires Single(w, q, tr) && i < |w.frames| && w.frames[i] == NewFrame(7, 0) && w.now <= t && 0 < t
    ensures var (tr', f') := CutOther(tr, NewFrame(7, 0).(gpuFrameCompleted := true), t);
            && Single(w', q, tr') && |w'.frames| == |w.frames| && w'.now == t
            && w'.frames[i].gpuFrameCompleted && w'.frames[i].gpuStartTime == f'.gpuStartTime
            && w'.frames[i].gpuDuration == f'.gpuDuration
            && w'.frames[i].readyTime == (if f'.readyTime == 0 then t else f'.readyTime)
            && forall k :: 0 <= k < |w.frames| && k != i ==> w'.frames[k] == w.frames[k]
  {
    var e := Event(t, Op.CompleteFrame(i));
    ReachNext(w, e);
    w' := Apply(w, e);
    assert Video(7) in w.s.traces;
  }

  /**
   A packet starts at 10 and a frame is completed at 10, which forgets the first packet.  That packet ends at 100 and
   another one runs from 200 to 210.  The next frame is reported with a duration of 100 although it starts at 200 and
   is ready at 210.
   */
  lemma LateStartRun() returns (w: World)
    ensures Reachable(w) && |w.frames| == 2 && w.frames[1].gpuFrameCompleted
    ensures w.frames[1].gpuStartTime == 200 && w.frames[1].readyTime == 210 && w.frames[1].gpuDuration == 100
    ensures !Fits(w.frames[1])
  {
    hide Single, Reachable;
    w := ReachSingle();
    w := Enqueues(w, ZERO_TRACE, 1, 10);
    var tr := StartPacket(ZERO_TRACE, 10);
    w := Presents(w, [Packet(Some(Other(7)), 1, false)], tr);
    w := Cuts(w, [Packet(Some(Other(7)), 1, false)], tr, 0, 10);
    tr := CutOther(tr, NewFrame(7, 0).(gpuFrameCompleted := true), 10).0;
    w := Completes(w, tr, 1, 100);
    tr := FinishPacket(tr, 100);
    w := Enqueues(w, tr, 2, 200);
    tr := StartPacket(tr, 200);
    w := Completes(w, tr, 2, 210);
    tr := FinishPacket(tr, 210);
    w := Presents(w, [], tr);
    w := Cuts(w, [], tr, 1, 220);
    SingleReached(w, [], CutOther(tr, NewFrame(7, 0).(gpuFrameCompleted := true), 220).0);
  }

  lemma SingleReached(w: World, q: seq<Packet>, tr: Trace)
    requires Single(w, q, tr)
    ensures Reachable(w)
  {
  }

  // ---------------------------------------------------------------------------------------------
  // When a cut breaks a frame

  /** The trace after its n running packets have ended at the same time. */
  function FinishAll(tr: Trace, n: nat, t: uint64): Trace
    decreases n
  {
    if n == 0 then tr else FinishAll(FinishPacket(tr, t), n - 1, t)
  }

  lemma {:induction false} FinishAllExact(tr: Trace, n: nat, t: uint64)
    requires tr.runningPacketCount == n > 0
    ensures FinishAll(tr, n, t)
            == tr.(runningPacketCount := 0, lastPacketTime := t, runningPacketStartTime := 0,
                   accumulatedPacketTime := Add64(tr.accumulatedPacketTime, Sub64(t, tr.runningPacketStartTime)))
    decreases n
  {
    if n > 1 {
      FinishAllExact(FinishPacket(tr, t), n - 1, t);
    } else {
      assert FinishAll(FinishPacket(tr, t), 0, t) == FinishPacket(tr, t);
    }
  }

  /**
   Whatever the number of packets that are running when a frame is cut at the start of the running period: if they end
   one tick later, and another packet runs in the next tick, the next frame does not fit.
   */
  lemma CutAtStartBreaks(tr: Trace, f: Frame, t: uint64, running: nat)
    requires TraceOk(tr, running, t) && Clean(tr, t) && running > 0 && tr.runningPacketStartTime == t && t + 3 < TWO_TO_THE_64
    requires f.gpuStartTime == 0 && f.gpuDuration == 0
    ensures var tr1 := FinishAll(CutOther(tr, f, t).0, running, t + 1);
            var tr2 := FinishPacket(StartPacket(tr1, t + 2), t + 2);
            var f' := CutOther(tr2, f, t + 3).1;
            f'.gpuStartTime == f'.readyTime == t + 2 && f'.gpuDuration > 0 && !Fits(f')
  {
    FinishAllExact(CutOther(tr, f, t).0, running, t + 1);
  }

  /** If what runs ends at the instant of the cut, the trace is clean again: its next frame fits. */
  lemma SameInstantHarmless(tr: Trace, f: Frame, t: uint64, running: nat)
    requires TraceOk(tr, running, t) && Clean(tr, t) && running > 0 && tr.runningPacketStartTime == t && 0 < t
    requires f.gpuStartTime == 0 && f.gpuDuration == 0
    ensures var tr' := FinishAll(CutOther(tr, f, t).0, running, t);
            && TraceOk(tr', 0, t) && Clean(tr', t)
            && forall next: uint64 :: t <= next ==> Fits(CutOther(tr', f, next).1)
  {
    FinishAllExact(CutOther(tr, f, t).0, running, t);
  }

  /** Whatever follows, every completed frame fits, if no other frame is cut at the start of its running period. */
  ghost predicate AlwaysFits(w: World)
    requires Inv(w)
  {
    forall run :: Legal(w, run) && AllPunctual(w, run) ==> FramesOk(Exec(w, run))
  }

  ghost predicate FramesOk(w: World) {
    forall f :: f in w.frames ==> FitsIfCompleted(f)
  }

  /**
   From every state that a punctual run can reach: after completing a frame all frames fit in every punctual
   continuation exactly if that frame is not cut at the start of the running period of its process.
   */
  lemma PunctualExactly(w: World, e: Event)
    requires Inv(w) && FramesFit(w) && Admissible(w, e) && e.op.CompleteFrame? && e.t + 1 < TWO_TO_THE_64
    ensures Inv(Apply(w, e))
    ensures AlwaysFits(Apply(w, e)) <==> !CutAtStart(w.s, w.frames[e.op.frame], e.t)
  {
    Step(w, e);
    var w' := Apply(w, e);
    if Punctual(w, e) {
      StepFits(w, e);
      forall run | Legal(w', run) && AllPunctual(w', run)
        ensures FramesOk(Exec(w', run))
      {
        RunFits(w', run);
      }
    } else {
      NextFrameBreaks(w, e);
    }
  }

  /** The next frame of the process, completed one tick later, has work but no start. */
  lemma NextFrameBreaks(w: World, e: Event)
    requires Inv(w) && FramesFit(w) && Admissible(w, e) && e.op.CompleteFrame? && e.t + 1 < TWO_TO_THE_64
    requires CutAtStart(w.s, w.frames[e.op.frame], e.t)
    ensures Inv(Apply(w, e)) && !AlwaysFits(Apply(w, e))
  {
    hide CutAtStart, FramesFit, FitsIfCompleted, QueuesOk, CountsOk, ContextsOwn, NodesNumbered, Paired, ContextsClosed, QueuesClosed,
      GpuSpec.CompleteFrame, AlwaysFits;
    Step(w, e);
    StillRunning(w, e);
    FrameAfterCut(Apply(w, e), w.frames[e.op.frame].pid, e.t);
  }

  lemma FrameAfterCut(w: World, pid: uint32, t: uint64)
    requires Inv(w) && w.now == t && t + 1 < TWO_TO_THE_64 && 0 < t
    requires Other(pid) in w.s.traces && w.s.traces[Other(pid)].firstPacketTime == 0
    requires w.s.traces[Other(pid)].runningPacketCount > 0 && w.s.traces[Other(pid)].runningPacketStartTime == t
    ensures !AlwaysFits(w)
  {
    hide FitsIfCompleted, Fits, QueuesOk, CountsOk, ContextsOwn, NodesNumbered, Paired, ContextsClosed, QueuesClosed,
      GpuSpec.CompleteFrame;
    var n, c := Event(t, Op.NewPresent(pid, 0)), Event(t + 1, Op.CompleteFrame(|w.frames|));
    var w1 := NewestFrame(w, pid, t);
    BrokenFrame(w1, |w.frames|, pid, t);
    Step(w1, c);
    TwoEvents(w, n, c);
    var w2 := Apply(w1, c);
    assert w2.frames[|w.frames|] in w2.frames;
    assert !FramesOk(Exec(w, [n, c]));
  }

  lemma NewestFrame(w: World, pid: uint32, t: uint64) returns (w1: World)
    requires Inv(w) && w.now == t && 0 < t
    ensures Admissible(w, Event(t, Op.NewPresent(pid, 0))) && w1 == Apply(w, Event(t, Op.NewPresent(pid, 0)))
    ensures Inv(w1) && w1.s == w.s && w1.now == t && w1.frames == w.frames + [NewFrame(pid, 0)]
  {
    var n := Event(t, Op.NewPresent(pid, 0));
    Step(w, n);
    w1 := Apply(w, n);
  }

  lemma TwoEvents(w: World, n: Event, c: Event)
    requires Inv(w) && Admissible(w, n) && Punctual(w, n)
    requires Inv(Apply(w, n)) && Admissible(Apply(w, n), c) && Punctual(Apply(w, n), c)
    ensures Legal(w, [n, c]) && AllPunctual(w, [n, c]) && Exec(w, [n, c]) == Apply(Apply(w, n), c)
  {
    hide Admissible, Punctual;
    Step(w, n);
    var w1 := Apply(w, n);
    Step(w1, c);
    var w2 := Apply(w1, c);
    assert [n, c][1..] == [c] && [c][1..] == [];
    assert Legal(w2, []) && AllPunctual(w2, []) && Exec(w2, []) == w2;
    assert Legal(w1, [c]) && AllPunctual(w1, [c]) && Exec(w1, [c]) == w2;
  }

  lemma StillRunning(w: World, e: Event)
    requires Inv(w) && Admissible(w, e) && e.op.CompleteFrame? && CutAtStart(w.s, w.frames[e.op.frame], e.t)
    ensures var tr := Other(w.frames[e.op.frame].pid);
            var w' := Apply(w, e);
            && tr in w'.s.traces && w'.s.traces[tr].firstPacketTime == 0
            && w'.s.traces[tr].runningPacketCount > 0 && w'.s.traces[tr].runningPacketStartTime == e.t
  {
  }

  lemma BrokenFrame(w: World, i: nat, pid: uint32, t: uint64)
    requires Inv(w) && i < |w.frames| && w.frames[i] == NewFrame(pid, 0) && w.now == t && t + 1 < TWO_TO_THE_64 && 0 < t
    requires Other(pid) in w.s.traces && w.s.traces[Other(pid)].firstPacketTime == 0
    requires w.s.traces[Other(pid)].runningPacketCount > 0 && w.s.traces[Other(pid)].runningPacketStartTime == t
    ensures Admissible(w, Event(t + 1, Op.CompleteFrame(i))) && Punctual(w, Event(t + 1, Op.CompleteFrame(i)))
    ensures !FitsIfCompleted(Apply(w, Event(t + 1, Op.CompleteFrame(i))).frames[i])
  {
    assert Video(pid) in w.s.traces;
  }

  // ---------------------------------------------------------------------------------------------
  // A hardware queue that is deleted while it runs

  /** A reachable state in which unregistering a context leaves its process counted as running for good. */
  lemma DeletedWhileRunning() returns (w: World)
    ensures Reachable(w) && Inv(w) && !QueuesIdle(w.s, 10)
    ensures !TrackerInv(GpuSpec.UnregisterContext(w.s, 10), w.now)
  {
    w := ReachSingle();
    w := AddsHwQueue(w);
    w := RunsHwQueue(w);
    UnregisterContextExact(w.s, 10, w.now);
  }

  ghost predicate OwnsHwQueue(w: World) {
    && Reachable(w) && Inv(w) && 10 in w.s.contexts && w.s.contexts[10].isParent
    && 11 in w.s.contexts && w.s.contexts[11] == Context(Some(Other(7)), HwNode(0), 10, false, true)
    && HwNode(0) in w.s.nodes && Other(7) in w.s.traces
  }

  lemma AddsHwQueue(w: World) returns (w': World)
    requires Single(w, [], ZERO_TRACE) && w.now == 2 && w.s.nextAllocation == 0
    ensures OwnsHwQueue(w') && w'.now == 3 && w'.s.nodes[HwNode(0)].queue == []
  {
    var e := Event(3, Op.RegisterHwQueueContext(10, 11));
    ReachNext(w, e);
    w' := Apply(w, e);
  }

  lemma RunsHwQueue(w: World) returns (w': World)
    requires OwnsHwQueue(w) && w.now == 3 && w.s.nodes[HwNode(0)].queue == []
    ensures Reachable(w') && Inv(w') && !QueuesIdle(w'.s, 10)
  {
    var e := Event(4, Op.EnqueueQueuePacket(11, 1, 7, false));
    ReachNext(w, e);
    w' := Apply(w, e);
    DeletesHwQueue(w'.s);
  }

  lemma DeletesHwQueue(s: State)
    requires 10 in s.contexts && s.contexts[10].isParent && 11 in s.contexts && s.contexts[11].parent == 10
    ensures s.contexts[11].node in DeletedNodes(s, 10)
  {
    var rest := s.contexts - {10};
    assert 11 in Children(rest, 10) && rest[11] == s.contexts[11];
  }
}
