/**
 The queue of one GPU node: a vector used as a ring that grows by 16 slots in its middle and shrinks by
 erasing dead slots around its head.  Its methods are proved against the plain sequence of live packets.
 */
module GpuNode {
  import opened Wrappers
  import opened GpuSpec
  import opened GpuQueues
  import opened RingIndex

  const GROWTH: nat := 16

  /** The live region [index, index + count), taken modulo the size, lies inside the vector. */
  ghost predicate RingOk(slots: seq<Packet>, index: nat, count: nat) {
    count <= |slots| && (if slots == [] then index == 0 else index < |slots|)
  }

  /** Storage is allocated 16 slots at a time and never has 32 slots to spare. */
  ghost predicate Tight(slots: seq<Packet>, count: nat) {
    |slots| % GROWTH == 0 && |slots| < count + 2 * GROWTH
  }

  ghost function LiveOf(slots: seq<Packet>, index: nat, count: nat): (q: seq<Packet>)
    requires RingOk(slots, index, count)
    ensures |q| == count
  {
    seq(count, k requires 0 <= k < count => slots[Wrap(index, k, |slots|)])
  }

  /** Inserting empty slots before the head and moving the head past them keeps the live packets. */
  lemma GrowKeepsLive(slots: seq<Packet>, index: nat, empty: seq<Packet>)
    requires RingOk(slots, index, |slots|) && |empty| == GROWTH
    ensures var grown := slots[..index] + empty + slots[index..];
            var index' := if slots == [] then 0 else index + GROWTH;
            && (index + GROWTH) % |grown| == index'
            && RingOk(grown, index', |slots|)
            && LiveOf(grown, index', |slots|) == LiveOf(slots, index, |slots|)
  {
    ModuloOnce(index + GROWTH, |slots| + GROWTH);
  }

  /** Writing the slot after the live region appends to the live packets. */
  lemma AppendAtEnd(slots: seq<Packet>, index: nat, count: nat, p: Packet)
    requires RingOk(slots, index, count) && count < |slots|
    ensures var written := slots[Wrap(index, count, |slots|) := p];
            LiveOf(written, index, count + 1) == LiveOf(slots, index, count) + [p]
  {
  }

  /** Erasing n dead slots in front of the head keeps the live packets. */
  lemma EraseBeforeKeepsLive(slots: seq<Packet>, index: nat, count: nat, n: nat)
    requires RingOk(slots, index, count) && n <= index && count + n < |slots|
    ensures var erased := slots[..index - n] + slots[index..];
            && RingOk(erased, index - n, count)
            && LiveOf(erased, index - n, count) == LiveOf(slots, index, count)
  {
  }

  /** Erasing the slots before the head and the dead slots at the end keeps the live packets. */
  lemma EraseAroundKeepsLive(slots: seq<Packet>, index: nat, count: nat, n: nat)
    requires RingOk(slots, index, count) && index < n && count + n < |slots|
    ensures var kept := slots[index..|slots| - (n - index)];
            && RingOk(kept, 0, count)
            && LiveOf(kept, 0, count) == LiveOf(slots, index, count)
  {
  }

  /** Flagging a queued slot flags that packet. */
  lemma FlagInPlace(slots: seq<Packet>, index: nat, count: nat, k: nat)
    requires RingOk(slots, index, count) && k < count
    ensures var at := Wrap(index, k, |slots|);
            var q := LiveOf(slots, index, count);
            LiveOf(slots[at := slots[at].(completed := true)], index, count) == q[k := q[k].(completed := true)]
  {
  }

  /** Moving the head into slot k drops the k packets in between. */
  lemma MoveHead(slots: seq<Packet>, index: nat, count: nat, k: nat)
    requires RingOk(slots, index, count) && k < count
    ensures var at := Wrap(index, k, |slots|);
            var q := LiveOf(slots, index, count);
            LiveOf(slots[at := slots[index]], at, count - k) == [q[0]] + q[k + 1..]
  {
  }

  class Node {
    var queue: seq<Packet>
    var queueIndex: nat
    var queueCount: nat
    var isVideo: bool

    constructor (video: bool)
      ensures Valid() && Live() == [] && isVideo == video
    {
      queue, queueIndex, queueCount, isVideo := [], 0, 0, video;
    }

    ghost predicate Valid()
      reads this
    {
      RingOk(queue, queueIndex, queueCount) && Tight(queue, queueCount)
    }

    /** The enqueued packets in order, the running one first. */
    ghost function Live(): (q: seq<Packet>)
      requires RingOk(queue, queueIndex, queueCount)
      reads this
      ensures |q| == queueCount
    {
      LiveOf(queue, queueIndex, queueCount)
    }

    ghost function Value(): GpuSpec.Node
      requires RingOk(queue, queueIndex, queueCount)
      reads this
    {
      GpuSpec.Node(Live(), isVideo)
    }

    /** Appends a packet, enlarging the ring when it is full. */
    method Append(p: Packet)
      requires Valid()
      modifies this
      ensures Valid() && Live() == old(Live()) + [p] && isVideo == old(isVideo)
    {
      if queueCount == |queue| {
        var empty := seq(GROWTH, _ => Packet(None, 0, false));
        GrowKeepsLive(queue, queueIndex, empty);
        queue := queue[..queueIndex] + empty + queue[queueIndex..];
        queueIndex := (queueIndex + GROWTH) % |queue|;
      }
      AppendAtEnd(queue, queueIndex, queueCount, p);
      queue := queue[Wrap(queueIndex, queueCount, |queue|) := p];
      queueCount := queueCount + 1;
    }

    /**
     Finds the packet that a completion event refers to.  An early wait packet is flagged in place; for any
     other match the running packet is moved into the matching slot, so that the packets before it are gone.
     */
    method Match(id: uint32) returns (o: Outcome)
      requires Valid() && queueCount > 0
      modifies this
      ensures RingOk(queue, queueIndex, queueCount) && |queue| == |old(queue)| && isVideo == old(isVideo)
      ensures o == Classify(old(Live()), id) && (o.Finished? <==> Ends(old(Live()), id))
      ensures !o.Finished? ==> queueCount == old(queueCount) && Live() == QueueAfter(old(Live()), o)
      ensures o.Finished? ==> Live() == [old(Live()[0])] + old(Live())[o.through + 1..]
    {
      ghost var q := Live();
      EndsExactly(q, id);
      hide Ends;
      if id < queue[queueIndex].sequenceId {
        return Ignored;
      }
      if id == queue[queueIndex].sequenceId {
        return Finished(0);
      }
      var missing := 1;
      while true
        invariant 1 <= missing <= queueCount
        invariant FirstMatch(q, id, 0) == FirstMatch(q, id, missing)
        decreases queueCount - missing
      {
        if missing == queueCount {
          return Ignored;
        }
        var at := Wrap(queueIndex, missing, |queue|);
        if queue[at].sequenceId == id {
          if queue[at].trace.None? {
            FlagInPlace(queue, queueIndex, queueCount, missing);
            queue := queue[at := queue[at].(completed := true)];
            return Flagged(missing);
          }
          MoveHead(queue, queueIndex, queueCount, missing);
          queue := queue[at := queue[queueIndex]];
          queueIndex := at;
          queueCount := queueCount - missing;
          return Finished(missing);
        }
        missing := missing + 1;
      }
    }

    /** Pops the running packet and every wait packet behind it that has already completed. */
    method Pop() returns (next: Option<TraceId>)
      requires RingOk(queue, queueIndex, queueCount) && queueCount > 0
      modifies this
      ensures RingOk(queue, queueIndex, queueCount) && |queue| == |old(queue)| && isVideo == old(isVideo)
      ensures Live() == DropDone(old(Live())[1..]) && next == Front(Live())
    {
      ghost var q := Live();
      while true
        invariant RingOk(queue, queueIndex, queueCount) && queueCount > 0 && queue == old(queue) && isVideo == old(isVideo)
        invariant DropDone(Live()[1..]) == DropDone(q[1..])
        decreases queueCount
      {
        ghost var rest := Live()[1..];
        queueIndex := Wrap(queueIndex, 1, |queue|);
        queueCount := queueCount - 1;
        assert Live() == rest;
        if queueCount == 0 {
          return None;
        }
        var entry := queue[queueIndex];
        assert entry == rest[0];
        if entry.trace.Some? {
          return entry.trace;
        }
        if !entry.completed {
          return None;
        }
      }
    }

    /** Gives back storage in multiples of 16 slots. */
    method Shrink()
      requires RingOk(queue, queueIndex, queueCount) && |queue| % GROWTH == 0
      modifies this
      ensures Valid() && Live() == old(Live()) && isVideo == old(isVideo)
    {
      var n := (|queue| - queueCount) / GROWTH;
      if n >= 2 {
        n := (n - 1) * GROWTH;
        if queueIndex >= n {
          EraseBeforeKeepsLive(queue, queueIndex, queueCount, n);
          queue := queue[..queueIndex - n] + queue[queueIndex..];
          queueIndex := queueIndex - n;
        } else {
          EraseAroundKeepsLive(queue, queueIndex, queueCount, n);
          queue := queue[..|queue| - (n - queueIndex)];
          queue := queue[queueIndex..];
          queueIndex := 0;
        }
      }
    }

    /**
     The effect of a completion event on the node: which packet stops running and which one starts, if any.
     */
    method Complete(id: uint32) returns (o: Outcome, finished: Option<TraceId>, next: Option<TraceId>)
      requires Valid() && queueCount > 0
      modifies this
      ensures Valid() && isVideo == old(isVideo)
      ensures o == Classify(old(Live()), id) && Live() == QueueAfter(old(Live()), o)
      ensures CompletionOf(old(Live()), Live(), id)
      ensures o.Finished? ==> finished == Front(old(Live())) && next == Front(Live())
      ensures !o.Finished? ==> finished == next == None
    {
      hide CompletionOf, Ends, Classify, QueueAfter, DropDone;
      ghost var q := Live();
      QueueAfterExactly(q, id);
      finished, next := None, None;
      o := Match(id);
      if o.Finished? {
        FinishedQueue(q, o);
        finished := queue[queueIndex].trace;
        assert finished == Live()[0].trace;
        next := Pop();
        Shrink();
      }
    }
  }

  lemma FinishedQueue(q: seq<Packet>, o: Outcome)
    requires o.Finished? && o.through < |q|
    ensures QueueAfter(q, o) == DropDone(([q[0]] + q[o.through + 1..])[1..])
  {
    assert ([q[0]] + q[o.through + 1..])[1..] == q[o.through + 1..];
  }
}
