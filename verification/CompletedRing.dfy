/**
 The ring of completed presents: the consumer thread appends, the output thread takes the ready prefix.
 Every method runs inside one critical section of mPresentEventMutex, and is proved against PresentSpec.Ring.
 */
module CompletedPresents {
  import opened Wrappers
  import opened RingIndex
  import opened PresentSpec

  class CompletedRing {
    const slots: array<Option<Id>>
    var index: nat
    var count: nat
    var ready: nat
    var overflowed: nat
    ghost var removed: seq<Removal>

    constructor (capacity: nat)
      requires 0 < capacity
      ensures Valid() && Value() == Ring([], 0, 0, []) && slots.Length == capacity && fresh(slots)
    {
      slots := new Option<Id>[capacity](_ => None);
      index, count, ready, overflowed, removed := 0, 0, 0, 0, [];
    }

    ghost predicate Valid()
      reads this, slots
    {
      && index < slots.Length && ready <= count <= slots.Length
      && forall i :: 0 <= i < count ==> slots[Wrap(index, i, slots.Length)].Some?
    }

    ghost function Queue(): (q: seq<Id>)
      requires Valid()
      reads this, slots
      ensures |q| == count
    {
      seq(count, i requires 0 <= i < count && Valid() reads this, slots => slots[Wrap(index, i, slots.Length)].value)
    }

    ghost function Value(): Ring
      requires Valid()
      reads this, slots
    {
      Ring(Queue(), ready, overflowed, removed)
    }

    function At(i: nat): Id
      requires Valid() && i < count
      reads this, slots
      ensures At(i) == Queue()[i]
    {
      slots[Wrap(index, i, slots.Length)].value
    }

    /** Moves the ready count past every present that is no longer waiting. */
    method UpdateReadyCount(presents: Presents)
      requires Valid() && forall q :: q in Queue() ==> q in presents
      modifies this`ready
      ensures Valid() && Value() == UpdateReady(old(Value()), presents)
    {
      while ready < count
        invariant ready <= count
        invariant Valid() && Queue() == old(Queue())
        invariant ReadyFrom(Queue(), presents, ready) == ReadyFrom(Queue(), presents, old(ready))
      {
        var p := presents[At(ready)];
        if p.waitingForPresentStop || p.waitingForFlipFrameType || p.waitingForFrameId {
          break;
        }
        ready := ready + 1;
      }
    }

    /** Writes the slot behind the last present. */
    method Append(id: Id)
      requires Valid() && count < slots.Length
      modifies this`count, slots
      ensures Valid() && Queue() == old(Queue()) + [id]
    {
      slots[Wrap(index, count, slots.Length)] := Some(id);
      count := count + 1;
    }

    /** Writes over the oldest present, which becomes the slot behind the last one. */
    method Overwrite(id: Id)
      requires Valid() && count == slots.Length && 0 < count
      modifies this`index, slots
      ensures Valid() && Queue() == old(Queue())[1..] + [id] && ready == old(ready)
    {
      var at := index;
      index := Wrap(index, 1, slots.Length);
      slots[at] := Some(id);
      forall k | 0 <= k < count
        ensures slots[Wrap(index, k, slots.Length)] == Some((old(Queue())[1..] + [id])[k])
      {
        WrapStep(at, k, slots.Length);
        if k < count - 1 { WrapInjective(at, k + 1, 0, slots.Length); }
      }
    }

    /** Adds a completed present; false if the ring is full and the lost present was dropped instead. */
    method Insert(id: Id, presents: Presents, cfg: Config) returns (accepted: bool)
      requires Valid() && slots.Length == cfg.capacity
      requires id in presents && forall q :: q in Queue() ==> q in presents
      modifies this, slots
      ensures Valid()
      ensures Value() == PresentSpec.Insert(old(Value()), presents, id, cfg)
      ensures accepted == !Drops(old(Value()), presents, id, cfg)
    {
      if count == slots.Length {
        if !cfg.realtime && ready != 0 && !cfg.disableBackpressure {
          // The producer waits until the output thread has made room: it takes everything that is ready.
          var _ := Dequeue();
          Append(id);
        } else {
          if !presents[At(0)].lost && presents[id].lost {
            return false;
          }
          ghost var q, victim := Queue(), Evict(Value(), presents, id);
          Overwrite(id);
          removed := removed + [victim];
          if ready > 0 {
            ready := ready - 1;
          }
          overflowed := overflowed + 1;
          assert Queue() == q[1..] + [id];
        }
      } else {
        Append(id);
      }
      return true;
    }

    /** Hands the ready presents to the output thread. */
    method Dequeue() returns (out: seq<Id>)
      requires Valid()
      modifies this, slots
      ensures Valid() && Value() == PresentSpec.Dequeue(old(Value()))
      ensures out == old(Queue())[..old(ready)]
    {
      out := [];
      ghost var q := Queue();
      for i := 0 to ready
        invariant index < slots.Length && ready == old(ready) && count == old(count) && overflowed == old(overflowed)
        invariant removed == old(removed) && out == q[..i]
        invariant forall k :: 0 <= k < count - i ==> slots[Wrap(index, k, slots.Length)] == Some(q[i + k])
      {
        assert slots[Wrap(index, 0, slots.Length)] == Some(q[i]);
        out := out + [slots[index].value];
        slots[index] := None;
        forall k | 0 <= k < count - (i + 1)
          ensures slots[Wrap(Wrap(index, 1, slots.Length), k, slots.Length)] == Some(q[i + 1 + k])
        {
          WrapStep(index, k, slots.Length);
          WrapInjective(index, k + 1, 0, slots.Length);
        }
        index := Wrap(index, 1, slots.Length);
      }
      removed := removed + Delivery(out);
      count := count - ready;
      ready := 0;
      assert Queue() == q[old(ready)..];
    }
  
    /** Forgets everything. */
    method Reset()
      requires Valid()
      modifies this, slots
      ensures Valid() && Value() == Ring([], 0, 0, [])
    {
      for i := 0 to slots.Length
        modifies slots
      {
        slots[i] := None;
      }
      index, count, ready, overflowed, removed := 0, 0, 0, 0, [];
    }
  }
}
