/**
 The frames of one swap chain on their way to the output: with look-ahead, a frame that was not displayed waits for
 the next one that is, and of a displayed frame the last display time does, too.  The metrics of a frame are not part
 of this model.
 */
module ChainOutput {
  import opened Wrappers

  /** A present as the output thread sees it; `displayed` tells whether it was presented with a display time. */
  datatype Frame = Frame(id: nat, chain: nat, start: nat, displayed: bool)

  /** Which rows of a frame: all of them, those of all display times but the last, or that of the last one. */
  datatype Part = Whole | AllButLast | Last

  datatype Item = Item(frame: Frame, part: Part)

  /** The start of the last frame that is done, the displayed frame that waits, and the frames blocked behind it. */
  datatype Chain = Chain(last: nat, waiting: Option<Frame>, blocked: seq<Frame>)

  function Seed(f: Frame): Chain {
    Chain(f.start, None, [])
  }

  /** Frames are blocked only behind a displayed one. */
  predicate Behind(c: Chain) {
    c.waiting.None? ==> c.blocked == []
  }

  function Wholes(frames: seq<Frame>): (r: seq<Item>)
    ensures |r| == |frames|
  {
    seq(|frames|, i requires 0 <= i < |frames| => Item(frames[i], Whole))
  }

  function Pending(c: Chain): seq<Frame> {
    (if c.waiting.Some? then [c.waiting.value] else []) + c.blocked
  }

  /** What becomes ready when a frame arrives. */
  function Ready(c: Chain, f: Frame, v1: bool): seq<Item> {
    if v1 then [Item(f, Whole)]
    else if f.displayed then
      (if c.waiting.Some? then [Item(c.waiting.value, Last)] else []) + Wholes(c.blocked) + [Item(f, AllButLast)]
    else if c.waiting.Some? then []
    else [Item(f, Whole)]
  }

  /** The start of the last of the frames, or the given one. */
  function LastStart(frames: seq<Frame>, start: nat): nat {
    if frames == [] then start else frames[|frames| - 1].start
  }

  function Enqueue(c: Chain, f: Frame, v1: bool): Chain {
    if v1 then Seed(f)
    else if f.displayed then Chain(LastStart(Pending(c), c.last), Some(f), [])
    else if c.waiting.Some? then c.(blocked := c.blocked + [f])
    else c.(last := f.start)
  }

  /** Releases the blocked frames, the first one first. */
  method ReleaseBlocked(c: Chain) returns (c': Chain, ready: seq<Item>)
    ensures c' == c.(last := LastStart(c.blocked, c.last), blocked := []) && ready == Wholes(c.blocked)
  {
    c', ready := c, [];
    while c'.blocked != []
      invariant |c'.blocked| <= |c.blocked| && c'.blocked == c.blocked[|c.blocked| - |c'.blocked|..] && c'.waiting == c.waiting
      invariant ready == Wholes(c.blocked[..|c.blocked| - |c'.blocked|])
      invariant LastStart(c'.blocked, c'.last) == LastStart(c.blocked, c.last)
      decreases |c'.blocked|
    {
      var n := |c.blocked| - |c'.blocked|;
      assert c.blocked[..n + 1] == c.blocked[..n] + [c.blocked[n]];
      ready := ready + [Item(c'.blocked[0], Whole)];
      c' := c'.(last := c'.blocked[0].start, blocked := c'.blocked[1..]);
    }
    assert c.blocked[..|c.blocked|] == c.blocked;
  }

  /** Adds the frame; the metrics of what is ready are computed one after another and advance the chain. */
  method EnqueueFrame(c: Chain, f: Frame, v1: bool) returns (c': Chain, ready: seq<Item>)
    ensures c' == Enqueue(c, f, v1) && ready == Ready(c, f, v1)
  {
    c', ready := c, [];
    if v1 {
      c' := Chain(f.start, None, []);
      ready := [Item(f, Whole)];
    } else if f.displayed {
      if c.waiting.Some? {
        ready := [Item(c.waiting.value, Last)];
        c' := c'.(last := c.waiting.value.start);
      }
      c' := c'.(waiting := Some(f));
      var released: seq<Item>;
      c', released := ReleaseBlocked(c');
      ready := ready + released + [Item(f, AllButLast)];
    } else if c.waiting.Some? {
      c' := c.(blocked := c.blocked + [f]);
    } else {
      ready := [Item(f, Whole)];
      c' := c.(last := f.start);
    }
  }

  // ---------------------------------------------------------------------------------------------
  // A sequence of frames

  function Feed(c: Chain, fs: seq<Frame>): Chain {
    if fs == [] then c else Enqueue(Feed(c, fs[..|fs| - 1]), fs[|fs| - 1], false)
  }

  function Output(c: Chain, fs: seq<Frame>): seq<Item> {
    if fs == [] then []
    else Output(c, fs[..|fs| - 1]) + Ready(Feed(c, fs[..|fs| - 1]), fs[|fs| - 1], false)
  }

  /** The frames that are done. */
  function Done(items: seq<Item>): seq<Frame> {
    if items == [] then []
    else
      var n := |items| - 1;
      Done(items[..n]) + if items[n].part == AllButLast then [] else [items[n].frame]
  }

  lemma {:induction false} DoneConcat(a: seq<Item>, b: seq<Item>)
    ensures Done(a + b) == Done(a) + Done(b)
  {
    if b == [] {
      assert a + b == a;
    } else {
      var n := |b| - 1;
      DoneConcat(a, b[..n]);
      assert (a + b)[..|a + b| - 1] == a + b[..n];
    }
  }

  lemma {:induction false} DoneWholes(fs: seq<Frame>)
    ensures Done(Wholes(fs)) == fs
  {
    if fs != [] {
      var n := |fs| - 1;
      DoneWholes(fs[..n]);
      assert Wholes(fs)[..n] == Wholes(fs[..n]);
    }
  }

  /** One frame arrives: what was pending is done, or the frame joins it. */
  lemma ReadyDone(c: Chain, f: Frame)
    requires Behind(c)
    ensures Behind(Enqueue(c, f, false))
    ensures Done(Ready(c, f, false)) + Pending(Enqueue(c, f, false)) == Pending(c) + [f]
  {
    if f.displayed {
      var w := if c.waiting.Some? then [Item(c.waiting.value, Last)] else [];
      DoneWholes(c.blocked);
      DoneConcat(w + Wholes(c.blocked), [Item(f, AllButLast)]);
      DoneConcat(w, Wholes(c.blocked));
      DoneOne(Item(f, AllButLast));
      if c.waiting.Some? { DoneOne(Item(c.waiting.value, Last)); }
    } else {
      DoneOne(Item(f, Whole));
    }
  }

  lemma DoneOne(i: Item)
    ensures Done([i]) == if i.part == AllButLast then [] else [i.frame]
  {
    assert [i][..0] == [];
  }

  /** First in, first out: every frame of the chain is done once, in the order of arrival, or still pending. */
  lemma {:induction false} OutputFifo(c: Chain, fs: seq<Frame>)
    requires Behind(c)
    ensures Behind(Feed(c, fs)) && Done(Output(c, fs)) + Pending(Feed(c, fs)) == Pending(c) + fs
  {
    if fs == [] {
      assert Pending(c) + [] == Pending(c);
    } else {
      var n := |fs| - 1;
      var front := Feed(c, fs[..n]);
      OutputFifo(c, fs[..n]);
      ReadyDone(front, fs[n]);
      DoneConcat(Output(c, fs[..n]), Ready(front, fs[n], false));
      Regroup(Done(Output(c, fs[..n])), Done(Ready(front, fs[n], false)), Pending(Feed(c, fs)), Pending(front), fs[n]);
      Regroup(Pending(c), [], [], fs[..n], fs[n]);
      assert fs == fs[..n] + [fs[n]];
    }
  }

  lemma Regroup(done: seq<Frame>, more: seq<Frame>, pending: seq<Frame>, before: seq<Frame>, f: Frame)
    ensures more + pending == before + [f] ==> (done + more) + pending == (done + before) + [f]
    ensures (done + before) + [f] == done + (before + [f])
  {
    assert (done + more) + pending == done + (more + pending);
    assert (done + before) + [f] == done + (before + [f]);
  }

  /** The next displayed frame completes everything before it, and only itself is pending afterwards. */
  lemma DisplayedCompletes(c: Chain, fs: seq<Frame>, j: nat)
    requires Behind(c) && j < |fs| && fs[j].displayed
    ensures Pending(Feed(c, fs[..j + 1])) == [fs[j]]
    ensures Done(Output(c, fs[..j + 1])) == Pending(c) + fs[..j]
  {
    hide Output, Feed, Done, Pending, Behind, Enqueue, Ready;
    OutputFifo(c, fs[..j + 1]);
    OutputStep(c, fs[..j + 1]);
    assert fs[..j + 1][..j] == fs[..j] && fs[..j + 1] == fs[..j] + [fs[j]];
    DisplayedAlone(Feed(c, fs[..j]), fs[j]);
    Unappend(Done(Output(c, fs[..j + 1])), Pending(c), fs[..j], fs[j]);
  }

  lemma DisplayedAlone(c: Chain, f: Frame)
    requires f.displayed
    ensures Pending(Enqueue(c, f, false)) == [f]
  {
  }

  lemma Unappend(done: seq<Frame>, pending: seq<Frame>, before: seq<Frame>, f: Frame)
    requires done + [f] == pending + (before + [f])
    ensures done == pending + before
  {
    assert pending + (before + [f]) == (pending + before) + [f];
    assert done == (done + [f])[..|done|] && pending + before == ((pending + before) + [f])[..|pending + before|];
  }

  /** Until then nothing becomes ready once a displayed frame waits. */
  lemma {:induction false} BlockedUntilDisplayed(c: Chain, fs: seq<Frame>, i: nat, j: nat)
    requires i <= j <= |fs| && Feed(c, fs[..i]).waiting.Some? && forall k :: i <= k < j ==> !fs[k].displayed
    ensures Output(c, fs[..j]) == Output(c, fs[..i]) && Feed(c, fs[..j]).waiting.Some?
    decreases j - i
  {
    hide Output, Feed, Ready, Enqueue;
    if i < j {
      BlockedUntilDisplayed(c, fs, i, j - 1);
      assert fs[..j][..j - 1] == fs[..j - 1];
      OutputStep(c, fs[..j]);
      StaysBlocked(Feed(c, fs[..j - 1]), fs[j - 1]);
    }
  }

  lemma OutputStep(c: Chain, fs: seq<Frame>)
    requires fs != []
    ensures var front := Feed(c, fs[..|fs| - 1]);
            && Feed(c, fs) == Enqueue(front, fs[|fs| - 1], false)
            && Output(c, fs) == Output(c, fs[..|fs| - 1]) + Ready(front, fs[|fs| - 1], false)
  {
  }

  lemma StaysBlocked(c: Chain, f: Frame)
    requires c.waiting.Some? && !f.displayed
    ensures Ready(c, f, false) == [] && Enqueue(c, f, false).waiting.Some?
  {
  }

  // ---------------------------------------------------------------------------------------------
  // The last frame that is done

  /** The chain remembers when the last frame that is done started. */
  lemma {:induction false} LastIsDone(c: Chain, fs: seq<Frame>)
    requires Behind(c)
    ensures Feed(c, fs).last == LastStart(Done(Output(c, fs)), c.last)
  {
    if fs != [] {
      hide Output, Feed, Done, Ready, Enqueue, Pending, Behind;
      var n := |fs| - 1;
      LastIsDone(c, fs[..n]);
      OutputFifo(c, fs[..n]);
      OutputStep(c, fs);
      ReadyLast(Feed(c, fs[..n]), fs[n]);
      DoneConcat(Output(c, fs[..n]), Ready(Feed(c, fs[..n]), fs[n], false));
      LastOf(Done(Output(c, fs[..n])), Done(Ready(Feed(c, fs[..n]), fs[n], false)), c.last);
    }
  }

  lemma ReadyLast(c: Chain, f: Frame)
    requires Behind(c)
    ensures Enqueue(c, f, false).last == LastStart(Done(Ready(c, f, false)), c.last)
  {
    ReadyDone(c, f);
    var d := Done(Ready(c, f, false));
    if f.displayed {
      assert d == (d + [f])[..|d|] && Pending(c) == (Pending(c) + [f])[..|Pending(c)|];
    } else if c.waiting.Some? {
      StaysBlocked(c, f);
    } else {
      DoneOne(Item(f, Whole));
    }
  }

  lemma LastOf(a: seq<Frame>, b: seq<Frame>, start: nat)
    ensures LastStart(a + b, start) == LastStart(b, LastStart(a, start))
  {
  }

  /** Without look-ahead every frame is ready, and done, at once. */
  lemma ReadyAtOnce(c: Chain, f: Frame)
    ensures Ready(c, f, true) == [Item(f, Whole)] && Enqueue(c, f, true).last == f.start && Pending(Enqueue(c, f, true)) == []
    ensures Done(Ready(c, f, true)) == [f]
  {
    DoneOne(Item(f, Whole));
  }

  // ---------------------------------------------------------------------------------------------
  // The rows

  function Select(items: seq<Item>, part: Part): seq<Frame> {
    if items == [] then []
    else
      var n := |items| - 1;
      Select(items[..n], part) + if items[n].part == part then [items[n].frame] else []
  }

  function OnScreen(fs: seq<Frame>, displayed: bool): seq<Frame> {
    if fs == [] then []
    else
      var n := |fs| - 1;
      OnScreen(fs[..n], displayed) + if fs[n].displayed == displayed then [fs[n]] else []
  }

  function WaitingOf(c: Chain): seq<Frame> {
    if c.waiting.Some? then [c.waiting.value] else []
  }

  lemma {:induction false} SelectConcat(a: seq<Item>, b: seq<Item>, part: Part)
    ensures Select(a + b, part) == Select(a, part) + Select(b, part)
  {
    if b == [] {
      assert a + b == a;
    } else {
      var n := |b| - 1;
      SelectConcat(a, b[..n], part);
      assert (a + b)[..|a + b| - 1] == a + b[..n];
    }
  }

  lemma {:induction false} SelectWholes(fs: seq<Frame>, part: Part)
    ensures Select(Wholes(fs), part) == if part == Whole then fs else []
  {
    if fs != [] {
      var n := |fs| - 1;
      SelectWholes(fs[..n], part);
      assert Wholes(fs)[..n] == Wholes(fs[..n]);
    }
  }

  lemma SelectOne(i: Item, part: Part)
    ensures Select([i], part) == if i.part == part then [i.frame] else []
  {
    assert [i][..0] == [];
  }

  /** One frame arrives. */
  lemma ReadyParts(c: Chain, f: Frame)
    requires Behind(c)
    ensures var c' := Enqueue(c, f, false);
            && Select(Ready(c, f, false), AllButLast) == (if f.displayed then [f] else [])
            && Select(Ready(c, f, false), Last) + WaitingOf(c') == WaitingOf(c) + (if f.displayed then [f] else [])
            && Select(Ready(c, f, false), Whole) + c'.blocked == c.blocked + (if f.displayed then [] else [f])
  {
    hide Select;
    forall part: Part
      ensures Select(Ready(c, f, false), part)
              == if f.displayed then
                   (if c.waiting.Some? && part == Last then [c.waiting.value] else []) + (if part == Whole then c.blocked else [])
                   + (if part == AllButLast then [f] else [])
                 else if c.waiting.None? && part == Whole then [f] else []
    {
      if f.displayed {
        var w := if c.waiting.Some? then [Item(c.waiting.value, Last)] else [];
        SelectConcat(w + Wholes(c.blocked), [Item(f, AllButLast)], part);
        SelectConcat(w, Wholes(c.blocked), part);
        SelectWholes(c.blocked, part);
        SelectOne(Item(f, AllButLast), part);
        if c.waiting.Some? { SelectOne(Item(c.waiting.value, Last), part); } else { SelectNone(part); }
      } else if c.waiting.None? {
        SelectOne(Item(f, Whole), part);
      } else {
        SelectNone(part);
      }
    }
  }

  lemma JoinParts(done: seq<Frame>, more: seq<Frame>, left: seq<Frame>, before: seq<Frame>, later: seq<Frame>,
                  first: seq<Frame>, all: seq<Frame>)
    requires done + before == first + all && more + left == before + later
    ensures (done + more) + left == first + (all + later)
  {
    assert (done + more) + left == done + (more + left);
    assert done + (before + later) == (done + before) + later;
    assert (first + all) + later == first + (all + later);
  }

  lemma SelectNone(part: Part)
    ensures Select([], part) == []
  {
  }

  /**
   A displayed frame gives all rows but the last when it arrives, and the last one when the next displayed frame does;
   any other frame gives its row once.
   */
  lemma {:induction false} PartsExactly(c: Chain, fs: seq<Frame>)
    requires Behind(c)
    ensures Select(Output(c, fs), AllButLast) == OnScreen(fs, true)
    ensures Select(Output(c, fs), Last) + WaitingOf(Feed(c, fs)) == WaitingOf(c) + OnScreen(fs, true)
    ensures Select(Output(c, fs), Whole) + Feed(c, fs).blocked == c.blocked + OnScreen(fs, false)
  {
    if fs != [] {
      hide Output, Feed, Ready, Enqueue, Behind, Select, WaitingOf;
      var n := |fs| - 1;
      PartsExactly(c, fs[..n]);
      OutputFifo(c, fs[..n]);
      OutputStep(c, fs);
      var d := Feed(c, fs[..n]);
      ReadyParts(d, fs[n]);
      forall part: Part
        ensures Select(Output(c, fs), part) == Select(Output(c, fs[..n]), part) + Select(Ready(d, fs[n], false), part)
      {
        SelectConcat(Output(c, fs[..n]), Ready(d, fs[n], false), part);
      }
      var shown, hidden := if fs[n].displayed then [fs[n]] else [], if fs[n].displayed then [] else [fs[n]];
      JoinParts(Select(Output(c, fs[..n]), Last), Select(Ready(d, fs[n], false), Last), WaitingOf(Feed(c, fs)),
                WaitingOf(d), shown, WaitingOf(c), OnScreen(fs[..n], true));
      JoinParts(Select(Output(c, fs[..n]), Whole), Select(Ready(d, fs[n], false), Whole), Feed(c, fs).blocked,
                d.blocked, hidden, c.blocked, OnScreen(fs[..n], false));
    } else {
      SelectNone(Whole);
    }
  }
}
