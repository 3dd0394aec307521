/**
 Which presents are recorded.  The user toggles recording on the main thread; the output thread sees events
 late and reconstructs, from the history of toggle times, whether recording was on when an event occurred.
 */
module Recording {
  import opened ChainOutput
  import opened Wrappers

  /** Parity, counted up; OddIsLowBit shows that it is the lowest bit. */
  predicate Odd(n: nat) {
    n > 0 && !Odd(n - 1)
  }

  lemma {:induction false} OddIsLowBit(n: nat)
    ensures Odd(n) <==> n % 2 == 1
  {
    if n > 0 { OddIsLowBit(n - 1); }
  }

  lemma {:induction false} OddSum(a: nat, b: nat)
    ensures Odd(a + b) == (Odd(a) != Odd(b))
  {
    if b > 0 { OddSum(a, b - 1); }
  }

  /** Whether recording is on after n toggles. */
  predicate After(first: bool, n: nat) {
    Odd(n) != first
  }

  /** How many recordings end during n toggles. */
  function Ended(first: bool, n: nat): nat {
    if n == 0 then 0 else Ended(first, n - 1) + if After(first, n - 1) then 1 else 0
  }

  /**
   A present of a batch, with what the output thread finds out about it: whether it is lost or failed, whether its
   process is known and is a target, and the chains of ended processes, which go away before it is handled.
   */
  datatype Present = Present(lost: bool, known: bool, target: bool, gone: set<nat>, frame: Frame)

  type Chains = map<nat, Chain>

  /**
   How a present consults the toggles: not at all; as of its own start, if its process is not known yet; or as of the
   start of the last frame of its chain that is done.
   */
  datatype Lookup = Ignored | Unknown(start: nat) | Handled(previous: nat)

  function Look(C: Chains, p: Present): Lookup {
    if p.lost then Ignored
    else if !p.known then Unknown(p.frame.start)
    else if !p.target || p.frame.chain !in C then Ignored
    else Handled(C[p.frame.chain].last)
  }

  function Time(l: Lookup): nat
    requires !l.Ignored?
  {
    if l.Unknown? then l.start else l.previous
  }

  /** The first present of a chain only seeds it. */
  function Step(C: Chains, p: Present, v1: bool): Chains {
    var c := p.frame.chain;
    if p.lost then C
    else if p.known then
      if !p.target then C
      else if c !in C then C[c := Seed(p.frame)]
      else (C - p.gone)[c := Enqueue(C[c], p.frame, v1)]
    else if p.target then (C - p.gone)[c := Seed(p.frame)]
    else C - p.gone
  }

  /** The rows that become ready with a present, possibly those of earlier frames of its chain. */
  function ReadyWith(C: Chains, p: Present, v1: bool): seq<Item> {
    if Look(C, p).Handled? then Ready(C[p.frame.chain], p.frame, v1) else []
  }

  /** A batch, and the chains that it finds. */
  datatype Batch = Batch(chains: Chains, presents: seq<Present>, v1: bool)

  function Upto(b: Batch, j: nat): Batch
    requires j <= |b.presents|
  {
    b.(presents := b.presents[..j])
  }

  function Chained(b: Batch): Chains
    decreases |b.presents|
  {
    var n := |b.presents| - 1;
    if n < 0 then b.chains else Step(Chained(Upto(b, n)), b.presents[n], b.v1)
  }

  function LookAt(b: Batch, j: nat): Lookup
    requires j < |b.presents|
  {
    Look(Chained(Upto(b, j)), b.presents[j])
  }

  /** The first toggle at or after position i that did not happen before the time. */
  function SkipTo(history: seq<nat>, time: nat, i: nat): (r: nat)
    requires i <= |history|
    ensures i <= r <= |history|
    ensures forall k :: i <= k < r ==> history[k] < time
    ensures r < |history| ==> time <= history[r]
    decreases |history| - i
  {
    if i < |history| && history[i] < time then SkipTo(history, time, i + 1) else i
  }

  /** How many toggles of the history the presents consume. */
  function Consumed(history: seq<nat>, b: Batch): (r: nat)
    ensures r <= |history|
    decreases |b.presents|
  {
    var n := |b.presents| - 1;
    if n < 0 then 0
    else
      var i := Consumed(history, Upto(b, n));
      var l := LookAt(b, n);
      if l.Ignored? then i else SkipTo(history, Time(l), i)
  }

  /** For each present of a batch, the rows that are written when it is handled. */
  function Written(history: seq<nat>, b: Batch, first: bool): (r: seq<seq<Item>>)
    ensures |r| == |b.presents|
    decreases |b.presents|
  {
    var n := |b.presents| - 1;
    if n < 0 then []
    else
      var ready := ReadyWith(Chained(Upto(b, n)), b.presents[n], b.v1);
      Written(history, Upto(b, n), first) + [if After(first, Consumed(history, b)) then ready else []]
  }

  lemma UptoTwice(b: Batch, i: nat, j: nat)
    requires i <= j <= |b.presents|
    ensures Upto(Upto(b, j), i) == Upto(b, i)
  {
    assert b.presents[..j][..i] == b.presents[..i];
  }

  lemma UptoAll(b: Batch)
    ensures Upto(b, |b.presents|) == b
  {
    assert b.presents[..|b.presents|] == b.presents;
  }

  /** What becomes ready with a present is written in the state after the toggles consumed up to it. */
  lemma {:induction false} WrittenAt(history: seq<nat>, b: Batch, first: bool, j: nat)
    requires j < |b.presents|
    ensures Written(history, b, first)[j]
            == if After(first, Consumed(history, Upto(b, j + 1))) then ReadyWith(Chained(Upto(b, j)), b.presents[j], b.v1) else []
    decreases |b.presents|
  {
    hide ReadyWith, Consumed, Chained;
    var n := |b.presents| - 1;
    if j == n {
      UptoAll(b);
    } else {
      WrittenAt(history, Upto(b, n), first, j);
      UptoTwice(b, j + 1, n);
      UptoTwice(b, j, n);
    }
  }

  predicate Sorted(history: seq<nat>) {
    forall i, j :: 0 <= i <= j < |history| ==> history[i] <= history[j]
  }

  predicate Consults(toggle: nat, b: Batch, j: nat)
    requires j < |b.presents|
  {
    !LookAt(b, j).Ignored? && toggle < Time(LookAt(b, j))
  }

  /** Some present of the batch consults the toggles as of a later time. */
  predicate Overtaken(toggle: nat, b: Batch) {
    exists j :: 0 <= j < |b.presents| && Consults(toggle, b, j)
  }

  lemma ConsultsUpto(toggle: nat, b: Batch, n: nat, j: nat)
    requires j < n <= |b.presents|
    ensures Consults(toggle, Upto(b, n), j) == Consults(toggle, b, j)
  {
    UptoTwice(b, j, n);
    hide Chained;
  }

  lemma OvertakenNext(toggle: nat, b: Batch)
    requires b.presents != []
    ensures var n := |b.presents| - 1; Overtaken(toggle, b) <==> Overtaken(toggle, Upto(b, n)) || Consults(toggle, b, n)
  {
    hide Consults;
    var n := |b.presents| - 1;
    if j :| 0 <= j < n + 1 && Consults(toggle, b, j) {
      if j < n { ConsultsUpto(toggle, b, n, j); }
    }
    if j :| 0 <= j < n && Consults(toggle, Upto(b, n), j) {
      ConsultsUpto(toggle, b, n, j);
    }
  }

  /** Toggle times only grow, so exactly the toggles before a time that some present consults are consumed. */
  lemma {:induction false} ConsumedExact(history: seq<nat>, b: Batch, k: nat)
    requires Sorted(history) && k < |history|
    ensures k < Consumed(history, b) <==> Overtaken(history[k], b)
    decreases |b.presents|
  {
    if b.presents != [] {
      hide Chained, Look, Overtaken;
      var n := |b.presents| - 1;
      ConsumedExact(history, Upto(b, n), k);
      OvertakenNext(history[k], b);
    }
  }

  // ---------------------------------------------------------------------------------------------
  // The code

  /** The state shared with the main thread, accessed inside one critical section per method. */
  class ToggleHistory {
    const realtime: bool
    var history: seq<nat>
    var isRecording: bool

    constructor (realtime: bool)
      ensures this.realtime == realtime && history == [] && !isRecording
    {
      this.realtime, history, isRecording := realtime, [], false;
    }

    method SetOutputRecordingState(record: bool, qpc: nat)
      modifies this
      ensures isRecording == record
      ensures history == if old(isRecording) != record && realtime then old(history) + [qpc] else old(history)
    {
      if isRecording != record {
        isRecording := record;
        if realtime {
          history := history + [qpc];
        }
      }
    }

    method CopyRecordingToggleHistory(known: seq<nat>) returns (all: seq<nat>, currentRecordingState: bool)
      modifies this
      ensures all == known + old(history) && history == []
      ensures currentRecordingState == old(isRecording) == isRecording
    {
      all := known + history;
      history := [];
      currentRecordingState := isRecording;
    }
  }

  /** The output thread's view of recording. */
  class Recorder {
    const v1: bool
    var recordingCount: nat
    var chains: Chains

    constructor (v1: bool)
      ensures this.v1 == v1 && recordingCount == 0 && chains == map[]
    {
      this.v1, recordingCount, chains := v1, 0, map[];
    }

    /** Flips the state; the end of a recording counts it. */
    method ProcessRecordingToggle(isRecording: bool) returns (toggled: bool)
      modifies this`recordingCount
      ensures toggled == !isRecording
      ensures recordingCount == old(recordingCount) + if isRecording then 1 else 0
    {
      if isRecording {
        toggled := false;
        recordingCount := recordingCount + 1;
      } else {
        toggled := true;
      }
    }

    /** Handles the toggles that occurred before the time; at least one toggle is left to check. */
    method PassToggles(history: seq<nat>, presentTime: nat, start: nat, recording: bool, ghost first: bool)
      returns (toggleIndex: nat, isRecording: bool)
      requires start < |history| && recording == After(first, start)
      modifies this`recordingCount
      ensures toggleIndex == SkipTo(history, presentTime, start)
      ensures isRecording == After(first, toggleIndex)
      ensures recordingCount - Ended(first, toggleIndex) == old(recordingCount) - Ended(first, start)
    {
      toggleIndex, isRecording := start, recording;
      while history[toggleIndex] < presentTime
        invariant start <= toggleIndex < |history|
        invariant SkipTo(history, presentTime, toggleIndex) == SkipTo(history, presentTime, start)
        invariant isRecording == After(first, toggleIndex)
        invariant recordingCount - Ended(first, toggleIndex) == old(recordingCount) - Ended(first, start)
        decreases |history| - toggleIndex
      {
        isRecording := ProcessRecordingToggle(isRecording);
        toggleIndex := toggleIndex + 1;
        if toggleIndex == |history| {
          break;
        }
      }
    }

    /** Looks the process of a present up; false if the present is to be skipped.  The first of a chain seeds it. */
    method FindChain(p: Present) returns (l: Lookup)
      modifies this`chains
      ensures l == Look(old(chains), p)
      ensures chains == if l.Ignored? then Step(old(chains), p, v1) else old(chains)
    {
      if p.lost {
        return Ignored;
      }
      if !p.known {
        return Unknown(p.frame.start);
      }
      if !p.target {
        return Ignored;
      }
      if p.frame.chain !in chains {
        chains := chains[p.frame.chain := Seed(p.frame)];
        return Ignored;
      }
      return Handled(chains[p.frame.chain].last);
    }

    /** The rest of an iteration, after the toggles. */
    method HandlePresent(p: Present, l: Lookup, isRecording: bool) returns (rows: seq<Item>)
      requires l == Look(chains, p) && !l.Ignored?
      modifies this`chains
      ensures chains == Step(old(chains), p, v1)
      ensures rows == if isRecording then ReadyWith(old(chains), p, v1) else []
    {
      if l.Unknown? {
        chains := chains - p.gone;
        if p.target {
          chains := chains[p.frame.chain := Seed(p.frame)];
        }
        return [];
      }
      var c, ready := EnqueueFrame(chains[p.frame.chain], p.frame, v1);
      chains := (chains - p.gone)[p.frame.chain := c];
      return if isRecording then ready else [];
    }

    /** One batch; WrittenAt says what the rows mean. */
    method ProcessEvents(presents: seq<Present>, history: seq<nat>, currentRecordingState: bool)
      returns (rest: seq<nat>, written: seq<seq<Item>>, ghost first: bool, ghost last: bool)
      modifies this
      ensures var b := Batch(old(chains), presents, v1);
              && rest == history[Consumed(history, b)..]
              && first == (Odd(|history|) != currentRecordingState)
              && last == After(first, Consumed(history, b))
              && written == Written(history, b, first)
              && chains == Chained(b)
              && recordingCount == old(recordingCount) + Ended(first, Consumed(history, b))
    {
      hide Step, ReadyWith, Look, Consumed, Written, Chained;
      ghost var b := Batch(chains, presents, v1);
      var toggleIndex := 0;
      var toggleCount := |history|;
      var checkToggle := toggleCount > 0;
      OddIsLowBit(toggleCount);
      var isRecording := if toggleCount % 2 == 1 then !currentRecordingState else currentRecordingState;
      first := isRecording;
      written := [];
      NoneYet(history, b, first);
      for j := 0 to |presents|
        invariant toggleIndex == Consumed(history, Upto(b, j)) <= toggleCount
        invariant checkToggle == (toggleIndex < toggleCount)
        invariant isRecording == After(first, toggleIndex)
        invariant recordingCount == old(recordingCount) + Ended(first, toggleIndex)
        invariant written == Written(history, Upto(b, j), first)
        invariant chains == Chained(Upto(b, j))
      {
        OneMore(history, b, first, j);
        ghost var C := chains;
        var l := FindChain(presents[j]);
        if l == Ignored {
          SkipRows(C, presents[j], v1);
          written := written + [[]];
          continue;
        }
        var presentTime := Time(l);
        if checkToggle {
          toggleIndex, isRecording := PassToggles(history, presentTime, toggleIndex, isRecording, first);
          checkToggle := toggleIndex < toggleCount;
        } else {
          SkipNone(history, presentTime);
        }
        var rows := HandlePresent(presents[j], l, isRecording);
        written := written + [rows];
      }
      UptoAll(b);
      last := isRecording;
      rest := history[toggleIndex..];
    }
  }

  lemma NoneYet(history: seq<nat>, b: Batch, first: bool)
    ensures Consumed(history, Upto(b, 0)) == 0 && Written(history, Upto(b, 0), first) == [] && Chained(Upto(b, 0)) == b.chains
  {
  }

  lemma SkipRows(C: Chains, p: Present, v1: bool)
    requires Look(C, p).Ignored?
    ensures ReadyWith(C, p, v1) == []
  {
  }

  lemma SkipNone(history: seq<nat>, time: nat)
    ensures SkipTo(history, time, |history|) == |history|
  {
  }

  /** One iteration, on plain values. */
  lemma OneMore(history: seq<nat>, b: Batch, first: bool, j: nat)
    requires j < |b.presents|
    ensures var C, p, i := Chained(Upto(b, j)), b.presents[j], Consumed(history, Upto(b, j));
            var l, n := Look(C, p), Consumed(history, Upto(b, j + 1));
            && n == (if l.Ignored? then i else SkipTo(history, Time(l), i))
            && Chained(Upto(b, j + 1)) == Step(C, p, b.v1)
            && Written(history, Upto(b, j + 1), first)
               == Written(history, Upto(b, j), first) + [if After(first, n) then ReadyWith(C, p, b.v1) else []]
  {
    UptoTwice(b, j, j + 1);
  }

  // ---------------------------------------------------------------------------------------------
  // Every interleaving of the main thread with the realtime output loop

  /** A batch that was handled: the toggles known then were those before `upTo`. */
  datatype Entry = Entry(upTo: nat, batch: Batch)

  /**
   made: every toggle so far; consumed: how many of them past batches used; last: the state they ended in; past: the
   batches so far.
   */
  datatype State = State(
    v1: bool,
    history: seq<nat>,
    isRecording: bool,
    known: seq<nat>,
    copied: bool,
    current: bool,
    chains: Chains,
    made: seq<nat>,
    consumed: nat,
    last: bool,
    past: seq<Entry>)

  datatype Action =
    | Toggle(record: bool, qpc: nat)
    | Copy
    | Handle(presents: seq<Present>)

  function Initial(v1: bool): State {
    State(v1, [], false, [], false, false, map[], [], 0, false, [])
  }

  predicate Enabled(s: State, a: Action) {
    match a
    case Toggle(_, qpc) => s.made != [] ==> s.made[|s.made| - 1] <= qpc
    case Copy => !s.copied
    case Handle(_) => s.copied
  }

  /** The state that the next batch starts with, as the output thread derives it from the parity. */
  function StartOfBatch(s: State): bool {
    Odd(|s.known|) != s.current
  }

  function BatchOf(s: State, presents: seq<Present>): Batch {
    Batch(s.chains, presents, s.v1)
  }

  /** The loop handles a batch only if it holds presents; either way it goes on to copy the history again. */
  function Apply(s: State, a: Action): State {
    match a
    case Toggle(record, qpc) =>
      if s.isRecording == record then s
      else s.(isRecording := record, history := s.history + [qpc], made := s.made + [qpc])
    case Copy => s.(known := s.known + s.history, history := [], current := s.isRecording, copied := true)
    case Handle(presents) =>
      if presents == [] then s.(copied := false)
      else
        var b := BatchOf(s, presents);
        var n := Consumed(s.known, b);
        s.(known := s.known[n..], copied := false, consumed := s.consumed + n, last := After(StartOfBatch(s), n),
           chains := Chained(b), past := s.past + [Entry(s.consumed + |s.known|, b)])
  }

  predicate Legal(s: State, run: seq<Action>)
    decreases |run|
  {
    run == [] || (Enabled(s, run[0]) && Legal(Apply(s, run[0]), run[1..]))
  }

  function Exec(s: State, run: seq<Action>): State
    requires Legal(s, run)
    decreases |run|
  {
    if run == [] then s else Exec(Apply(s, run[0]), run[1..])
  }

  /** The two threads with their variables; every method computes one action. */
  class OutputThread {
    const shared: ToggleHistory
    const recorder: Recorder
    var known: seq<nat>
    var copied: bool
    var current: bool
    ghost var made: seq<nat>
    ghost var consumed: nat
    ghost var last: bool
    ghost var past: seq<Entry>

    constructor (v1: bool)
      ensures Valid() && S() == Initial(v1) && fresh(shared) && fresh(recorder)
    {
      shared := new ToggleHistory(true);
      recorder := new Recorder(v1);
      known, copied, current := [], false, false;
      made, consumed, last, past := [], 0, false, [];
    }

    ghost predicate Valid() {
      shared.realtime
    }

    ghost function S(): State
      reads this, shared, recorder
    {
      State(recorder.v1, shared.history, shared.isRecording, known, copied, current, recorder.chains, made, consumed, last, past)
    }

    method ToggleRecording(record: bool, qpc: nat)
      requires Valid()
      modifies this, shared
      ensures S() == Apply(old(S()), Toggle(record, qpc))
    {
      if shared.isRecording != record {
        made := made + [qpc];
      }
      shared.SetOutputRecordingState(record, qpc);
    }

    method CopyHistory()
      modifies this, shared
      ensures S() == Apply(old(S()), Copy)
    {
      known, current := shared.CopyRecordingToggleHistory(known);
      copied := true;
    }

    method HandleBatch(presents: seq<Present>) returns (written: seq<seq<Item>>)
      modifies this, recorder
      ensures S() == Apply(old(S()), Handle(presents))
      ensures presents != [] ==> written == Written(old(known), BatchOf(old(S()), presents), StartOfBatch(old(S())))
    {
      hide Chained, Consumed, Written, After, Odd;
      written := [];
      if presents != [] {
        ghost var b := BatchOf(S(), presents);
        past := past + [Entry(consumed + |known|, b)];
        consumed := consumed + Consumed(known, b);
        ghost var first, end;
        known, written, first, end := recorder.ProcessEvents(presents, known, current);
        last := end;
      }
      copied := false;
    }
  }

  // ---------------------------------------------------------------------------------------------
  // What holds of every run

  /** A toggle was consumed exactly if some batch knew it and consulted a later time. */
  ghost predicate Spent(made: seq<nat>, past: seq<Entry>, k: nat)
    requires k < |made|
  {
    exists e :: 0 <= e < |past| && k < past[e].upTo && Overtaken(made[k], past[e].batch)
  }

  ghost predicate Inv(s: State) {
    && s.consumed + |s.known| + |s.history| == |s.made|
    && s.known + s.history == s.made[s.consumed..]
    && s.isRecording == Odd(|s.made|)
    && (s.copied ==> s.current == Odd(s.consumed + |s.known|))
    && s.last == Odd(s.consumed)
    && Sorted(s.made)
    && (forall e :: 0 <= e < |s.past| ==> s.past[e].upTo <= s.consumed + |s.known|)
    && (forall k :: 0 <= k < |s.made| ==> (k < s.consumed <==> Spent(s.made, s.past, k)))
  }

  lemma ToggleKeepsInv(s: State, record: bool, qpc: nat)
    requires Inv(s) && Enabled(s, Toggle(record, qpc))
    ensures Inv(Apply(s, Toggle(record, qpc)))
  {
    hide Sorted, Odd, Spent;
    if s.isRecording != record {
      SuffixGrows(s.made, s.consumed, qpc);
      AppendSorted(s.made, qpc);
      OddNext(|s.made|);
      assert s.known + (s.history + [qpc]) == s.known + s.history + [qpc];
      var s' := Apply(s, Toggle(record, qpc));
      forall k | 0 <= k < |s'.made|
        ensures k < s'.consumed <==> Spent(s'.made, s'.past, k)
      {
        SpentToggled(s.made, s'.made, s'.past, k);
      }
    }
  }

  /** A toggle that is made later counts for no batch before it. */
  lemma SpentToggled(made: seq<nat>, more: seq<nat>, past: seq<Entry>, k: nat)
    requires made <= more && k < |more| && forall e :: 0 <= e < |past| ==> past[e].upTo <= |made|
    ensures Spent(more, past, k) <==> k < |made| && Spent(made, past, k)
  {
  }

  lemma SuffixGrows(made: seq<nat>, from: nat, x: nat)
    requires from <= |made|
    ensures (made + [x])[from..] == made[from..] + [x]
  {
  }

  lemma AppendSorted(made: seq<nat>, x: nat)
    requires Sorted(made) && (made != [] ==> made[|made| - 1] <= x)
    ensures Sorted(made + [x])
  {
  }

  lemma OddNext(n: nat)
    ensures Odd(n + 1) == !Odd(n)
  {
  }

  lemma CopyKeepsInv(s: State)
    requires Inv(s)
    ensures Inv(Apply(s, Copy))
  {
    hide Sorted, Odd, Spent;
    assert s.known + s.history + [] == s.known + s.history;
  }

  lemma HandleKeepsInv(s: State, presents: seq<Present>)
    requires Inv(s) && s.copied
    ensures Inv(Apply(s, Handle(presents)))
  {
    hide Sorted, Odd, Consumed, Spent, Chained;
    var b := BatchOf(s, presents);
    var n := Consumed(s.known, b);
    var s' := Apply(s, Handle(presents));
    OddSum(s.consumed, n);
    OddSum(s.consumed, |s.known|);
    PrefixDrops(s.made, s.known, s.history, s.consumed, n);
    forall k | 0 <= k < |s.made|
      ensures k < s'.consumed <==> Spent(s'.made, s'.past, k)
    {
      if presents != [] { SpentHandled(s, b, k); }
    }
  }

  lemma SpentHandled(s: State, b: Batch, k: nat)
    requires Inv(s) && k < |s.made|
    ensures Spent(s.made, s.past + [Entry(s.consumed + |s.known|, b)], k) <==> k < s.consumed + Consumed(s.known, b)
  {
    hide Overtaken, Consumed;
    var past := s.past + [Entry(s.consumed + |s.known|, b)];
    var m := |s.past|;
    if s.consumed <= k < s.consumed + |s.known| {
      KnownPart(s, k - s.consumed);
      ConsumedExact(s.known, b, k - s.consumed);
    }
    if Spent(s.made, s.past, k) {
      var e :| 0 <= e < m && k < s.past[e].upTo && Overtaken(s.made[k], s.past[e].batch);
      assert past[e] == s.past[e];
    }
    if Spent(s.made, past, k) {
      var e :| 0 <= e < |past| && k < past[e].upTo && Overtaken(s.made[k], past[e].batch);
      if e < m { assert past[e] == s.past[e]; }
    }
    assert past[m] == Entry(s.consumed + |s.known|, b);
  }

  /** What is left after n toggles of the known ones were consumed is the rest of all toggles. */
  lemma PrefixDrops(made: seq<nat>, known: seq<nat>, history: seq<nat>, consumed: nat, n: nat)
    requires consumed + |known| + |history| == |made| && known + history == made[consumed..] && n <= |known|
    ensures known[n..] + history == made[consumed + n..]
  {
    assert known[n..] + history == (known + history)[n..];
    assert made[consumed..][n..] == made[consumed + n..];
  }

  lemma KnownPart(s: State, i: nat)
    requires Inv(s) && i < |s.known|
    ensures s.consumed + i < |s.made| && s.made[s.consumed + i] == s.known[i] && Sorted(s.known)
  {
    forall k | 0 <= k < |s.known|
      ensures s.known[k] == s.made[s.consumed + k]
    {
      assert s.known[k] == (s.known + s.history)[k] == s.made[s.consumed..][k];
    }
  }

  lemma StepKeepsInv(s: State, a: Action)
    requires Inv(s) && Enabled(s, a)
    ensures Inv(Apply(s, a))
  {
    match a
    case Toggle(record, qpc) => ToggleKeepsInv(s, record, qpc);
    case Copy => CopyKeepsInv(s);
    case Handle(presents) => HandleKeepsInv(s, presents);
  }

  lemma {:induction false} RunKeepsInv(s: State, run: seq<Action>)
    requires Inv(s) && Legal(s, run)
    ensures Inv(Exec(s, run))
    decreases |run|
  {
    if run != [] {
      StepKeepsInv(s, run[0]);
      RunKeepsInv(Apply(s, run[0]), run[1..]);
    }
  }

  lemma ReachableInv(v1: bool, run: seq<Action>)
    requires Legal(Initial(v1), run)
    ensures Inv(Exec(Initial(v1), run))
  {
    RunKeepsInv(Initial(v1), run);
  }

  /** A batch starts in the state in which the previous one ended, whatever toggles came in between. */
  lemma BatchesJoinUp(v1: bool, run: seq<Action>)
    requires Legal(Initial(v1), run) && Exec(Initial(v1), run).copied
    ensures StartOfBatch(Exec(Initial(v1), run)) == Exec(Initial(v1), run).last
  {
    ReachableInv(v1, run);
    var s := Exec(Initial(v1), run);
    OddSum(s.consumed, |s.known|);
  }

  /** Once every toggle has been consumed, the reconstructed state is the user's current choice. */
  lemma CaughtUp(v1: bool, run: seq<Action>)
    requires Legal(Initial(v1), run)
    requires Exec(Initial(v1), run).known == [] && Exec(Initial(v1), run).history == []
    ensures Exec(Initial(v1), run).last == Exec(Initial(v1), run).isRecording
  {
    ReachableInv(v1, run);
  }

  /** Toggles are consumed once each, in order: those not consumed are exactly the rest of the history. */
  lemma ConsumedOnceInOrder(v1: bool, run: seq<Action>)
    requires Legal(Initial(v1), run)
    ensures var s := Exec(Initial(v1), run); s.consumed <= |s.made| && s.made == s.made[..s.consumed] + s.known + s.history
  {
    ReachableInv(v1, run);
    var s := Exec(Initial(v1), run);
    assert s.made == s.made[..s.consumed] + s.made[s.consumed..];
  }

  // ---------------------------------------------------------------------------------------------
  // Which rows are written, in terms of times

  /** The toggle counts for the j-th present of the next batch: an earlier batch, or this one so far, consults a later time. */
  ghost predicate Counts(s: State, presents: seq<Present>, j: nat, k: nat)
    requires j < |presents| && k < |s.made|
  {
    Spent(s.made, s.past, k) || (k < s.consumed + |s.known| && Overtaken(s.made[k], Upto(BatchOf(s, presents), j + 1)))
  }

  ghost function Counted(s: State, presents: seq<Present>, j: nat): set<nat>
    requires j < |presents|
  {
    set k | 0 <= k < |s.made| && Counts(s, presents, j, k)
  }

  function Prefix(n: nat): (r: set<nat>)
    ensures |r| == n && forall k: nat :: k in r <==> k < n
  {
    if n == 0 then {} else Prefix(n - 1) + {n - 1}
  }

  /** What becomes ready with a present is written exactly if an odd number of toggles counts for it. */
  lemma WrittenExactly(v1: bool, run: seq<Action>, presents: seq<Present>, j: nat)
    requires Legal(Initial(v1), run) && Exec(Initial(v1), run).copied && j < |presents|
    ensures var s := Exec(Initial(v1), run);
            var b := BatchOf(s, presents);
            Written(s.known, b, StartOfBatch(s))[j]
            == if Odd(|Counted(s, presents, j)|) then ReadyWith(Chained(Upto(b, j)), presents[j], v1) else []
  {
    hide Inv, Written, StartOfBatch, Counted, Chained;
    ReachableInv(v1, run);
    ExecV1(Initial(v1), run);
    BatchesJoinUp(v1, run);
    WrittenIn(Exec(Initial(v1), run), presents, j);
  }

  lemma {:induction false} ExecV1(s: State, run: seq<Action>)
    requires Legal(s, run)
    ensures Exec(s, run).v1 == s.v1
    decreases |run|
  {
    if run != [] { ExecV1(Apply(s, run[0]), run[1..]); }
  }

  /** The counted toggles are a prefix of all toggles. */
  lemma CountedPrefix(s: State, presents: seq<Present>, j: nat)
    requires Inv(s) && j < |presents|
    ensures s.consumed + Consumed(s.known, Upto(BatchOf(s, presents), j + 1)) <= |s.made|
    ensures Counted(s, presents, j) == Prefix(s.consumed + Consumed(s.known, Upto(BatchOf(s, presents), j + 1)))
  {
    hide Overtaken, Consumed;
    var b := Upto(BatchOf(s, presents), j + 1);
    var used := s.consumed + Consumed(s.known, b);
    forall k | 0 <= k < |s.made|
      ensures Counts(s, presents, j, k) <==> k < used
    {
      if s.consumed <= k < s.consumed + |s.known| {
        KnownPart(s, k - s.consumed);
        ConsumedExact(s.known, b, k - s.consumed);
      }
    }
  }

  lemma WrittenIn(s: State, presents: seq<Present>, j: nat)
    requires Inv(s) && StartOfBatch(s) == s.last && j < |presents|
    ensures var b := BatchOf(s, presents);
            Written(s.known, b, StartOfBatch(s))[j]
            == if Odd(|Counted(s, presents, j)|) then ReadyWith(Chained(Upto(b, j)), presents[j], s.v1) else []
  {
    hide Consumed, Written, Counted, Chained, ReadyWith, Odd;
    WrittenAt(s.known, BatchOf(s, presents), StartOfBatch(s), j);
    CountedPrefix(s, presents, j);
    OddSum(s.consumed, Consumed(s.known, Upto(BatchOf(s, presents), j + 1)));
  }

  // ---------------------------------------------------------------------------------------------
  // The state as of a time

  ghost function MadeBefore(s: State, time: nat): set<nat> {
    set k | 0 <= k < |s.made| && s.made[k] < time
  }

  /** The user's choice at the time. */
  ghost predicate OnAsOf(s: State, time: nat) {
    Odd(|MadeBefore(s, time)|)
  }

  /** The toggles that count for the present although made later than the time, or that do not although made before. */
  ghost function Misjudged(s: State, presents: seq<Present>, j: nat, time: nat): set<nat>
    requires j < |presents|
  {
    set k | 0 <= k < |s.made| && (Counts(s, presents, j, k) <==> time <= s.made[k])
  }

  /**
   The toggles to be handled are said to be those that occurred before the present.  What is ready with it, be it its
   own rows or those of an earlier frame, is written as the user had chosen at a time, say when the frame started,
   exactly if the number of toggles between is even.
   */
  lemma AsOfExactly(v1: bool, run: seq<Action>, presents: seq<Present>, j: nat, time: nat)
    requires Legal(Initial(v1), run) && Exec(Initial(v1), run).copied && j < |presents|
    ensures var s := Exec(Initial(v1), run);
            (Odd(|Counted(s, presents, j)|) <==> OnAsOf(s, time)) <==> !Odd(|Misjudged(s, presents, j, time)|)
  {
    hide Inv, Counted, Misjudged, MadeBefore;
    ReachableInv(v1, run);
    AsOfIn(Exec(Initial(v1), run), presents, j, time);
  }

  lemma AsOfIn(s: State, presents: seq<Present>, j: nat, time: nat)
    requires Inv(s) && j < |presents|
    ensures (Odd(|Counted(s, presents, j)|) <==> OnAsOf(s, time)) <==> !Odd(|Misjudged(s, presents, j, time)|)
  {
    hide Counts, Consumed, Inv, Odd;
    var used := s.consumed + Consumed(s.known, Upto(BatchOf(s, presents), j + 1));
    var own := SkipTo(s.made, time, 0);
    CountedPrefix(s, presents, j);
    BeforeIsPrefix(s, time, own);
    MisjudgedBetween(s, presents, j, time);
    BetweenPrefixes(used, own);
  }

  lemma MisjudgedBetween(s: State, presents: seq<Present>, j: nat, time: nat)
    requires j < |presents|
    ensures var c, m := Counted(s, presents, j), MadeBefore(s, time); Misjudged(s, presents, j, time) == (c - m) + (m - c)
  {
  }

  lemma BeforeIsPrefix(s: State, time: nat, own: nat)
    requires Inv(s) && own == SkipTo(s.made, time, 0)
    ensures MadeBefore(s, time) == Prefix(own)
  {
  }

  lemma BetweenPrefixes(a: nat, b: nat)
    ensures Odd(|(Prefix(a) - Prefix(b)) + (Prefix(b) - Prefix(a))|) == (Odd(a) != Odd(b))
  {
    hide Odd, Prefix;
    if a <= b { PrefixesApart(a, b); } else { PrefixesApart(b, a); }
  }

  lemma PrefixesApart(a: nat, b: nat)
    requires a <= b
    ensures (Prefix(a) - Prefix(b)) + (Prefix(b) - Prefix(a)) == Prefix(b) - Prefix(a) == (Prefix(b) - Prefix(a)) + (Prefix(a) - Prefix(b))
    ensures Odd(|Prefix(b) - Prefix(a)|) == (Odd(a) != Odd(b))
  {
    hide Odd, Prefix;
    assert Prefix(a) <= Prefix(b) && Prefix(a) - Prefix(b) == {};
    var gap := Prefix(b) - Prefix(a);
    assert Prefix(b) == Prefix(a) + gap;
    assert |gap| == b - a;
    OddSum(a, b - a);
  }
}
