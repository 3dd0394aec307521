/** Runs in which rows are not written in the state that the user had chosen when the present started. */
module RecordingRuns {
  import opened Wrappers
  import opened ChainOutput
  import opened Recording

  ghost predicate Reachable(s: State) {
    exists run :: Legal(Initial(false), run) && Exec(Initial(false), run) == s
  }

  lemma {:induction false} OneMoreAction(s: State, run: seq<Action>, a: Action)
    requires Legal(s, run) && Enabled(Exec(s, run), a)
    ensures Legal(s, run + [a]) && Exec(s, run + [a]) == Apply(Exec(s, run), a)
    decreases |run|
  {
    hide Enabled, Apply;
    var all := run + [a];
    if run == [] {
      var s1 := Apply(s, a);
      assert all == [a] && all[1..] == [] && Legal(s1, []) && Exec(s1, []) == s1;
    } else {
      OneMoreAction(Apply(s, run[0]), run[1..], a);
      assert all[0] == run[0] && all[1..] == run[1..] + [a];
    }
  }

  lemma ReachNext(s: State, a: Action) returns (s': State)
    requires Reachable(s) && Enabled(s, a)
    ensures Reachable(s') && s' == Apply(s, a)
  {
    hide Enabled, Apply;
    var run :| Legal(Initial(false), run) && Exec(Initial(false), run) == s;
    OneMoreAction(Initial(false), run, a);
    s' := Apply(s, a);
  }

  lemma ReachStart() returns (s: State)
    ensures Reachable(s) && s == Initial(false)
  {
    s := Initial(false);
    assert Legal(s, []) && Exec(s, []) == s;
  }

  /** A present of a known target process. */
  function Known(f: Frame): Present {
    Present(false, true, true, {}, f)
  }

  /** A batch of one present. */
  lemma One(s: State, p: Present)
    ensures var b, l := BatchOf(s, [p]), Look(s.chains, p);
            && Chained(b) == Step(s.chains, p, s.v1)
            && Consumed(s.known, b) == (if l.Ignored? then 0 else SkipTo(s.known, Time(l), 0))
            && Chained(Upto(b, 0)) == s.chains
            && Written(s.known, b, StartOfBatch(s))
               == [if After(StartOfBatch(s), Consumed(s.known, b)) then ReadyWith(s.chains, p, s.v1) else []]
  {
    hide Step, Look, ReadyWith, StartOfBatch;
    var b := BatchOf(s, [p]);
    NoneYet(s.known, b, StartOfBatch(s));
    OneMore(s.known, b, StartOfBatch(s), 0);
    UptoAll(b);
  }

  /** The output thread copies the toggles and handles one present. */
  lemma CopyAndHandle(s: State, p: Present) returns (s': State)
    requires Reachable(s) && !s.copied
    ensures Reachable(s') && s' == Apply(Apply(s, Copy), Handle([p]))
  {
    hide Reachable, Apply;
    var s1 := ReachNext(s, Copy);
    assert s1.copied by { CopyDone(s); }
    s' := ReachNext(s1, Handle([p]));
  }

  lemma CopyDone(s: State)
    ensures Apply(s, Copy).copied
  {
  }

  /** Nothing was toggled yet. */
  ghost predicate Untouched(s: State, chains: Chains) {
    && Reachable(s) && s.v1 == false && s.history == s.known == s.made == [] && !s.isRecording && !s.copied
    && s.consumed == 0 && s.chains == chains
  }

  lemma StartUntouched() returns (s: State)
    ensures Untouched(s, map[])
  {
    s := ReachStart();
  }

  lemma HandleUntouched(s: State, chains: Chains, p: Present) returns (s': State)
    requires Untouched(s, chains)
    ensures Untouched(s', Step(chains, p, false))
  {
    hide Reachable, Step, Look;
    s' := CopyAndHandle(s, p);
    var s1 := Apply(s, Copy);
    One(s1, p);
  }

  /** One toggle was made, which switched recording on, and no batch has seen it. */
  ghost predicate Toggled(s: State, chains: Chains, qpc: nat) {
    && Reachable(s) && s.v1 == false && s.history == s.made == [qpc] && s.known == [] && s.isRecording && !s.copied
    && s.consumed == 0 && s.chains == chains
  }

  lemma ToggleOnce(s: State, chains: Chains, qpc: nat) returns (s': State)
    requires Untouched(s, chains)
    ensures Toggled(s', chains, qpc)
  {
    hide Reachable;
    s' := ReachNext(s, Toggle(true, qpc));
    assert [] + [qpc] == [qpc];
  }

  /** Recording is on, and the toggle is used up. */
  ghost predicate Used(s: State, chains: Chains, qpc: nat) {
    && Reachable(s) && s.v1 == false && s.history == s.known == [] && s.made == [qpc] && s.isRecording && !s.copied
    && s.consumed == 1 && s.chains == chains
  }

  lemma UseToggle(s: State, chains: Chains, qpc: nat, p: Present) returns (s': State)
    requires Toggled(s, chains, qpc) && Look(chains, p).Handled? && qpc < Look(chains, p).previous
    ensures Used(s', Step(chains, p, false), qpc)
  {
    hide Reachable, Step;
    s' := CopyAndHandle(s, p);
    var s1 := Apply(s, Copy);
    assert [] + [qpc] == [qpc];
    One(s1, p);
    assert SkipTo([qpc], Look(chains, p).previous, 1) == 1;
    assert SkipTo([qpc], Look(chains, p).previous, 0) == 1;
    assert [qpc][1..] == [];
  }

  /** The next batch, once the toggles were copied. */
  lemma CopyUsed(s: State, chains: Chains, qpc: nat) returns (s': State)
    requires Used(s, chains, qpc)
    ensures Reachable(s') && s'.copied && s'.chains == chains && s'.known == [] && s'.current && s'.made == [qpc] && s'.v1 == false
  {
    hide Reachable;
    s' := ReachNext(s, Copy);
  }

  lemma MadeOne(s: State, qpc: nat, time: nat)
    requires s.made == [qpc]
    ensures OnAsOf(s, time) <==> qpc < time
  {
    assert MadeBefore(s, time) == if qpc < time then {0} else {};
    assert Odd(1) && !Odd(0);
  }

  const A: nat := 1
  const B: nat := 2

  /**
   Recording is switched on at 150.  A present of chain B that follows one at 200 uses the toggle up; a present of chain
   A that started at 120 is handled after it and recorded.
   */
  lemma EarlyRun() returns (s: State)
    ensures var p := Known(Frame(4, A, 120, false));
            && Reachable(s) && s.copied && Written(s.known, BatchOf(s, [p]), StartOfBatch(s)) == [[Item(p.frame, Whole)]]
            && !OnAsOf(s, 120)
  {
    hide Reachable, Untouched, Toggled, Used, Written, StartOfBatch;
    s := StartUntouched();
    s := HandleUntouched(s, map[], Known(Frame(1, A, 100, false)));
    var c1 := map[A := Seed(Frame(1, A, 100, false))];
    s := HandleUntouched(s, c1, Known(Frame(2, B, 200, false)));
    var c2 := c1[B := Seed(Frame(2, B, 200, false))];
    s := ToggleOnce(s, c2, 150);
    var p := Known(Frame(3, B, 300, false));
    s := UseToggle(s, c2, 150, p);
    s := CopyUsed(s, Step(c2, p, false), 150);
    NextRows(s, Known(Frame(4, A, 120, false)));
    MadeOne(s, 150, 120);
  }

  /** With recording on and no toggle left, what is ready is written. */
  lemma NextRows(s: State, p: Present)
    requires s.known == [] && s.current
    ensures Written(s.known, BatchOf(s, [p]), StartOfBatch(s)) == [ReadyWith(s.chains, p, s.v1)]
  {
    One(s, p);
    assert !Odd(0);
  }

  /** Recording is switched on at 150; the present that starts at 200 after one at 100 is not recorded. */
  lemma LateRun() returns (s: State)
    ensures var p := Known(Frame(2, A, 200, false));
            && Reachable(s) && s.copied && Written(s.known, BatchOf(s, [p]), StartOfBatch(s)) == [[]]
            && Look(s.chains, p).Handled? && OnAsOf(s, 200)
  {
    hide Reachable, Untouched;
    s := StartUntouched();
    s := HandleUntouched(s, map[], Known(Frame(1, A, 100, false)));
    var c1 := map[A := Seed(Frame(1, A, 100, false))];
    s := ToggleOnce(s, c1, 150);
    s := ReachNext(s, Copy);
    MadeOne(s, 150, 200);
    assert s.known == [150];
    One(s, Known(Frame(2, A, 200, false)));
    assert SkipTo([150], 100, 0) == 0;
    assert Odd(1) && !Odd(0);
  }

  lemma ReadyThree(last: nat, w: Frame, b: Frame, f: Frame)
    requires f.displayed
    ensures Ready(Chain(last, Some(w), [b]), f, false) == [Item(w, Last), Item(b, Whole), Item(f, AllButLast)]
  {
    assert Wholes([b]) == [Item(b, Whole)];
  }

  /**
   Frame 4 is not displayed and is handled while recording is off, but blocked behind frame 3.  Recording is switched on
   at 130 before frame 6 is displayed, with which its row is written.
   */
  lemma DeferredRun() returns (s: State)
    ensures var p := Known(Frame(6, A, 310, true));
            && Reachable(s) && s.copied
            && Written(s.known, BatchOf(s, [p]), StartOfBatch(s))
               == [[Item(Frame(3, A, 110, true), Last), Item(Frame(4, A, 120, false), Whole), Item(p.frame, AllButLast)]]
            && !OnAsOf(s, 110) && !OnAsOf(s, 120)
  {
    hide Reachable, Untouched, Toggled, Used, Written, StartOfBatch;
    s := StartUntouched();
    s := HandleUntouched(s, map[], Known(Frame(1, A, 100, false)));
    var c1 := map[A := Seed(Frame(1, A, 100, false))];
    s := HandleUntouched(s, c1, Known(Frame(2, B, 140, false)));
    var c2 := c1[B := Seed(Frame(2, B, 140, false))];
    s := HandleUntouched(s, c2, Known(Frame(3, A, 110, true)));
    var c3 := Step(c2, Known(Frame(3, A, 110, true)), false);
    s := HandleUntouched(s, c3, Known(Frame(4, A, 120, false)));
    var c4 := Step(c3, Known(Frame(4, A, 120, false)), false);
    s := ToggleOnce(s, c4, 130);
    var p := Known(Frame(5, B, 300, false));
    s := UseToggle(s, c4, 130, p);
    s := CopyUsed(s, Step(c4, p, false), 130);
    NextRows(s, Known(Frame(6, A, 310, true)));
    assert s.chains[A] == Chain(100, Some(Frame(3, A, 110, true)), [Frame(4, A, 120, false)]);
    ReadyThree(100, Frame(3, A, 110, true), Frame(4, A, 120, false), Frame(6, A, 310, true));
    MadeOne(s, 130, 110);
    MadeOne(s, 130, 120);
  }
}
