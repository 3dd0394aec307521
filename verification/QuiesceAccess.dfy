/** Which event handlers the gate lets through, in terms of what they read. */
module QuiesceAccess {
  import opened QuiesceGate

  /** How often a scope accessed the gate, and what its first and its third access read. */
  datatype Reads = Reads(accesses: nat, gateOn: bool, processing: bool)

  function Read(r: Reads, s: State): Reads {
    Reads(r.accesses + 1,
          if r.accesses == 0 then s.toggleMode else r.gateOn,
          if r.accesses == 2 then s.enabled else r.processing)
  }

  function ReadsOf(s: State, run: seq<Action>, i: nat, r: Reads): Reads
    requires Legal(s, run)
    decreases |run|
  {
    if run == [] then r
    else ReadsOf(Apply(s, run[0]), run[1..], i, if run[0] == Advance(i) then Read(r, s) else r)
  }

  const NONE := Reads(0, false, false)

  /** How many accesses a scope needs until it is active or has backed out. */
  function Needed(r: Reads): nat {
    if !r.gateOn then 1 else if r.processing then 3 else 4
  }

  /** Where a scope is whose accesses were these. */
  ghost predicate Stands(p: Scope, r: Reads) {
    && (r.accesses == 0 ==> p == LoadMode)
    && (r.accesses > 0 && r.accesses < Needed(r) ==> p == Increment || p == LoadEnabled || p == BackOut)
    && (r.accesses == 1 && r.gateOn ==> p == Increment)
    && (r.accesses == 2 && r.gateOn ==> p == LoadEnabled)
    && (r.accesses == 3 && r.gateOn && !r.processing ==> p == BackOut)
    && (r.accesses > 0 && r.accesses == Needed(r) ==>
          p == if r.gateOn && !r.processing then Inactive else Active(r.gateOn))
    && (r.accesses > 0 && r.accesses > Needed(r) ==> p == Ended)
    && (r.accesses < 3 ==> !r.processing)
  }

  lemma StandsNext(s: State, i: nat, r: Reads)
    requires i in s.scopes && Stands(s.scopes[i], r) && !s.scopes[i].Inactive? && !s.scopes[i].Ended?
    ensures Stands(AdvanceScope(s, i).scopes[i], Read(r, s))
  {
  }

  lemma {:induction false} RunStands(s: State, run: seq<Action>, i: nat, r: Reads)
    requires Legal(s, run) && (if i in s.scopes then Stands(s.scopes[i], r) else r == NONE)
    ensures var s' := Exec(s, run);
            if i in s'.scopes then Stands(s'.scopes[i], ReadsOf(s, run, i, r)) else ReadsOf(s, run, i, r) == NONE
    decreases |run|
  {
    if run != [] {
      hide Stands;
      var a := run[0];
      if a == Advance(i) { StandsNext(s, i, r); }
      if a == Begin(i) { StandsFirst(); }
      RunStands(Apply(s, a), run[1..], i, if a == Advance(i) then Read(r, s) else r);
    }
  }

  lemma StandsFirst()
    ensures Stands(LoadMode, NONE)
  {
  }

  /**
   In every run, once a scope is constructed, its handler is active if and only if the gate was off at its first access
   or processing was enabled when it read that; it is counted if the gate was on.  Otherwise it is inactive and uncounted.
   */
  lemma AdmittedExactly(toggleMode: bool, run: seq<Action>, i: nat)
    requires Legal(Initial(toggleMode), run) && i in Exec(Initial(toggleMode), run).scopes
    ensures var p, r := Exec(Initial(toggleMode), run).scopes[i], ReadsOf(Initial(toggleMode), run, i, NONE);
            && (r.accesses == Needed(r) && (!r.gateOn || r.processing) <==> p.Active?)
            && (r.accesses == Needed(r) && r.gateOn && !r.processing <==> p.Inactive?)
            && (p.Active? ==> (Counts(p) <==> r.gateOn)) && (p.Inactive? ==> !Counts(p))
  {
    RunStands(Initial(toggleMode), run, i, NONE);
  }

  /** What a new scope does when it runs alone. */
  function Alone(i: nat, n: nat): seq<Action> {
    [Begin(i)] + seq(n, _ => Advance(i))
  }

  lemma OneByOne(s: State, a: Action, rest: seq<Action>)
    requires Enabled(s, a) && Legal(Apply(s, a), rest)
    ensures Legal(s, [a] + rest) && Exec(s, [a] + rest) == Exec(Apply(s, a), rest)
  {
    assert ([a] + rest)[1..] == rest;
  }

  /** With the gate on and processing enabled a scope becomes active and counted, and may use the data. */
  lemma GoesThrough(s: State, i: nat)
    requires i !in s.scopes && s.toggleMode && s.enabled
    ensures Legal(s, Alone(i, 3))
    ensures var s' := Exec(s, Alone(i, 3));
            && i in s'.scopes && s'.scopes[i] == Active(true) && i in Counted(s'.scopes)
            && s'.inFlight == s.inFlight + 1 && s'.data == s.data && s'.controller == s.controller
            && forall part: nat, contents :: part < |s.data| ==> Enabled(s', Touch(i, part, contents))
  {
    var s1 := Apply(s, Begin(i));
    var s2 := Apply(s1, Advance(i));
    var s3 := Apply(s2, Advance(i));
    OneByOne(s3, Advance(i), []);
    OneByOne(s2, Advance(i), [Advance(i)] + []);
    OneByOne(s1, Advance(i), [Advance(i)] + ([Advance(i)] + []));
    OneByOne(s, Begin(i), [Advance(i)] + ([Advance(i)] + ([Advance(i)] + [])));
    assert Alone(i, 3) == [Begin(i)] + ([Advance(i)] + ([Advance(i)] + ([Advance(i)] + [])));
  }

  /** While processing is disabled it backs out, and the counter is as before. */
  lemma BacksOut(s: State, i: nat)
    requires i !in s.scopes && s.toggleMode && !s.enabled
    ensures Legal(s, Alone(i, 4))
    ensures var s' := Exec(s, Alone(i, 4));
            i in s'.scopes && s'.scopes[i] == Inactive && i !in Counted(s'.scopes) && s'.inFlight == s.inFlight && s'.data == s.data
  {
    var s1 := Apply(s, Begin(i));
    var s2 := Apply(s1, Advance(i));
    var s3 := Apply(s2, Advance(i));
    var s4 := Apply(s3, Advance(i));
    OneByOne(s4, Advance(i), []);
    OneByOne(s3, Advance(i), [Advance(i)] + []);
    OneByOne(s2, Advance(i), [Advance(i)] + ([Advance(i)] + []));
    OneByOne(s1, Advance(i), [Advance(i)] + ([Advance(i)] + ([Advance(i)] + [])));
    OneByOne(s, Begin(i), [Advance(i)] + ([Advance(i)] + ([Advance(i)] + ([Advance(i)] + []))));
    assert Alone(i, 4) == [Begin(i)] + ([Advance(i)] + ([Advance(i)] + ([Advance(i)] + ([Advance(i)] + []))));
  }

  // ---------------------------------------------------------------------------------------------
  // The controller

  function Clears(n: nat): seq<Action> {
    seq(n, _ => ClearNext)
  }

  lemma {:induction false} ClearsAll(s: State, n: nat)
    requires s.controller.Clearing? && s.controller.next + n == |s.data|
    requires forall k :: 0 <= k < s.controller.next && k < |s.data| ==> s.data[k] == {}
    ensures Legal(s, Clears(n) + [EndReset])
    ensures var s' := Exec(s, Clears(n) + [EndReset]);
            && s'.controller == Idle && |s'.data| == |s.data| && (forall k :: 0 <= k < |s'.data| ==> s'.data[k] == {})
            && s'.scopes == s.scopes && s'.inFlight == s.inFlight && s'.enabled == s.enabled && s'.toggleMode == s.toggleMode
    decreases n
  {
    if n == 0 {
      OneByOne(s, EndReset, []);
      assert Clears(0) + [EndReset] == [EndReset] + [];
    } else {
      ClearsAll(Apply(s, ClearNext), n - 1);
      OneByOne(s, ClearNext, Clears(n - 1) + [EndReset]);
      assert Clears(n) + [EndReset] == [ClearNext] + (Clears(n - 1) + [EndReset]);
    }
  }

  /** When no counted handler is left, the wait ends, everything is cleared, and the controller can do something else. */
  lemma ResetCompletes(s: State)
    requires Inv(s) && s.controller.Waiting? && s.inFlight == 0
    ensures var run := [Poll] + (Clears(PARTS) + [EndReset]);
            && Legal(s, run)
            && var s' := Exec(s, run);
               && s'.controller == Idle && (forall k :: 0 <= k < |s'.data| ==> s'.data[k] == {})
               && s'.scopes == s.scopes && !s'.enabled
  {
    ClearsAll(Apply(s, Poll), PARTS);
    OneByOne(s, Poll, Clears(PARTS) + [EndReset]);
  }

  /** A wait that times out leaves the data and the handlers alone, and processing disabled; then the controller is idle. */
  lemma TimesOut(s: State)
    requires Inv(s) && s.controller.Waiting? && s.inFlight != 0
    ensures var s' := Apply(s, TimeOut); s'.controller == Idle && s'.data == s.data && s'.scopes == s.scopes && !s'.enabled
  {
  }

  /** After a reset handlers back out until processing is enabled again, and then go through. */
  lemma HandledAgain(s: State, i: nat)
    requires i !in s.scopes && s.toggleMode && s.controller.Idle?
    ensures !s.enabled ==> Legal(s, Alone(i, 4)) && i in Exec(s, Alone(i, 4)).scopes && Exec(s, Alone(i, 4)).scopes[i] == Inactive
    ensures var u := Apply(s, SetEnabled(true));
            Legal(u, Alone(i, 3)) && i in Exec(u, Alone(i, 3)).scopes && Exec(u, Alone(i, 3)).scopes[i] == Active(true)
  {
    if !s.enabled { BacksOut(s, i); }
    GoesThrough(Apply(s, SetEnabled(true)), i);
  }
}
