/**
 The gate between ETW event handlers and the controller thread that resets the present tracking data.
 Every atomic access of EventProcessingScope and of ResetPresentTrackingData is one step; a run is any
 interleaving of the steps of any number of scopes with those of the controller.
 */
module QuiesceGate {

  /** The tracking data is cleared structure by structure: this many of them. */
  const PARTS: nat := 36

  /** Where one handler scope stands between two of its atomic accesses. */
  datatype Scope =
    | LoadMode                   // about to read mProviderToggleMode
    | Increment                  // the gate is on: about to count itself
    | LoadEnabled                // counted: about to read mEventProcessingEnabled
    | BackOut                    // counted, but processing is disabled
    | Active(counted: bool)      // the handler may use the tracking data
    | Inactive                   // the handler returned without using it
    | Ended

  datatype Controller = Idle | Waiting | Clearing(next: nat)

  datatype State = State(
    toggleMode: bool,
    enabled: bool,
    inFlight: int,
    scopes: map<nat, Scope>,
    controller: Controller,
    data: seq<set<nat>>)

  datatype Action =
    | Begin(i: nat)
    | Advance(i: nat)
    | Touch(i: nat, part: nat, contents: set<nat>)
    | SetToggleMode(on: bool)
    | SetEnabled(on: bool)
    | BeginReset
    | Poll
    | TimeOut
    | ClearNext
    | EndReset

  predicate Enabled(s: State, a: Action) {
    match a
    case Begin(i) => i !in s.scopes
    case Advance(i) => i in s.scopes && !s.scopes[i].Inactive? && !s.scopes[i].Ended?
    case Touch(i, part, _) => i in s.scopes && s.scopes[i].Active? && part < |s.data|
    case SetToggleMode(_) => s.controller.Idle?
    case SetEnabled(_) => s.controller.Idle?
    case BeginReset => s.controller.Idle?
    case Poll => s.controller.Waiting?
    case TimeOut => s.controller.Waiting? && s.inFlight != 0
    case ClearNext => s.controller.Clearing? && s.controller.next < |s.data|
    case EndReset => s.controller.Clearing? && s.controller.next == |s.data|
  }

  /** One atomic access of a scope: construction until it is active or inactive, then destruction. */
  function AdvanceScope(s: State, i: nat): State
    requires i in s.scopes
  {
    match s.scopes[i]
    case LoadMode => s.(scopes := s.scopes[i := if s.toggleMode then Increment else Active(false)])
    case Increment => s.(scopes := s.scopes[i := LoadEnabled], inFlight := s.inFlight + 1)
    case LoadEnabled => s.(scopes := s.scopes[i := if s.enabled then Active(true) else BackOut])
    case BackOut => s.(scopes := s.scopes[i := Inactive], inFlight := s.inFlight - 1)
    case Active(counted) =>
      s.(scopes := s.scopes[i := Ended], inFlight := if counted then s.inFlight - 1 else s.inFlight)
    case Inactive => s
    case Ended => s
  }

  function Apply(s: State, a: Action): State
    requires Enabled(s, a)
  {
    match a
    case Begin(i) => s.(scopes := s.scopes[i := LoadMode])
    case Advance(i) => AdvanceScope(s, i)
    case Touch(_, part, contents) => s.(data := s.data[part := contents])
    case SetToggleMode(on) => s.(toggleMode := on)
    case SetEnabled(on) => s.(enabled := on)
    case BeginReset => s.(enabled := false, controller := Waiting)
    case Poll => if s.inFlight == 0 then s.(controller := Clearing(0)) else s
    case TimeOut => s.(controller := Idle)
    case ClearNext => s.(data := s.data[s.controller.next := {}], controller := Clearing(s.controller.next + 1))
    case EndReset => s.(controller := Idle)
  }

  function Initial(toggleMode: bool): State {
    State(toggleMode, true, 0, map[], Idle, seq(PARTS, _ => {}))
  }

  // ---------------------------------------------------------------------------------------------
  // Runs

  predicate Legal(s: State, run: seq<Action>)
    decreases |run|
  {
    run == [] || (Enabled(s, run[0]) && Legal(Apply(s, run[0]), run[1..]))
  }

  function Exec(s: State, run: seq<Action>): State
    requires Legal(s, run)
    decreases |run|
  {
    if run == [] then s else Exec(Apply(s, run[0]), run[1..])
  }

  // ---------------------------------------------------------------------------------------------
  // Safety

  predicate Counts(p: Scope) {
    p.LoadEnabled? || p.BackOut? || p == Active(true)
  }

  /** The scopes that have counted themselves and not yet left. */
  ghost function Counted(scopes: map<nat, Scope>): set<nat> {
    set i | i in scopes && Counts(scopes[i])
  }

  ghost predicate Inv(s: State) {
    && s.inFlight == |Counted(s.scopes)|
    && |s.data| == PARTS
    && (!s.controller.Idle? ==> !s.enabled)
    && (s.controller.Clearing? ==> forall i :: i in s.scopes ==> s.scopes[i] != Active(true))
    && (s.controller.Clearing? ==> s.controller.next <= PARTS)
  }

  /** Moving one scope moves at most that scope in or out of the counted set. */
  lemma CountedAfter(scopes: map<nat, Scope>, i: nat, p: Scope)
    ensures |Counted(scopes[i := p])|
            == |Counted(scopes)| - (if i in Counted(scopes) then 1 else 0) + (if Counts(p) then 1 else 0)
  {
    var before, after := Counted(scopes), Counted(scopes[i := p]);
    assert before - {i} == after - {i};
    assert |before| == |before - {i}| + if i in before then 1 else 0;
    assert |after| == |after - {i}| + if i in after then 1 else 0;
  }

  lemma StepKeepsInv(s: State, a: Action)
    requires Inv(s) && Enabled(s, a)
    ensures Inv(Apply(s, a))
  {
    var s' := Apply(s, a);
    match a
    case Begin(i) => CountedAfter(s.scopes, i, LoadMode);
    case Advance(i) => CountedAfter(s.scopes, i, s'.scopes[i]);
    case Poll =>
      if s.inFlight == 0 {
        forall i | i in s.scopes
          ensures s.scopes[i] != Active(true)
        {
          assert i !in Counted(s.scopes);
        }
      }
    case _ =>
  }

  lemma {:induction false} RunKeepsInv(s: State, run: seq<Action>)
    requires Inv(s) && Legal(s, run)
    ensures Inv(Exec(s, run))
    decreases |run|
  {
    if run != [] {
      StepKeepsInv(s, run[0]);
      RunKeepsInv(Apply(s, run[0]), run[1..]);
    }
  }

  /** In every interleaving the counter is the number of counted scopes alive, so it never goes below zero. */
  lemma InFlightExact(toggleMode: bool, run: seq<Action>)
    requires Legal(Initial(toggleMode), run)
    ensures var s := Exec(Initial(toggleMode), run);
            s.inFlight == |Counted(s.scopes)| && 0 <= s.inFlight
  {
    assert Counted(map[]) == {};
    RunKeepsInv(Initial(toggleMode), run);
  }

  /** The gate is on and no scope slipped past it while it was off. */
  ghost predicate Gated(s: State) {
    s.toggleMode && forall i :: i in s.scopes ==> s.scopes[i] != Active(false)
  }

  /** The structures already cleared are empty. */
  ghost predicate ClearedSoFar(s: State) {
    s.controller.Clearing? ==> forall k :: 0 <= k < s.controller.next && k < |s.data| ==> s.data[k] == {}
  }

  /** No step of the run turns the gate off. */
  predicate KeepsGate(run: seq<Action>) {
    forall a :: a in run ==> a != SetToggleMode(false)
  }

  lemma {:induction false} RunStaysGated(s: State, run: seq<Action>)
    requires Inv(s) && Legal(s, run) && Gated(s) && ClearedSoFar(s) && KeepsGate(run)
    ensures Gated(Exec(s, run)) && ClearedSoFar(Exec(s, run))
    decreases |run|
  {
    if run != [] {
      assert run[0] in run && forall a :: a in run[1..] ==> a in run;
      StepKeepsInv(s, run[0]);
      RunStaysGated(Apply(s, run[0]), run[1..]);
    }
  }

  /** With the gate on, no scope at all is active while the data is being cleared. */
  lemma NoHandlerWhileClearing(run: seq<Action>, i: nat)
    requires Legal(Initial(true), run) && KeepsGate(run)
    requires Exec(Initial(true), run).controller.Clearing? && i in Exec(Initial(true), run).scopes
    ensures !Exec(Initial(true), run).scopes[i].Active?
  {
    RunStaysGated(Initial(true), run);
    ClearedInv(run);
  }

  lemma ClearedInv(run: seq<Action>)
    requires Legal(Initial(true), run)
    ensures Inv(Exec(Initial(true), run))
  {
    assert Counted(map[]) == {};
    RunKeepsInv(Initial(true), run);
  }

  /** With the gate on, a reset that runs to its end leaves every structure empty. */
  lemma ResetClearsEverything(run: seq<Action>)
    requires Legal(Initial(true), run) && KeepsGate(run)
    requires Enabled(Exec(Initial(true), run), EndReset)
    ensures var s := Apply(Exec(Initial(true), run), EndReset);
            !s.enabled && |s.data| == PARTS && forall k :: 0 <= k < PARTS ==> s.data[k] == {}
  {
    assert Counted(map[]) == {};
    RunStaysGated(Initial(true), run);
    RunKeepsInv(Initial(true), run);
  }

  /** The data as the handlers alone would have left it. */
  function HandlerWrites(data: seq<set<nat>>, run: seq<Action>): seq<set<nat>>
    decreases |run|
  {
    if run == [] then data
    else
      var first := run[0];
      HandlerWrites(if first.Touch? && first.part < |data| then data[first.part := first.contents] else data, run[1..])
  }

  /** The run does not leave the wait or the clearing phase that it is in. */
  predicate OneReset(run: seq<Action>) {
    forall a :: a in run ==> a != TimeOut && a != EndReset
  }

  lemma {:induction false} ClearingGoesOn(s: State, run: seq<Action>)
    requires Legal(s, run) && OneReset(run) && s.controller.Clearing?
    ensures Exec(s, run).controller.Clearing?
    decreases |run|
  {
    if run != [] {
      assert run[0] in run && forall a :: a in run[1..] ==> a in run;
      ClearingGoesOn(Apply(s, run[0]), run[1..]);
    }
  }

  /**
   Whatever the handlers and the controller do in the meantime, when a wait can time out, the data is what the handlers
   wrote since it began: nothing was cleared.
   */
  lemma {:induction false} TimedOutWaitClearsNothing(s: State, run: seq<Action>)
    requires Legal(s, run) && OneReset(run) && s.controller.Waiting? && Enabled(Exec(s, run), TimeOut)
    ensures Apply(Exec(s, run), TimeOut).data == HandlerWrites(s.data, run)
    decreases |run|
  {
    if run != [] {
      assert run[0] in run && forall a :: a in run[1..] ==> a in run;
      var s1 := Apply(s, run[0]);
      if s1.controller.Clearing? { ClearingGoesOn(s1, run[1..]); }
      TimedOutWaitClearsNothing(s1, run[1..]);
    }
  }

  /** Some scope is active while the data is being cleared. */
  ghost predicate Clash(s: State) {
    s.controller.Clearing? && exists i :: i in s.scopes && s.scopes[i].Active?
  }

  /** Some interleaving that leaves the gate on lets a handler use the data while it is being cleared. */
  ghost predicate Fails(s: State) {
    exists run :: Legal(s, run) && KeepsGate(run) && Clash(Exec(s, run))
  }

  lemma FailsBefore(s: State, a: Action)
    requires Enabled(s, a) && a != SetToggleMode(false) && Fails(Apply(s, a))
    ensures Fails(s)
  {
    var run :| Legal(Apply(s, a), run) && KeepsGate(run) && Clash(Exec(Apply(s, a), run));
    var whole := [a] + run;
    assert whole[0] == a && whole[1..] == run;
    assert Legal(s, whole) && Exec(s, whole) == Exec(Apply(s, a), run);
  }

  lemma ClashFails(s: State)
    requires Clash(s)
    ensures Fails(s)
  {
    assert Legal(s, []) && KeepsGate([]) && Exec(s, []) == s;
  }

  /** While the controller waits, every counted scope may leave; then the controller clears under the uncounted one. */
  lemma {:induction false} DrainFails(s: State, i: nat)
    requires Inv(s) && s.controller.Waiting? && i in s.scopes && s.scopes[i] == Active(false)
    ensures Fails(s)
    decreases s.inFlight
  {
    if s.inFlight == 0 {
      ClashFails(Apply(s, Poll));
      FailsBefore(s, Poll);
    } else {
      var k :| k in Counted(s.scopes);
      var s1 := Apply(s, Advance(k));
      StepKeepsInv(s, Advance(k));
      if s.scopes[k].LoadEnabled? {
        StepKeepsInv(s1, Advance(k));
        DrainFails(Apply(s1, Advance(k)), i);
        FailsBefore(s1, Advance(k));
      } else {
        DrainFails(s1, i);
      }
      FailsBefore(s, Advance(k));
    }
  }

  lemma UncountedFails(s: State, i: nat)
    requires Inv(s) && i in s.scopes && s.scopes[i] == Active(false)
    ensures Fails(s)
  {
    match s.controller
    case Clearing(_) => ClashFails(s);
    case Waiting => DrainFails(s, i);
    case Idle =>
      StepKeepsInv(s, BeginReset);
      DrainFails(Apply(s, BeginReset), i);
      FailsBefore(s, BeginReset);
  }

  lemma {:induction false} FreshScope(used: set<nat>) returns (j: nat)
    ensures forall i :: i in used ==> i < j
  {
    if used == {} {
      j := 0;
    } else {
      var i :| i in used;
      var rest := FreshScope(used - {i});
      j := if rest <= i then i + 1 else rest;
      assert forall k :: k in used ==> k == i || k in used - {i};
    }
  }

  /** With the gate off a new scope becomes active without being counted. */
  lemma OffFails(s: State)
    requires Inv(s) && !s.toggleMode
    ensures Fails(s)
  {
    var j := FreshScope(s.scopes.Keys);
    var s1 := Apply(s, Begin(j));
    StepKeepsInv(s, Begin(j));
    StepKeepsInv(s1, Advance(j));
    UncountedFails(Apply(s1, Advance(j)), j);
    FailsBefore(s1, Advance(j));
    FailsBefore(s, Begin(j));
  }

  lemma {:induction false} GatedHolds(s: State, run: seq<Action>)
    requires Inv(s) && Legal(s, run) && Gated(s) && KeepsGate(run)
    ensures !Clash(Exec(s, run))
    decreases |run|
  {
    if run != [] {
      assert run[0] in run && forall a :: a in run[1..] ==> a in run;
      StepKeepsInv(s, run[0]);
      GatedHolds(Apply(s, run[0]), run[1..]);
    }
  }

  /**
   From every state that a run can reach, the data is never cleared under an active handler while the gate stays on,
   exactly if the gate is on in that state and no scope slipped past it while it was off.
   */
  lemma SafeExactlyWhenGated(s: State)
    requires Inv(s)
    ensures !Fails(s) <==> Gated(s)
  {
    if Gated(s) {
      forall run | Legal(s, run) && KeepsGate(run)
        ensures !Clash(Exec(s, run))
      {
        GatedHolds(s, run);
      }
    } else if !s.toggleMode {
      OffFails(s);
    } else {
      var i :| i in s.scopes && s.scopes[i] == Active(false);
      UncountedFails(s, i);
    }
  }

  /** Turning the gate off breaks the promise even if it was on from the start. */
  lemma GateTurnedOff()
    ensures Gated(Initial(true)) && Fails(Apply(Initial(true), SetToggleMode(false)))
  {
    assert Counted(map[]) == {};
    SafeExactlyWhenGated(Apply(Initial(true), SetToggleMode(false)));
  }
}
