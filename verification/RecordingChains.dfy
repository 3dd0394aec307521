/** As of which time a present consults the toggles, in terms of the frames that arrived on its chain. */
module RecordingChains {
  import opened Wrappers
  import opened ChainOutput
  import opened Recording

  /** What is remembered of a chain on which these frames arrived. */
  function ChainOf(fs: seq<Frame>, v1: bool): Chain
    requires fs != []
  {
    var n := |fs| - 1;
    if n == 0 then Seed(fs[0]) else Enqueue(ChainOf(fs[..n], v1), fs[n], v1)
  }

  /**
   The last frame that is done is the last one that arrived; with look-ahead, it is the one before the last displayed
   frame, unless that is the first of the chain.
   */
  ghost predicate DoneUpTo(fs: seq<Frame>, v1: bool, k: nat) {
    && k < |fs|
    && if v1 then k == |fs| - 1
       else
         && (forall i :: k + 1 < i < |fs| ==> !fs[i].displayed)
         && (k + 1 < |fs| ==> fs[k + 1].displayed)
         && (k == |fs| - 1 ==> forall i :: 0 < i < |fs| ==> !fs[i].displayed)
  }

  lemma {:induction false} ChainLast(fs: seq<Frame>, v1: bool) returns (k: nat)
    requires fs != []
    ensures DoneUpTo(fs, v1, k) && Behind(ChainOf(fs, v1)) && ChainOf(fs, v1).last == fs[k].start
    ensures !v1 ==> (if k + 1 < |fs| then Pending(ChainOf(fs, v1)) == fs[k + 1..] && ChainOf(fs, v1).waiting.Some?
                     else ChainOf(fs, v1).waiting.None?)
  {
    var n := |fs| - 1;
    k := n;
    if n > 0 {
      var before := ChainLast(fs[..n], v1);
      var c := ChainOf(fs[..n], v1);
      if !v1 && fs[n].displayed {
        k := n - 1;
        if before + 1 < n {
          assert Pending(c)[|Pending(c)| - 1] == fs[..n][n - 1];
        }
      } else if !v1 && c.waiting.Some? {
        k := before;
        assert fs[..n][k + 1..] + [fs[n]] == fs[k + 1..];
      }
    }
  }

  lemma DoneOnce(fs: seq<Frame>, v1: bool, k: nat, l: nat)
    requires DoneUpTo(fs, v1, k) && DoneUpTo(fs, v1, l)
    ensures k == l
  {
  }

  // ---------------------------------------------------------------------------------------------
  // Arrivals

  /** The frames of every chain since its first one. */
  type Arrivals = map<nat, seq<Frame>>

  /**
   A present of a target arrives on its chain, and before it the chains of processes go away that ended, unless it is
   the first of a chain; so they do before one whose process was not known.
   */
  function Arrive(H: Arrivals, p: Present): Arrivals {
    var c := p.frame.chain;
    if p.lost || (p.known && !p.target) then H
    else if p.known && c !in H then H[c := [p.frame]]
    else if !p.target then H - p.gone
    else (H - p.gone)[c := if p.known then H[c] + [p.frame] else [p.frame]]
  }

  function ArriveAll(H: Arrivals, presents: seq<Present>): Arrivals {
    if presents == [] then H else Arrive(ArriveAll(H, presents[..|presents| - 1]), presents[|presents| - 1])
  }

  /** All arrivals of the batches so far. */
  function Arrived(past: seq<Entry>): Arrivals {
    if past == [] then map[] else ArriveAll(Arrived(past[..|past| - 1]), past[|past| - 1].batch.presents)
  }

  ghost predicate Remembers(C: Chains, H: Arrivals, v1: bool) {
    C.Keys == H.Keys && forall c :: c in C ==> H[c] != [] && C[c] == ChainOf(H[c], v1)
  }

  lemma StepRemembers(C: Chains, H: Arrivals, p: Present, v1: bool)
    requires Remembers(C, H, v1)
    ensures Remembers(Step(C, p, v1), Arrive(H, p), v1)
  {
    hide Enqueue, Seed, ChainOf, Remembers;
    var c := p.frame.chain;
    OneArrived(p.frame, v1);
    SameKeys(C, H, v1);
    if !p.lost && p.known && p.target && c in C {
      NextArrived(H[c], p.frame, v1);
      Without(C, H, p.gone, v1);
      Put(C - p.gone, H - p.gone, c, H[c] + [p.frame], v1);
    } else if !p.lost && p.target {
      Without(C, H, p.gone, v1);
      Put(if p.known then C else C - p.gone, if p.known then H else H - p.gone, c, [p.frame], v1);
    } else if !p.lost && !p.known {
      Without(C, H, p.gone, v1);
    }
  }

  lemma SameKeys(C: Chains, H: Arrivals, v1: bool)
    requires Remembers(C, H, v1)
    ensures C.Keys == H.Keys && forall c :: c in H ==> H[c] != [] && C[c] == ChainOf(H[c], v1)
  {
  }

  lemma Without(C: Chains, H: Arrivals, gone: set<nat>, v1: bool)
    requires Remembers(C, H, v1)
    ensures Remembers(C - gone, H - gone, v1)
  {
    hide ChainOf;
  }

  lemma Put(C: Chains, H: Arrivals, c: nat, fs: seq<Frame>, v1: bool)
    requires Remembers(C, H, v1) && fs != []
    ensures Remembers(C[c := ChainOf(fs, v1)], H[c := fs], v1)
  {
    hide ChainOf;
  }

  lemma NextArrived(fs: seq<Frame>, f: Frame, v1: bool)
    requires fs != []
    ensures ChainOf(fs + [f], v1) == Enqueue(ChainOf(fs, v1), f, v1)
  {
    assert (fs + [f])[..|fs|] == fs;
  }

  lemma OneArrived(f: Frame, v1: bool)
    ensures ChainOf([f], v1) == Seed(f)
  {
  }

  lemma {:induction false} BatchRemembers(b: Batch, H: Arrivals)
    requires Remembers(b.chains, H, b.v1)
    ensures Remembers(Chained(b), ArriveAll(H, b.presents), b.v1)
    decreases |b.presents|
  {
    if b.presents != [] {
      hide Remembers, Step, Arrive;
      var n := |b.presents| - 1;
      BatchRemembers(Upto(b, n), H);
      StepRemembers(Chained(Upto(b, n)), ArriveAll(H, b.presents[..n]), b.presents[n], b.v1);
    }
  }

  lemma ActionRemembers(s: State, a: Action)
    requires Enabled(s, a) && Remembers(s.chains, Arrived(s.past), s.v1)
    ensures Remembers(Apply(s, a).chains, Arrived(Apply(s, a).past), s.v1) && Apply(s, a).v1 == s.v1
  {
    hide Remembers, Chained, Consumed, ArriveAll;
    if a.Handle? && a.presents != [] {
      var b := BatchOf(s, a.presents);
      BatchRemembers(b, Arrived(s.past));
      var past := Apply(s, a).past;
      assert past[..|past| - 1] == s.past;
    }
  }

  lemma {:induction false} RunRemembers(s: State, run: seq<Action>)
    requires Legal(s, run) && Remembers(s.chains, Arrived(s.past), s.v1)
    ensures Remembers(Exec(s, run).chains, Arrived(Exec(s, run).past), s.v1)
    decreases |run|
  {
    if run != [] {
      ActionRemembers(s, run[0]);
      hide Remembers, Apply;
      RunRemembers(Apply(s, run[0]), run[1..]);
    }
  }

  /** A present whose chain is known consults the toggles as of the start of the last frame of the chain that is done. */
  ghost predicate ConsultsAsOf(l: Lookup, H: Arrivals, p: Present, v1: bool) {
    if p.lost || (p.known && (!p.target || p.frame.chain !in H)) then l == Ignored
    else if !p.known then l == Unknown(p.frame.start)
    else exists k: nat :: DoneUpTo(H[p.frame.chain], v1, k) && l == Handled(H[p.frame.chain][k].start)
  }

  lemma LookAsOf(C: Chains, H: Arrivals, p: Present, v1: bool)
    requires Remembers(C, H, v1)
    ensures ConsultsAsOf(Look(C, p), H, p, v1)
  {
    hide DoneUpTo;
    if !p.lost && p.known && p.target && p.frame.chain in C {
      var k := ChainLast(H[p.frame.chain], v1);
    }
  }

  /** In every run the time that a present of the next batch consults depends on the arrivals on its chain alone. */
  lemma LookExactly(v1: bool, run: seq<Action>, presents: seq<Present>, j: nat)
    requires Legal(Initial(v1), run) && j < |presents|
    ensures var s := Exec(Initial(v1), run);
            ConsultsAsOf(LookAt(BatchOf(s, presents), j), ArriveAll(Arrived(s.past), presents[..j]), presents[j], v1)
  {
    hide Remembers, Chained;
    FirstRemembers(v1);
    RunRemembers(Initial(v1), run);
    ExecV1(Initial(v1), run);
    var s := Exec(Initial(v1), run);
    BatchRemembers(Upto(BatchOf(s, presents), j), Arrived(s.past));
    LookAsOf(Chained(Upto(BatchOf(s, presents), j)), ArriveAll(Arrived(s.past), presents[..j]), presents[j], v1);
  }

  lemma FirstRemembers(v1: bool)
    ensures Remembers(Initial(v1).chains, Arrived(Initial(v1).past), v1)
  {
  }
}
