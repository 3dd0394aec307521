/** The correlation of devices, the choice of routes and the renumbering of GPUs do what they are for. */
module TelemetryProofs {
  import opened Wrappers
  import opened TelemetrySpec

  // ---------------------------------------------------------------------------------------------
  // Correlation

  ghost predicate AllReported(D: Devices, catalog: Catalog) {
    forall id :: id in D ==> D[id].providers != [] && Reported(D[id], catalog)
  }

  ghost predicate HasProvider(d: LogicalDevice, pd: ProviderDevice) {
    exists i :: 0 <= i < |d.providers| && d.providers[i] == pd
  }

  /** The provider device at position i matches an earlier one. */
  ghost predicate Linked(providers: seq<ProviderDevice>, catalog: Catalog, i: nat)
    requires i < |providers| && forall k :: 0 <= k < |providers| ==> providers[k] in catalog
  {
    exists j :: 0 <= j < i && Matches(catalog[providers[j]].fingerprint, catalog[providers[i]].fingerprint)
  }

  /** Every provider device but the first was correlated with an earlier one. */
  ghost predicate Correlated(d: LogicalDevice, catalog: Catalog)
    requires Reported(d, catalog)
  {
    forall i :: 0 < i < |d.providers| ==> Linked(d.providers, catalog, i)
  }

  /** A provider device is known exactly if it belongs to some logical device. */
  ghost predicate Covered(D: Devices, known: set<ProviderDevice>) {
    && (forall pd :: pd in known ==> exists id :: id in D && HasProvider(D[id], pd))
    && (forall id, i :: id in D && 0 <= i < |D[id].providers| ==> D[id].providers[i] in known)
  }

  /** No provider device belongs to two logical devices, or to one of them twice. */
  ghost predicate Apart(D: Devices) {
    forall id, i, id', j ::
      id in D && id' in D && 0 <= i < |D[id].providers| && 0 <= j < |D[id'].providers| && D[id].providers[i] == D[id'].providers[j]
      ==> id == id' && i == j
  }

  /** What reports itself as the system is the system device. */
  ghost predicate Typed(D: Devices, catalog: Catalog) {
    forall id, i :: id in D && 0 <= i < |D[id].providers| ==>
      D[id].providers[i] in catalog && (catalog[D[id].providers[i]].fingerprint.deviceType == System <==> id == SYSTEM)
  }

  /** What holds once the provider devices in `known` were correlated. */
  ghost predicate Sound(D: Devices, catalog: Catalog, known: set<ProviderDevice>) {
    && AllReported(D, catalog) && (forall id :: id in D ==> D[id].id == id && Correlated(D[id], catalog))
    && Covered(D, known) && Apart(D) && Typed(D, catalog)
  }

  /** A provider device matches some provider device of the logical device. */
  ghost predicate MatchesDevice(d: LogicalDevice, catalog: Catalog, f: Fingerprint)
    requires Reported(d, catalog)
  {
    exists i :: 0 <= i < |d.providers| && Matches(catalog[d.providers[i]].fingerprint, f)
  }

  /** The logical device for a fingerprint: any that matches, or a new one if none does. */
  ghost predicate DeviceFor(D: Devices, catalog: Catalog, f: Fingerprint, id: nat)
    requires AllReported(D, catalog)
  {
    if id in D then MatchesDevice(D[id], catalog, f)
    else (forall k :: k in D ==> !MatchesDevice(D[k], catalog, f)) && (id == SYSTEM <==> f.deviceType == System && SYSTEM !in D)
  }

  function OrNew(D: Devices, id: nat): LogicalDevice {
    if id in D then D[id] else LogicalDevice(id, [], map[])
  }

  function Attach(D: Devices, id: nat, pd: ProviderDevice): Devices {
    var d := OrNew(D, id);
    D[id := d.(providers := d.providers + [pd])]
  }

  lemma SystemMatches(D: Devices, catalog: Catalog, known: set<ProviderDevice>, f: Fingerprint)
    requires Sound(D, catalog, known) && f.deviceType == System && SYSTEM in D
    ensures MatchesDevice(D[SYSTEM], catalog, f)
  {
    assert Matches(catalog[D[SYSTEM].providers[0]].fingerprint, f);
  }

  lemma AttachSound(D: Devices, catalog: Catalog, known: set<ProviderDevice>, pd: ProviderDevice, id: nat)
    requires Sound(D, catalog, known) && pd in catalog && pd !in known && DeviceFor(D, catalog, catalog[pd].fingerprint, id)
    ensures Sound(Attach(D, id, pd), catalog, known + {pd})
  {
    hide Matches, Correlated, Covered, Apart, Typed;
    AttachCovered(D, known, pd, id);
    AttachApart(D, known, pd, id);
    AttachTyped(D, catalog, known, pd, id);
    AttachCorrelated(D, catalog, pd, id);
  }

  lemma AttachCorrelated(D: Devices, catalog: Catalog, pd: ProviderDevice, id: nat)
    requires AllReported(D, catalog) && pd in catalog && DeviceFor(D, catalog, catalog[pd].fingerprint, id)
    requires id in D ==> Correlated(D[id], catalog)
    ensures AllReported(Attach(D, id, pd), catalog) && Correlated(Attach(D, id, pd)[id], catalog)
  {
    hide Matches;
    var d, d' := OrNew(D, id), Attach(D, id, pd)[id];
    var n := |d.providers|;
    assert forall i :: 0 <= i < n ==> d'.providers[i] == d.providers[i];
    assert Reported(d', catalog);
    forall i | 0 < i < n + 1
      ensures Linked(d'.providers, catalog, i)
    {
      assert i < n ==> Linked(d.providers, catalog, i);
      var j :| 0 <= j < i && j < n && Matches(catalog[d.providers[j]].fingerprint, catalog[d'.providers[i]].fingerprint);
      assert d'.providers[j] == d.providers[j];
    }
  }

  lemma AttachCovered(D: Devices, known: set<ProviderDevice>, pd: ProviderDevice, id: nat)
    requires Covered(D, known)
    ensures Covered(Attach(D, id, pd), known + {pd})
  {
    var D' := Attach(D, id, pd);
    assert D'[id].providers[|OrNew(D, id).providers|] == pd;
    forall p | p in known + {pd}
      ensures exists k :: k in D' && HasProvider(D'[k], p)
    {
      if p == pd {
        assert HasProvider(D'[id], p);
      } else {
        var k :| k in D && HasProvider(D[k], p);
        var i :| 0 <= i < |D[k].providers| && D[k].providers[i] == p;
        assert D'[k].providers[i] == p;
        assert HasProvider(D'[k], p);
      }
    }
  }

  lemma AttachApart(D: Devices, known: set<ProviderDevice>, pd: ProviderDevice, id: nat)
    requires Covered(D, known) && Apart(D) && pd !in known
    ensures Apart(Attach(D, id, pd))
  {
    var n := |OrNew(D, id).providers|;
    forall k, i | k in Attach(D, id, pd) && 0 <= i < |Attach(D, id, pd)[k].providers|
      ensures Attach(D, id, pd)[k].providers[i] == pd <==> k == id && i == n
      ensures !(k == id && i == n) ==> k in D && i < |D[k].providers| && Attach(D, id, pd)[k].providers[i] == D[k].providers[i]
    {
    }
    hide Attach, Covered;
  }

  lemma AttachTyped(D: Devices, catalog: Catalog, known: set<ProviderDevice>, pd: ProviderDevice, id: nat)
    requires Sound(D, catalog, known) && pd in catalog && DeviceFor(D, catalog, catalog[pd].fingerprint, id)
    ensures Typed(Attach(D, id, pd), catalog)
  {
    hide Correlated, HasProvider, Apart, Covered;
    var f := catalog[pd].fingerprint;
    if id in D {
      var i :| 0 <= i < |D[id].providers| && Matches(catalog[D[id].providers[i]].fingerprint, f);
    } else if f.deviceType == System && SYSTEM in D {
      SystemMatches(D, catalog, known, f);
    }
  }

  // ---------------------------------------------------------------------------------------------
  // Routes

  type Candidates = map<nat, seq<Candidate>>

  function For(C: Candidates, metric: nat): seq<Candidate> {
    if metric in C then C[metric] else []
  }

  /** The candidates for a metric in the order of the provider devices, not scored yet. */
  function Offerings(d: LogicalDevice, catalog: Catalog, metric: nat): seq<Candidate>
    requires Reported(d, catalog)
    decreases |d.providers|
  {
    if d.providers == [] then []
    else
      var n := |d.providers| - 1;
      var capabilities := catalog[d.providers[n]].capabilities;
      Offerings(d.(providers := d.providers[..n]), catalog, metric)
        + if Offers(capabilities, metric) then [Candidate(n, Clamp(capabilities[metric]), 0)] else []
  }

  ghost predicate Collected(d: LogicalDevice, catalog: Catalog, C: Candidates)
    requires Reported(d, catalog)
  {
    forall m :: (m in C <==> Offerings(d, catalog, m) != []) && For(C, m) == Offerings(d, catalog, m)
  }

  /** A provider device makes a candidate exactly for what it offers. */
  lemma {:induction false} OfferingsExact(d: LogicalDevice, catalog: Catalog, metric: nat, c: Candidate)
    requires Reported(d, catalog)
    ensures c in Offerings(d, catalog, metric) <==>
            c.index < |d.providers| && Offers(catalog[d.providers[c.index]].capabilities, metric)
            && c == Candidate(c.index, Clamp(catalog[d.providers[c.index]].capabilities[metric]), 0)
    decreases |d.providers|
  {
    if d.providers != [] {
      var n := |d.providers| - 1;
      OfferingsExact(d.(providers := d.providers[..n]), catalog, metric, c);
    }
  }

  ghost predicate Mentions(s: seq<Candidate>, i: nat) {
    exists k :: 0 <= k < |s| && s[k].index == i
  }

  /** The metrics for which the provider device at a position is a candidate. */
  ghost function Mentioned(C: Candidates, i: nat): set<nat> {
    set m | m in C && Mentions(C[m], i)
  }

  /** Counting candidates counts what the provider offers. */
  lemma CoverageExact(d: LogicalDevice, catalog: Catalog, C: Candidates, i: nat)
    requires Reported(d, catalog) && Collected(d, catalog, C) && i < |d.providers|
    ensures |Mentioned(C, i)| == Coverage(catalog[d.providers[i]].capabilities)
  {
    var capabilities := catalog[d.providers[i]].capabilities;
    var offered := set m | m in capabilities && Offers(capabilities, m);
    forall m: nat
      ensures m in Mentioned(C, i) <==> m in offered
    {
      if m in Mentioned(C, i) {
        var k :| 0 <= k < |C[m]| && C[m][k].index == i;
        assert For(C, m) == C[m];
        OfferingsExact(d, catalog, m, C[m][k]);
      }
      if m in offered {
        var c := Candidate(i, Clamp(capabilities[m]), 0);
        OfferingsExact(d, catalog, m, c);
        assert m in C && c in For(C, m);
        var k :| 0 <= k < |C[m]| && C[m][k] == c;
        assert Mentions(C[m], i);
      }
    }
    assert Mentioned(C, i) == offered;
  }

  ghost predicate Scored(s: seq<Candidate>, C: Candidates, scored: seq<Candidate>) {
    && |scored| == |s|
    && forall k :: 0 <= k < |s| ==> scored[k] == s[k].(coverage := |Mentioned(C, s[k].index)|)
  }

  /** The first of the sorted candidates is the best route. */
  lemma FirstIsBest(d: LogicalDevice, catalog: Catalog, C: Candidates, metric: nat, scored: seq<Candidate>, sorted: seq<Candidate>)
    requires Reported(d, catalog) && Collected(d, catalog, C) && metric in C
    requires Scored(C[metric], C, scored) && multiset(sorted) == multiset(scored) && Sorted(Better, sorted)
    ensures sorted != [] && BestRoute(d.(routes := d.routes[metric := sorted[0].index]), catalog, metric)
  {
    assert For(C, metric) == C[metric] && |multiset(sorted)| == |sorted| && |multiset(scored)| == |scored|;
    assert sorted[0] in multiset(scored);
    ScoredOffer(d, catalog, C, metric, scored, sorted[0]);
    var best := sorted[0];
    forall i | 0 <= i < |d.providers| && Offers(catalog[d.providers[i]].capabilities, metric)
      ensures i == best.index || Better(best, Offer(d, catalog, metric, i))
    {
      OfferScored(d, catalog, C, metric, scored, i);
      var o := Offer(d, catalog, metric, i);
      assert o in multiset(sorted);
      var k :| 0 <= k < |sorted| && sorted[k] == o;
      assert k == 0 || !Better(o, best);
    }
    hide Better;
  }

  lemma ScoredOffer(d: LogicalDevice, catalog: Catalog, C: Candidates, metric: nat, scored: seq<Candidate>, c: Candidate)
    requires Reported(d, catalog) && Collected(d, catalog, C) && metric in C && Scored(C[metric], C, scored) && c in scored
    ensures c.index < |d.providers| && Offers(catalog[d.providers[c.index]].capabilities, metric)
    ensures c == Offer(d, catalog, metric, c.index)
  {
    var k :| 0 <= k < |scored| && scored[k] == c;
    assert For(C, metric) == C[metric];
    OfferingsExact(d, catalog, metric, C[metric][k]);
    CoverageExact(d, catalog, C, c.index);
  }

  lemma OfferScored(d: LogicalDevice, catalog: Catalog, C: Candidates, metric: nat, scored: seq<Candidate>, i: nat)
    requires Reported(d, catalog) && Collected(d, catalog, C) && metric in C && Scored(C[metric], C, scored)
    requires i < |d.providers| && Offers(catalog[d.providers[i]].capabilities, metric)
    ensures Offer(d, catalog, metric, i) in scored
  {
    var c := Candidate(i, Clamp(catalog[d.providers[i]].capabilities[metric]), 0);
    OfferingsExact(d, catalog, metric, c);
    CoverageExact(d, catalog, C, i);
    assert For(C, metric) == C[metric];
    var k :| 0 <= k < |C[metric]| && C[metric][k] == c;
    assert scored[k] == Offer(d, catalog, metric, i);
  }

  /** The best route is unique: what answers for a metric depends on the provider devices and their order only. */
  lemma BestRouteUnique(d: LogicalDevice, e: LogicalDevice, catalog: Catalog, metric: nat)
    requires d.providers == e.providers && Reported(d, catalog) && Reported(e, catalog)
    requires BestRoute(d, catalog, metric) && BestRoute(e, catalog, metric)
    ensures metric in d.routes <==> metric in e.routes
    ensures metric in d.routes ==> d.routes[metric] == e.routes[metric]
  {
    if metric in d.routes && metric in e.routes && d.routes[metric] != e.routes[metric] {
      assert Offer(e, catalog, metric, d.routes[metric]) == Offer(d, catalog, metric, d.routes[metric]);
      assert Offer(e, catalog, metric, e.routes[metric]) == Offer(d, catalog, metric, e.routes[metric]);
      BetterOrders();
      assert false;
    }
  }

  // Collecting candidates

  function NewOffers(index: nat, capabilities: map<nat, nat>, metric: nat): seq<Candidate> {
    if Offers(capabilities, metric) then [Candidate(index, Clamp(capabilities[metric]), 0)] else []
  }

  ghost predicate Extended(C: Candidates, C': Candidates, index: nat, capabilities: map<nat, nat>) {
    forall m :: For(C', m) == For(C, m) + NewOffers(index, capabilities, m) && (m in C' <==> m in C || Offers(capabilities, m))
  }

  ghost predicate AllCollected(D: Devices, catalog: Catalog, C: map<nat, Candidates>)
  {
    C.Keys == D.Keys && forall id :: id in D ==> Reported(D[id], catalog) && D[id].routes == map[] && Collected(D[id], catalog, C[id])
  }

  lemma NotYet(D: Devices, catalog: Catalog, known: set<ProviderDevice>, pd: ProviderDevice, id: nat)
    requires Sound(D, catalog, known) && pd !in known
    ensures !HasProvider(OrNew(D, id), pd)
    ensures Attach(D[id := OrNew(D, id)], id, pd) == Attach(D, id, pd)
  {
  }

  lemma CollectedAfter(D: Devices, catalog: Catalog, C: map<nat, Candidates>, pd: ProviderDevice, id: nat, candidates: Candidates)
    requires AllCollected(D, catalog, C) && pd in catalog
    requires Extended(if id in C then C[id] else map[], candidates, |OrNew(D, id).providers|, catalog[pd].capabilities)
    ensures AllCollected(Attach(D, id, pd), catalog, C[id := candidates])
  {
    hide Offers, Clamp, Extended, Collected, Reported;
    var d := OrNew(D, id);
    var C0 := if id in C then C[id] else map[];
    assert Reported(d, catalog) && Collected(d, catalog, C0) by { if id !in D { CollectedNone(d, catalog); } }
    CollectedMore(d, catalog, C0, pd, candidates);
    assert Attach(D, id, pd)[id] == d.(providers := d.providers + [pd]);
  }

  lemma CollectedNone(d: LogicalDevice, catalog: Catalog)
    requires d.providers == []
    ensures Reported(d, catalog) && Collected(d, catalog, map[])
  {
  }

  lemma CollectedMore(d: LogicalDevice, catalog: Catalog, C: Candidates, pd: ProviderDevice, C': Candidates)
    requires Reported(d, catalog) && Collected(d, catalog, C) && pd in catalog
    requires Extended(C, C', |d.providers|, catalog[pd].capabilities)
    ensures var d' := d.(providers := d.providers + [pd]); Reported(d', catalog) && Collected(d', catalog, C')
  {
    hide Clamp, Offers;
    var d' := d.(providers := d.providers + [pd]);
    assert d'.providers[..|d.providers|] == d.providers && d'.(providers := d.providers) == d;
    forall m: nat
      ensures Offerings(d', catalog, m) == Offerings(d, catalog, m) + NewOffers(|d.providers|, catalog[pd].capabilities, m)
    {
    }
    hide Offerings;
  }

  /** The devices that a provider identifies before it first fails. */
  ghost function Answered(p: nat, listed: seq<nat>, catalog: Catalog): set<ProviderDevice> {
    if listed == [] || ProviderDevice(p, listed[0]) !in catalog then {}
    else {ProviderDevice(p, listed[0])} + Answered(p, listed[1..], catalog)
  }

  lemma {:induction false} AnsweredUpTo(p: nat, listed: seq<nat>, catalog: Catalog, n: nat)
    requires n <= |listed| && forall k :: 0 <= k < n ==> ProviderDevice(p, listed[k]) in catalog
    requires n < |listed| ==> ProviderDevice(p, listed[n]) !in catalog
    ensures Answered(p, listed, catalog) == set k | 0 <= k < n :: ProviderDevice(p, listed[k])
  {
    if n > 0 {
      AnsweredUpTo(p, listed[1..], catalog, n - 1);
      var all := set k | 0 <= k < n :: ProviderDevice(p, listed[k]);
      var rest := set k | 0 <= k < n - 1 :: ProviderDevice(p, listed[1..][k]);
      forall k | 0 <= k < n
        ensures ProviderDevice(p, listed[k]) in {ProviderDevice(p, listed[0])} + rest
      {
        assert k > 0 ==> listed[1..][k - 1] == listed[k];
      }
      forall k | 0 <= k < n - 1
        ensures ProviderDevice(p, listed[1..][k]) in all
      {
        assert listed[k + 1] == listed[1..][k];
      }
      assert all == {ProviderDevice(p, listed[0])} + rest;
    }
  }

  // Choosing among them

  function At(m: map<nat, nat>, k: nat): nat {
    if k in m then m[k] else 0
  }

  ghost function MentionedIn(C: Candidates, metrics: set<nat>, i: nat): set<nat> {
    set m | m in metrics && m in C && Mentions(C[m], i)
  }

  lemma OneMore(C: Candidates, done: set<nat>, metric: nat, i: nat)
    requires metric !in done && metric in C
    ensures |MentionedIn(C, done + {metric}, i)| == |MentionedIn(C, done, i)| + if Mentions(C[metric], i) then 1 else 0
  {
    var more := if Mentions(C[metric], i) then {metric} else {};
    assert MentionedIn(C, done + {metric}, i) == MentionedIn(C, done, i) + more;
  }

  ghost function Above(D: Devices, n: nat): set<nat> {
    set k | k in D && n <= k
  }

  lemma Fewer(a: set<nat>, b: set<nat>, x: nat)
    requires b <= a && x in a && x !in b
    ensures |b| < |a|
  {
    assert a == b + (a - b) && x in a - b;
  }

  /** Stands for std::unique: of neighbours with the same provider device, the first stays. */
  function RemoveRepeats(s: seq<Candidate>): (r: seq<Candidate>)
    ensures r == [] <==> s == []
    ensures s != [] ==> r[0] == s[0]
    decreases |s|
  {
    if |s| < 2 then s
    else if s[0].index == s[1].index then RemoveRepeats([s[0]] + s[2..])
    else [s[0]] + RemoveRepeats(s[1..])
  }

  lemma SortBest(s: seq<Candidate>)
    ensures Sorted(Better, Sort(Better, s))
  {
    BetterOrders();
    SortSorts(Better, s);
  }

  lemma {:induction false} OfferingsSame(d: LogicalDevice, e: LogicalDevice, catalog: Catalog, metric: nat)
    requires Reported(d, catalog) && e.providers == d.providers
    ensures Offerings(d, catalog, metric) == Offerings(e, catalog, metric)
    decreases |d.providers|
  {
    if d.providers != [] {
      var front := d.providers[..|d.providers| - 1];
      OfferingsSame(d.(providers := front), e.(providers := front), catalog, metric);
    }
  }

  lemma CollectedSame(d: LogicalDevice, catalog: Catalog, C: Candidates)
    requires Reported(d, catalog) && Collected(d, catalog, C)
    ensures Collected(d.(routes := map[]), catalog, C)
  {
    forall m: nat
      ensures Offerings(d.(routes := map[]), catalog, m) == Offerings(d, catalog, m)
    {
      OfferingsSame(d, d.(routes := map[]), catalog, m);
    }
  }

  lemma ChosenRoute(d: LogicalDevice, catalog: Catalog, C: Candidates, routes: map<nat, nat>, m: nat)
    requires Reported(d, catalog) && Collected(d, catalog, C) && routes.Keys == C.Keys
    requires m in routes ==> BestRoute(d.(routes := map[m := routes[m]]), catalog, m)
    ensures BestRoute(d.(routes := routes), catalog, m)
  {
    if m in routes {
      assert Offers(catalog[d.providers[routes[m]]].capabilities, m);
    } else {
      forall i | 0 <= i < |d.providers|
        ensures !Offers(catalog[d.providers[i]].capabilities, m)
      {
        OfferingsExact(d, catalog, m, Candidate(i, if m in catalog[d.providers[i]].capabilities then Clamp(catalog[d.providers[i]].capabilities[m]) else 0, 0));
      }
    }
  }

  // ---------------------------------------------------------------------------------------------
  // Ranks

  lemma Untied(D: Devices, catalog: Catalog, ranks: seq<Rank>, byPower: bool)
    requires AllReported(D, catalog) && Ranked(D, catalog, ranks)
    ensures forall x, y :: x in ranks && y in ranks && x != y ==> ByRank(byPower)(x, y) || ByRank(byPower)(y, x)
  {
    forall x, y | x in ranks && y in ranks && x != y
      ensures RanksBefore(byPower, x, y) || RanksBefore(byPower, y, x)
    {
      var i :| 0 <= i < |ranks| && ranks[i] == x;
      var j :| 0 <= j < |ranks| && ranks[j] == y;
      assert x.oldId != y.oldId;
    }
  }

  lemma RankedSame(D: Devices, catalog: Catalog, a: seq<Rank>, b: seq<Rank>)
    requires AllReported(D, catalog) && Ranked(D, catalog, a) && Ranked(D, catalog, b)
    ensures multiset(a) == multiset(b)
  {
    RankedCount(D, catalog, a);
    RankedCount(D, catalog, b);
    forall x: Rank
      ensures multiset(a)[x] == multiset(b)[x]
    {
    }
  }

  ghost predicate IsRank(D: Devices, catalog: Catalog, x: Rank)
    requires AllReported(D, catalog)
  {
    x.oldId in D && x.oldId != SYSTEM && x == RankOf(x.oldId, D[x.oldId], catalog)
  }

  lemma RankedCount(D: Devices, catalog: Catalog, a: seq<Rank>)
    requires AllReported(D, catalog) && Ranked(D, catalog, a)
    ensures forall x :: multiset(a)[x] == if IsRank(D, catalog, x) then 1 else 0
  {
    forall x: Rank
      ensures multiset(a)[x] == if IsRank(D, catalog, x) then 1 else 0
    {
      RankCount(a, x);
      if IsRank(D, catalog, x) {
        var i :| 0 <= i < |a| && a[i].oldId == x.oldId;
        assert a[i] == x;
      }
    }
  }

  lemma {:induction false} RankCount(a: seq<Rank>, x: Rank)
    requires forall i, j :: 0 <= i < j < |a| ==> a[i].oldId != a[j].oldId
    ensures multiset(a)[x] == if x in a then 1 else 0
  {
    if a != [] {
      var n := |a| - 1;
      RankCount(a[..n], x);
      assert a == a[..n] + [a[n]];
    }
  }

  /** The numbers of the GPUs do not depend on the order in which the hash table is visited. */
  lemma OrderUnique(D: Devices, catalog: Catalog, a: seq<Rank>, b: seq<Rank>, byPower: bool)
    requires AllReported(D, catalog) && Ranked(D, catalog, a) && Ranked(D, catalog, b)
    requires Sorted(ByRank(byPower), a) && Sorted(ByRank(byPower), b)
    ensures a == b
  {
    hide Ranked, Sorted, AllReported, RanksBefore;
    RankedSame(D, catalog, a, b);
    Untied(D, catalog, a, byPower);
    SortedOnce(ByRank(byPower), a, b);
  }

  // ---------------------------------------------------------------------------------------------
  // Renumbering

  ghost predicate Orders(D: Devices, ranks: seq<Rank>) {
    && (forall i :: 0 <= i < |ranks| ==> ranks[i].oldId in D && ranks[i].oldId != SYSTEM)
    && (forall i, j :: 0 <= i < j < |ranks| ==> ranks[i].oldId != ranks[j].oldId)
  }

  /** The numbers are exactly 1 to n and that of the system device; the k-th GPU in order has the number k. */
  lemma {:induction false} RenumberedExact(D: Devices, ranks: seq<Rank>, id: nat)
    requires Orders(D, ranks)
    ensures id in Renumbered(D, ranks) <==> 1 <= id <= |ranks| || (id == SYSTEM && SYSTEM in D)
    ensures id in Renumbered(D, ranks) ==>
            Renumbered(D, ranks)[id] == if id == SYSTEM && SYSTEM in D then D[SYSTEM] else D[ranks[id - 1].oldId].(id := id)
    decreases |ranks|
  {
    if ranks != [] {
      var n := |ranks|;
      RenumberedExact(D, ranks[..n - 1], id);
      if id != n && id in Renumbered(D, ranks) && !(id == SYSTEM && SYSTEM in D) {
        assert ranks[..n - 1][id - 1] == ranks[id - 1];
      }
    }
  }

  ghost predicate Kept(d: LogicalDevice, D: Devices) {
    exists id :: id in D && D[id].providers == d.providers && D[id].routes == d.routes
  }

  /** No device is lost in renumbering, unless a GPU gets the number of the system device. */
  lemma NoneLostExactly(D: Devices, catalog: Catalog, known: set<ProviderDevice>, ranks: seq<Rank>)
    requires Sound(D, catalog, known) && Ranked(D, catalog, ranks)
    ensures (forall id :: id in D ==> Kept(D[id], Renumbered(D, ranks))) <==> |ranks| < SYSTEM || SYSTEM !in D
  {
    hide Sound, Ranked, Kept, Renumbered;
    SoundApart(D, catalog, known);
    RankedOrders(D, catalog, ranks);
    if |ranks| < SYSTEM || SYSTEM !in D {
      forall id | id in D
        ensures Kept(D[id], Renumbered(D, ranks))
      {
        OneKept(D, ranks, id);
      }
    } else {
      OneLost(D, ranks);
    }
  }

  lemma RankedOrders(D: Devices, catalog: Catalog, ranks: seq<Rank>)
    requires AllReported(D, catalog) && Ranked(D, catalog, ranks)
    ensures Orders(D, ranks) && forall id :: id in D && id != SYSTEM ==> exists i :: 0 <= i < |ranks| && ranks[i].oldId == id
  {
    hide RankOf;
  }

  lemma SoundApart(D: Devices, catalog: Catalog, known: set<ProviderDevice>)
    requires Sound(D, catalog, known)
    ensures Apart(D) && AllReported(D, catalog) && forall id :: id in D ==> D[id].providers != []
  {
    hide Correlated, Covered, Typed, Apart;
  }

  lemma OneKept(D: Devices, ranks: seq<Rank>, id: nat)
    requires Orders(D, ranks) && id in D && (|ranks| < SYSTEM || SYSTEM !in D)
    requires id != SYSTEM ==> exists i :: 0 <= i < |ranks| && ranks[i].oldId == id
    ensures Kept(D[id], Renumbered(D, ranks))
  {
    hide Renumbered;
    if id == SYSTEM {
      RenumberedExact(D, ranks, SYSTEM);
    } else {
      var i :| 0 <= i < |ranks| && ranks[i].oldId == id;
      RenumberedExact(D, ranks, i + 1);
      assert Renumbered(D, ranks)[i + 1].providers == D[id].providers;
    }
  }

  /** The GPU that should get the number of the system device is nowhere. */
  lemma OneLost(D: Devices, ranks: seq<Rank>)
    requires Orders(D, ranks) && Apart(D) && (forall id :: id in D ==> D[id].providers != []) && |ranks| >= SYSTEM && SYSTEM in D
    ensures !Kept(D[ranks[SYSTEM - 1].oldId], Renumbered(D, ranks))
  {
    hide Renumbered, Apart;
    var R, lost := Renumbered(D, ranks), ranks[SYSTEM - 1].oldId;
    forall k | k in R
      ensures R[k].providers != D[lost].providers
    {
      RenumberedExact(D, ranks, k);
      OtherProviders(D, if k == SYSTEM then SYSTEM else ranks[k - 1].oldId, lost);
    }
  }

  lemma OtherProviders(D: Devices, a: nat, b: nat)
    requires Apart(D) && a in D && b in D && a != b && D[a].providers != []
    ensures D[a].providers != D[b].providers
  {
    assert D[b].providers == [] || D[b].providers[0] != D[a].providers[0];
  }

  /** Fewer GPUs than the number of the system device: renumbering keeps the correlation. */
  lemma RenumberedSound(D: Devices, catalog: Catalog, known: set<ProviderDevice>, ranks: seq<Rank>)
    requires Sound(D, catalog, known) && Ranked(D, catalog, ranks) && |ranks| < SYSTEM
    ensures Sound(Renumbered(D, ranks), catalog, known)
  {
    hide Renumbered, Covered, Apart, Typed, Correlated, RankOf;
    RenumberedCovered(D, catalog, known, ranks);
    RenumberedApart(D, ranks);
    RenumberedTyped(D, catalog, ranks);
    var R := Renumbered(D, ranks);
    forall id | id in R
      ensures R[id].providers != [] && Reported(R[id], catalog) && R[id].id == id && Correlated(R[id], catalog)
    {
      RenumberedExact(D, ranks, id);
      SameProviders(D[if id == SYSTEM then SYSTEM else ranks[id - 1].oldId], R[id], catalog);
    }
  }

  lemma RenumberedTyped(D: Devices, catalog: Catalog, ranks: seq<Rank>)
    requires Typed(D, catalog) && Orders(D, ranks) && |ranks| < SYSTEM
    ensures Typed(Renumbered(D, ranks), catalog)
  {
    var R := Renumbered(D, ranks);
    forall id, i | id in R && 0 <= i < |R[id].providers|
      ensures R[id].providers[i] in catalog && (catalog[R[id].providers[i]].fingerprint.deviceType == System <==> id == SYSTEM)
    {
      RenumberedExact(D, ranks, id);
    }
  }

  lemma RenumberedApart(D: Devices, ranks: seq<Rank>)
    requires Apart(D) && Orders(D, ranks) && |ranks| < SYSTEM
    ensures Apart(Renumbered(D, ranks))
  {
    hide Renumbered;
    var R := Renumbered(D, ranks);
    forall id | id in R
      ensures (id == SYSTEM && SYSTEM in D && R[id] == D[SYSTEM])
              || (1 <= id <= |ranks| && R[id] == D[ranks[id - 1].oldId].(id := id))
    {
      RenumberedExact(D, ranks, id);
    }
  }

  lemma SameProviders(d: LogicalDevice, e: LogicalDevice, catalog: Catalog)
    requires d.providers == e.providers && Reported(d, catalog) && Correlated(d, catalog)
    ensures Reported(e, catalog) && Correlated(e, catalog)
  {
    hide Linked;
  }

  lemma RenumberedCovered(D: Devices, catalog: Catalog, known: set<ProviderDevice>, ranks: seq<Rank>)
    requires Sound(D, catalog, known) && Ranked(D, catalog, ranks) && |ranks| < SYSTEM
    ensures Covered(Renumbered(D, ranks), known)
  {
    hide Correlated, Apart, Typed, Matches;
    var R := Renumbered(D, ranks);
    NoneLostExactly(D, catalog, known, ranks);
    forall id, i | id in R && 0 <= i < |R[id].providers|
      ensures R[id].providers[i] in known
    {
      RenumberedExact(D, ranks, id);
    }
    forall pd | pd in known
      ensures exists k :: k in R && HasProvider(R[k], pd)
    {
      var id :| id in D && HasProvider(D[id], pd);
      assert Kept(D[id], R);
      var k :| k in R && R[k].providers == D[id].providers && R[k].routes == D[id].routes;
      assert HasProvider(R[k], pd);
    }
  }

  ghost predicate SaysIntegrated(d: LogicalDevice, catalog: Catalog)
    requires Reported(d, catalog)
  {
    exists i :: 0 <= i < |d.providers| && catalog[d.providers[i]].fingerprint.integrated
  }

  /** Every discrete GPU has a smaller number than every integrated one. */
  lemma DiscreteFirst(D: Devices, catalog: Catalog, ranks: seq<Rank>, byPower: bool, i: nat, j: nat)
    requires AllReported(D, catalog) && Ranked(D, catalog, ranks) && Sorted(ByRank(byPower), ranks)
    requires 1 <= i <= |ranks| < SYSTEM && 1 <= j <= |ranks|
    ensures var R := Renumbered(D, ranks);
            && i in R && j in R && Reported(R[i], catalog) && Reported(R[j], catalog)
            && (!SaysIntegrated(R[i], catalog) && SaysIntegrated(R[j], catalog) ==> i < j)
  {
    hide Renumbered, Resolve, RankOf, SaysIntegrated, Ranked, Sorted;
    RankIntegrated(D, catalog, ranks, i);
    RankIntegrated(D, catalog, ranks, j);
    if j < i { SortedIntegrated(ranks, byPower, j - 1, i - 1); }
  }

  lemma SortedIntegrated(ranks: seq<Rank>, byPower: bool, i: nat, j: nat)
    requires Sorted(ByRank(byPower), ranks) && i < j < |ranks|
    ensures ranks[i].integrated ==> ranks[j].integrated
  {
    assert !ByRank(byPower)(ranks[j], ranks[i]);
  }

  lemma RankIntegrated(D: Devices, catalog: Catalog, ranks: seq<Rank>, i: nat)
    requires AllReported(D, catalog) && Ranked(D, catalog, ranks) && 1 <= i <= |ranks| < SYSTEM
    ensures var R := Renumbered(D, ranks);
            i in R && Reported(R[i], catalog) && (SaysIntegrated(R[i], catalog) <==> ranks[i - 1].integrated)
  {
    hide Renumbered, Resolve;
    RenumberedExact(D, ranks, i);
    ResolveIntegrated(D[ranks[i - 1].oldId], catalog);
  }

  // ---------------------------------------------------------------------------------------------
  // The whole build

  ghost predicate AllRouted(D: Devices, catalog: Catalog) {
    forall id :: id in D ==> FullyRouted(D[id], catalog)
  }

  ghost predicate FullyRouted(d: LogicalDevice, catalog: Catalog) {
    Reported(d, catalog) && forall m :: BestRoute(d, catalog, m)
  }

  lemma RoutedFully(d: LogicalDevice, catalog: Catalog)
    requires Reported(d, catalog) && forall m :: BestRoute(d, catalog, m)
    ensures FullyRouted(d, catalog)
  {
  }

  ghost predicate SameDevices(D: Devices, E: Devices) {
    D.Keys == E.Keys && forall id :: id in D ==> E[id].id == D[id].id && E[id].providers == D[id].providers
  }

  lemma SameSound(D: Devices, E: Devices, catalog: Catalog, known: set<ProviderDevice>)
    requires Sound(D, catalog, known) && SameDevices(D, E)
    ensures Sound(E, catalog, known)
  {
    assert Covered(E, known) by {
      forall pd | pd in known
        ensures exists k :: k in E && HasProvider(E[k], pd)
      {
        var k :| k in D && HasProvider(D[k], pd);
        assert HasProvider(E[k], pd);
      }
    }
    hide Correlated, Covered, HasProvider;
    forall id | id in E
      ensures E[id].providers != [] && Reported(E[id], catalog) && Correlated(E[id], catalog)
    {
      SameProviders(D[id], E[id], catalog);
    }
  }

  ghost function AllAnswered(listed: seq<seq<nat>>, catalog: Catalog): set<ProviderDevice> {
    if listed == [] then {}
    else AllAnswered(listed[..|listed| - 1], catalog) + Answered(|listed| - 1, listed[|listed| - 1], catalog)
  }

  lemma {:induction false} AnsweredOwn(p: nat, listed: seq<nat>, catalog: Catalog)
    ensures forall pd :: pd in Answered(p, listed, catalog) ==> pd.provider == p && pd in catalog
  {
    if listed != [] { AnsweredOwn(p, listed[1..], catalog); }
  }

  lemma NothingYet(catalog: Catalog)
    ensures Sound(map[], catalog, {}) && AllCollected(map[], catalog, map[])
  {
  }

  ghost function Without(D: Devices, todo: set<nat>): Devices {
    map id | id in D && id !in todo :: D[id]
  }

  lemma RankedNext(D: Devices, catalog: Catalog, todo: set<nat>, id: nat, ranks: seq<Rank>)
    requires AllReported(D, catalog) && id in todo && id in D && Ranked(Without(D, todo), catalog, ranks)
    ensures var ranks' := if id == SYSTEM then ranks else ranks + [RankOf(id, D[id], catalog)];
            Ranked(Without(D, todo - {id}), catalog, ranks')
  {
    var ranks' := if id == SYSTEM then ranks else ranks + [RankOf(id, D[id], catalog)];
    forall k | k in Without(D, todo - {id}) && k != SYSTEM
      ensures exists i :: 0 <= i < |ranks'| && ranks'[i].oldId == k
    {
      if k == id {
        assert ranks'[|ranks|].oldId == k;
      } else {
        assert k in Without(D, todo);
        var i :| 0 <= i < |ranks| && ranks[i].oldId == k;
        assert ranks'[i] == ranks[i];
      }
    }
    hide RankOf;
  }

  lemma SortedRanks(D: Devices, catalog: Catalog, gpus: seq<Rank>, ranks: seq<Rank>)
    requires AllReported(D, catalog) && Ranked(D, catalog, gpus) && ranks == Sort(ByRank(AllHavePower(gpus)), gpus)
    ensures Ranked(D, catalog, ranks) && Sorted(ByRank(AllHavePower(ranks)), ranks) && Orders(D, ranks)
  {
    hide Sorted, Sort;
    RanksOrder(AllHavePower(gpus));
    SortSorts(ByRank(AllHavePower(gpus)), gpus);
    SamePower(gpus, ranks);
    RankedPermuted(D, catalog, gpus, ranks);
  }

  lemma SamePower(a: seq<Rank>, b: seq<Rank>)
    requires multiset(a) == multiset(b)
    ensures AllHavePower(a) == AllHavePower(b)
  {
    PowerToo(a, b);
    PowerToo(b, a);
  }

  lemma PowerToo(a: seq<Rank>, b: seq<Rank>)
    requires multiset(a) == multiset(b)
    ensures AllHavePower(a) ==> AllHavePower(b)
  {
    assert |multiset(a)| == |a| && |multiset(b)| == |b|;
    forall i | 0 <= i < |b| && AllHavePower(a)
      ensures b[i].powerLimit.Some?
    {
      assert b[i] in multiset(a);
      var j :| 0 <= j < |a| && a[j] == b[i];
    }
  }

  lemma RankedPermuted(D: Devices, catalog: Catalog, a: seq<Rank>, b: seq<Rank>)
    requires AllReported(D, catalog) && Ranked(D, catalog, a) && multiset(a) == multiset(b)
    ensures Ranked(D, catalog, b) && Orders(D, b)
  {
    RankedCount(D, catalog, a);
    forall i | 0 <= i < |b|
      ensures IsRank(D, catalog, b[i])
    {
      assert b[i] in multiset(b);
    }
    forall i, j | 0 <= i < j < |b|
      ensures b[i].oldId != b[j].oldId
    {
      if b[i].oldId == b[j].oldId {
        assert b[i] == b[j];
        TwiceThere(b, i, j);
      }
    }
    forall id | id in D && id != SYSTEM
      ensures exists i :: 0 <= i < |b| && b[i].oldId == id
    {
      var x := RankOf(id, D[id], catalog);
      assert IsRank(D, catalog, x);
      assert x in multiset(b);
      var i :| 0 <= i < |b| && b[i] == x;
    }
  }

  lemma TwiceThere(b: seq<Rank>, i: nat, j: nat)
    requires i < j < |b| && b[i] == b[j]
    ensures multiset(b)[b[i]] >= 2
  {
    assert b == b[..i] + [b[i]] + b[i + 1..j] + [b[j]] + b[j + 1..];
  }

  /** The routes of a device do not change with its number. */
  lemma RenumberedRouted(D: Devices, catalog: Catalog, ranks: seq<Rank>)
    requires AllReported(D, catalog) && AllRouted(D, catalog) && Ranked(D, catalog, ranks) && |ranks| < SYSTEM
    ensures AllRouted(Renumbered(D, ranks), catalog)
  {
    hide Renumbered, FullyRouted, RankOf;
    var R := Renumbered(D, ranks);
    forall id | id in R
      ensures FullyRouted(R[id], catalog)
    {
      RenumberedExact(D, ranks, id);
      var was := if id == SYSTEM then SYSTEM else ranks[id - 1].oldId;
      assert FullyRouted(D[was], catalog);
      RoutesKept(D[was], R[id], catalog);
    }
  }

  lemma RoutesKept(d: LogicalDevice, e: LogicalDevice, catalog: Catalog)
    requires d.providers == e.providers && d.routes == e.routes && FullyRouted(d, catalog)
    ensures FullyRouted(e, catalog)
  {
    forall m: nat
      ensures BestRoute(e, catalog, m)
    {
      RouteKept(d, e, catalog, m);
    }
  }

  lemma RouteKept(d: LogicalDevice, e: LogicalDevice, catalog: Catalog, m: nat)
    requires d.providers == e.providers && d.routes == e.routes && Reported(d, catalog) && BestRoute(d, catalog, m)
    ensures Reported(e, catalog) && BestRoute(e, catalog, m)
  {
    forall i | 0 <= i < |d.providers| && Offers(catalog[d.providers[i]].capabilities, m)
      ensures Offer(e, catalog, m, i) == Offer(d, catalog, m, i)
    {
    }
  }
}
