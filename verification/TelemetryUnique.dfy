/**
 Given the order in which the providers list their devices, whether the build depends on the order in which the table of
 logical devices is visited.
 */
module TelemetryUnique {
  import opened Wrappers
  import opened TelemetrySpec
  import opened TelemetryProofs

  /** The first number from `next` on that is neither in use nor that of the system device. */
  ghost function FreeNumber(D: Devices, next: nat): (id: nat)
    ensures next <= id && id != SYSTEM && id !in D
    decreases |Above(D, next)|
  {
    var k := if next == SYSTEM then next + 1 else next;
    if k !in D then k
    else
      Fewer(Above(D, next), Above(D, k + 1), k);
      FreeNumber(D, k + 1)
  }

  /** How the number of a new logical device is drawn. */
  ghost predicate Drawn(D: Devices, next: nat, id: nat, next': nat) {
    if id in D || id == SYSTEM then next' == next else id == FreeNumber(D, next) && next' == id + 1
  }

  /** One provider device is correlated; any matching logical device may be taken. */
  ghost predicate Joins(D: Devices, next: nat, D': Devices, next': nat, catalog: Catalog, pd: ProviderDevice) {
    && AllReported(D, catalog) && pd in catalog
    && exists id :: DeviceFor(D, catalog, catalog[pd].fingerprint, id) && D' == Attach(D, id, pd) && Drawn(D, next, id, next')
  }

  /** A result that correlating the provider devices in this order may have. */
  ghost predicate Builds(catalog: Catalog, pds: seq<ProviderDevice>, D: Devices, next: nat) {
    if pds == [] then D == map[] && next == 1
    else
      var n := |pds| - 1;
      exists D0, next0 :: Builds(catalog, pds[..n], D0, next0) && Joins(D0, next0, D, next, catalog, pds[n])
  }

  lemma BuildsNothing(catalog: Catalog)
    ensures Builds(catalog, [], map[], 1)
  {
  }

  lemma BuildsOn(catalog: Catalog, pds: seq<ProviderDevice>, pd: ProviderDevice, D: Devices, next: nat, D': Devices, next': nat)
    requires Builds(catalog, pds, D, next) && Joins(D, next, D', next', catalog, pd)
    ensures Builds(catalog, pds + [pd], D', next')
  {
    hide Joins;
    var all := pds + [pd];
    assert all[..|pds|] == pds && all[|pds|] == pd;
  }

  ghost predicate Transitive(catalog: Catalog) {
    forall p, q, r :: p in catalog && q in catalog && r in catalog
      && Matches(catalog[p].fingerprint, catalog[q].fingerprint) && Matches(catalog[q].fingerprint, catalog[r].fingerprint)
      ==> Matches(catalog[p].fingerprint, catalog[r].fingerprint)
  }

  lemma MatchesSymmetric(a: Fingerprint, b: Fingerprint)
    ensures Matches(a, b) == Matches(b, a)
  {
  }

  /** Provider devices of different logical devices do not match. */
  ghost predicate Separate(D: Devices, catalog: Catalog) {
    && AllReported(D, catalog)
    && forall k, l, i, j :: k in D && l in D && k != l && 0 <= i < |D[k].providers| && 0 <= j < |D[l].providers| ==>
         !Matches(catalog[D[k].providers[i]].fingerprint, catalog[D[l].providers[j]].fingerprint)
  }

  /** No provider device matches two logical devices. */
  lemma OneMatch(D: Devices, catalog: Catalog, pd: ProviderDevice, k: nat, l: nat)
    requires Transitive(catalog) && Separate(D, catalog) && pd in catalog && k in D && l in D
    requires MatchesDevice(D[k], catalog, catalog[pd].fingerprint) && MatchesDevice(D[l], catalog, catalog[pd].fingerprint)
    ensures k == l
  {
    var f := catalog[pd].fingerprint;
    var i :| 0 <= i < |D[k].providers| && Matches(catalog[D[k].providers[i]].fingerprint, f);
    var j :| 0 <= j < |D[l].providers| && Matches(catalog[D[l].providers[j]].fingerprint, f);
    MatchesSymmetric(catalog[D[l].providers[j]].fingerprint, f);
    assert Matches(catalog[D[k].providers[i]].fingerprint, catalog[D[l].providers[j]].fingerprint);
  }

  lemma JoinSeparate(D: Devices, next: nat, catalog: Catalog, pd: ProviderDevice, D': Devices, next': nat)
    requires Transitive(catalog) && Separate(D, catalog) && Joins(D, next, D', next', catalog, pd)
    ensures Separate(D', catalog)
  {
    var f := catalog[pd].fingerprint;
    var id :| DeviceFor(D, catalog, f, id) && D' == Attach(D, id, pd) && Drawn(D, next, id, next');
    forall l, j | l in D && l != id && 0 <= j < |D[l].providers|
      ensures !Matches(catalog[D[l].providers[j]].fingerprint, f) && !Matches(f, catalog[D[l].providers[j]].fingerprint)
    {
      MatchesSymmetric(f, catalog[D[l].providers[j]].fingerprint);
      if Matches(catalog[D[l].providers[j]].fingerprint, f) {
        assert MatchesDevice(D[l], catalog, f);
        if id in D { OneMatch(D, catalog, pd, id, l); }
      }
    }
    hide Matches, Transitive, MatchesDevice;
    JoinedPlaces(D, catalog, pd, id);
  }

  lemma JoinedPlaces(D: Devices, catalog: Catalog, pd: ProviderDevice, id: nat)
    requires Separate(D, catalog) && pd in catalog
    requires forall l, j :: l in D && l != id && 0 <= j < |D[l].providers| ==>
      !Matches(catalog[D[l].providers[j]].fingerprint, catalog[pd].fingerprint)
      && !Matches(catalog[pd].fingerprint, catalog[D[l].providers[j]].fingerprint)
    ensures Separate(Attach(D, id, pd), catalog)
  {
    hide Matches;
    var D' := Attach(D, id, pd);
    var n := |OrNew(D, id).providers|;
    forall k, i | k in D' && 0 <= i < |D'[k].providers|
      ensures if k == id && i == n then D'[k].providers[i] == pd
              else k in D && i < |D[k].providers| && D'[k].providers[i] == D[k].providers[i]
    {
    }
    hide Attach;
  }

  lemma {:induction false} BuildSeparate(catalog: Catalog, pds: seq<ProviderDevice>, D: Devices, next: nat)
    requires Transitive(catalog) && Builds(catalog, pds, D, next)
    ensures Separate(D, catalog)
    decreases |pds|
  {
    if pds != [] {
      hide Transitive, Separate, Joins;
      var n := |pds| - 1;
      var D0, next0 :| Builds(catalog, pds[..n], D0, next0) && Joins(D0, next0, D, next, catalog, pds[n]);
      BuildSeparate(catalog, pds[..n], D0, next0);
      JoinSeparate(D0, next0, catalog, pds[n], D, next);
    }
  }

  // ---------------------------------------------------------------------------------------------
  // When there is only one result

  ghost predicate MatchesTwo(D: Devices, catalog: Catalog, pd: ProviderDevice, k: nat, l: nat) {
    && AllReported(D, catalog) && pd in catalog && k in D && l in D && k != l
    && MatchesDevice(D[k], catalog, catalog[pd].fingerprint) && MatchesDevice(D[l], catalog, catalog[pd].fingerprint)
  }

  /** No provider device matches two logical devices when its turn comes. */
  ghost predicate Unambiguous(catalog: Catalog, pds: seq<ProviderDevice>) {
    forall i, D, next, k, l :: 0 <= i < |pds| && Builds(catalog, pds[..i], D, next) ==> !MatchesTwo(D, catalog, pds[i], k, l)
  }

  ghost predicate OneResult(catalog: Catalog, pds: seq<ProviderDevice>) {
    forall A, a, B, b :: Builds(catalog, pds, A, a) && Builds(catalog, pds, B, b) ==> A == B && a == b
  }

  lemma UnambiguousPrefix(catalog: Catalog, pds: seq<ProviderDevice>)
    requires pds != [] && Unambiguous(catalog, pds)
    ensures Unambiguous(catalog, pds[..|pds| - 1])
  {
    hide Builds, MatchesTwo;
    var front := pds[..|pds| - 1];
    forall i, D, next, k, l | 0 <= i < |front| && Builds(catalog, front[..i], D, next)
      ensures !MatchesTwo(D, catalog, front[i], k, l)
    {
      assert front[..i] == pds[..i];
    }
  }

  lemma JoinOnce(D: Devices, next: nat, catalog: Catalog, pd: ProviderDevice, A: Devices, a: nat, B: Devices, b: nat)
    requires forall k, l :: !MatchesTwo(D, catalog, pd, k, l)
    requires Joins(D, next, A, a, catalog, pd) && Joins(D, next, B, b, catalog, pd)
    ensures A == B && a == b
  {
    hide MatchesDevice;
    var f := catalog[pd].fingerprint;
    var i :| DeviceFor(D, catalog, f, i) && A == Attach(D, i, pd) && Drawn(D, next, i, a);
    var j :| DeviceFor(D, catalog, f, j) && B == Attach(D, j, pd) && Drawn(D, next, j, b);
    assert !MatchesTwo(D, catalog, pd, i, j);
  }

  lemma {:induction false} UnambiguousOnce(catalog: Catalog, pds: seq<ProviderDevice>, A: Devices, a: nat, B: Devices, b: nat)
    requires Unambiguous(catalog, pds) && Builds(catalog, pds, A, a) && Builds(catalog, pds, B, b)
    ensures A == B && a == b
    decreases |pds|
  {
    if pds != [] {
      var n := |pds| - 1;
      var A0, a0 :| Builds(catalog, pds[..n], A0, a0) && Joins(A0, a0, A, a, catalog, pds[n]);
      var B0, b0 :| Builds(catalog, pds[..n], B0, b0) && Joins(B0, b0, B, b, catalog, pds[n]);
      hide Joins, MatchesTwo;
      UnambiguousPrefix(catalog, pds);
      UnambiguousOnce(catalog, pds[..n], A0, a0, B0, b0);
      JoinOnce(A0, a0, catalog, pds[n], A, a, B, b);
    }
  }

  ghost predicate Distinct(pds: seq<ProviderDevice>) {
    forall i, j :: 0 <= i < j < |pds| ==> pds[i] != pds[j]
  }

  /** Every provider device so far is reported and belongs to one logical device at most. */
  ghost predicate PlacedOnce(D: Devices, catalog: Catalog, pds: seq<ProviderDevice>) {
    && AllReported(D, catalog)
    && (forall k, pd :: k in D && HasProvider(D[k], pd) ==> pd in pds)
    && (forall k, l, pd :: k in D && l in D && HasProvider(D[k], pd) && HasProvider(D[l], pd) ==> k == l)
  }

  lemma AttachedProviders(D: Devices, id: nat, pd: ProviderDevice, k: nat, p: ProviderDevice)
    requires k in Attach(D, id, pd)
    ensures HasProvider(Attach(D, id, pd)[k], p) <==> (k in D && HasProvider(D[k], p)) || (k == id && p == pd)
  {
    var d, d' := OrNew(D, k), Attach(D, id, pd)[k];
    if k == id {
      assert d'.providers[|d.providers|] == pd;
      if i :| 0 <= i < |d.providers| && d.providers[i] == p { assert d'.providers[i] == p; }
    }
  }

  lemma {:induction false} BuildPlaces(catalog: Catalog, pds: seq<ProviderDevice>, D: Devices, next: nat)
    requires Builds(catalog, pds, D, next) && Distinct(pds)
    ensures PlacedOnce(D, catalog, pds)
    decreases |pds|
  {
    if pds != [] {
      var n := |pds| - 1;
      var D0, next0 :| Builds(catalog, pds[..n], D0, next0) && Joins(D0, next0, D, next, catalog, pds[n]);
      BuildPlaces(catalog, pds[..n], D0, next0);
      hide Builds, DeviceFor;
      var id :| DeviceFor(D0, catalog, catalog[pds[n]].fingerprint, id) && D == Attach(D0, id, pds[n]) && Drawn(D0, next0, id, next);
      JoinPlaces(D0, catalog, pds, id);
    }
  }

  lemma JoinPlaces(D: Devices, catalog: Catalog, pds: seq<ProviderDevice>, id: nat)
    requires pds != [] && Distinct(pds) && PlacedOnce(D, catalog, pds[..|pds| - 1]) && pds[|pds| - 1] in catalog
    ensures PlacedOnce(Attach(D, id, pds[|pds| - 1]), catalog, pds)
  {
    hide HasProvider;
    var n := |pds| - 1;
    var D' := Attach(D, id, pds[n]);
    forall k, p | k in D'
      ensures HasProvider(D'[k], p) <==> (k in D && HasProvider(D[k], p)) || (k == id && p == pds[n])
    {
      AttachedProviders(D, id, pds[n], k, p);
    }
    AttachReported(D, catalog, id, pds[n]);
    assert pds[n] !in pds[..n] && forall p :: p in pds[..n] ==> p in pds;
  }

  lemma AttachReported(D: Devices, catalog: Catalog, id: nat, pd: ProviderDevice)
    requires AllReported(D, catalog) && pd in catalog
    ensures AllReported(Attach(D, id, pd), catalog)
  {
  }

  /** No provider device leaves its logical device. */
  ghost predicate Grown(D: Devices, E: Devices) {
    forall k, pd :: k in D && HasProvider(D[k], pd) ==> k in E && HasProvider(E[k], pd)
  }

  lemma JoinExists(D: Devices, next: nat, catalog: Catalog, pd: ProviderDevice) returns (D': Devices, next': nat)
    requires AllReported(D, catalog) && pd in catalog
    ensures Joins(D, next, D', next', catalog, pd) && Grown(D, D')
  {
    hide MatchesDevice;
    var f := catalog[pd].fingerprint;
    var id: nat;
    if k :| k in D && MatchesDevice(D[k], catalog, f) {
      id := k;
    } else {
      id := if f.deviceType == System && SYSTEM !in D then SYSTEM else FreeNumber(D, next);
    }
    D' := Attach(D, id, pd);
    next' := if id in D || id == SYSTEM then next else id + 1;
    assert DeviceFor(D, catalog, f, id) && Drawn(D, next, id, next');
    forall k, p | k in D && HasProvider(D[k], p)
      ensures HasProvider(D'[k], p)
    {
      AttachedProviders(D, id, pd, k, p);
    }
  }

  /** Every beginning of a build can be completed. */
  lemma {:induction false} BuildOn(catalog: Catalog, pds: seq<ProviderDevice>, i: nat, D: Devices, next: nat) returns (E: Devices, last: nat)
    requires i <= |pds| && Distinct(pds) && (forall pd :: pd in pds ==> pd in catalog) && Builds(catalog, pds[..i], D, next)
    ensures Builds(catalog, pds, E, last) && Grown(D, E)
    decreases |pds| - i
  {
    hide Joins, Builds;
    if i == |pds| {
      assert pds[..i] == pds;
      E, last := D, next;
    } else {
      BuildPlaces(catalog, pds[..i], D, next);
      var D', next' := JoinExists(D, next, catalog, pds[i]);
      BuildsOn(catalog, pds[..i], pds[i], D, next, D', next');
      assert pds[..i] + [pds[i]] == pds[..i + 1];
      E, last := BuildOn(catalog, pds, i + 1, D', next');
    }
  }

  /** A provider device that matches two logical devices may join either, and stays where it is. */
  lemma TwoResults(catalog: Catalog, pds: seq<ProviderDevice>, i: nat, D: Devices, next: nat, k: nat, l: nat)
    requires Distinct(pds) && forall pd :: pd in pds ==> pd in catalog
    requires i < |pds| && Builds(catalog, pds[..i], D, next) && MatchesTwo(D, catalog, pds[i], k, l)
    ensures !OneResult(catalog, pds)
  {
    hide MatchesDevice, Builds;
    var pd := pds[i];
    var A1, B1 := Attach(D, k, pd), Attach(D, l, pd);
    assert DeviceFor(D, catalog, catalog[pd].fingerprint, k) && Drawn(D, next, k, next);
    assert DeviceFor(D, catalog, catalog[pd].fingerprint, l) && Drawn(D, next, l, next);
    BuildsOn(catalog, pds[..i], pd, D, next, A1, next);
    BuildsOn(catalog, pds[..i], pd, D, next, B1, next);
    assert pds[..i] + [pd] == pds[..i + 1];
    AttachedProviders(D, k, pd, k, pd);
    AttachedProviders(D, l, pd, l, pd);
    var A, a := BuildOn(catalog, pds, i + 1, A1, next);
    var B, b := BuildOn(catalog, pds, i + 1, B1, next);
    BuildPlaces(catalog, pds, A, a);
    hide HasProvider;
    assert A != B;
  }

  /** From a given order there is one result exactly if no provider device matches two logical devices at its turn. */
  lemma OneResultExactly(catalog: Catalog, pds: seq<ProviderDevice>)
    requires Distinct(pds) && forall pd :: pd in pds ==> pd in catalog
    ensures OneResult(catalog, pds) <==> Unambiguous(catalog, pds)
  {
    hide Builds, MatchesTwo;
    if Unambiguous(catalog, pds) {
      forall A, a, B, b | Builds(catalog, pds, A, a) && Builds(catalog, pds, B, b)
        ensures A == B && a == b
      {
        UnambiguousOnce(catalog, pds, A, a, B, b);
      }
    } else {
      var i, D, next, k, l :| 0 <= i < |pds| && Builds(catalog, pds[..i], D, next) && MatchesTwo(D, catalog, pds[i], k, l);
      TwoResults(catalog, pds, i, D, next, k, l);
    }
  }

  /** Transitive matching is enough, whatever the order. */
  lemma TransitiveUnambiguous(catalog: Catalog, pds: seq<ProviderDevice>)
    requires Transitive(catalog)
    ensures Unambiguous(catalog, pds)
  {
    hide Transitive, Separate, Builds, MatchesDevice;
    forall i, D, next, k, l | 0 <= i < |pds| && Builds(catalog, pds[..i], D, next)
      ensures !MatchesTwo(D, catalog, pds[i], k, l)
    {
      BuildSeparate(catalog, pds[..i], D, next);
      if MatchesTwo(D, catalog, pds[i], k, l) { OneMatch(D, catalog, pds[i], k, l); }
    }
  }

  /** The provider devices in the order in which they are correlated. */
  ghost function Order(listed: seq<seq<nat>>, catalog: Catalog): seq<ProviderDevice> {
    if listed == [] then []
    else Order(listed[..|listed| - 1], catalog) + OrderOf(|listed| - 1, listed[|listed| - 1], catalog)
  }

  ghost function OrderOf(p: nat, listed: seq<nat>, catalog: Catalog): seq<ProviderDevice> {
    if listed == [] || ProviderDevice(p, listed[0]) !in catalog then []
    else [ProviderDevice(p, listed[0])] + OrderOf(p, listed[1..], catalog)
  }

  /** The outcome of a build: D are the logical devices before they are renumbered, C before they are routed. */
  ghost predicate Outcome(catalog: Catalog, listed: seq<seq<nat>>, C: Devices, D: Devices, ranks: seq<Rank>, R: Devices) {
    && (exists next :: Builds(catalog, Order(listed, catalog), C, next))
    && SameDevices(C, D) && AllRouted(D, catalog) && AllReported(D, catalog)
    && Ranked(D, catalog, ranks) && Sorted(ByRank(AllHavePower(ranks)), ranks) && R == Renumbered(D, ranks)
  }

  lemma SameRoutes(C: Devices, D: Devices, E: Devices, catalog: Catalog)
    requires SameDevices(C, D) && SameDevices(C, E) && AllRouted(D, catalog) && AllRouted(E, catalog)
    ensures D == E
  {
    hide BestRoute;
    forall id | id in C
      ensures D[id] == E[id]
    {
      RoutesDetermined(D[id], E[id], catalog);
    }
  }

  lemma RoutesDetermined(d: LogicalDevice, e: LogicalDevice, catalog: Catalog)
    requires d.id == e.id && d.providers == e.providers && FullyRouted(d, catalog) && FullyRouted(e, catalog)
    ensures d == e
  {
    forall m: nat
      ensures m in d.routes <==> m in e.routes
      ensures m in d.routes ==> d.routes[m] == e.routes[m]
    {
      BestRouteUnique(d, e, catalog, m);
    }
    assert d.routes == e.routes;
  }

  /** Then two builds from the same lists give the same logical devices, routes and numbers. */
  lemma OutcomeUnique(catalog: Catalog, listed: seq<seq<nat>>, C: Devices, D: Devices, r: seq<Rank>, R: Devices,
                      C': Devices, D': Devices, r': seq<Rank>, R': Devices)
    requires Unambiguous(catalog, Order(listed, catalog)) && Outcome(catalog, listed, C, D, r, R) && Outcome(catalog, listed, C', D', r', R')
    ensures R == R'
  {
    hide Unambiguous, Builds, SameDevices, AllRouted, AllReported, Ranked, Sorted, Order, Renumbered;
    var pds := Order(listed, catalog);
    var a :| Builds(catalog, pds, C, a);
    var b :| Builds(catalog, pds, C', b);
    UnambiguousOnce(catalog, pds, C, a, C', b);
    SameRoutes(C, D, D', catalog);
    SamePowers(D, catalog, r, r');
    OrderUnique(D, catalog, r, r', AllHavePower(r));
  }

  lemma SamePowers(D: Devices, catalog: Catalog, a: seq<Rank>, b: seq<Rank>)
    requires AllReported(D, catalog) && Ranked(D, catalog, a) && Ranked(D, catalog, b)
    ensures AllHavePower(a) == AllHavePower(b)
  {
    RankedSame(D, catalog, a, b);
    SamePower(a, b);
  }

  // ---------------------------------------------------------------------------------------------
  // Examples

  /** No capabilities, no integrated adapter. */
  function Plain(name: string, bus: Option<nat>): Report {
    Report(Fingerprint(GraphicsAdapter, UnknownVendor, name, false, None, None, bus), map[], None, None)
  }

  ghost predicate AllPlain(catalog: Catalog) {
    forall pd :: pd in catalog ==> catalog[pd].capabilities == map[] && !catalog[pd].fingerprint.integrated
  }

  function Two(p: seq<ProviderDevice>, q: seq<ProviderDevice>): Devices {
    map[1 := LogicalDevice(1, p, map[]), 2 := LogicalDevice(2, q, map[])]
  }

  /** Two plain adapters keep their numbers. */
  lemma PlainOutcome(catalog: Catalog, listed: seq<seq<nat>>, p: seq<ProviderDevice>, q: seq<ProviderDevice>, next: nat)
    requires AllPlain(catalog) && p != [] && q != [] && AllReported(Two(p, q), catalog)
    requires Builds(catalog, Order(listed, catalog), Two(p, q), next)
    ensures exists ranks :: Outcome(catalog, listed, Two(p, q), Two(p, q), ranks, Two(p, q))
  {
    hide Builds, Order, Ranked, Renumbered, AllRouted, RankOf;
    var D := Two(p, q);
    var ranks := [Rank(1, false, None, None), Rank(2, false, None, None)];
    PlainRanked(catalog, p, q, ranks);
    PlainRouted(catalog, p, q);
    PlainNumbers(D, ranks);
    assert Sorted(ByRank(AllHavePower(ranks)), ranks);
    assert SameDevices(D, D);
    assert Outcome(catalog, listed, D, D, ranks, D);
  }

  lemma PlainRouted(catalog: Catalog, p: seq<ProviderDevice>, q: seq<ProviderDevice>)
    requires AllPlain(catalog) && AllReported(Two(p, q), catalog)
    ensures AllRouted(Two(p, q), catalog)
  {
  }

  lemma PlainRanked(catalog: Catalog, p: seq<ProviderDevice>, q: seq<ProviderDevice>, ranks: seq<Rank>)
    requires AllPlain(catalog) && p != [] && q != [] && AllReported(Two(p, q), catalog)
    requires ranks == [Rank(1, false, None, None), Rank(2, false, None, None)]
    ensures Ranked(Two(p, q), catalog, ranks)
  {
    var D := Two(p, q);
    ResolveIntegrated(D[1], catalog);
    ResolveIntegrated(D[2], catalog);
    hide Resolve;
    assert ranks[0] == RankOf(1, D[1], catalog) && ranks[1] == RankOf(2, D[2], catalog);
    hide RankOf;
    assert ranks[0].oldId == 1 && ranks[1].oldId == 2;
  }

  lemma PlainNumbers(D: Devices, ranks: seq<Rank>)
    requires D.Keys == {1, 2} && D[1].id == 1 && D[2].id == 2 && |ranks| == 2 && ranks[0].oldId == 1 && ranks[1].oldId == 2
    ensures Renumbered(D, ranks) == D
  {
    assert ranks[..1] == [ranks[0]] && [ranks[0]][..0] == [];
    assert Renumbered(D, []) == map[] && Renumbered(D, [ranks[0]]) == map[1 := D[1]];
  }

  lemma BuildFirst(catalog: Catalog, pd: ProviderDevice)
    requires pd in catalog && catalog[pd].fingerprint.deviceType == GraphicsAdapter
    ensures Builds(catalog, [pd], map[1 := LogicalDevice(1, [pd], map[])], 2)
  {
    BuildsNothing(catalog);
    assert DeviceFor(map[], catalog, catalog[pd].fingerprint, 1) && Drawn(map[], 1, 1, 2);
    assert Attach(map[], 1, pd) == map[1 := LogicalDevice(1, [pd], map[])] by { assert [] + [pd] == [pd]; }
    assert Joins(map[], 1, map[1 := LogicalDevice(1, [pd], map[])], 2, catalog, pd);
    BuildsOn(catalog, [], pd, map[], 1, map[1 := LogicalDevice(1, [pd], map[])], 2);
    assert [] + [pd] == [pd];
  }

  /** Two adapters that do not match. */
  lemma BuildSecond(catalog: Catalog, p: ProviderDevice, q: ProviderDevice)
    requires p in catalog && catalog[p].fingerprint.deviceType == GraphicsAdapter
    requires q in catalog && catalog[q].fingerprint.deviceType == GraphicsAdapter
    requires !Matches(catalog[p].fingerprint, catalog[q].fingerprint)
    ensures Builds(catalog, [p, q], Two([p], [q]), 3)
  {
    hide Builds, Matches;
    BuildFirst(catalog, p);
    var D := map[1 := LogicalDevice(1, [p], map[])];
    assert DeviceFor(D, catalog, catalog[q].fingerprint, 2) && Drawn(D, 2, 2, 3);
    assert Attach(D, 2, q) == Two([p], [q]) by { assert [] + [q] == [q]; }
    assert Joins(D, 2, Two([p], [q]), 3, catalog, q);
    BuildsOn(catalog, [p], q, D, 2, Two([p], [q]), 3);
    assert [p] + [q] == [p, q];
  }

  /**
   A device on bus 1 with name "b" matches a logical device on bus 1 and another one that is called "b".  It joins the
   one or the other, and the builds end differently.
   */
  lemma BridgeExample() returns (catalog: Catalog, listed: seq<seq<nat>>, A: Devices, B: Devices)
    ensures (exists r :: Outcome(catalog, listed, A, A, r, A)) && (exists r :: Outcome(catalog, listed, B, B, r, B))
    ensures 1 in A && 1 in B && |A[1].providers| != |B[1].providers|
  {
    hide Builds, Outcome, Order;
    var p, q, pd := ProviderDevice(0, 0), ProviderDevice(1, 0), ProviderDevice(2, 0);
    catalog := map[p := Plain("", Some(1)), q := Plain("b", None), pd := Plain("b", Some(1))];
    listed := [[0], [0], [0]];
    BuildSecond(catalog, p, q);
    var D := Two([p], [q]);
    BridgeMatches(catalog, p, q, pd);
    A, B := Two([p, pd], [q]), Two([p], [q, pd]);
    assert [p] + [pd] == [p, pd] && [q] + [pd] == [q, pd] && [p, q] + [pd] == [p, q, pd];
    assert Attach(D, 1, pd) == A && Attach(D, 2, pd) == B && Drawn(D, 3, 1, 3) && Drawn(D, 3, 2, 3);
    BuildsOn(catalog, [p, q], pd, D, 3, A, 3);
    BuildsOn(catalog, [p, q], pd, D, 3, B, 3);
    OrderOfThree(catalog, p, q, pd);
    PlainOutcome(catalog, listed, [p, pd], [q], 3);
    PlainOutcome(catalog, listed, [p], [q, pd], 3);
  }

  lemma BridgeMatches(catalog: Catalog, p: ProviderDevice, q: ProviderDevice, pd: ProviderDevice)
    requires p in catalog && q in catalog && pd in catalog
    requires catalog[p] == Plain("", Some(1)) && catalog[q] == Plain("b", None) && catalog[pd] == Plain("b", Some(1))
    ensures DeviceFor(Two([p], [q]), catalog, catalog[pd].fingerprint, 1) && DeviceFor(Two([p], [q]), catalog, catalog[pd].fingerprint, 2)
  {
    var D, f := Two([p], [q]), catalog[pd].fingerprint;
    assert Matches(catalog[D[1].providers[0]].fingerprint, f) && Matches(catalog[D[2].providers[0]].fingerprint, f);
  }

  lemma OrderOfThree(catalog: Catalog, p: ProviderDevice, q: ProviderDevice, r: ProviderDevice)
    requires p == ProviderDevice(0, 0) && q == ProviderDevice(1, 0) && r == ProviderDevice(2, 0)
    requires p in catalog && q in catalog && r in catalog
    ensures Order([[0], [0], [0]], catalog) == [p, q, r]
  {
    assert [[0], [0], [0]][..2] == [[0], [0]] && [[0], [0]][..1] == [[0]] && [[0]][..0] == [];
    assert OrderOf(0, [0], catalog) == [p] && OrderOf(1, [0], catalog) == [q] && OrderOf(2, [0], catalog) == [r] by {
      assert [0][1..] == [];
    }
    assert Order([[0]], catalog) == [p] && Order([[0], [0]], catalog) == [p, q];
  }

  /**
   What a provider lists first gets the smaller number: of two adapters of the same rank that do not match, either may,
   as a provider lists its devices in the order of a hash table of its own.
   */
  lemma ListingExample() returns (catalog: Catalog, A: Devices, B: Devices)
    ensures Transitive(catalog)
    ensures (exists r :: Outcome(catalog, [[0, 1]], A, A, r, A)) && (exists r :: Outcome(catalog, [[1, 0]], B, B, r, B))
    ensures 1 in A && 1 in B && A[1].providers == [ProviderDevice(0, 0)] && B[1].providers == [ProviderDevice(0, 1)]
  {
    hide Builds, Outcome, Order;
    var p, q := ProviderDevice(0, 0), ProviderDevice(0, 1);
    catalog := map[p := Plain("", Some(1)), q := Plain("", Some(2))];
    BuildSecond(catalog, p, q);
    BuildSecond(catalog, q, p);
    A, B := Two([p], [q]), Two([q], [p]);
    OrderOfTwo(catalog, p, q);
    PlainOutcome(catalog, [[0, 1]], [p], [q], 3);
    PlainOutcome(catalog, [[1, 0]], [q], [p], 3);
  }

  lemma OrderOfTwo(catalog: Catalog, p: ProviderDevice, q: ProviderDevice)
    requires p == ProviderDevice(0, 0) && q == ProviderDevice(0, 1) && p in catalog && q in catalog
    ensures Order([[0, 1]], catalog) == [p, q] && Order([[1, 0]], catalog) == [q, p]
  {
    assert [0, 1][1..] == [1] && [1, 0][1..] == [0] && [0][1..] == [] && [1][1..] == [];
    assert OrderOf(0, [1], catalog) == [q] && OrderOf(0, [0], catalog) == [p];
    assert OrderOf(0, [0, 1], catalog) == [p, q] && OrderOf(0, [1, 0], catalog) == [q, p];
    assert [[0, 1]][..0] == [] && [[1, 0]][..0] == [];
  }
}
