/**
 The telemetry coordinator: it correlates provider devices into logical devices, chooses a provider for every
 metric, and numbers the GPUs, updating its maps in place.  A set is visited in an arbitrary order, as a hash
 table is.  What the providers answer is given as a catalog.
 */
module Telemetry {
  import opened Wrappers
  import opened TelemetrySpec
  import opened TelemetryProofs
  import opened TelemetryUnique
  import opened TelemetryChoice

  class TelemetryCoordinator {
    const catalog: Catalog
    var logicalDevicesById: Devices
    var nextLogicalDeviceId: nat

    constructor (catalog: Catalog)
      ensures this.catalog == catalog && logicalDevicesById == map[]
    {
      this.catalog := catalog;
      logicalDevicesById := map[];
      nextLogicalDeviceId := 1;
    }

    // -------------------------------------------------------------------------------------------
    // Correlation

    method MatchesSome(d: LogicalDevice, f: Fingerprint) returns (found: bool)
      requires Reported(d, catalog)
      ensures found == MatchesDevice(d, catalog, f)
    {
      for i := 0 to |d.providers|
        invariant forall j :: 0 <= j < i ==> !Matches(catalog[d.providers[j]].fingerprint, f)
      {
        if Matches(catalog[d.providers[i]].fingerprint, f) {
          return true;
        }
      }
      return false;
    }

    method FindLogicalDevice(f: Fingerprint) returns (r: Option<nat>)
      requires AllReported(logicalDevicesById, catalog)
      ensures r.Some? ==> r.value in logicalDevicesById && MatchesDevice(logicalDevicesById[r.value], catalog, f)
      ensures r.None? ==> forall k :: k in logicalDevicesById ==> !MatchesDevice(logicalDevicesById[k], catalog, f)
    {
      hide MatchesDevice;
      var todo := logicalDevicesById.Keys;
      while todo != {}
        invariant todo <= logicalDevicesById.Keys
        invariant forall k :: k in logicalDevicesById && k !in todo ==> !MatchesDevice(logicalDevicesById[k], catalog, f)
      {
        var id :| id in todo;
        var found := MatchesSome(logicalDevicesById[id], f);
        if found {
          return Some(id);
        }
        todo := todo - {id};
      }
      return None;
    }

    /** A number that is not in use; the system device has a number of its own. */
    method NewId(f: Fingerprint) returns (id: nat)
      modifies this`nextLogicalDeviceId
      ensures id !in logicalDevicesById && (id == SYSTEM <==> f.deviceType == System && SYSTEM !in logicalDevicesById)
      ensures Drawn(logicalDevicesById, old(nextLogicalDeviceId), id, nextLogicalDeviceId)
    {
      if f.deviceType == System && SYSTEM !in logicalDevicesById {
        return SYSTEM;
      }
      while true
        invariant FreeNumber(logicalDevicesById, nextLogicalDeviceId) == FreeNumber(logicalDevicesById, old(nextLogicalDeviceId))
        decreases |Above(logicalDevicesById, nextLogicalDeviceId)|
      {
        ghost var above := Above(logicalDevicesById, nextLogicalDeviceId);
        if nextLogicalDeviceId == SYSTEM {
          nextLogicalDeviceId := nextLogicalDeviceId + 1;
        }
        id := nextLogicalDeviceId;
        nextLogicalDeviceId := nextLogicalDeviceId + 1;
        if id !in logicalDevicesById {
          break;
        }
        Fewer(above, Above(logicalDevicesById, nextLogicalDeviceId), id);
      }
    }

    method GetOrCreateLogicalDevice(f: Fingerprint) returns (id: nat)
      requires AllReported(logicalDevicesById, catalog)
      modifies this
      ensures DeviceFor(old(logicalDevicesById), catalog, f, id)
      ensures logicalDevicesById == old(logicalDevicesById)[id := OrNew(old(logicalDevicesById), id)]
      ensures Drawn(old(logicalDevicesById), old(nextLogicalDeviceId), id, nextLogicalDeviceId)
    {
      hide AllReported, MatchesDevice;
      var found := FindLogicalDevice(f);
      if found.Some? {
        return found.value;
      }
      id := NewId(f);
      logicalDevicesById := logicalDevicesById[id := LogicalDevice(id, [], map[])];
    }

    /** The position of the provider device, which is added at the end if it is new. */
    method AddProviderDevice(id: nat, pd: ProviderDevice) returns (index: nat)
      requires id in logicalDevicesById
      modifies this`logicalDevicesById
      ensures if HasProvider(old(logicalDevicesById)[id], pd) then
                && logicalDevicesById == old(logicalDevicesById)
                && index < |logicalDevicesById[id].providers| && logicalDevicesById[id].providers[index] == pd
              else
                && logicalDevicesById == Attach(old(logicalDevicesById), id, pd)
                && index == |old(logicalDevicesById)[id].providers|
    {
      var d := logicalDevicesById[id];
      for i := 0 to |d.providers|
        invariant forall j :: 0 <= j < i ==> d.providers[j] != pd
      {
        if d.providers[i] == pd {
          return i;
        }
      }
      logicalDevicesById := logicalDevicesById[id := d.(providers := d.providers + [pd])];
      return |d.providers|;
    }

    /** A candidate for every metric with a valid entry. */
    method AddCandidates(C: Candidates, index: nat, capabilities: map<nat, nat>) returns (C': Candidates)
      ensures Extended(C, C', index, capabilities)
    {
      C' := C;
      var todo := capabilities.Keys;
      while todo != {}
        invariant todo <= capabilities.Keys
        invariant forall m :: m in todo ==> For(C', m) == For(C, m) && (m in C' <==> m in C)
        invariant forall m :: m !in todo ==> For(C', m) == For(C, m) + NewOffers(index, capabilities, m)
                                             && (m in C' <==> m in C || Offers(capabilities, m))
      {
        var metric :| metric in todo;
        if metric < METRIC_COUNT && capabilities[metric] != 0 {
          var size := if capabilities[metric] < MAX_UINT32 then capabilities[metric] else MAX_UINT32;
          C' := C'[metric := For(C', metric) + [Candidate(index, size, 0)]];
        }
        todo := todo - {metric};
      }
    }

    /** One device that a provider lists. */
    method CorrelateDevice(pd: ProviderDevice, C: map<nat, Candidates>, ghost known: set<ProviderDevice>)
      returns (C': map<nat, Candidates>)
      requires Sound(logicalDevicesById, catalog, known) && pd in catalog && pd !in known
      requires AllCollected(logicalDevicesById, catalog, C)
      modifies this
      ensures Sound(logicalDevicesById, catalog, known + {pd})
      ensures AllCollected(logicalDevicesById, catalog, C')
      ensures Joins(old(logicalDevicesById), old(nextLogicalDeviceId), logicalDevicesById, nextLogicalDeviceId, catalog, pd)
    {
      hide Covered, Apart, Typed, Correlated, MatchesDevice, Collected, Extended;
      ghost var D := logicalDevicesById;
      var report := catalog[pd];
      var id := GetOrCreateLogicalDevice(report.fingerprint);
      AttachSound(D, catalog, known, pd, id);
      NotYet(D, catalog, known, pd, id);
      var index := AddProviderDevice(id, pd);
      assert logicalDevicesById == Attach(D, id, pd);
      var candidates := AddCandidates(if id in C then C[id] else map[], index, report.capabilities);
      C' := C[id := candidates];
      CollectedAfter(D, catalog, C, pd, id, candidates);
    }

    /** All devices of one provider, up to the first that it fails to identify. */
    method CorrelateProvider(p: nat, listed: seq<nat>, C: map<nat, Candidates>, ghost known: set<ProviderDevice>,
                             ghost pds: seq<ProviderDevice>)
      returns (C': map<nat, Candidates>)
      requires Builds(catalog, pds, logicalDevicesById, nextLogicalDeviceId)
      requires Sound(logicalDevicesById, catalog, known) && AllCollected(logicalDevicesById, catalog, C)
      requires (forall i, j :: 0 <= i < j < |listed| ==> listed[i] != listed[j]) && forall pd :: pd in known ==> pd.provider < p
      modifies this
      ensures Sound(logicalDevicesById, catalog, known + Answered(p, listed, catalog))
      ensures Builds(catalog, pds + OrderOf(p, listed, catalog), logicalDevicesById, nextLogicalDeviceId)
      ensures AllCollected(logicalDevicesById, catalog, C')
    {
      hide Sound, AllCollected, Builds, Joins;
      C' := C;
      ghost var now, sofar := known, pds;
      assert pds + [] == pds;
      for i := 0 to |listed|
        invariant now == known + (set k | 0 <= k < i :: ProviderDevice(p, listed[k]))
        invariant forall k :: 0 <= k < i ==> ProviderDevice(p, listed[k]) in catalog
        invariant Sound(logicalDevicesById, catalog, now) && AllCollected(logicalDevicesById, catalog, C')
        invariant Builds(catalog, sofar, logicalDevicesById, nextLogicalDeviceId)
        invariant pds + OrderOf(p, listed, catalog) == sofar + OrderOf(p, listed[i..], catalog)
      {
        assert listed[i..][0] == listed[i] && listed[i..][1..] == listed[i + 1..];
        var pd := ProviderDevice(p, listed[i]);
        if pd !in catalog {
          AnsweredUpTo(p, listed, catalog, i);
          assert sofar + [] == sofar;
          return;
        }
        ghost var D, next := logicalDevicesById, nextLogicalDeviceId;
        C' := CorrelateDevice(pd, C', now);
        now := now + {pd};
        BuildsOn(catalog, sofar, pd, D, next, logicalDevicesById, nextLogicalDeviceId);
        assert sofar + ([pd] + OrderOf(p, listed[i + 1..], catalog)) == sofar + [pd] + OrderOf(p, listed[i + 1..], catalog);
        sofar := sofar + [pd];
      }
      AnsweredUpTo(p, listed, catalog, |listed|);
      assert sofar + [] == sofar;
    }

    // -------------------------------------------------------------------------------------------
    // Routes

    /** For how many metrics each provider device is a candidate. */
    method CountCoverage(C: Candidates) returns (coverage: map<nat, nat>)
      ensures forall i :: At(coverage, i) == |Mentioned(C, i)|
    {
      coverage := map[];
      var todo := C.Keys;
      while todo != {}
        invariant todo <= C.Keys
        invariant forall i :: At(coverage, i) == |MentionedIn(C, C.Keys - todo, i)|
      {
        var metric :| metric in todo;
        ghost var before, done := coverage, C.Keys - todo;
        var counted: set<nat> := {};
        for k := 0 to |C[metric]|
          invariant counted == set j | 0 <= j < k :: C[metric][j].index
          invariant forall i :: At(coverage, i) == At(before, i) + if i in counted then 1 else 0
        {
          var index := C[metric][k].index;
          if index !in counted {
            counted := counted + {index};
            coverage := coverage[index := At(coverage, index) + 1];
          }
        }
        forall i: nat
          ensures At(coverage, i) == |MentionedIn(C, done + {metric}, i)|
        {
          assert i in counted <==> Mentions(C[metric], i);
          OneMore(C, done, metric, i);
        }
        todo := todo - {metric};
        assert C.Keys - todo == done + {metric};
      }
      assert C.Keys - todo == C.Keys;
      forall i: nat
        ensures Mentioned(C, i) == MentionedIn(C, C.Keys, i)
      {
      }
    }

    method Score(s: seq<Candidate>, coverage: map<nat, nat>) returns (scored: seq<Candidate>)
      ensures |scored| == |s| && forall k :: 0 <= k < |s| ==> scored[k] == s[k].(coverage := At(coverage, s[k].index))
    {
      scored := [];
      for k := 0 to |s|
        invariant |scored| == k && forall j :: 0 <= j < k ==> scored[j] == s[j].(coverage := At(coverage, s[j].index))
      {
        scored := scored + [s[k].(coverage := At(coverage, s[k].index))];
      }
    }

    /** The provider that answers for each metric of a logical device. */
    method ChooseRoutes(d: LogicalDevice, C: Candidates) returns (routes: map<nat, nat>)
      requires Reported(d, catalog) && Collected(d, catalog, C)
      ensures forall m :: BestRoute(d.(routes := routes), catalog, m) && WidestRoute(d.(routes := routes), catalog, m)
    {
      hide BestRoute, WidestRoute, Collected, Mentioned;
      routes := map[];
      var coverage := CountCoverage(C);
      var todo := C.Keys;
      while todo != {}
        invariant todo <= C.Keys && routes.Keys == C.Keys - todo
        invariant forall m :: m in routes ==> BestRoute(d.(routes := map[m := routes[m]]), catalog, m)
      {
        var metric :| metric in todo;
        var scored := Score(C[metric], coverage);
        assert Scored(C[metric], C, scored);
        var sorted := Sort(Better, scored);
        SortBest(scored);
        FirstIsBest(d.(routes := map[]), catalog, C, metric, scored, sorted) by { CollectedSame(d, catalog, C); }
        var candidates := RemoveRepeats(sorted);
        routes := routes[metric := candidates[0].index];
        todo := todo - {metric};
      }
      forall m: nat
        ensures BestRoute(d.(routes := routes), catalog, m) && WidestRoute(d.(routes := routes), catalog, m)
      {
        ChosenRoute(d, catalog, C, routes, m);
        BestIsWidest(d.(routes := routes), catalog, m);
      }
    }

    method FinalizeRoutes(C: map<nat, Candidates>, ghost known: set<ProviderDevice>)
      requires Sound(logicalDevicesById, catalog, known) && AllCollected(logicalDevicesById, catalog, C)
      modifies this`logicalDevicesById
      ensures Sound(logicalDevicesById, catalog, known) && AllRouted(logicalDevicesById, catalog)
      ensures SameDevices(old(logicalDevicesById), logicalDevicesById)
    {
      hide Covered, Apart, Typed, Correlated, Collected, BestRoute, WidestRoute, FullyRouted;
      ghost var D := logicalDevicesById;
      var todo := logicalDevicesById.Keys;
      while todo != {}
        invariant todo <= D.Keys && SameDevices(D, logicalDevicesById)
        invariant forall id :: id in D && id in todo ==> logicalDevicesById[id] == D[id]
        invariant forall id :: id in D && id !in todo ==> FullyRouted(logicalDevicesById[id], catalog)
      {
        var id :| id in todo;
        var routes := ChooseRoutes(logicalDevicesById[id], C[id]);
        logicalDevicesById := logicalDevicesById[id := logicalDevicesById[id].(routes := routes)];
        RoutedFully(logicalDevicesById[id], catalog);
        todo := todo - {id};
      }
      SameSound(D, logicalDevicesById, catalog, known);
    }

    // -------------------------------------------------------------------------------------------
    // Numbering

    method ResolveFingerprint(d: LogicalDevice) returns (f: Fingerprint)
      requires d.providers != [] && Reported(d, catalog)
      ensures f == Resolve(d, catalog)
    {
      f := catalog[d.providers[0]].fingerprint;
      assert d.providers[..1] == [d.providers[0]];
      for i := 1 to |d.providers|
        invariant f == Resolve(d.(providers := d.providers[..i]), catalog)
      {
        assert d.providers[..i + 1][..i] == d.providers[..i];
        f := Merge(f, catalog[d.providers[i]].fingerprint);
      }
      assert d.providers[..|d.providers|] == d.providers && d.(providers := d.providers) == d;
    }

    method GpuRanks() returns (ranks: seq<Rank>)
      requires AllReported(logicalDevicesById, catalog)
      ensures Ranked(logicalDevicesById, catalog, ranks)
    {
      ranks := [];
      var todo := logicalDevicesById.Keys;
      while todo != {}
        invariant todo <= logicalDevicesById.Keys
        invariant Ranked(Without(logicalDevicesById, todo), catalog, ranks)
      {
        var id :| id in todo;
        RankedNext(logicalDevicesById, catalog, todo, id, ranks);
        if id != SYSTEM {
          var d := logicalDevicesById[id];
          var f := ResolveFingerprint(d);
          var power, memory := Routed(d, catalog, GPU_SUSTAINED_POWER_LIMIT), Routed(d, catalog, GPU_MEM_SIZE);
          ranks := ranks + [Rank(id, f.integrated,
                                 if power.Some? then power.value.powerLimit else None,
                                 if memory.Some? then memory.value.memorySize else None)];
        }
        todo := todo - {id};
      }
      assert Without(logicalDevicesById, todo) == logicalDevicesById;
    }

    method ReassignGpuLogicalDeviceIdsByMemorySize() returns (ghost ranks: seq<Rank>)
      requires AllReported(logicalDevicesById, catalog)
      modifies this
      ensures Ranked(old(logicalDevicesById), catalog, ranks) && Sorted(ByRank(AllHavePower(ranks)), ranks)
      ensures logicalDevicesById == Renumbered(old(logicalDevicesById), ranks)
      ensures nextLogicalDeviceId == if |ranks| + 1 == SYSTEM then SYSTEM + 1 else |ranks| + 1
    {
      hide AllReported, Sorted, RankOf;
      hide Ranked;
      ghost var D := logicalDevicesById;
      var gpus := GpuRanks();
      var order := Sort(ByRank(AllHavePower(gpus)), gpus);
      SortedRanks(D, catalog, gpus, order);
      ranks := order;
      Renumber(order);
    }

    /** Takes the GPUs out one by one and puts them back under their new numbers. */
    method Renumber(order: seq<Rank>)
      requires Orders(logicalDevicesById, order)
      modifies this
      ensures logicalDevicesById == Renumbered(old(logicalDevicesById), order)
      ensures nextLogicalDeviceId == if |order| + 1 == SYSTEM then SYSTEM + 1 else |order| + 1
    {
      ghost var D := logicalDevicesById;
      var reordered: Devices := map[];
      if SYSTEM in logicalDevicesById {
        reordered := map[SYSTEM := logicalDevicesById[SYSTEM]];
      }
      var next := 1;
      for k := 0 to |order|
        invariant next == k + 1 && reordered == Renumbered(D, order[..k])
        invariant forall j :: k <= j < |order| ==> order[j].oldId in logicalDevicesById
                                                   && logicalDevicesById[order[j].oldId] == D[order[j].oldId]
      {
        var oldId := order[k].oldId;
        var d := logicalDevicesById[oldId];
        logicalDevicesById := logicalDevicesById - {oldId};
        if next !in reordered {
          reordered := reordered[next := d.(id := next)];
        }
        next := next + 1;
        assert order[..k + 1][..k] == order[..k];
      }
      assert order[..|order|] == order;
      logicalDevicesById := reordered;
      nextLogicalDeviceId := if next == SYSTEM then next + 1 else next;
    }

    /**
     Builds everything from what the providers list, in the order of the providers.  D holds the logical devices as
     they were before they were renumbered, and `correlated` as they were before they were routed.
     */
    method BuildLogicalDevicesAndRoutes(listed: seq<seq<nat>>)
      returns (ghost correlated: Devices, ghost D: Devices, ghost ranks: seq<Rank>)
      requires forall p, i, j :: 0 <= p < |listed| && 0 <= i < j < |listed[p]| ==> listed[p][i] != listed[p][j]
      modifies this
      ensures Sound(D, catalog, AllAnswered(listed, catalog)) && AllRouted(D, catalog)
      ensures Ranked(D, catalog, ranks) && Sorted(ByRank(AllHavePower(ranks)), ranks)
      ensures logicalDevicesById == Renumbered(D, ranks)
      ensures Outcome(catalog, listed, correlated, D, ranks, logicalDevicesById)
      ensures |ranks| < SYSTEM ==> Sound(logicalDevicesById, catalog, AllAnswered(listed, catalog)) && AllRouted(logicalDevicesById, catalog)
      ensures AllWidest(D, catalog) && (|ranks| < SYSTEM ==> AllWidest(logicalDevicesById, catalog))
    {
      hide AllWidest, AllCollected, Answered, Sorted, Ranked, AllRouted, Covered, Apart, Typed, Correlated, Builds, SameDevices;
      logicalDevicesById, nextLogicalDeviceId := map[], 1;
      var C: map<nat, Candidates> := map[];
      ghost var known: set<ProviderDevice> := {};
      NothingYet(catalog);
      BuildsNothing(catalog);
      for p := 0 to |listed|
        invariant Sound(logicalDevicesById, catalog, known) && AllCollected(logicalDevicesById, catalog, C)
        invariant Builds(catalog, Order(listed[..p], catalog), logicalDevicesById, nextLogicalDeviceId)
        invariant known == AllAnswered(listed[..p], catalog) && forall pd :: pd in known ==> pd.provider < p
      {
        assert listed[..p + 1][..p] == listed[..p];
        C := CorrelateProvider(p, listed[p], C, known, Order(listed[..p], catalog));
        known := known + Answered(p, listed[p], catalog);
        AnsweredOwn(p, listed[p], catalog);
      }
      assert listed[..|listed|] == listed;
      correlated := logicalDevicesById;
      FinalizeRoutes(C, known);
      D := logicalDevicesById;
      RoutedWidest(D, catalog);
      ranks := ReassignGpuLogicalDeviceIdsByMemorySize();
      if |ranks| < SYSTEM {
        RenumberedSound(D, catalog, known, ranks);
        RenumberedRouted(D, catalog, ranks);
        RoutedWidest(logicalDevicesById, catalog);
      }
    }
  }
}
