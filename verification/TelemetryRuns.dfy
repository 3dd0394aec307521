/** A run in which renumbering loses a GPU, because it gets the number of the system device. */
module TelemetryRuns {
  import opened Wrappers
  import opened TelemetrySpec
  import opened TelemetryProofs
  import opened Telemetry

  /** Device 0 is the system; every other device is a graphics adapter on a bus of its own. */
  function ReportOf(k: nat): Report {
    Report(Fingerprint(if k == 0 then System else GraphicsAdapter, UnknownVendor, "", false, None, None, Some(k)), map[], None, None)
  }

  function Listed(n: nat): seq<nat> {
    if n == 0 then [0] else Listed(n - 1) + [n]
  }

  function CatalogOf(n: nat): Catalog {
    (if n == 0 then map[] else CatalogOf(n - 1))[ProviderDevice(0, n) := ReportOf(n)]
  }

  lemma {:induction false} CatalogExact(n: nat, pd: ProviderDevice)
    ensures pd in CatalogOf(n) <==> pd.provider == 0 && pd.device <= n
    ensures pd in CatalogOf(n) ==> CatalogOf(n)[pd] == ReportOf(pd.device)
  {
    if n > 0 { CatalogExact(n - 1, pd); }
  }

  lemma {:induction false} ListedExact(n: nat)
    ensures |Listed(n)| == n + 1 && forall i :: 0 <= i <= n ==> Listed(n)[i] == i
  {
    if n > 0 { ListedExact(n - 1); }
  }

  lemma AllAnswer(n: nat)
    ensures forall k :: 0 <= k <= n ==> ProviderDevice(0, k) in AllAnswered([Listed(n)], CatalogOf(n))
  {
    var listed, catalog := Listed(n), CatalogOf(n);
    ListedExact(n);
    forall k | 0 <= k <= n
      ensures ProviderDevice(0, listed[k]) in catalog
    {
      CatalogExact(n, ProviderDevice(0, listed[k]));
    }
    AnsweredUpTo(0, listed, catalog, n + 1);
    assert [listed][..0] == [];
    forall k | 0 <= k <= n
      ensures ProviderDevice(0, k) in Answered(0, listed, catalog)
    {
      assert ProviderDevice(0, listed[k]) == ProviderDevice(0, k);
    }
    assert AllAnswered([listed], catalog) == AllAnswered([], catalog) + Answered(0, listed, catalog);
  }

  /** No two of these devices match. */
  lemma Unlinked(n: nat, p: seq<ProviderDevice>)
    requires |p| > 1 && p[0] != p[1] && forall k :: 0 <= k < |p| ==> p[k] in CatalogOf(n)
    ensures !Linked(p, CatalogOf(n), 1)
  {
    CatalogExact(n, p[0]);
    CatalogExact(n, p[1]);
  }

  /** So every logical device has one provider device. */
  lemma Alone(D: Devices, n: nat, known: set<ProviderDevice>, id: nat)
    requires Sound(D, CatalogOf(n), known) && id in D
    ensures |D[id].providers| == 1
  {
    if |D[id].providers| > 1 { Unlinked(n, D[id].providers); }
  }

  ghost predicate Housed(D: Devices, k: nat) {
    exists id :: id in D && HasProvider(D[id], ProviderDevice(0, k))
  }

  ghost function Home(D: Devices, k: nat): (id: nat)
    requires Housed(D, k)
    ensures id in D && HasProvider(D[id], ProviderDevice(0, k))
  {
    var id :| id in D && HasProvider(D[id], ProviderDevice(0, k));
    id
  }

  /** The logical devices of adapters 1 to k. */
  ghost function Homes(D: Devices, k: nat): set<nat>
    requires forall i :: 1 <= i <= k ==> Housed(D, i)
  {
    if k == 0 then {} else Homes(D, k - 1) + {Home(D, k)}
  }

  /** The logical device is that of one of the adapters 1 to k. */
  ghost predicate IsHome(D: Devices, id: nat, k: nat) {
    id in D && exists i :: 1 <= i <= k && HasProvider(D[id], ProviderDevice(0, i))
  }

  lemma {:induction false} HomesDiffer(D: Devices, n: nat, known: set<ProviderDevice>, k: nat)
    requires Sound(D, CatalogOf(n), known) && forall i :: 1 <= i <= k ==> Housed(D, i)
    ensures |Homes(D, k)| == k && forall id :: id in Homes(D, k) ==> IsHome(D, id, k) && id != SYSTEM
    decreases k
  {
    hide Sound, HasProvider, IsHome;
    if k > 0 {
      HomesDiffer(D, n, known, k - 1);
      NewHome(D, n, known, Home(D, k), k);
      IsHomeAt(D, Home(D, k), k);
      var rest := Homes(D, k - 1);
      forall id | id in rest
        ensures IsHome(D, id, k)
      {
        StaysHome(D, id, k);
      }
    }
  }

  lemma IsHomeAt(D: Devices, id: nat, k: nat)
    requires k > 0 && id in D && HasProvider(D[id], ProviderDevice(0, k))
    ensures IsHome(D, id, k)
  {
  }

  lemma StaysHome(D: Devices, id: nat, k: nat)
    requires k > 0 && IsHome(D, id, k - 1)
    ensures IsHome(D, id, k)
  {
    var i :| 1 <= i <= k - 1 && HasProvider(D[id], ProviderDevice(0, i));
  }

  lemma NewHome(D: Devices, n: nat, known: set<ProviderDevice>, id: nat, k: nat)
    requires Sound(D, CatalogOf(n), known) && k > 0 && id in D && HasProvider(D[id], ProviderDevice(0, k))
    ensures !IsHome(D, id, k - 1) && id != SYSTEM
  {
    hide Covered, Apart, Typed, Correlated;
    Alone(D, n, known, id);
    NotSystem(D, n, id, k);
  }

  lemma NotSystem(D: Devices, n: nat, id: nat, k: nat)
    requires Typed(D, CatalogOf(n)) && id in D && HasProvider(D[id], ProviderDevice(0, k))
    ensures id == SYSTEM <==> k == 0
  {
    var i :| 0 <= i < |D[id].providers| && D[id].providers[i] == ProviderDevice(0, k);
    CatalogExact(n, ProviderDevice(0, k));
  }

  lemma {:induction false} CoveredByRanks(ids: set<nat>, ranks: seq<Rank>)
    requires forall id :: id in ids ==> exists i :: 0 <= i < |ranks| && ranks[i].oldId == id
    ensures |ids| <= |ranks|
    decreases |ranks|
  {
    if ranks == [] {
      assert ids == {};
    } else {
      var n := |ranks| - 1;
      var rest := ids - {ranks[n].oldId};
      forall id | id in rest
        ensures exists i :: 0 <= i < n && ranks[..n][i].oldId == id
      {
        var i :| 0 <= i < |ranks| && ranks[i].oldId == id;
        assert ranks[..n][i] == ranks[i];
      }
      CoveredByRanks(rest, ranks[..n]);
      assert ids <= rest + {ranks[n].oldId};
      assert |ids| <= |rest + {ranks[n].oldId}| by { CardinalityMonotone(ids, rest + {ranks[n].oldId}); }
    }
  }

  lemma CardinalityMonotone(a: set<nat>, b: set<nat>)
    requires a <= b
    ensures |a| <= |b|
  {
    assert b == a + (b - a);
  }

  /** With at least 65536 adapters beside the system, some device is lost. */
  lemma SomeLost(D: Devices, n: nat, ranks: seq<Rank>)
    requires n >= SYSTEM && Sound(D, CatalogOf(n), AllAnswered([Listed(n)], CatalogOf(n))) && Ranked(D, CatalogOf(n), ranks)
    ensures exists id :: id in D && !Kept(D[id], Renumbered(D, ranks))
  {
    hide Listed, CatalogOf, AllAnswered, Correlated, Apart, Typed, RankOf, Renumbered, Kept;
    var catalog, known := CatalogOf(n), AllAnswered([Listed(n)], CatalogOf(n));
    AllAnswer(n);
    forall k | 0 <= k <= n
      ensures Housed(D, k)
    {
      assert ProviderDevice(0, k) in known;
    }
    HomesDiffer(D, n, known, n);
    CoveredByRanks(Homes(D, n), ranks);
    NotSystem(D, n, Home(D, 0), 0);
    NoneLostExactly(D, catalog, known, ranks);
  }

  /** The system and n adapters, all listed by one provider. */
  method LostDeviceRun(n: nat) returns (c: TelemetryCoordinator, ghost D: Devices, ghost ranks: seq<Rank>)
    requires n >= SYSTEM
    ensures Sound(D, c.catalog, AllAnswered([Listed(n)], c.catalog)) && Ranked(D, c.catalog, ranks)
    ensures c.logicalDevicesById == Renumbered(D, ranks)
    ensures exists id :: id in D && !Kept(D[id], c.logicalDevicesById)
  {
    hide Covered, Apart, Typed, Correlated, Ranked, Sorted, AllRouted, Kept, AllAnswered;
    c := new TelemetryCoordinator(CatalogOf(n));
    ListedExact(n);
    ghost var correlated;
    correlated, D, ranks := c.BuildLogicalDevicesAndRoutes([Listed(n)]);
    SomeLost(D, n, ranks);
  }
}
