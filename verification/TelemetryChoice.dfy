/** Which provider answers, which number a GPU gets and what is known of a device, in terms of what providers report. */
module TelemetryChoice {
  import opened Wrappers
  import opened TelemetrySpec
  import opened TelemetryProofs

  // ---------------------------------------------------------------------------------------------
  // Routes

  /** The number of metrics that the provider device at the position offers. */
  ghost function Width(d: LogicalDevice, catalog: Catalog, i: nat): nat
    requires i < |d.providers| && Reported(d, catalog)
  {
    var capabilities := catalog[d.providers[i]].capabilities;
    |set m | m in capabilities && m < METRIC_COUNT && capabilities[m] > 0|
  }

  /** The array size that it offers for the metric; 0 if it does not offer it. */
  ghost function SizeFor(d: LogicalDevice, catalog: Catalog, metric: nat, i: nat): nat
    requires i < |d.providers| && Reported(d, catalog)
  {
    var capabilities := catalog[d.providers[i]].capabilities;
    if metric in capabilities && metric < METRIC_COUNT then capabilities[metric] else 0
  }

  /** Sizes that do not fit into 32 bits are not told apart. */
  predicate SameSize(a: nat, b: nat) {
    a == b || (a >= MAX_UINT32 && b >= MAX_UINT32)
  }

  /** No offer is wider than the chosen one, none of that width longer, as far as 32 bits tell, and none of those earlier. */
  ghost predicate WidestRoute(d: LogicalDevice, catalog: Catalog, metric: nat)
    requires Reported(d, catalog)
  {
    if metric in d.routes then
      var r := d.routes[metric];
      && r < |d.providers| && SizeFor(d, catalog, metric, r) > 0
      && forall i :: 0 <= i < |d.providers| && SizeFor(d, catalog, metric, i) > 0 ==>
           && Width(d, catalog, r) >= Width(d, catalog, i)
           && (Width(d, catalog, r) == Width(d, catalog, i) ==>
                 SizeFor(d, catalog, metric, r) >= SizeFor(d, catalog, metric, i) || SizeFor(d, catalog, metric, r) >= MAX_UINT32)
           && (Width(d, catalog, r) == Width(d, catalog, i) && SameSize(SizeFor(d, catalog, metric, r), SizeFor(d, catalog, metric, i))
               ==> r <= i)
    else
      forall i :: 0 <= i < |d.providers| ==> SizeFor(d, catalog, metric, i) == 0
  }

  lemma OffersSize(d: LogicalDevice, catalog: Catalog, metric: nat, i: nat)
    requires i < |d.providers| && Reported(d, catalog)
    ensures Offers(catalog[d.providers[i]].capabilities, metric) <==> SizeFor(d, catalog, metric, i) > 0
    ensures Coverage(catalog[d.providers[i]].capabilities) == Width(d, catalog, i)
    ensures SizeFor(d, catalog, metric, i) > 0 ==>
              Clamp(catalog[d.providers[i]].capabilities[metric])
              == if SizeFor(d, catalog, metric, i) < MAX_UINT32 then SizeFor(d, catalog, metric, i) else MAX_UINT32
  {
    var capabilities := catalog[d.providers[i]].capabilities;
    assert (set m | m in capabilities && m < METRIC_COUNT && capabilities[m] > 0)
        == set m | m in capabilities && Offers(capabilities, m);
  }

  lemma BestIsWidest(d: LogicalDevice, catalog: Catalog, metric: nat)
    requires Reported(d, catalog) && BestRoute(d, catalog, metric)
    ensures WidestRoute(d, catalog, metric)
  {
    hide Width, SizeFor, Offers, Coverage, Clamp;
    forall i | 0 <= i < |d.providers|
      ensures Offers(catalog[d.providers[i]].capabilities, metric) <==> SizeFor(d, catalog, metric, i) > 0
      ensures Coverage(catalog[d.providers[i]].capabilities) == Width(d, catalog, i)
      ensures SizeFor(d, catalog, metric, i) > 0 ==>
                Offer(d, catalog, metric, i)
                == Candidate(i, if SizeFor(d, catalog, metric, i) < MAX_UINT32 then SizeFor(d, catalog, metric, i) else MAX_UINT32,
                             Width(d, catalog, i))
    {
      OffersSize(d, catalog, metric, i);
    }
  }

  ghost predicate AllWidest(D: Devices, catalog: Catalog) {
    forall id :: id in D ==> Reported(D[id], catalog) && forall m :: WidestRoute(D[id], catalog, m)
  }

  lemma RoutedWidest(D: Devices, catalog: Catalog)
    requires AllRouted(D, catalog)
    ensures AllWidest(D, catalog)
  {
    hide WidestRoute, BestRoute;
    forall id | id in D
      ensures Reported(D[id], catalog) && forall m :: WidestRoute(D[id], catalog, m)
    {
      forall m: nat
        ensures WidestRoute(D[id], catalog, m)
      {
        BestIsWidest(D[id], catalog, m);
      }
    }
  }

  // ---------------------------------------------------------------------------------------------
  // Numbers

  /** The power limit that the provider chosen for it reports. */
  function PowerLimit(d: LogicalDevice, catalog: Catalog): Option<real> {
    if GPU_SUSTAINED_POWER_LIMIT in d.routes && d.routes[GPU_SUSTAINED_POWER_LIMIT] < |d.providers|
       && d.providers[d.routes[GPU_SUSTAINED_POWER_LIMIT]] in catalog
    then catalog[d.providers[d.routes[GPU_SUSTAINED_POWER_LIMIT]]].powerLimit else None
  }

  function MemorySize(d: LogicalDevice, catalog: Catalog): Option<nat> {
    if GPU_MEM_SIZE in d.routes && d.routes[GPU_MEM_SIZE] < |d.providers| && d.providers[d.routes[GPU_MEM_SIZE]] in catalog
    then catalog[d.providers[d.routes[GPU_MEM_SIZE]]].memorySize else None
  }

  /** Every GPU has a power limit. */
  ghost predicate AllPowered(D: Devices, catalog: Catalog) {
    forall id :: id in D && id != SYSTEM ==> PowerLimit(D[id], catalog).Some?
  }

  /** The first device is at least as strong as the second one, or what is not known of the first is not known of both. */
  ghost predicate AtLeast(a: LogicalDevice, b: LogicalDevice, catalog: Catalog, byPower: bool) {
    if byPower then
      PowerLimit(a, catalog).Some? && PowerLimit(b, catalog).Some? && PowerLimit(a, catalog).value >= PowerLimit(b, catalog).value
    else
      MemorySize(b, catalog).Some? ==> MemorySize(a, catalog).Some? && MemorySize(a, catalog).value >= MemorySize(b, catalog).value
  }

  /**
   Among adapters of one kind a smaller number means no less power, if every GPU's limit is known, and no less memory
   otherwise, where known memory comes first; equal ones keep the order of their old numbers.
   */
  lemma StrongerFirst(D: Devices, catalog: Catalog, ranks: seq<Rank>, i: nat, j: nat)
    requires AllReported(D, catalog) && Ranked(D, catalog, ranks) && Sorted(ByRank(AllHavePower(ranks)), ranks)
    requires 1 <= i < j <= |ranks| < SYSTEM
    ensures var R := Renumbered(D, ranks);
            && i in R && j in R && Reported(R[i], catalog) && Reported(R[j], catalog)
            && ((SaysIntegrated(R[i], catalog) <==> SaysIntegrated(R[j], catalog)) ==>
                  && AtLeast(R[i], R[j], catalog, AllPowered(D, catalog))
                  && (AtLeast(R[j], R[i], catalog, AllPowered(D, catalog)) ==> ranks[i - 1].oldId < ranks[j - 1].oldId))
  {
    hide Renumbered, Resolve, SaysIntegrated, Ranked, Sorted, PowerLimit, MemorySize, AllPowered, AllHavePower, AllReported;
    RankIntegrated(D, catalog, ranks, i);
    RankIntegrated(D, catalog, ranks, j);
    RankStrength(D, catalog, ranks, i);
    RankStrength(D, catalog, ranks, j);
    PoweredRanks(D, catalog, ranks);
    RanksSorted(ranks, AllHavePower(ranks), i - 1, j - 1);
    OldIdsDiffer(D, catalog, ranks, i - 1, j - 1);
    if AllHavePower(ranks) { EachHasPower(ranks, i - 1); EachHasPower(ranks, j - 1); }
  }

  lemma OldIdsDiffer(D: Devices, catalog: Catalog, ranks: seq<Rank>, i: nat, j: nat)
    requires AllReported(D, catalog) && Ranked(D, catalog, ranks) && i < j < |ranks|
    ensures ranks[i].oldId != ranks[j].oldId
  {
  }

  lemma EachHasPower(ranks: seq<Rank>, i: nat)
    requires AllHavePower(ranks) && i < |ranks|
    ensures ranks[i].powerLimit.Some?
  {
  }

  lemma RanksSorted(ranks: seq<Rank>, byPower: bool, i: nat, j: nat)
    requires Sorted(ByRank(byPower), ranks) && i < j < |ranks|
    ensures !RanksBefore(byPower, ranks[j], ranks[i])
  {
    assert !ByRank(byPower)(ranks[j], ranks[i]);
  }

  lemma RankStrength(D: Devices, catalog: Catalog, ranks: seq<Rank>, i: nat)
    requires AllReported(D, catalog) && Ranked(D, catalog, ranks) && 1 <= i <= |ranks| < SYSTEM
    ensures var R := Renumbered(D, ranks);
            i in R && PowerLimit(R[i], catalog) == ranks[i - 1].powerLimit && MemorySize(R[i], catalog) == ranks[i - 1].memorySize
  {
    hide Renumbered, Resolve;
    RenumberedExact(D, ranks, i);
  }

  lemma PoweredRanks(D: Devices, catalog: Catalog, ranks: seq<Rank>)
    requires AllReported(D, catalog) && Ranked(D, catalog, ranks) && ranks != []
    ensures AllHavePower(ranks) <==> AllPowered(D, catalog)
  {
    hide Resolve;
    forall i | 0 <= i < |ranks|
      ensures ranks[i].powerLimit == PowerLimit(D[ranks[i].oldId], catalog)
    {
      assert ranks[i] == RankOf(ranks[i].oldId, D[ranks[i].oldId], catalog);
    }
  }

  // ---------------------------------------------------------------------------------------------
  // Fingerprints

  /** The value of the first provider device that knows it. */
  ghost predicate FirstKnown<T(!new)>(d: LogicalDevice, catalog: Catalog, of: Fingerprint -> T, unknown: T, value: T)
    requires Reported(d, catalog)
  {
    if value == unknown then forall i :: 0 <= i < |d.providers| ==> of(catalog[d.providers[i]].fingerprint) == unknown
    else exists i :: 0 <= i < |d.providers| && of(catalog[d.providers[i]].fingerprint) == value
                     && forall j :: 0 <= j < i ==> of(catalog[d.providers[j]].fingerprint) == unknown
  }

  lemma {:induction false} ResolvedFirst<T(!new)>(d: LogicalDevice, catalog: Catalog, of: Fingerprint -> T, unknown: T)
    requires d.providers != [] && Reported(d, catalog)
    requires forall a, b :: of(Merge(a, b)) == if of(a) == unknown then of(b) else of(a)
    ensures FirstKnown(d, catalog, of, unknown, of(Resolve(d, catalog)))
    decreases |d.providers|
  {
    hide Merge;
    var n := |d.providers| - 1;
    if n == 0 {
      assert of(catalog[d.providers[0]].fingerprint) == of(Resolve(d, catalog));
    } else {
      var front := d.(providers := d.providers[..n]);
      ResolvedFirst(front, catalog, of, unknown);
      assert forall i :: 0 <= i < n ==> front.providers[i] == d.providers[i];
      var f := of(Resolve(front, catalog));
      if f != unknown {
        var i :| 0 <= i < n && of(catalog[front.providers[i]].fingerprint) == f
                 && forall j :: 0 <= j < i ==> of(catalog[front.providers[j]].fingerprint) == unknown;
        assert of(catalog[d.providers[i]].fingerprint) == f;
      } else {
        assert of(catalog[d.providers[n]].fingerprint) == of(Resolve(d, catalog));
      }
    }
  }

  lemma {:induction false} ResolvedType(d: LogicalDevice, catalog: Catalog)
    requires d.providers != [] && Reported(d, catalog)
    ensures Resolve(d, catalog).deviceType == catalog[d.providers[0]].fingerprint.deviceType
    decreases |d.providers|
  {
    var n := |d.providers| - 1;
    if n > 0 { ResolvedType(d.(providers := d.providers[..n]), catalog); }
  }

  /** What is known of a logical device is what the first of its provider devices says that knows it; any may call it integrated. */
  lemma ResolvedExactly(d: LogicalDevice, catalog: Catalog)
    requires d.providers != [] && Reported(d, catalog)
    ensures var f := Resolve(d, catalog);
            && f.deviceType == catalog[d.providers[0]].fingerprint.deviceType
            && FirstKnown(d, catalog, (g: Fingerprint) => g.vendor, UnknownVendor, f.vendor)
            && FirstKnown(d, catalog, (g: Fingerprint) => g.name, [], f.name)
            && FirstKnown(d, catalog, (g: Fingerprint) => g.pciDeviceId, None, f.pciDeviceId)
            && FirstKnown(d, catalog, (g: Fingerprint) => g.pciSubSystemId, None, f.pciSubSystemId)
            && FirstKnown(d, catalog, (g: Fingerprint) => g.pciBusId, None, f.pciBusId)
            && (f.integrated <==> SaysIntegrated(d, catalog))
  {
    hide Resolve, FirstKnown;
    ResolvedType(d, catalog);
    ResolvedFirst(d, catalog, (g: Fingerprint) => g.vendor, UnknownVendor);
    ResolvedFirst(d, catalog, (g: Fingerprint) => g.name, []);
    ResolvedFirst(d, catalog, (g: Fingerprint) => g.pciDeviceId, None);
    ResolvedFirst(d, catalog, (g: Fingerprint) => g.pciSubSystemId, None);
    ResolvedFirst(d, catalog, (g: Fingerprint) => g.pciBusId, None);
    ResolveIntegrated(d, catalog);
  }

  // ---------------------------------------------------------------------------------------------
  // Names

  predicate Plain(c: char) {
    'a' <= c <= 'z' || '0' <= c <= '9'
  }

  predicate AlphaNumeric(c: char) {
    Plain(c) || 'A' <= c <= 'Z'
  }

  lemma {:induction false} NormalizeConcat(a: string, b: string)
    ensures NormalizeName(a + b) == NormalizeName(a) + NormalizeName(b)
  {
    if a == [] {
      assert a + b == b;
    } else {
      NormalizeConcat(a[1..], b);
      assert (a + b)[1..] == a[1..] + b;
    }
  }

  /** A letter or digit counts, whatever its case; nothing else does. */
  lemma NormalizeOne(c: char)
    ensures Plain(c) ==> NormalizeName([c]) == [c]
    ensures 'A' <= c <= 'Z' ==> NormalizeName([c]) == NormalizeName([(c - 'A') + 'a'])
    ensures !AlphaNumeric(c) ==> NormalizeName([c]) == []
  {
  }

  /** Normalised names are plain, and stay as they are. */
  lemma {:induction false} NormalizeTwice(s: string)
    ensures (forall i :: 0 <= i < |NormalizeName(s)| ==> Plain(NormalizeName(s)[i]))
    ensures NormalizeName(NormalizeName(s)) == NormalizeName(s)
  {
    if s != [] {
      NormalizeTwice(s[1..]);
    }
  }

  // ---------------------------------------------------------------------------------------------
  // Matching

  /** They know a common identity: both PCI numbers, the bus, or a name up to case and punctuation. */
  ghost predicate ShareIdentity(a: Fingerprint, b: Fingerprint) {
    || (exists k, l :: a.pciDeviceId == b.pciDeviceId == Some(k) && a.pciSubSystemId == b.pciSubSystemId == Some(l))
    || (exists k :: a.pciBusId == b.pciBusId == Some(k))
    || (a.name != [] && b.name != [] && NormalizeName(a.name) == NormalizeName(b.name))
  }

  /** There is one system; other devices match exactly within a type and vendor by a common identity. */
  lemma MatchesExactly(a: Fingerprint, b: Fingerprint)
    ensures Matches(a, b) <==>
            (a.deviceType == b.deviceType == System)
            || (a.deviceType == b.deviceType && a.vendor == b.vendor && ShareIdentity(a, b))
  {
    if BothEqual(a.pciDeviceId, b.pciDeviceId) && BothEqual(a.pciSubSystemId, b.pciSubSystemId) {
      assert a.pciDeviceId == b.pciDeviceId == Some(a.pciDeviceId.value)
          && a.pciSubSystemId == b.pciSubSystemId == Some(a.pciSubSystemId.value);
    }
    if BothEqual(a.pciBusId, b.pciBusId) {
      assert a.pciBusId == b.pciBusId == Some(a.pciBusId.value);
    }
  }
}
