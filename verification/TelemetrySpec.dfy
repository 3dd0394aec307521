/**
 How the telemetry coordinator correlates the devices that several providers report, which provider answers
 for a metric, and how the GPUs are ranked, on plain values.
 */
module TelemetrySpec {
  import opened Wrappers

  const SYSTEM: nat := 65536
  const METRIC_COUNT: nat := 92
  const GPU_SUSTAINED_POWER_LIMIT: nat := 26
  const GPU_MEM_SIZE: nat := 45
  const MAX_UINT32: nat := 0xFFFF_FFFF

  // ---------------------------------------------------------------------------------------------
  // Sorting

  ghost predicate Ordering<T(!new)>(before: (T, T) -> bool) {
    && (forall a, b :: before(a, b) ==> !before(b, a))
    && (forall a, b, c :: !before(b, a) && !before(c, b) ==> !before(c, a))
  }

  ghost predicate Sorted<T>(before: (T, T) -> bool, s: seq<T>) {
    forall i, j :: 0 <= i < j < |s| ==> !before(s[j], s[i])
  }

  function Place<T>(before: (T, T) -> bool, x: T, s: seq<T>): (r: seq<T>)
    ensures multiset(r) == multiset(s) + multiset{x}
  {
    if s == [] || before(x, s[0]) then [x] + s
    else
      assert s == [s[0]] + s[1..];
      [s[0]] + Place(before, x, s[1..])
  }

  lemma {:induction false} PlaceSorted<T(!new)>(before: (T, T) -> bool, x: T, s: seq<T>)
    requires Ordering(before) && Sorted(before, s)
    ensures Sorted(before, Place(before, x, s))
  {
    if s != [] {
      var y, rest := s[0], Place(before, x, s[1..]);
      if before(x, y) {
        assert forall z :: z in s ==> !before(z, x);
      } else {
        PlaceSorted(before, x, s[1..]);
        forall z | z in rest
          ensures !before(z, y)
        {
          assert z in multiset(rest);
          assert z == x || z in s[1..];
        }
        hide Place, Ordering;
      }
    }
  }

  /** Stands for std::sort. */
  function Sort<T>(before: (T, T) -> bool, s: seq<T>): (r: seq<T>)
    ensures multiset(r) == multiset(s)
  {
    if s == [] then []
    else
      assert s == [s[0]] + s[1..];
      Place(before, s[0], Sort(before, s[1..]))
  }

  lemma {:induction false} SortSorts<T(!new)>(before: (T, T) -> bool, s: seq<T>)
    requires Ordering(before)
    ensures Sorted(before, Sort(before, s))
  {
    if s != [] {
      hide Ordering, Place, Sorted;
      assert Sort(before, s) == Place(before, s[0], Sort(before, s[1..]));
      SortSorts(before, s[1..]);
      PlaceSorted(before, s[0], Sort(before, s[1..]));
    } else {
    }
  }

  /** When no two items are tied, there is one sorted order, whatever the order to begin with. */
  lemma {:induction false} SortedOnce<T(!new)>(before: (T, T) -> bool, a: seq<T>, b: seq<T>)
    requires Sorted(before, a) && Sorted(before, b) && multiset(a) == multiset(b)
    requires forall x, y :: x in a && y in a && x != y ==> before(x, y) || before(y, x)
    ensures a == b
  {
    assert |multiset(a)| == |a| && |multiset(b)| == |b|;
    if a != [] {
      SameFirst(before, a, b);
      SplitFirst(a);
      SplitFirst(b);
      assert Sorted(before, a[1..]) && Sorted(before, b[1..]);
      assert forall x :: x in a[1..] ==> x in a;
      hide Sorted;
      SortedOnce(before, a[1..], b[1..]);
    }
  }

  lemma SplitFirst<T>(a: seq<T>)
    requires a != []
    ensures a == [a[0]] + a[1..] && multiset(a[1..]) == multiset(a) - multiset{a[0]}
  {
    assert a == [a[0]] + a[1..];
  }

  lemma SameFirst<T(!new)>(before: (T, T) -> bool, a: seq<T>, b: seq<T>)
    requires Sorted(before, a) && Sorted(before, b) && multiset(a) == multiset(b) && a != [] && b != []
    requires forall x, y :: x in a && y in a && x != y ==> before(x, y) || before(y, x)
    ensures a[0] == b[0]
  {
    assert a[0] in multiset(b) && b[0] in multiset(a);
    var i :| 0 <= i < |b| && b[i] == a[0];
    var j :| 0 <= j < |a| && a[j] == b[0];
    assert i == 0 || !before(b[i], b[0]);
    assert j == 0 || !before(a[j], a[0]);
  }

  // ---------------------------------------------------------------------------------------------
  // Fingerprints

  datatype DeviceType = Independent | GraphicsAdapter | System

  datatype Vendor = UnknownVendor | Vendor(code: nat)

  datatype Fingerprint = Fingerprint(
    deviceType: DeviceType,
    vendor: Vendor,
    name: string,
    integrated: bool,
    pciDeviceId: Option<nat>,
    pciSubSystemId: Option<nat>,
    pciBusId: Option<nat>)

  /** Letters and digits only, in lower case. */
  function NormalizeName(name: string): string {
    if name == [] then []
    else
      var c := name[0];
      var rest := NormalizeName(name[1..]);
      if 'A' <= c <= 'Z' then [((c - 'A') + 'a')] + rest
      else if 'a' <= c <= 'z' || '0' <= c <= '9' then [c] + rest
      else rest
  }

  predicate BothEqual(a: Option<nat>, b: Option<nat>) {
    a.Some? && a == b
  }

  predicate Matches(a: Fingerprint, b: Fingerprint) {
    if a.deviceType != b.deviceType then false
    else if a.deviceType == System then true
    else if a.vendor != b.vendor then false
    else if BothEqual(a.pciDeviceId, b.pciDeviceId) && BothEqual(a.pciSubSystemId, b.pciSubSystemId) then true
    else if BothEqual(a.pciBusId, b.pciBusId) then true
    else a.name != [] && b.name != [] && NormalizeName(a.name) == NormalizeName(b.name)
  }

  function Merge(dst: Fingerprint, src: Fingerprint): Fingerprint {
    Fingerprint(
      dst.deviceType,
      if dst.vendor == UnknownVendor then src.vendor else dst.vendor,
      if dst.name == [] then src.name else dst.name,
      dst.integrated || src.integrated,
      if dst.pciDeviceId.None? then src.pciDeviceId else dst.pciDeviceId,
      if dst.pciSubSystemId.None? then src.pciSubSystemId else dst.pciSubSystemId,
      if dst.pciBusId.None? then src.pciBusId else dst.pciBusId)
  }

  // ---------------------------------------------------------------------------------------------
  // Devices

  datatype ProviderDevice = ProviderDevice(provider: nat, device: nat)

  /** What a provider tells about one of its devices. */
  datatype Report = Report(fingerprint: Fingerprint, capabilities: map<nat, nat>, memorySize: Option<nat>, powerLimit: Option<real>)

  type Catalog = map<ProviderDevice, Report>

  /** A route leads from a metric to a position in the list of provider devices. */
  datatype LogicalDevice = LogicalDevice(id: nat, providers: seq<ProviderDevice>, routes: map<nat, nat>)

  type Devices = map<nat, LogicalDevice>

  predicate Reported(d: LogicalDevice, catalog: Catalog) {
    forall i :: 0 <= i < |d.providers| ==> d.providers[i] in catalog
  }

  function Resolve(d: LogicalDevice, catalog: Catalog): Fingerprint
    requires d.providers != [] && Reported(d, catalog)
    decreases |d.providers|
  {
    var n := |d.providers| - 1;
    if n == 0 then catalog[d.providers[0]].fingerprint
    else Merge(Resolve(d.(providers := d.providers[..n]), catalog), catalog[d.providers[n]].fingerprint)
  }

  /** A device is an integrated adapter if any provider says so. */
  lemma {:induction false} ResolveIntegrated(d: LogicalDevice, catalog: Catalog)
    requires d.providers != [] && Reported(d, catalog)
    ensures Resolve(d, catalog).integrated <==>
            exists i :: 0 <= i < |d.providers| && catalog[d.providers[i]].fingerprint.integrated
    decreases |d.providers|
  {
    var n := |d.providers| - 1;
    if n > 0 {
      var front := d.(providers := d.providers[..n]);
      ResolveIntegrated(front, catalog);
      if i :| 0 <= i < |d.providers| && catalog[d.providers[i]].fingerprint.integrated {
        if i < n { assert front.providers[i] == d.providers[i]; }
      }
    }
  }

  // ---------------------------------------------------------------------------------------------
  // Routes

  predicate Offers(capabilities: map<nat, nat>, metric: nat) {
    metric in capabilities && metric < METRIC_COUNT && capabilities[metric] != 0
  }

  function Clamp(size: nat): nat {
    if size < MAX_UINT32 then size else MAX_UINT32
  }

  /** The number of metrics that a provider offers for a device. */
  ghost function Coverage(capabilities: map<nat, nat>): nat {
    |set m | m in capabilities && Offers(capabilities, m)|
  }

  datatype Candidate = Candidate(index: nat, arraySize: nat, coverage: nat)

  /** The wider provider, then the longer array, then the provider that came first. */
  predicate Better(l: Candidate, r: Candidate) {
    if l.coverage != r.coverage then l.coverage > r.coverage
    else if l.arraySize != r.arraySize then l.arraySize > r.arraySize
    else l.index < r.index
  }

  lemma BetterOrders()
    ensures Ordering(Better)
  {
  }

  /** The candidate that the provider device at a position makes for a metric. */
  ghost function Offer(d: LogicalDevice, catalog: Catalog, metric: nat, i: nat): Candidate
    requires i < |d.providers| && Reported(d, catalog) && Offers(catalog[d.providers[i]].capabilities, metric)
  {
    var capabilities := catalog[d.providers[i]].capabilities;
    Candidate(i, Clamp(capabilities[metric]), Coverage(capabilities))
  }

  /** The best of those that offer the metric answers for it, and if any does, one of them answers. */
  ghost predicate BestRoute(d: LogicalDevice, catalog: Catalog, metric: nat)
    requires Reported(d, catalog)
  {
    if metric in d.routes then
      && d.routes[metric] < |d.providers| && Offers(catalog[d.providers[d.routes[metric]]].capabilities, metric)
      && forall i :: 0 <= i < |d.providers| && Offers(catalog[d.providers[i]].capabilities, metric) ==>
           i == d.routes[metric] || Better(Offer(d, catalog, metric, d.routes[metric]), Offer(d, catalog, metric, i))
    else
      forall i :: 0 <= i < |d.providers| ==> !Offers(catalog[d.providers[i]].capabilities, metric)
  }

  // ---------------------------------------------------------------------------------------------
  // Ranks

  datatype Rank = Rank(oldId: nat, integrated: bool, powerLimit: Option<real>, memorySize: Option<nat>)

  function PowerOf(g: Rank): real {
    if g.powerLimit.Some? then g.powerLimit.value else 0.0
  }

  function MemoryOf(g: Rank): nat {
    if g.memorySize.Some? then g.memorySize.value else 0
  }

  predicate RanksBefore(byPower: bool, l: Rank, r: Rank) {
    if l.integrated != r.integrated then r.integrated
    else if byPower && PowerOf(l) != PowerOf(r) then PowerOf(l) > PowerOf(r)
    else if !byPower && l.memorySize.Some? != r.memorySize.Some? then l.memorySize.Some?
    else if !byPower && MemoryOf(l) != MemoryOf(r) then MemoryOf(l) > MemoryOf(r)
    else l.oldId < r.oldId
  }

  function ByRank(byPower: bool): (Rank, Rank) -> bool {
    (l, r) => RanksBefore(byPower, l, r)
  }

  lemma RanksOrder(byPower: bool)
    ensures Ordering(ByRank(byPower))
  {
    assert forall a, b :: ByRank(byPower)(a, b) == RanksBefore(byPower, a, b);
  }

  /** What the route for a metric leads to, if there is one. */
  function Routed(d: LogicalDevice, catalog: Catalog, metric: nat): Option<Report> {
    if metric in d.routes && d.routes[metric] < |d.providers| && d.providers[d.routes[metric]] in catalog
    then Some(catalog[d.providers[d.routes[metric]]]) else None
  }

  function RankOf(id: nat, d: LogicalDevice, catalog: Catalog): Rank
    requires d.providers != [] && Reported(d, catalog)
  {
    var power, memory := Routed(d, catalog, GPU_SUSTAINED_POWER_LIMIT), Routed(d, catalog, GPU_MEM_SIZE);
    Rank(id, Resolve(d, catalog).integrated,
         if power.Some? then power.value.powerLimit else None,
         if memory.Some? then memory.value.memorySize else None)
  }

  predicate AllHavePower(ranks: seq<Rank>) {
    ranks != [] && forall i :: 0 <= i < |ranks| ==> ranks[i].powerLimit.Some?
  }

  ghost predicate Ranked(D: Devices, catalog: Catalog, ranks: seq<Rank>)
    requires forall id :: id in D ==> D[id].providers != [] && Reported(D[id], catalog)
  {
    && (forall i, j :: 0 <= i < j < |ranks| ==> ranks[i].oldId != ranks[j].oldId)
    && (forall i :: 0 <= i < |ranks| ==> ranks[i].oldId in D && ranks[i].oldId != SYSTEM
                                         && ranks[i] == RankOf(ranks[i].oldId, D[ranks[i].oldId], catalog))
    && (forall id :: id in D && id != SYSTEM ==> exists i :: 0 <= i < |ranks| && ranks[i].oldId == id)
  }

  // ---------------------------------------------------------------------------------------------
  // Renumbering

  /** The system device keeps its number; GPUs get the numbers from 1 in the order of their ranks, unless one is taken. */
  function Renumbered(D: Devices, ranks: seq<Rank>): Devices
    requires forall i :: 0 <= i < |ranks| ==> ranks[i].oldId in D
    decreases |ranks|
  {
    var n := |ranks|;
    if n == 0 then if SYSTEM in D then map[SYSTEM := D[SYSTEM]] else map[]
    else
      var before := Renumbered(D, ranks[..n - 1]);
      if n in before then before else before[n := D[ranks[n - 1].oldId].(id := n)]
  }
}
