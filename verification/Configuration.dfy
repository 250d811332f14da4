/** Desired configuration: when two states configure the same thing, and how a diff changes a state. */
module Configuration {
  import opened Strings
  import opened Keyed
  import opened Messages
  import opened Validation

  /** Registry credentials travel and are stored apart from services. */
  function WithoutCredentials(s: DesiredService): DesiredService {
    s.(registryUsername := "", registryPassword := "")
  }

  /** The observation overlay may drift at a fixed cursor. */
  function WithoutOverlay(s: DesiredService): DesiredService {
    s.(internalHosts := [], restartObservation := None)
  }

  function EachWithoutCredentials(services: seq<DesiredService>): seq<DesiredService> {
    seq(|services|, i requires 0 <= i < |services| => WithoutCredentials(services[i]))
  }

  function EachWithoutOverlay(services: seq<DesiredService>): seq<DesiredService> {
    seq(|services|, i requires 0 <= i < |services| => WithoutOverlay(services[i]))
  }

  function Canonicalized(state: DesiredState): DesiredState {
    state.(services := Canonical(state.services, ServiceKey), volumes := Canonical(state.volumes, VolumeKey))
  }

  /** What a checkpoint is stored as. */
  function Cleaned(state: DesiredState): DesiredState {
    Canonicalized(state.(services := EachWithoutCredentials(state.services)))
  }

  /** A clone with everything versioned outside the cursor blanked. */
  function Blanked(state: DesiredState): DesiredState {
    Canonicalized(state.(
      generatedAt := None, env := state.env.(sessionId := "", notAfter := None),
      nodeConfig := None, nodeConfigVersion := "",
      services := EachWithoutOverlay(state.services)))
  }

  predicate ConfigurationEqual(a: DesiredState, b: DesiredState) {
    Blanked(a) == Blanked(b)
  }

  /** The services and volumes of a state by identity, overlay aside. */
  datatype Config = Config(services: map<string, DesiredService>, volumes: map<string, DesiredVolume>)

  function ConfigOf(state: DesiredState): Config {
    Config(Index(EachWithoutOverlay(state.services), ServiceKey), Index(state.volumes, VolumeKey))
  }

  /** Whose state it is, and at which position. */
  datatype Standing = Standing(
    agentId: string, clusterId: string, installationId: string, recoveryGeneration: string,
    epoch: nat, cursor: int, scope: Scope, complete: bool)

  function StandingOf(s: DesiredState): Standing {
    Standing(s.env.agentId, s.env.clusterId, s.env.installationId, s.env.recoveryGeneration, s.env.epoch, s.cursor,
      s.scope, s.complete)
  }

  /**
   * Comparing blanked, sorted clones decides equality of position and of the configuration as maps; so the
   * comparison is an equivalence that cannot see list order, node config, overlay or session metadata.
   */
  lemma ConfigurationEqualMeaning(a: DesiredState, b: DesiredState)
    ensures ConfigurationEqual(a, b) <==> ConfigOf(a) == ConfigOf(b) && StandingOf(a) == StandingOf(b)
  {
    CanonicalDetermined(EachWithoutOverlay(a.services), EachWithoutOverlay(b.services), ServiceKey);
    CanonicalDetermined(a.volumes, b.volumes, VolumeKey);
  }

  lemma {:induction false} DistinctOnce<T>(s: seq<T>, key: T -> string, x: T)
    requires DistinctKeys(s, key)
    ensures multiset(s)[x] <= 1
  {
    if s != [] {
      var front, last := s[..|s| - 1], s[|s| - 1];
      assert s == front + [last];
      DistinctOnce(front, key, x);
      assert forall i :: 0 <= i < |front| ==> key(s[i]) != key(last) && front[i] == s[i];
      assert last !in front;
    }
  }

  lemma TwiceCounts<T>(t: seq<T>, i: nat, j: nat)
    requires i < j < |t| && t[i] == t[j]
    ensures multiset(t)[t[i]] >= 2
  {
    assert t == t[..j] + [t[j]] + t[j + 1..];
    assert t[i] in t[..j];
  }

  lemma IndexOfRearranged<T>(s: seq<T>, t: seq<T>, key: T -> string)
    requires DistinctKeys(s, key) && multiset(s) == multiset(t)
    ensures DistinctKeys(t, key) && Index(t, key) == Index(s, key)
  {
    forall y ensures y in s <==> y in t {
      assert y in s <==> y in multiset(s);
      assert y in t <==> y in multiset(t);
    }
    forall i, j | 0 <= i < j < |t| ensures key(t[i]) != key(t[j]) {
      assert t[i] in t && t[j] in t;
      var a :| 0 <= a < |s| && s[a] == t[i];
      var b :| 0 <= b < |s| && s[b] == t[j];
      if key(t[i]) == key(t[j]) {
        TwiceCounts(t, i, j);
        DistinctOnce(s, key, t[i]);
      }
    }
    IndexDomain(s, key);
    forall y | y in t ensures key(y) in Index(s, key) && Index(s, key)[key(y)] == y {
      var k :| 0 <= k < |s| && s[k] == y;
      IndexAt(s, key, k);
    }
    IndexOfSorted(t, key, Index(s, key));
  }

  lemma OverlayKeepsOrder(s: seq<DesiredService>, t: seq<DesiredService>)
    requires DistinctKeys(s, ServiceKey) && multiset(s) == multiset(t)
    ensures Index(EachWithoutOverlay(s), ServiceKey) == Index(EachWithoutOverlay(t), ServiceKey)
  {
    IndexOfRearranged(s, t, ServiceKey);
    IndexWithoutOverlay(s);
    IndexWithoutOverlay(t);
  }

  function MapWithoutOverlay(m: map<string, DesiredService>): map<string, DesiredService> {
    map k | k in m :: WithoutOverlay(m[k])
  }

  lemma {:induction false} IndexWithoutOverlay(s: seq<DesiredService>)
    ensures Index(EachWithoutOverlay(s), ServiceKey) == MapWithoutOverlay(Index(s, ServiceKey))
  {
    if s != [] {
      IndexWithoutOverlay(s[..|s| - 1]);
      assert EachWithoutOverlay(s)[..|s| - 1] == EachWithoutOverlay(s[..|s| - 1]);
    }
  }

  /** A repair checkpoint lists services and volumes in any order. */
  lemma ConfigurationIgnoresOrder(a: DesiredState, b: DesiredState)
    requires ValidServices(a.services) && ValidVolumes(a.volumes)
    requires multiset(a.services) == multiset(b.services) && multiset(a.volumes) == multiset(b.volumes)
    requires StandingOf(a) == StandingOf(b)
    ensures ConfigurationEqual(a, b)
  {
    OverlayKeepsOrder(a.services, b.services);
    IndexOfRearranged(a.volumes, b.volumes, VolumeKey);
    ConfigurationEqualMeaning(a, b);
  }

  lemma EachWithoutCredentialsSame(services: seq<DesiredService>)
    requires ValidServices(services)
    ensures EachWithoutCredentials(services) == services
  {
    forall i | 0 <= i < |services| ensures EachWithoutCredentials(services)[i] == services[i] {
    }
  }

  lemma CanonicalServicesValid(services: seq<DesiredService>)
    requires ValidServices(services)
    ensures ValidServices(Canonical(services, ServiceKey))
    ensures ListedIds(Canonical(services, ServiceKey)) == ListedIds(services)
  {
    var sorted := Canonical(services, ServiceKey);
    CanonicalIndex(services, ServiceKey);
    SortedIsDistinct(sorted, ServiceKey);
    IndexDomain(services, ServiceKey);
    IndexDomain(sorted, ServiceKey);
    forall i | 0 <= i < |sorted| ensures ValidRuntimeId(sorted[i].allocationId) && CompleteService(sorted[i]) {
      assert sorted[i] in sorted;
    }
  }

  lemma CanonicalVolumesValid(volumes: seq<DesiredVolume>)
    requires ValidVolumes(volumes)
    ensures ValidVolumes(Canonical(volumes, VolumeKey))
  {
    var sorted := Canonical(volumes, VolumeKey);
    CanonicalIndex(volumes, VolumeKey);
    SortedIsDistinct(sorted, VolumeKey);
    forall i | 0 <= i < |sorted| ensures ValidRuntimeId(sorted[i].volumeId) {
      assert sorted[i] in sorted;
    }
  }

  /** Storing a valid checkpoint cleaned keeps it valid, and keeps its configuration and allocations. */
  lemma CleanedKeeps(ext: Externals, state: DesiredState)
    requires ValidState(ext, state)
    ensures ValidState(ext, Cleaned(state))
    ensures ListedIds(Cleaned(state).services) == ListedIds(state.services)
    ensures ConfigurationEqual(Cleaned(state), state)
    ensures Sorted(Cleaned(state).services, ServiceKey) && Sorted(Cleaned(state).volumes, VolumeKey)
    ensures multiset(Cleaned(state).services) == multiset(state.services)
    ensures multiset(Cleaned(state).volumes) == multiset(state.volumes)
  {
    var clean := Cleaned(state);
    EachWithoutCredentialsSame(state.services);
    CanonicalServicesValid(state.services);
    CanonicalVolumesValid(state.volumes);
    CanonicalIndex(state.services, ServiceKey);
    CanonicalIndex(state.volumes, VolumeKey);
    CanonicalPermutes(state.services, ServiceKey);
    CanonicalPermutes(state.volumes, VolumeKey);
    IndexWithoutOverlay(state.services);
    IndexWithoutOverlay(clean.services);
    ConfigurationEqualMeaning(clean, state);
  }

  // ---------------------------------------------------------------- diffs

  function Without<T>(s: seq<T>, ids: set<string>, key: T -> string): seq<T> {
    if s == [] then []
    else if key(s[|s| - 1]) in ids then Without(s[..|s| - 1], ids, key)
    else Without(s[..|s| - 1], ids, key) + [s[|s| - 1]]
  }

  /** The state a diff leaves: the kept, started and updated entries in key order, at the diff's position. */
  function ApplyDiff(previous: DesiredState, diff: AllocationDiff): DesiredState {
    previous.(
      env := previous.env.(epoch := diff.env.epoch, sessionId := diff.env.sessionId, notAfter := diff.env.notAfter),
      cursor := diff.target,
      generatedAt := diff.generatedAt,
      services := Canonical(Without(previous.services, Keys(diff.stops, Itself), ServiceKey) + diff.starts
        + diff.updates, ServiceKey),
      volumes := Canonical(Without(previous.volumes, Keys(diff.volumeStops, Itself), VolumeKey) + diff.volumeStarts,
        VolumeKey))
  }

  /** A diff as an update of maps. */
  function ChangedServices(m: map<string, DesiredService>, diff: AllocationDiff): map<string, DesiredService> {
    (m - Keys(diff.stops, Itself)) + Index(diff.starts, ServiceKey) + Index(diff.updates, ServiceKey)
  }

  function ChangedVolumes(m: map<string, DesiredVolume>, diff: AllocationDiff): map<string, DesiredVolume> {
    (m - Keys(diff.volumeStops, Itself)) + Index(diff.volumeStarts, VolumeKey)
  }

  lemma {:induction false} IndexConcat<T>(s: seq<T>, t: seq<T>, key: T -> string)
    ensures Index(s + t, key) == Index(s, key) + Index(t, key)
  {
    if t == [] {
      assert s + t == s;
    } else {
      IndexConcat(s, t[..|t| - 1], key);
      assert (s + t)[..|s + t| - 1] == s + t[..|t| - 1];
    }
  }

  lemma {:induction false} IndexWithout<T>(s: seq<T>, ids: set<string>, key: T -> string)
    ensures Index(Without(s, ids, key), key) == Index(s, key) - ids
    ensures forall y :: y in Without(s, ids, key) ==> y in s
  {
    if s != [] {
      IndexWithout(s[..|s| - 1], ids, key);
    }
  }

  /** Applying a diff to the sorted lists is updating the maps they stand for; the lists stay sorted. */
  lemma ApplyDiffRefinesMapUpdate(previous: DesiredState, diff: AllocationDiff)
    ensures var next := ApplyDiff(previous, diff);
      && Sorted(next.services, ServiceKey) && Sorted(next.volumes, VolumeKey)
      && Index(next.services, ServiceKey) == ChangedServices(Index(previous.services, ServiceKey), diff)
      && Index(next.volumes, VolumeKey) == ChangedVolumes(Index(previous.volumes, VolumeKey), diff)
  {
    var kept := Without(previous.services, Keys(diff.stops, Itself), ServiceKey);
    IndexWithout(previous.services, Keys(diff.stops, Itself), ServiceKey);
    IndexConcat(kept, diff.starts, ServiceKey);
    IndexConcat(kept + diff.starts, diff.updates, ServiceKey);
    CanonicalIndex(kept + diff.starts + diff.updates, ServiceKey);
    var keptVolumes := Without(previous.volumes, Keys(diff.volumeStops, Itself), VolumeKey);
    IndexWithout(previous.volumes, Keys(diff.volumeStops, Itself), VolumeKey);
    IndexConcat(keptVolumes, diff.volumeStarts, VolumeKey);
    CanonicalIndex(keptVolumes + diff.volumeStarts, VolumeKey);
  }

  lemma MapPartsCommute<T>(m: map<string, T>, gone: set<string>, a: map<string, T>, b: map<string, T>)
    requires a.Keys !! b.Keys && gone !! a.Keys && gone !! b.Keys
    ensures (m - gone) + a + b == (m - gone) + b + a
    ensures (m - gone) + a + b == ((m + a) - gone) + b
    ensures (m - gone) + a + b == ((m + b) - gone) + a
    ensures (m - gone) + a + b == (m + a + b) - gone
    ensures (m - gone) + a + b == (m + b + a) - gone
  {
    assert ((m - gone) + a + b).Keys == ((m.Keys - gone) + a.Keys + b.Keys);
  }

  lemma MapWithoutOverlayDrop(m: map<string, DesiredService>, gone: set<string>)
    ensures MapWithoutOverlay(m - gone) == MapWithoutOverlay(m) - gone
  {
  }

  lemma MapWithoutOverlayAdd(a: map<string, DesiredService>, b: map<string, DesiredService>)
    ensures MapWithoutOverlay(a + b) == MapWithoutOverlay(a) + MapWithoutOverlay(b)
  {
  }

  /** A valid diff names each allocation once, so the order of its three parts does not matter. */
  lemma PartsCommute(m: map<string, DesiredService>, diff: AllocationDiff)
    requires ValidDiff(diff)
    ensures var stops, starts, updates := Keys(diff.stops, Itself), Index(diff.starts, ServiceKey),
      Index(diff.updates, ServiceKey);
      && ChangedServices(m, diff) == (m - stops) + updates + starts
      && ChangedServices(m, diff) == ((m + starts) - stops) + updates
      && ChangedServices(m, diff) == ((m + updates) - stops) + starts
      && ChangedServices(m, diff) == (m + starts + updates) - stops
      && ChangedServices(m, diff) == (m + updates + starts) - stops
  {
    IndexDomain(diff.starts, ServiceKey);
    IndexDomain(diff.updates, ServiceKey);
    MapPartsCommute(m, Keys(diff.stops, Itself), Index(diff.starts, ServiceKey), Index(diff.updates, ServiceKey));
  }

  /** A diff has a meaning on configurations: states that configure the same thing still do after it. */
  function ChangedConfig(c: Config, diff: AllocationDiff): Config {
    Config(
      (c.services - Keys(diff.stops, Itself)) + Index(EachWithoutOverlay(diff.starts), ServiceKey)
        + Index(EachWithoutOverlay(diff.updates), ServiceKey),
      ChangedVolumes(c.volumes, diff))
  }

  lemma ApplyDiffRespectsConfig(previous: DesiredState, diff: AllocationDiff)
    ensures ConfigOf(ApplyDiff(previous, diff)) == ChangedConfig(ConfigOf(previous), diff)
  {
    ApplyDiffRefinesMapUpdate(previous, diff);
    IndexWithoutOverlay(previous.services);
    IndexWithoutOverlay(ApplyDiff(previous, diff).services);
    IndexWithoutOverlay(diff.starts);
    IndexWithoutOverlay(diff.updates);
    var kept := Index(previous.services, ServiceKey) - Keys(diff.stops, Itself);
    MapWithoutOverlayDrop(Index(previous.services, ServiceKey), Keys(diff.stops, Itself));
    MapWithoutOverlayAdd(kept, Index(diff.starts, ServiceKey));
    MapWithoutOverlayAdd(kept + Index(diff.starts, ServiceKey), Index(diff.updates, ServiceKey));
  }

  lemma ApplyDiffRespectsEquality(a: DesiredState, b: DesiredState, diff: AllocationDiff)
    requires ConfigurationEqual(a, b)
    ensures ConfigurationEqual(ApplyDiff(a, diff), ApplyDiff(b, diff))
  {
    ConfigurationEqualMeaning(a, b);
    ApplyDiffRespectsConfig(a, diff);
    ApplyDiffRespectsConfig(b, diff);
    ConfigurationEqualMeaning(ApplyDiff(a, diff), ApplyDiff(b, diff));
  }

  lemma MergedServicesValid(
      previous: seq<DesiredService>, gone: set<string>, starts: seq<DesiredService>, updates: seq<DesiredService>)
    requires ValidServices(previous) && ValidServices(starts) && ValidServices(updates)
    ensures ValidServices(Canonical(Without(previous, gone, ServiceKey) + starts + updates, ServiceKey))
  {
    var all := Without(previous, gone, ServiceKey) + starts + updates;
    var merged := Canonical(all, ServiceKey);
    IndexWithout(previous, gone, ServiceKey);
    CanonicalIndex(all, ServiceKey);
    SortedIsDistinct(merged, ServiceKey);
    forall i | 0 <= i < |merged| ensures ValidRuntimeId(merged[i].allocationId) && CompleteService(merged[i]) {
      assert merged[i] in all;
      assert merged[i] in previous || merged[i] in starts || merged[i] in updates;
    }
  }

  lemma MergedVolumesValid(previous: seq<DesiredVolume>, gone: set<string>, starts: seq<DesiredVolume>)
    requires ValidVolumes(previous) && ValidVolumes(starts)
    ensures ValidVolumes(Canonical(Without(previous, gone, VolumeKey) + starts, VolumeKey))
  {
    var all := Without(previous, gone, VolumeKey) + starts;
    var merged := Canonical(all, VolumeKey);
    IndexWithout(previous, gone, VolumeKey);
    CanonicalIndex(all, VolumeKey);
    SortedIsDistinct(merged, VolumeKey);
    forall i | 0 <= i < |merged| ensures ValidRuntimeId(merged[i].volumeId) {
      assert merged[i] in all;
      assert merged[i] in previous || merged[i] in starts;
    }
  }

  /** The validation that follows a merge never fails. */
  lemma ApplyDiffValid(ext: Externals, previous: DesiredState, diff: AllocationDiff)
    requires ValidState(ext, previous) && ValidDiff(diff)
    ensures ValidState(ext, ApplyDiff(previous, diff))
  {
    MergedServicesValid(previous.services, Keys(diff.stops, Itself), diff.starts, diff.updates);
    MergedVolumesValid(previous.volumes, Keys(diff.volumeStops, Itself), diff.volumeStarts);
  }

  /** Stores a list in a map, entry by entry. */
  method IndexList<T(==)>(m: map<string, T>, s: seq<T>, key: T -> string) returns (r: map<string, T>)
    ensures r == m + Index(s, key)
  {
    r := m;
    for i := 0 to |s|
      invariant r == m + Index(s[..i], key)
    {
      r := r[key(s[i]) := s[i]];
      assert s[..i + 1][..i] == s[..i];
    }
    assert s[..|s|] == s;
  }

  method DropKeys<T>(m: map<string, T>, ids: seq<string>) returns (r: map<string, T>)
    ensures r == m - Keys(ids, Itself)
  {
    r := m;
    for i := 0 to |ids|
      invariant r == m - Keys(ids[..i], Itself)
    {
      r := r - {ids[i]};
      assert Keys(ids[..i + 1], Itself) == Keys(ids[..i], Itself) + {ids[i]};
    }
    assert ids[..|ids|] == ids;
  }

  /** The values of a map in the arbitrary order a map is iterated in. */
  method Values<T(==)>(m: map<string, T>, key: T -> string) returns (s: seq<T>)
    requires forall k :: k in m ==> key(m[k]) == k
    ensures DistinctKeys(s, key) && Index(s, key) == m
  {
    s := [];
    var left := m.Keys;
    while left != {}
      invariant left <= m.Keys
      invariant DistinctKeys(s, key)
      invariant Index(s, key) == map k | k in m && k !in left :: m[k]
      decreases |left|
    {
      var k :| k in left;
      IndexDomain(s, key);
      forall i | 0 <= i < |s| ensures key(s[i]) != k {
        assert key(s[i]) in Keys(s, key);
      }
      assert (s + [m[k]])[..|s|] == s;
      s := s + [m[k]];
      left := left - {k};
    }
  }

  method MergeServices(previous: seq<DesiredService>, diff: AllocationDiff) returns (merged: seq<DesiredService>)
    ensures Index(merged, ServiceKey) == ChangedServices(Index(previous, ServiceKey), diff)
  {
    var services := IndexList(map[], previous, ServiceKey);
    assert services == Index(previous, ServiceKey);
    services := DropKeys(services, diff.stops);
    services := IndexList(services, diff.starts, ServiceKey);
    services := IndexList(services, diff.updates, ServiceKey);
    IndexDomain(previous, ServiceKey);
    IndexDomain(diff.starts, ServiceKey);
    IndexDomain(diff.updates, ServiceKey);
    merged := Values(services, ServiceKey);
  }

  method MergeVolumes(previous: seq<DesiredVolume>, diff: AllocationDiff) returns (merged: seq<DesiredVolume>)
    ensures Index(merged, VolumeKey) == ChangedVolumes(Index(previous, VolumeKey), diff)
  {
    var volumes := IndexList(map[], previous, VolumeKey);
    assert volumes == Index(previous, VolumeKey);
    volumes := DropKeys(volumes, diff.volumeStops);
    volumes := IndexList(volumes, diff.volumeStarts, VolumeKey);
    IndexDomain(previous, VolumeKey);
    IndexDomain(diff.volumeStarts, VolumeKey);
    merged := Values(volumes, VolumeKey);
  }

  /** Merges a diff by way of maps; whatever order the maps are walked in, the result is the same. */
  method ApplyDiffToState(previous: DesiredState, diff: AllocationDiff) returns (merged: DesiredState)
    ensures merged == ApplyDiff(previous, diff)
  {
    var services := MergeServices(previous.services, diff);
    var volumes := MergeVolumes(previous.volumes, diff);
    merged := previous.(
      env := previous.env.(epoch := diff.env.epoch, sessionId := diff.env.sessionId, notAfter := diff.env.notAfter),
      cursor := diff.target, generatedAt := diff.generatedAt, services := services, volumes := volumes);
    merged := Canonicalized(merged);
    ghost var want := ApplyDiff(previous, diff);
    ApplyDiffRefinesMapUpdate(previous, diff);
    CanonicalDetermined(services, want.services, ServiceKey);
    CanonicalDetermined(volumes, want.volumes, VolumeKey);
  }
}
