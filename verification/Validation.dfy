/** Checks on incoming state and diffs, and on the grant a command travels under. */
module Validation {
  import opened Strings
  import opened Keyed
  import opened Messages

  /** Nanoseconds. */
  const GRANT_LIFETIME := 15_000_000_000
  const MAX_CLOCK_SKEW := 1_000_000_000

  /** The command belongs to this session and its grant is neither expired nor implausibly long. */
  predicate GrantHolds(env: Envelope, sessionId: string, now: int) {
    && sessionId != "" && env.sessionId == sessionId
    && env.notAfter.Some?
    && now + MAX_CLOCK_SKEW < env.notAfter.value <= now + GRANT_LIFETIME + MAX_CLOCK_SKEW
  }

  predicate CompleteService(s: DesiredService) {
    && !Blank(s.serviceId) && s.specRevision > 0 && s.rolloutGeneration > 0
    && s.registryUsername == "" && s.registryPassword == ""
  }

  ghost predicate ValidServices(services: seq<DesiredService>) {
    && DistinctKeys(services, ServiceKey)
    && forall i :: 0 <= i < |services| ==> ValidRuntimeId(services[i].allocationId) && CompleteService(services[i])
  }

  ghost predicate ValidVolumes(volumes: seq<DesiredVolume>) {
    && DistinctKeys(volumes, VolumeKey)
    && forall i :: 0 <= i < |volumes| ==> ValidRuntimeId(volumes[i].volumeId)
  }

  predicate ValidHeader(ext: Externals, state: DesiredState) {
    && state.env.clusterId != ""
    && state.scope == AgentScope && state.complete
    && !Blank(state.env.agentId)
    && state.env.epoch > 0
    && state.cursor >= 0
    && state.nodeConfig.Some?
    && !Blank(state.nodeConfigVersion)
    && ext.hashNodeConfig(state.nodeConfig) == state.nodeConfigVersion
  }

  ghost predicate ValidState(ext: Externals, state: DesiredState) {
    ValidHeader(ext, state) && ValidServices(state.services) && ValidVolumes(state.volumes)
  }

  /** The set of keys seen so far grows with a list exactly while its keys stay distinct. */
  lemma SeenGrows<T>(s: seq<T>, key: T -> string, i: nat)
    requires i < |s| && DistinctKeys(s[..i], key)
    ensures key(s[i]) !in Keys(s[..i], key) <==> DistinctKeys(s[..i + 1], key)
    ensures Keys(s[..i + 1], key) == Keys(s[..i], key) + {key(s[i])}
  {
    var front, all := s[..i], s[..i + 1];
    assert all == front + [s[i]];
    if key(s[i]) in Keys(front, key) {
      var j :| 0 <= j < |front| && key(front[j]) == key(s[i]);
      assert key(all[j]) == key(all[i]);
    }
  }

  lemma DistinctPrefix<T>(s: seq<T>, key: T -> string, i: nat)
    requires i <= |s| && DistinctKeys(s, key)
    ensures DistinctKeys(s[..i], key)
  {
  }

  /** One more service keeps a checked prefix valid exactly when the loop's own tests pass. */
  lemma ServicesGrow(services: seq<DesiredService>, seen: set<string>, i: nat)
    requires i < |services| && ValidServices(services[..i]) && ListedIds(services[..i]) !! seen
    ensures ListedIds(services[..i + 1]) == ListedIds(services[..i]) + {services[i].allocationId}
    ensures (ValidServices(services[..i + 1]) && ListedIds(services[..i + 1]) !! seen)
       <==> (&& ValidRuntimeId(services[i].allocationId) && CompleteService(services[i])
             && services[i].allocationId !in seen + ListedIds(services[..i]))
  {
    SeenGrows(services, ServiceKey, i);
    assert services[..i + 1] == services[..i] + [services[i]];
  }

  lemma ServicesPrefix(services: seq<DesiredService>, seen: set<string>, i: nat)
    requires i <= |services| && ValidServices(services) && ListedIds(services) !! seen
    ensures ValidServices(services[..i]) && ListedIds(services[..i]) !! seen
  {
    DistinctPrefix(services, ServiceKey, i);
    forall id | id in ListedIds(services[..i]) ensures id in ListedIds(services) {
      var j :| 0 <= j < i && ServiceKey(services[j]) == id;
    }
  }

  method CheckServices(services: seq<DesiredService>, seen: set<string>) returns (ok: bool, all: set<string>)
    ensures ok <==> ValidServices(services) && ListedIds(services) !! seen
    ensures ok ==> all == seen + ListedIds(services)
  {
    all := seen;
    for i := 0 to |services|
      invariant ValidServices(services[..i]) && ListedIds(services[..i]) !! seen
      invariant all == seen + ListedIds(services[..i])
    {
      var service := services[i];
      ServicesGrow(services, seen, i);
      if !ValidRuntimeId(service.allocationId) || service.allocationId in all || !CompleteService(service) {
        if ValidServices(services) && ListedIds(services) !! seen {
          ServicesPrefix(services, seen, i + 1);
        }
        return false, all;
      }
      all := all + {service.allocationId};
    }
    assert services[..|services|] == services;
    return true, all;
  }

  method CheckVolumes(volumes: seq<DesiredVolume>) returns (ok: bool, all: set<string>)
    ensures ok <==> ValidVolumes(volumes)
    ensures ok ==> all == Keys(volumes, VolumeKey)
  {
    all := {};
    for i := 0 to |volumes|
      invariant ValidVolumes(volumes[..i])
      invariant all == Keys(volumes[..i], VolumeKey)
    {
      if ValidVolumes(volumes) {
        DistinctPrefix(volumes, VolumeKey, i + 1);
      }
      SeenGrows(volumes, VolumeKey, i);
      if !ValidRuntimeId(volumes[i].volumeId) || volumes[i].volumeId in all {
        return false, all;
      }
      all := all + {volumes[i].volumeId};
    }
    assert volumes[..|volumes|] == volumes;
    return true, all;
  }

  function Itself(id: string): string { id }

  ghost predicate ValidIds(ids: seq<string>) {
    DistinctKeys(ids, Itself) && forall i :: 0 <= i < |ids| ==> ValidRuntimeId(ids[i])
  }

  method CheckIds(ids: seq<string>, seen: set<string>) returns (ok: bool)
    ensures ok <==> ValidIds(ids) && Keys(ids, Itself) !! seen
  {
    var all := seen;
    for i := 0 to |ids|
      invariant ValidIds(ids[..i]) && Keys(ids[..i], Itself) !! seen
      invariant all == seen + Keys(ids[..i], Itself)
    {
      if ValidIds(ids) && Keys(ids, Itself) !! seen {
        DistinctPrefix(ids, Itself, i + 1);
        assert Itself(ids[i]) in Keys(ids, Itself);
      }
      SeenGrows(ids, Itself, i);
      if !ValidRuntimeId(ids[i]) || ids[i] in all {
        return false;
      }
      all := all + {ids[i]};
    }
    assert ids[..|ids|] == ids;
    return true;
  }

  method ValidateDesiredState(ext: Externals, state: DesiredState) returns (ok: bool)
    ensures ok <==> ValidState(ext, state)
  {
    if !ValidHeader(ext, state) {
      return false;
    }
    var services, _ := CheckServices(state.services, {});
    var volumes, _ := CheckVolumes(state.volumes);
    return services && volumes;
  }

  predicate ValidDiffHeader(diff: AllocationDiff) {
    !Blank(diff.env.agentId) && diff.env.clusterId != "" && diff.env.epoch > 0 && 0 <= diff.base < diff.target
  }

  /** Starts, updates and stops name each allocation once between them; so do volume starts and stops. */
  ghost predicate ValidDiff(diff: AllocationDiff) {
    && ValidDiffHeader(diff)
    && ValidServices(diff.starts) && ValidServices(diff.updates) && ValidIds(diff.stops)
    && ListedIds(diff.updates) !! ListedIds(diff.starts)
    && Keys(diff.stops, Itself) !! (ListedIds(diff.starts) + ListedIds(diff.updates))
    && ValidVolumes(diff.volumeStarts) && ValidIds(diff.volumeStops)
    && Keys(diff.volumeStops, Itself) !! Keys(diff.volumeStarts, VolumeKey)
  }

  method ValidateAllocationDiff(diff: AllocationDiff) returns (ok: bool)
    ensures ok <==> ValidDiff(diff)
  {
    if !ValidDiffHeader(diff) {
      return false;
    }
    var starts, seen := CheckServices(diff.starts, {});
    if !starts {
      return false;
    }
    var updates, seenBoth := CheckServices(diff.updates, seen);
    if !updates {
      return false;
    }
    var stops := CheckIds(diff.stops, seenBoth);
    if !stops {
      return false;
    }
    var volumes, volumeSeen := CheckVolumes(diff.volumeStarts);
    if !volumes {
      return false;
    }
    ok := CheckIds(diff.volumeStops, volumeSeen);
  }
}
