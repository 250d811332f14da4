/** The control-plane messages and runtime records the agent stores, as values. */
module Messages {
  import opened Strings
  import opened Keyed

  /** What every agent-scoped command carries: identities, the authority epoch and the end of its grant. */
  datatype Envelope = Envelope(
    agentId: string, clusterId: string, sessionId: string,
    installationId: string, recoveryGeneration: string,
    epoch: nat, notAfter: Option<int>)

  datatype Scope = AgentScope | OtherScope

  datatype Intent = Run | Drain | Sleep

  datatype InternalHost = InternalHost(hostname: string, ipv4: string, ipv6: string)

  datatype ServiceSpec = ServiceSpec(image: string, healthCheck: bool, livenessCheck: bool, rest: string)

  datatype DesiredService = DesiredService(
    allocationId: string, serviceId: string, environmentId: string, deploymentId: string,
    specRevision: int, rolloutGeneration: int, spec: ServiceSpec,
    ipv4: string, ipv6: string, networkIdentity: nat, volumeId: string,
    registryUsername: string, registryPassword: string,
    internalHosts: seq<InternalHost>, restartObservation: Option<string>,
    operatorRestartNonce: int, intent: Intent, drainDeadline: Option<int>, createdAt: Option<int>)

  datatype DesiredVolume = DesiredVolume(volumeId: string, environmentId: string, name: string, sizeBytes: int,
    destroy: bool)

  datatype NodeConfig = NodeConfig(
    workloadIpv4Subnet: string, workloadIpv6Subnet: string, wireguardAddresses: seq<string>, rest: string)

  /** A complete checkpoint, and also the accepted state the store keeps. */
  datatype DesiredState = DesiredState(
    env: Envelope, cursor: int, services: seq<DesiredService>, volumes: seq<DesiredVolume>,
    generatedAt: Option<int>, nodeConfig: Option<NodeConfig>, nodeConfigVersion: string,
    scope: Scope, complete: bool)

  datatype AllocationDiff = AllocationDiff(
    env: Envelope, base: int, target: int, generatedAt: Option<int>,
    starts: seq<DesiredService>, updates: seq<DesiredService>, stops: seq<string>,
    volumeStarts: seq<DesiredVolume>, volumeStops: seq<string>)

  datatype NodeConfigUpdate = NodeConfigUpdate(env: Envelope, version: string, config: Option<NodeConfig>)

  datatype AllocationCredential = AllocationCredential(allocationId: string, username: string, password: string)

  datatype PullCredentialSet = PullCredentialSet(env: Envelope, version: string, credentials: seq<AllocationCredential>)

  datatype ReplicaEndpoints = ReplicaEndpoints(env: Envelope, version: string, addresses: seq<string>)

  datatype ServiceCondition = ServiceCondition(
    allocationId: string, serviceId: string,
    desiredSpecRevision: int, appliedSpecRevision: int,
    desiredGeneration: int, appliedGeneration: int,
    ipv4: string, ipv6: string, healthy: bool, phase: string, detail: string)

  datatype VolumeCondition = VolumeCondition(volumeId: string, detail: string)

  datatype WakeDemand = WakeDemand(allocationId: string, packets: nat)

  datatype StatusReport = StatusReport(
    agentId: string, services: seq<ServiceCondition>, volumes: seq<VolumeCondition>, wakeDemands: seq<WakeDemand>,
    recoveryMode: bool, installationId: string, recoveryGeneration: string,
    sessionId: string, sequence: nat, epoch: nat, cursor: int)

  datatype RuntimeResource = RuntimeResource(
    allocationId: string, runtimeId: string, serviceId: string, environmentId: string, deploymentId: string,
    specRevision: int, rolloutGeneration: int, ipv4: string, ipv6: string, networkIdentity: nat, createdAt: int)

  datatype NetworkReservation = NetworkReservation(environmentId: string, identity: nat, prefix: string)

  /** Host-admin admission of a recovery generation. */
  datatype Authority = Authority(
    installationId: string, generation: string, clusterId: string, paused: bool, checkpoints: bool)

  /**
   * Code outside the agent whose results are arbitrary here: the content hashes, the parsing of an address
   * prefix down to its host prefix, and the JSON text by which reservations are ordered.
   */
  datatype Externals = Externals(
    hashNodeConfig: Option<NodeConfig> -> string,
    hashCredentials: seq<AllocationCredential> -> string,
    hashReplicas: seq<string> -> string,
    hashOverlay: seq<DesiredService> -> string,
    hostPrefix: string -> Option<string>,
    reservationText: NetworkReservation -> string)

  function ServiceKey(s: DesiredService): string { s.allocationId }
  function VolumeKey(v: DesiredVolume): string { v.volumeId }
  function ConditionKey(c: ServiceCondition): string { c.allocationId }
  function CredentialKey(c: AllocationCredential): string { c.allocationId }

  /** The allocations a state lists. */
  function ListedIds(services: seq<DesiredService>): set<string> {
    Keys(services, ServiceKey)
  }

  const MAX_RUNTIME_ID_LENGTH := 128

  predicate RuntimeIdChar(c: char) {
    'a' <= c <= 'z' || 'A' <= c <= 'Z' || '0' <= c <= '9' || c == '-' || c == '_' || c == '.'
  }

  /** Identifiers that may name files and containers. */
  predicate ValidRuntimeId(id: string) {
    && 0 < |id| <= MAX_RUNTIME_ID_LENGTH
    && (forall i :: 0 <= i < |id| ==> RuntimeIdChar(id[i]))
    && id != "." && id != ".."
  }
}
