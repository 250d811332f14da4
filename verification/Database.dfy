/**
 * The agent's local database as a value, and each of its transactions as a function from the content before
 * to the content after. A transaction that fails leaves the content as it was.
 */
module Database {
  import opened Strings
  import opened Keyed
  import opened Messages
  import opened Validation
  import opened Configuration

  datatype Initialization = Unset | Uninitialized | Ready | Recovery | Unknown(raw: string)

  datatype Discovery = Discovery(seeds: seq<string>, replicas: seq<string>)

  /** The meta bucket; an absent number reads as zero and an absent text as empty. */
  datatype Meta = Meta(
    formatVersion: nat, storeId: string, init: Initialization, agentId: string,
    clusterId: string, identityRecovery: bool, sessionIncarnation: nat,
    installationId: string, recoveryGeneration: string, retired: set<string>,
    checkpointRequired: bool, checkpointApproved: bool,
    highestEpoch: nat, acceptedEpoch: nat, cursor: int,
    nodeConfigVersion: string, credentialsVersion: string, replicasVersion: string,
    discovery: Discovery, retainedNetwork: seq<NetworkReservation>)

  datatype DesiredBucket = DesiredBucket(
    accepted: Option<DesiredState>,
    stagedState: Option<DesiredState>, stagedDiff: Option<AllocationDiff>, stagedNodeConfig: Option<NodeConfigUpdate>)

  datatype PullCredential = PullCredential(username: string, password: string)

  datatype LocalAllocation = LocalAllocation(
    serviceId: string, environmentId: string, deploymentId: string, ipv4: string, ipv6: string,
    networkIdentity: nat, createdAt: int, allocationId: string, runtimeId: string,
    desiredSpecRevision: int, appliedSpecRevision: int, desiredGeneration: int, appliedGeneration: int, phase: string)

  datatype Observations = Observations(report: Option<StatusReport>, sequence: nat, reportEpoch: nat, reportCursor: int)

  datatype Db = Db(
    meta: Meta, desired: DesiredBucket, credentials: map<string, PullCredential>,
    allocations: map<string, LocalAllocation>, observations: Observations, inventory: map<string, RuntimeResource>)

  const EMPTY_DB := Db(
    Meta(0, "", Unset, "", "", false, 0, "", "", {}, false, false, 0, 0, 0, "", "", "", Discovery([], []), []),
    DesiredBucket(None, None, None, None), map[], map[], Observations(None, 0, 0, 0), map[])

  const FORMAT_VERSION := 3
  const MAX_INT64 := 0x7FFF_FFFF_FFFF_FFFF

  datatype Reason =
    | Missing | IdentityFlagged | ForeignAgent | ForeignCluster | ForeignSession | ForeignGeneration
    | StaleEpoch | StaleCursor | Invalid | GrantExpired | NotStaged | NoCluster | ChangedAtCursor
    | CheckpointRequired | BaseMismatch | NoCheckpoint | Exhausted | Retired | ForeignInstallation

  datatype Outcome = Done(changed: bool) | Refused(why: Reason)

  datatype Tx = Tx(db: Db, out: Outcome)

  // ---------------------------------------------------------------- fences

  function Max(a: nat, b: nat): nat { if a < b then b else a }

  /** No command below this epoch is accepted. */
  function Fence(meta: Meta): nat {
    Max(meta.acceptedEpoch, meta.highestEpoch)
  }

  predicate ClusterMismatch(meta: Meta, clusterId: string) {
    meta.clusterId != "" && clusterId != "" && meta.clusterId != clusterId
  }

  predicate SameGeneration(meta: Meta, env: Envelope) {
    env.installationId == meta.installationId && env.recoveryGeneration == meta.recoveryGeneration
  }

  /** Pins the authenticated cluster the first time one is known. */
  function Pinned(meta: Meta, clusterId: string): Meta {
    if meta.clusterId == "" then meta.(clusterId := clusterId) else meta
  }

  /** A cluster mismatch flags the store; a flagged store answers every later check with the same failure. */
  function RequireIdentityTx(db: Db, clusterId: string): Tx {
    if db.meta.identityRecovery then Tx(db, Refused(IdentityFlagged))
    else if ClusterMismatch(db.meta, clusterId) then
      Tx(db.(meta := db.meta.(identityRecovery := true, init := Recovery)), Refused(ForeignCluster))
    else Tx(db, Done(false))
  }

  function AdoptIdentityTx(db: Db, clusterId: string): Tx {
    if Blank(clusterId) then Tx(db, Refused(NoCluster))
    else if db.meta.identityRecovery then Tx(db, Refused(IdentityFlagged))
    else Tx(db.(meta := db.meta.(clusterId := clusterId)), Done(true))
  }

  function ObserveTx(db: Db, env: Envelope): Tx {
    if !SameGeneration(db.meta, env) then Tx(db, Refused(ForeignGeneration))
    else if env.epoch < Fence(db.meta) then Tx(db, Refused(StaleEpoch))
    else Tx(db.(meta := db.meta.(highestEpoch := env.epoch)), Done(true))
  }

  function NextIncarnationTx(db: Db): Tx {
    if db.meta.sessionIncarnation >= MAX_INT64 then Tx(db, Refused(Exhausted))
    else Tx(db.(meta := db.meta.(sessionIncarnation := db.meta.sessionIncarnation + 1)), Done(true))
  }

  // ---------------------------------------------------------------- allocations and inventory

  function FreshAllocation(id: string): LocalAllocation {
    LocalAllocation("", "", "", "", "", 0, 0, id, "", 0, 0, 0, 0, "")
  }

  function AllocationAt(m: map<string, LocalAllocation>, id: string): LocalAllocation {
    if id in m then m[id] else FreshAllocation(id)
  }

  function Refreshed(a: LocalAllocation, s: DesiredService): LocalAllocation {
    a.(serviceId := s.serviceId, environmentId := s.environmentId, deploymentId := s.deploymentId,
       ipv4 := s.ipv4, ipv6 := s.ipv6, networkIdentity := s.networkIdentity,
       createdAt := if s.createdAt.Some? then s.createdAt.value else a.createdAt,
       allocationId := s.allocationId, desiredSpecRevision := s.specRevision, desiredGeneration := s.rolloutGeneration)
  }

  /** The records after every desired service refreshed its own. */
  function DesiredAllocations(
      m: map<string, LocalAllocation>, services: seq<DesiredService>): map<string, LocalAllocation>
  {
    var listed := Index(services, ServiceKey);
    map id | id in m.Keys + listed.Keys :: RefreshedAt(m, listed, id)
  }

  function RefreshedAt(
      m: map<string, LocalAllocation>, listed: map<string, DesiredService>, id: string): LocalAllocation
  {
    if id in listed then Refreshed(AllocationAt(m, id), listed[id]) else AllocationAt(m, id)
  }

  function Observed(a: LocalAllocation, c: ServiceCondition): LocalAllocation {
    a.(allocationId := c.allocationId, appliedSpecRevision := c.appliedSpecRevision,
      appliedGeneration := c.appliedGeneration, phase := c.phase)
  }

  /** The records after a report: observed ones take its conditions, undesired unobserved ones are stopped. */
  function ReportedAllocations(m: map<string, LocalAllocation>, conditions: seq<ServiceCondition>, desired: set<string>)
    : map<string, LocalAllocation>
  {
    var seen := Index(conditions, ConditionKey);
    map id | id in m.Keys + seen.Keys ::
      if id in seen then Observed(AllocationAt(m, id), seen[id])
      else if id in desired then m[id]
      else m[id].(runtimeId := "", phase := "Stopped")
  }

  function ResourceKey(r: RuntimeResource): string { r.allocationId }

  function InventoryKey(r: RuntimeResource): string { "allocation:" + r.allocationId }

  ghost predicate DiscoveredResources(inventory: seq<RuntimeResource>) {
    forall i :: 0 <= i < |inventory| ==> ValidRuntimeId(inventory[i].allocationId)
  }

  /** The records after an inventory: exactly the inventoried ones have a runtime identity. */
  function InventoriedAllocations(
      m: map<string, LocalAllocation>, inventory: seq<RuntimeResource>): map<string, LocalAllocation>
  {
    var found := Index(inventory, ResourceKey);
    map id | id in m.Keys + found.Keys :: InventoriedAt(m, found, id)
  }

  function InventoriedAt(
      m: map<string, LocalAllocation>, found: map<string, RuntimeResource>, id: string): LocalAllocation
  {
    if id in found then AllocationAt(m, id).(allocationId := id, runtimeId := found[id].runtimeId)
    else AllocationAt(m, id).(runtimeId := "")
  }

  ghost function RecordInventoryTx(db: Db, inventory: seq<RuntimeResource>): Tx {
    if !DiscoveredResources(inventory) then Tx(db, Refused(Invalid))
    else Tx(db.(inventory := Index(inventory, InventoryKey),
      allocations := InventoriedAllocations(db.allocations, inventory)), Done(true))
  }

  /** Every inventoried resource is an allocation the state lists. */
  ghost predicate OwnershipEstablished(inventory: map<string, RuntimeResource>, listed: set<string>) {
    forall k :: k in inventory ==> inventory[k].allocationId in listed
  }

  /** The startup transaction that follows the identity check. */
  ghost function StartupTx(db: Db, clusterId: string, inventory: seq<RuntimeResource>): Tx {
    if ClusterMismatch(db.meta, clusterId) then Tx(db, Refused(ForeignCluster))
    else if !DiscoveredResources(inventory) then Tx(db, Refused(Invalid))
    else
      var init := if db.meta.init == Uninitialized && |inventory| > 0 then Recovery else db.meta.init;
      var recorded := RecordInventoryTx(db.(meta := Pinned(db.meta, clusterId).(init := init)), inventory);
      Tx(recorded.db, Done(true))
  }

  // ---------------------------------------------------------------- accepting desired state

  ghost function InitAfterAccept(
      init: Initialization, inventory: map<string, RuntimeResource>, state: DesiredState): Initialization
  {
    if init == Uninitialized then Ready
    else if init == Recovery && OwnershipEstablished(inventory, ListedIds(state.services)) then Ready
    else init
  }

  /** Accepting a state at its position, with the allocation records and the recovery decision that go with it. */
  ghost function Accepting(db: Db, state: DesiredState): Db {
    db.(
      meta := db.meta.(
        acceptedEpoch := state.env.epoch, cursor := state.cursor,
        init := InitAfterAccept(db.meta.init, db.inventory, state)),
      desired := db.desired.(accepted := Some(state)),
      allocations := DesiredAllocations(db.allocations, state.services))
  }

  function StageStateTx(db: Db, sessionId: string, state: DesiredState, now: int): Tx {
    if !GrantHolds(state.env, sessionId, now) then Tx(db, Refused(GrantExpired))
    else Tx(db.(desired := db.desired.(stagedState := Some(state))), Done(true))
  }

  predicate AtPosition(meta: Meta, env: Envelope, cursor: int) {
    env.epoch == meta.acceptedEpoch && cursor == meta.cursor
  }

  ghost function CommitState(db: Db, clusterId: string, state: DesiredState): Db {
    var pinned := Pinned(db.meta, clusterId).(checkpointRequired := false,
      nodeConfigVersion := state.nodeConfigVersion);
    Accepting(db.(meta := pinned, desired := db.desired.(stagedState := None)), Cleaned(state))
  }

  function StateChanged(ext: Externals, db: Db, state: DesiredState): bool {
    if AtPosition(db.meta, state.env, state.cursor) && db.desired.accepted.Some? then
      var previous := db.desired.accepted.value;
      || previous.nodeConfigVersion != state.nodeConfigVersion
      || ext.hashOverlay(previous.services) != ext.hashOverlay(Cleaned(state).services)
    else true
  }

  ghost function AcceptStateTx(
      ext: Externals, db: Db, clusterId: string, sessionId: string, state: DesiredState, now: int): Tx
  {
    if db.desired.stagedState != Some(state) then Tx(db, Refused(NotStaged))
    else if state.env.agentId != db.meta.agentId then Tx(db, Refused(ForeignAgent))
    else if ClusterMismatch(db.meta, clusterId) then Tx(db, Refused(ForeignCluster))
    else if db.meta.clusterId == "" && clusterId == "" then Tx(db, Refused(NoCluster))
    else if state.env.epoch < Fence(db.meta) then Tx(db, Refused(StaleEpoch))
    else if state.env.epoch == db.meta.acceptedEpoch && state.cursor < db.meta.cursor then Tx(db, Refused(StaleCursor))
    else if AtPosition(db.meta, state.env, state.cursor) && db.desired.accepted.Some?
         && !ConfigurationEqual(db.desired.accepted.value, Cleaned(state)) then Tx(db, Refused(ChangedAtCursor))
    else if !GrantHolds(state.env, sessionId, now) then Tx(db, Refused(GrantExpired))
    else Tx(CommitState(db, clusterId, state), Done(StateChanged(ext, db, state)))
  }

  function StageDiffTx(db: Db, sessionId: string, diff: AllocationDiff, now: int): Tx {
    if !GrantHolds(diff.env, sessionId, now) then Tx(db, Refused(GrantExpired))
    else Tx(db.(desired := db.desired.(stagedDiff := Some(diff))), Done(true))
  }

  /** A diff already applied: only its candidate goes. */
  function DiffRepeated(db: Db, clusterId: string): Db {
    db.(meta := Pinned(db.meta, clusterId), desired := db.desired.(stagedDiff := None))
  }

  ghost function CommitDiff(db: Db, clusterId: string, diff: AllocationDiff): Db
    requires db.desired.accepted.Some?
  {
    Accepting(DiffRepeated(db, clusterId), ApplyDiff(db.desired.accepted.value, diff))
  }

  ghost function AcceptDiffTx(
      ext: Externals, db: Db, clusterId: string, sessionId: string, diff: AllocationDiff, now: int): Tx
  {
    if db.desired.stagedDiff != Some(diff) then Tx(db, Refused(NotStaged))
    else if diff.env.agentId != db.meta.agentId then Tx(db, Refused(ForeignAgent))
    else if ClusterMismatch(db.meta, clusterId) then Tx(db, Refused(ForeignCluster))
    else if db.meta.clusterId == "" && clusterId == "" then Tx(db, Refused(NoCluster))
    else if diff.env.epoch < Fence(db.meta) then Tx(db, Refused(StaleEpoch))
    else if diff.target < db.meta.cursor then Tx(db, Refused(StaleCursor))
    else if diff.target == db.meta.cursor then
      if GrantHolds(diff.env, sessionId, now) then Tx(DiffRepeated(db, clusterId), Done(false))
        else Tx(db, Refused(GrantExpired))
    else if diff.base != db.meta.cursor then Tx(db, Refused(BaseMismatch))
    else if db.desired.accepted.None? then Tx(db, Refused(NoCheckpoint))
    else if !ValidState(ext, ApplyDiff(db.desired.accepted.value, diff)) then Tx(db, Refused(Invalid))
    else if !GrantHolds(diff.env, sessionId, now) then Tx(db, Refused(GrantExpired))
    else Tx(CommitDiff(db, clusterId, diff), Done(true))
  }

  function StageNodeConfigTx(db: Db, sessionId: string, update: NodeConfigUpdate, now: int): Tx {
    if !GrantHolds(update.env, sessionId, now) then Tx(db, Refused(GrantExpired))
    else Tx(db.(desired := db.desired.(stagedNodeConfig := Some(update))), Done(true))
  }

  function Reconfigured(state: DesiredState, update: NodeConfigUpdate): DesiredState {
    state.(nodeConfig := update.config, nodeConfigVersion := update.version)
  }

  function NodeConfigRepeated(db: Db, clusterId: string): Db {
    db.(meta := Pinned(db.meta, clusterId), desired := db.desired.(stagedNodeConfig := None))
  }

  function CommitNodeConfig(db: Db, clusterId: string, update: NodeConfigUpdate): Db
    requires db.desired.accepted.Some?
  {
    var repeated := NodeConfigRepeated(db, clusterId);
    repeated.(
      meta := repeated.meta.(nodeConfigVersion := update.version),
      desired := repeated.desired.(accepted := Some(Reconfigured(db.desired.accepted.value, update))))
  }

  ghost function AcceptNodeConfigTx(
      ext: Externals, db: Db, clusterId: string, sessionId: string, update: NodeConfigUpdate, now: int): Tx
  {
    if db.desired.stagedNodeConfig != Some(update) then Tx(db, Refused(NotStaged))
    else if update.env.agentId != db.meta.agentId then Tx(db, Refused(ForeignAgent))
    else if ClusterMismatch(db.meta, clusterId) then Tx(db, Refused(ForeignCluster))
    else if db.meta.clusterId == "" && clusterId == "" then Tx(db, Refused(NoCluster))
    else if update.env.epoch < Fence(db.meta) then Tx(db, Refused(StaleEpoch))
    else if db.meta.nodeConfigVersion == update.version then
      if GrantHolds(update.env, sessionId, now) then Tx(NodeConfigRepeated(db, clusterId), Done(false))
        else Tx(db, Refused(GrantExpired))
    else if db.desired.accepted.None? then Tx(db, Refused(NoCheckpoint))
    else if !ValidState(ext, Reconfigured(db.desired.accepted.value, update)) then Tx(db, Refused(Invalid))
    else if !GrantHolds(update.env, sessionId, now) then Tx(db, Refused(GrantExpired))
    else Tx(CommitNodeConfig(db, clusterId, update), Done(true))
  }

  // ---------------------------------------------------------------- credentials and replicas

  function CredentialOf(c: AllocationCredential): PullCredential { PullCredential(c.username, c.password) }

  function CredentialMap(credentials: seq<AllocationCredential>): map<string, PullCredential> {
    var found := Index(credentials, CredentialKey);
    map id | id in found :: CredentialOf(found[id])
  }

  function CredentialsStored(db: Db, clusterId: string, creds: PullCredentialSet): Db {
    db.(meta := Pinned(db.meta, clusterId).(credentialsVersion := creds.version),
      credentials := CredentialMap(creds.credentials))
  }

  function AcceptCredentialsTx(db: Db, clusterId: string, sessionId: string, creds: PullCredentialSet, now: int): Tx {
    var pinned := db.(meta := Pinned(db.meta, clusterId));
    if creds.env.agentId != db.meta.agentId then Tx(db, Refused(ForeignAgent))
    else if ClusterMismatch(db.meta, clusterId) then Tx(db, Refused(ForeignCluster))
    else if creds.env.epoch < Fence(db.meta) then Tx(db, Refused(StaleEpoch))
    else if !GrantHolds(creds.env, sessionId, now) then Tx(db, Refused(GrantExpired))
    else if db.meta.credentialsVersion == creds.version then Tx(pinned, Done(false))
    else Tx(CredentialsStored(db, clusterId, creds), Done(true))
  }

  /** Addresses trimmed, without blanks and without repeats, in first-seen order. */
  function Normalized(addresses: seq<string>): seq<string> {
    if addresses == [] then []
    else
      var front := Normalized(addresses[..|addresses| - 1]);
      var address := TrimSpace(addresses[|addresses| - 1]);
      if address == "" || address in front then front else front + [address]
  }

  function NormalizedDiscovery(d: Discovery): Discovery {
    Discovery(Normalized(d.seeds), Normalized(d.replicas))
  }

  function SetSeedsTx(db: Db, addresses: seq<string>): Tx {
    Tx(db.(meta := db.meta.(discovery := NormalizedDiscovery(db.meta.discovery).(seeds := Normalized(addresses)))),
      Done(true))
  }

  function SetReplicasTx(db: Db, addresses: seq<string>): Tx {
    Tx(db.(meta := db.meta.(discovery := NormalizedDiscovery(db.meta.discovery).(replicas := Normalized(addresses)))),
      Done(true))
  }

  function ReplicasStored(db: Db, clusterId: string, replicas: ReplicaEndpoints): Db {
    var discovery := NormalizedDiscovery(db.meta.discovery).(replicas := Normalized(replicas.addresses));
    db.(meta := Pinned(db.meta, clusterId).(discovery := discovery, replicasVersion := replicas.version))
  }

  function AcceptReplicasTx(db: Db, clusterId: string, sessionId: string, replicas: ReplicaEndpoints, now: int): Tx {
    var pinned := db.(meta := Pinned(db.meta, clusterId));
    if replicas.env.agentId != db.meta.agentId then Tx(db, Refused(ForeignAgent))
    else if ClusterMismatch(db.meta, clusterId) then Tx(db, Refused(ForeignCluster))
    else if replicas.env.epoch < Fence(db.meta) then Tx(db, Refused(StaleEpoch))
    else if !GrantHolds(replicas.env, sessionId, now) then Tx(db, Refused(GrantExpired))
    else if db.meta.replicasVersion == replicas.version then Tx(pinned, Done(false))
    else Tx(ReplicasStored(db, clusterId, replicas), Done(true))
  }

  // ---------------------------------------------------------------- reports

  /** What a report says, session and sequence aside. */
  function ReportContent(r: StatusReport): StatusReport {
    r.(sessionId := "", sequence := 0)
  }

  predicate SameReport(previous: Option<StatusReport>, next: StatusReport) {
    previous.Some? && ReportContent(previous.value) == ReportContent(next)
  }

  predicate NamesEmptyKey(conditions: seq<ServiceCondition>) {
    exists i :: 0 <= i < |conditions| && conditions[i].allocationId == ""
  }

  /** Reports are stamped with the accepted position, and the sequence advances exactly when content changes. */
  function RecordReportTx(db: Db, report: StatusReport): Tx {
    var next := report.(sessionId := "", epoch := db.meta.acceptedEpoch, cursor := db.meta.cursor);
    var same := SameReport(db.observations.report, next);
    var bumped := if same then db.observations.sequence else db.observations.sequence + 1;
    var sequence := if bumped == 0 then 1 else bumped;
    if report.agentId != db.meta.agentId then Tx(db, Refused(ForeignAgent))
    else if db.meta.acceptedEpoch == 0 || db.desired.accepted.None? then Tx(db, Refused(NoCheckpoint))
    else if !same && db.observations.sequence >= MAX_INT64 then Tx(db, Refused(Exhausted))
    else if NamesEmptyKey(report.services) then Tx(db, Refused(Invalid))
    else
      Tx(db.(
           observations := Observations(Some(next.(sequence := sequence)), sequence, db.meta.acceptedEpoch,
             db.meta.cursor),
           allocations := ReportedAllocations(db.allocations, report.services,
             ListedIds(db.desired.accepted.value.services))),
         Done(!same || bumped == 0))
  }

  /** The report, if it is at the accepted position. */
  function CurrentReport(db: Db): Option<StatusReport> {
    if db.observations.reportEpoch != db.meta.acceptedEpoch || db.observations.reportCursor != db.meta.cursor then None
    else db.observations.report
  }

  // ---------------------------------------------------------------- generations

  function NonEmptyPrefixes(prefixes: seq<string>): seq<NetworkReservation> {
    if prefixes == [] then []
    else (if prefixes[0] == "" then [] else [NetworkReservation("", 0, prefixes[0])]) + NonEmptyPrefixes(prefixes[1..])
  }

  function HostPrefixes(ext: Externals, addresses: seq<string>): seq<NetworkReservation> {
    if addresses == [] then []
    else
      var host := ext.hostPrefix(addresses[0]);
      (if host.Some? then [NetworkReservation("", 0, host.value)] else []) + HostPrefixes(ext, addresses[1..])
  }

  function IdentityReservations(services: seq<DesiredService>): seq<NetworkReservation> {
    if services == [] then []
    else
      (if services[0].networkIdentity != 0
        then [NetworkReservation(services[0].environmentId, services[0].networkIdentity, "")] else [])
      + IdentityReservations(services[1..])
  }

  function NodeReservations(ext: Externals, node: NodeConfig): seq<NetworkReservation> {
    NonEmptyPrefixes([node.workloadIpv4Subnet, node.workloadIpv6Subnet]) + HostPrefixes(ext, node.wireguardAddresses)
  }

  /** The network a desired state holds: subnets, mesh addresses and workload identities. */
  function ReservationsOf(ext: Externals, state: DesiredState): seq<NetworkReservation> {
    (if state.nodeConfig.Some? then NodeReservations(ext, state.nodeConfig.value) else [])
      + IdentityReservations(state.services)
  }

  function InsertByText(ext: Externals, s: seq<NetworkReservation>, x: NetworkReservation): seq<NetworkReservation> {
    if s == [] || Less(ext.reservationText(x), ext.reservationText(s[0])) then [x] + s
    else [s[0]] + InsertByText(ext, s[1..], x)
  }

  function SortByText(ext: Externals, s: seq<NetworkReservation>): seq<NetworkReservation> {
    if s == [] then [] else InsertByText(ext, SortByText(ext, s[..|s| - 1]), s[|s| - 1])
  }

  /** Drops an entry equal to the one before it. */
  function Compact(s: seq<NetworkReservation>): seq<NetworkReservation> {
    if |s| < 2 then s
    else if s[|s| - 1] == s[|s| - 2] then Compact(s[..|s| - 1])
    else Compact(s[..|s| - 1]) + [s[|s| - 1]]
  }

  function Retained(ext: Externals, db: Db): seq<NetworkReservation> {
    var held := if db.desired.accepted.Some? then ReservationsOf(ext, db.desired.accepted.value) else [];
    Compact(SortByText(ext, db.meta.retainedNetwork + held))
  }

  function AdmittedMeta(ext: Externals, db: Db, a: Authority): Meta {
    db.meta.(
      retainedNetwork := Retained(ext, db),
      retired := if db.meta.recoveryGeneration == "" then db.meta.retired
        else db.meta.retired + {db.meta.recoveryGeneration},
      checkpointApproved := a.checkpoints, checkpointRequired := true,
      installationId := a.installationId, recoveryGeneration := a.generation, clusterId := a.clusterId,
      init := Recovery, identityRecovery := false,
      acceptedEpoch := 0, highestEpoch := 0, cursor := 0,
      nodeConfigVersion := "", credentialsVersion := "", replicasVersion := "")
  }

  /** Admitting a new generation clears position, desired state, credentials and observations, and keeps the rest. */
  function AdmitTx(ext: Externals, db: Db, a: Authority): Tx {
    if db.meta.installationId != "" && db.meta.installationId != a.installationId
      then Tx(db, Refused(ForeignInstallation))
    else if db.meta.recoveryGeneration == a.generation then
      Tx(if a.checkpoints then db.(meta := db.meta.(checkpointApproved := true)) else db, Done(false))
    else if a.generation in db.meta.retired then Tx(db, Refused(Retired))
    else
      Tx(db.(meta := AdmittedMeta(ext, db, a), desired := DesiredBucket(None, None, None, None),
             credentials := map[], observations := Observations(None, 0, 0, 0)), Done(true))
  }
}
