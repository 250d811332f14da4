/** What the agent demands of its database when it opens it, and that its own transactions keep it so. */
module Records {
  import opened Strings
  import opened Keyed
  import opened Messages
  import opened Validation
  import opened Configuration
  import opened Database

  // ---------------------------------------------------------------- the clauses of the startup check

  ghost predicate ValidPosition(ext: Externals, meta: Meta, accepted: Option<DesiredState>) {
    match accepted
    case Some(d) =>
      && ValidState(ext, d)
      && d.env.agentId == meta.agentId && d.env.epoch == meta.acceptedEpoch && d.cursor == meta.cursor
      && d.nodeConfigVersion == meta.nodeConfigVersion
    case None => meta.acceptedEpoch == 0 && meta.cursor == 0
  }

  ghost predicate ValidCredentials(credentials: map<string, PullCredential>) {
    forall id :: id in credentials ==> ValidRuntimeId(id)
  }

  ghost predicate ValidAllocations(allocations: map<string, LocalAllocation>) {
    forall id :: id in allocations ==> allocations[id].allocationId == id && ValidRuntimeId(id)
  }

  ghost predicate ValidInventory(inventory: map<string, RuntimeResource>) {
    forall k :: k in inventory ==>
      ValidRuntimeId(inventory[k].allocationId) && k == InventoryKey(inventory[k]) && !Blank(inventory[k].runtimeId)
  }

  ghost predicate ValidObservations(agentId: string, o: Observations) {
    o.report.Some? ==>
      var report := o.report.value;
      && report.agentId == agentId && report.sequence != 0 && report.sequence == o.sequence
      && report.epoch == o.reportEpoch && report.cursor == o.reportCursor
  }

  ghost predicate ValidMeta(meta: Meta) {
    && meta.init in {Uninitialized, Ready, Recovery}
    && !Blank(meta.agentId)
    && NormalizedDiscovery(meta.discovery) == meta.discovery
  }

  /** The startup check. */
  ghost predicate ValidRecords(ext: Externals, db: Db) {
    && ValidMeta(db.meta)
    && ValidPosition(ext, db.meta, db.desired.accepted)
    && ValidCredentials(db.credentials)
    && ValidAllocations(db.allocations)
    && ValidInventory(db.inventory)
    && ValidObservations(db.meta.agentId, db.observations)
  }

  /**
   * What the agent's own transactions keep, beyond the startup check: the current generation is not a retired
   * one, the accepted state is of the current generation, and a cutover leaves no accepted state behind.
   */
  ghost predicate Sound(ext: Externals, db: Db) {
    && ValidRecords(ext, db)
    && db.meta.formatVersion == FORMAT_VERSION
    && "" !in db.meta.retired
    && db.meta.recoveryGeneration !in db.meta.retired
    && (db.meta.checkpointRequired ==> db.desired.accepted.None?)
    && (db.desired.accepted.None? ==> db.meta.nodeConfigVersion == "")
    && (db.desired.accepted.Some? ==>
          && SameGeneration(db.meta, db.desired.accepted.value.env)
          && Sorted(db.desired.accepted.value.services, ServiceKey))
  }

  // ---------------------------------------------------------------- addresses

  ghost predicate CleanAddresses(s: seq<string>) {
    && (forall i :: 0 <= i < |s| ==> s[i] != "" && TrimSpace(s[i]) == s[i])
    && (forall i, j :: 0 <= i < j < |s| ==> s[i] != s[j])
  }

  lemma {:induction false} NormalizedIsClean(s: seq<string>)
    ensures CleanAddresses(Normalized(s))
  {
    if s != [] {
      NormalizedIsClean(s[..|s| - 1]);
      TrimIdempotent(s[|s| - 1]);
    }
  }

  lemma {:induction false} CleanIsNormalized(s: seq<string>)
    requires CleanAddresses(s)
    ensures Normalized(s) == s
  {
    if s != [] {
      CleanIsNormalized(s[..|s| - 1]);
      assert s == s[..|s| - 1] + [s[|s| - 1]];
    }
  }

  /** Normalizing stored addresses changes nothing, which is what the startup check relies on. */
  lemma NormalizedIdempotent(s: seq<string>)
    ensures Normalized(Normalized(s)) == Normalized(s)
  {
    NormalizedIsClean(s);
    CleanIsNormalized(Normalized(s));
  }

  // ---------------------------------------------------------------- record maps

  lemma DesiredAllocationsValid(m: map<string, LocalAllocation>, services: seq<DesiredService>)
    requires ValidAllocations(m) && ValidServices(services)
    ensures ValidAllocations(DesiredAllocations(m, services))
  {
    IndexDomain(services, ServiceKey);
    var listed := Index(services, ServiceKey);
    forall id | id in listed ensures ValidRuntimeId(id) {
      assert listed[id] in services;
    }
  }

  /** Exactly the reports that name valid allocations keep the allocation records valid. */
  lemma ReportedAllocationsValid(
      m: map<string, LocalAllocation>, conditions: seq<ServiceCondition>, desired: set<string>)
    requires ValidAllocations(m)
    ensures ValidAllocations(ReportedAllocations(m, conditions, desired))
       <==> forall id :: id in Keys(conditions, ConditionKey) ==> ValidRuntimeId(id)
  {
    IndexDomain(conditions, ConditionKey);
    var after := ReportedAllocations(m, conditions, desired);
    forall id | id in Keys(conditions, ConditionKey)
      ensures id in after && after[id].allocationId == id
    {
    }
  }

  lemma InventoriedAllocationsValid(m: map<string, LocalAllocation>, inventory: seq<RuntimeResource>)
    requires ValidAllocations(m) && DiscoveredResources(inventory)
    ensures ValidAllocations(InventoriedAllocations(m, inventory))
  {
    IndexDomain(inventory, ResourceKey);
    var found := Index(inventory, ResourceKey);
    forall id | id in found ensures ValidRuntimeId(id) {
      assert found[id] in inventory;
    }
  }

  ghost predicate Identified(inventory: seq<RuntimeResource>) {
    forall i :: 0 <= i < |inventory| ==> !Blank(inventory[i].runtimeId)
  }

  lemma InventoryValid(inventory: seq<RuntimeResource>)
    requires DiscoveredResources(inventory) && Identified(inventory)
    ensures ValidInventory(Index(inventory, InventoryKey))
  {
    IndexDomain(inventory, InventoryKey);
    var found := Index(inventory, InventoryKey);
    forall k | k in found ensures ValidRuntimeId(found[k].allocationId) && !Blank(found[k].runtimeId) {
      assert found[k] in inventory;
    }
  }

  ghost predicate CredentialIdsValid(credentials: seq<AllocationCredential>) {
    forall i :: 0 <= i < |credentials| ==> ValidRuntimeId(credentials[i].allocationId)
  }

  lemma CredentialMapValid(credentials: seq<AllocationCredential>)
    requires CredentialIdsValid(credentials)
    ensures ValidCredentials(CredentialMap(credentials))
  {
    IndexDomain(credentials, CredentialKey);
    var found := Index(credentials, CredentialKey);
    forall id | id in found ensures ValidRuntimeId(id) {
      assert found[id] in credentials;
    }
  }

  // ---------------------------------------------------------------- every transaction keeps them

  lemma IdentityKeeps(ext: Externals, db: Db, clusterId: string)
    requires Sound(ext, db)
    ensures Sound(ext, RequireIdentityTx(db, clusterId).db)
  {
  }

  lemma AdoptKeeps(ext: Externals, db: Db, clusterId: string)
    requires Sound(ext, db)
    ensures Sound(ext, AdoptIdentityTx(db, clusterId).db)
  {
  }

  lemma IncarnationKeeps(ext: Externals, db: Db)
    requires Sound(ext, db)
    ensures Sound(ext, NextIncarnationTx(db).db)
  {
  }

  lemma ObserveKeeps(ext: Externals, db: Db, env: Envelope)
    requires Sound(ext, db)
    ensures Sound(ext, ObserveTx(db, env).db)
  {
  }

  lemma AddressesKeep(ext: Externals, db: Db, addresses: seq<string>)
    requires Sound(ext, db)
    ensures Sound(ext, SetSeedsTx(db, addresses).db)
    ensures Sound(ext, SetReplicasTx(db, addresses).db)
  {
    NormalizedIdempotent(addresses);
  }

  lemma RecordInventoryKeeps(ext: Externals, db: Db, inventory: seq<RuntimeResource>)
    requires Sound(ext, db) && Identified(inventory)
    ensures Sound(ext, RecordInventoryTx(db, inventory).db)
  {
    if DiscoveredResources(inventory) {
      InventoriedAllocationsValid(db.allocations, inventory);
      InventoryValid(inventory);
    }
  }

  lemma StartupKeeps(ext: Externals, db: Db, clusterId: string, inventory: seq<RuntimeResource>)
    requires Sound(ext, db) && Identified(inventory)
    ensures Sound(ext, StartupTx(db, clusterId, inventory).db)
  {
    if !ClusterMismatch(db.meta, clusterId) && DiscoveredResources(inventory) {
      var init := if db.meta.init == Uninitialized && |inventory| > 0 then Recovery else db.meta.init;
      RecordInventoryKeeps(ext, db.(meta := Pinned(db.meta, clusterId).(init := init)), inventory);
    }
  }

  /** Candidates are not part of what the startup check reads. */
  lemma CandidatesDoNotMatter(ext: Externals, db: Db, staged: DesiredBucket)
    requires Sound(ext, db) && staged.accepted == db.desired.accepted
    ensures Sound(ext, db.(desired := staged))
  {
  }

  /** What accepting a state leaves alone. */
  lemma AcceptingFrame(db: Db, state: DesiredState)
    ensures var after := Accepting(db, state);
      && after.desired == db.desired.(accepted := Some(state))
      && after.allocations == DesiredAllocations(db.allocations, state.services)
      && after.credentials == db.credentials && after.observations == db.observations && after.inventory == db.inventory
      && after.meta == db.meta.(acceptedEpoch := state.env.epoch, cursor := state.cursor, init := after.meta.init)
      && (after.meta.init == db.meta.init || after.meta.init == Ready)
  {
  }

  /** Accepting a valid state of the current generation, at its own node config version, keeps a store sound. */
  lemma AcceptingSound(ext: Externals, db: Db, state: DesiredState)
    requires ValidMeta(db.meta) && ValidCredentials(db.credentials) && ValidAllocations(db.allocations)
    requires ValidInventory(db.inventory) && ValidObservations(db.meta.agentId, db.observations)
    requires db.meta.formatVersion == FORMAT_VERSION && "" !in db.meta.retired
    requires db.meta.recoveryGeneration !in db.meta.retired
    requires !db.meta.checkpointRequired
    requires ValidState(ext, state) && SameGeneration(db.meta, state.env) && Sorted(state.services, ServiceKey)
    requires state.env.agentId == db.meta.agentId && state.nodeConfigVersion == db.meta.nodeConfigVersion
    ensures Sound(ext, Accepting(db, state))
  {
    AcceptingFrame(db, state);
    DesiredAllocationsValid(db.allocations, state.services);
  }

  lemma CommitStateSound(ext: Externals, db: Db, clusterId: string, state: DesiredState)
    requires Sound(ext, db) && ValidState(ext, state) && SameGeneration(db.meta, state.env)
    requires state.env.agentId == db.meta.agentId
    ensures Sound(ext, CommitState(db, clusterId, state))
  {
    CleanedKeeps(ext, state);
    var pinned := Pinned(db.meta, clusterId).(checkpointRequired := false,
      nodeConfigVersion := state.nodeConfigVersion);
    AcceptingSound(ext, db.(meta := pinned, desired := db.desired.(stagedState := None)), Cleaned(state));
  }

  lemma AcceptStateShape(ext: Externals, db: Db, clusterId: string, sessionId: string, state: DesiredState, now: int)
    ensures var tx := AcceptStateTx(ext, db, clusterId, sessionId, state, now);
      || tx.db == db
      || (state.env.agentId == db.meta.agentId && tx.db == CommitState(db, clusterId, state))
  {
  }

  lemma AcceptStateKeeps(ext: Externals, db: Db, clusterId: string, sessionId: string, state: DesiredState, now: int)
    requires Sound(ext, db) && ValidState(ext, state) && SameGeneration(db.meta, state.env)
    ensures Sound(ext, AcceptStateTx(ext, db, clusterId, sessionId, state, now).db)
  {
    AcceptStateShape(ext, db, clusterId, sessionId, state, now);
    if state.env.agentId == db.meta.agentId {
      CommitStateSound(ext, db, clusterId, state);
    }
  }

  lemma CommitDiffSound(ext: Externals, db: Db, clusterId: string, diff: AllocationDiff)
    requires Sound(ext, db) && ValidDiff(diff) && db.desired.accepted.Some?
    ensures Sound(ext, CommitDiff(db, clusterId, diff))
  {
    var previous := db.desired.accepted.value;
    ApplyDiffValid(ext, previous, diff);
    ApplyDiffRefinesMapUpdate(previous, diff);
    AcceptingSound(ext, DiffRepeated(db, clusterId), ApplyDiff(previous, diff));
  }

  lemma AcceptDiffShape(ext: Externals, db: Db, clusterId: string, sessionId: string, diff: AllocationDiff, now: int)
    ensures var tx := AcceptDiffTx(ext, db, clusterId, sessionId, diff, now);
      || tx.db == db
      || tx.db == DiffRepeated(db, clusterId)
      || (db.desired.accepted.Some? && tx.db == CommitDiff(db, clusterId, diff))
  {
  }

  lemma AcceptDiffKeeps(ext: Externals, db: Db, clusterId: string, sessionId: string, diff: AllocationDiff, now: int)
    requires Sound(ext, db) && ValidDiff(diff)
    ensures Sound(ext, AcceptDiffTx(ext, db, clusterId, sessionId, diff, now).db)
  {
    AcceptDiffShape(ext, db, clusterId, sessionId, diff, now);
    if db.desired.accepted.Some? {
      CommitDiffSound(ext, db, clusterId, diff);
    }
    assert Sound(ext, DiffRepeated(db, clusterId));
  }

  lemma AcceptNodeConfigShape(
      ext: Externals, db: Db, clusterId: string, sessionId: string, update: NodeConfigUpdate, now: int)
    ensures var tx := AcceptNodeConfigTx(ext, db, clusterId, sessionId, update, now);
      || tx.db == db
      || tx.db == NodeConfigRepeated(db, clusterId)
      || (&& db.desired.accepted.Some? && tx.db == CommitNodeConfig(db, clusterId, update)
          && ValidState(ext, Reconfigured(db.desired.accepted.value, update)))
  {
  }

  lemma CommitNodeConfigSound(ext: Externals, db: Db, clusterId: string, update: NodeConfigUpdate)
    requires Sound(ext, db) && db.desired.accepted.Some?
    requires ValidState(ext, Reconfigured(db.desired.accepted.value, update))
    ensures Sound(ext, CommitNodeConfig(db, clusterId, update))
  {
  }

  lemma AcceptNodeConfigKeeps(
      ext: Externals, db: Db, clusterId: string, sessionId: string, update: NodeConfigUpdate, now: int)
    requires Sound(ext, db)
    ensures Sound(ext, AcceptNodeConfigTx(ext, db, clusterId, sessionId, update, now).db)
  {
    AcceptNodeConfigShape(ext, db, clusterId, sessionId, update, now);
    assert Sound(ext, NodeConfigRepeated(db, clusterId));
    if db.desired.accepted.Some? && ValidState(ext, Reconfigured(db.desired.accepted.value, update)) {
      CommitNodeConfigSound(ext, db, clusterId, update);
    }
  }

  lemma CredentialsStoredSound(ext: Externals, db: Db, clusterId: string, creds: PullCredentialSet)
    requires Sound(ext, db) && CredentialIdsValid(creds.credentials)
    ensures Sound(ext, CredentialsStored(db, clusterId, creds))
  {
    CredentialMapValid(creds.credentials);
  }

  lemma AcceptCredentialsShape(db: Db, clusterId: string, sessionId: string, creds: PullCredentialSet, now: int)
    ensures var tx := AcceptCredentialsTx(db, clusterId, sessionId, creds, now);
      tx.db == db || tx.db == db.(meta := Pinned(db.meta, clusterId))
        || tx.db == CredentialsStored(db, clusterId, creds)
  {
  }

  lemma AcceptCredentialsKeeps(
      ext: Externals, db: Db, clusterId: string, sessionId: string, creds: PullCredentialSet, now: int)
    requires Sound(ext, db) && CredentialIdsValid(creds.credentials)
    ensures Sound(ext, AcceptCredentialsTx(db, clusterId, sessionId, creds, now).db)
  {
    AcceptCredentialsShape(db, clusterId, sessionId, creds, now);
    CredentialsStoredSound(ext, db, clusterId, creds);
    assert Sound(ext, db.(meta := Pinned(db.meta, clusterId)));
  }

  lemma AcceptReplicasShape(db: Db, clusterId: string, sessionId: string, replicas: ReplicaEndpoints, now: int)
    ensures var tx := AcceptReplicasTx(db, clusterId, sessionId, replicas, now);
      tx.db == db || tx.db == db.(meta := Pinned(db.meta, clusterId))
        || tx.db == ReplicasStored(db, clusterId, replicas)
  {
  }

  lemma AcceptReplicasKeeps(
      ext: Externals, db: Db, clusterId: string, sessionId: string, replicas: ReplicaEndpoints, now: int)
    requires Sound(ext, db)
    ensures Sound(ext, AcceptReplicasTx(db, clusterId, sessionId, replicas, now).db)
  {
    AcceptReplicasShape(db, clusterId, sessionId, replicas, now);
    NormalizedIdempotent(replicas.addresses);
    assert Sound(ext, ReplicasStored(db, clusterId, replicas));
    assert Sound(ext, db.(meta := Pinned(db.meta, clusterId)));
  }

  /** The runtime reports conditions only for the allocations it was asked to run. */
  ghost predicate ReportsOnly(report: StatusReport, state: DesiredState) {
    Keys(report.services, ConditionKey) <= ListedIds(state.services)
  }

  lemma RecordReportKeeps(ext: Externals, db: Db, report: StatusReport)
    requires Sound(ext, db)
    requires db.desired.accepted.Some? ==> ReportsOnly(report, db.desired.accepted.value)
    ensures Sound(ext, RecordReportTx(db, report).db)
  {
    if db.desired.accepted.Some? {
      var services := db.desired.accepted.value.services;
      ReportedAllocationsValid(db.allocations, report.services, ListedIds(services));
      forall id | id in Keys(report.services, ConditionKey) ensures ValidRuntimeId(id) {
        assert id in ListedIds(services);
      }
    }
  }

  lemma AdmitKeeps(ext: Externals, db: Db, a: Authority)
    requires Sound(ext, db) && a.generation != ""
    ensures Sound(ext, AdmitTx(ext, db, a).db)
  {
    var tx := AdmitTx(ext, db, a);
    if tx.out == Done(true) {
      AdmittedSound(ext, db, a);
    } else {
      assert tx.db == db || tx.db == db.(meta := db.meta.(checkpointApproved := true));
    }
  }

  lemma AdmittedSound(ext: Externals, db: Db, a: Authority)
    requires ValidMeta(db.meta) && ValidAllocations(db.allocations) && ValidInventory(db.inventory)
    requires db.meta.formatVersion == FORMAT_VERSION && "" !in db.meta.retired
    requires AdmitTx(ext, db, a).out == Done(true)
    ensures Sound(ext, AdmitTx(ext, db, a).db)
  {
    assert AdmitTx(ext, db, a).db.meta == AdmittedMeta(ext, db, a);
  }
}
