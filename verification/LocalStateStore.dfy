/**
 * The local state store: one field per bucket, one method per transaction. Methods write bucket by bucket and
 * roll back when a later check fails; each is proved to be the transaction function of the same name.
 */
module LocalStateStore {
  import opened Strings
  import opened Keyed
  import opened Messages
  import opened Validation
  import opened Configuration
  import opened Database
  import opened Records
  import opened Agent
  import opened Runs
  import opened Evolution
  import opened Acceptance
  import opened Bookkeeping

  // ---------------------------------------------------------------- loops over buckets

  method NormalizeAddresses(addresses: seq<string>) returns (result: seq<string>)
    ensures result == Normalized(addresses)
  {
    result := [];
    var seen: set<string> := {};
    for i := 0 to |addresses|
      invariant result == Normalized(addresses[..i])
      invariant seen == set a | a in result
    {
      assert addresses[..i + 1][..i] == addresses[..i];
      var address := TrimSpace(addresses[i]);
      if address != "" && address !in seen {
        seen := seen + {address};
        result := result + [address];
      }
    }
    assert addresses[..|addresses|] == addresses;
  }

  lemma RefreshedAtStep(m: map<string, LocalAllocation>, listed: map<string, DesiredService>, s: DesiredService)
    requires s.allocationId !in listed
    ensures forall id :: id != s.allocationId ==>
      RefreshedAt(m, listed[s.allocationId := s], id) == RefreshedAt(m, listed, id)
    ensures RefreshedAt(m, listed[s.allocationId := s], s.allocationId) == Refreshed(AllocationAt(m, s.allocationId), s)
    ensures RefreshedAt(m, listed, s.allocationId) == AllocationAt(m, s.allocationId)
  {
  }

  lemma DesiredAllocationsStep(m: map<string, LocalAllocation>, front: seq<DesiredService>, s: DesiredService)
    requires s.allocationId !in Keys(front, ServiceKey)
    ensures var before := DesiredAllocations(m, front);
      DesiredAllocations(m, front + [s]) == before[s.allocationId := Refreshed(AllocationAt(before, s.allocationId), s)]
  {
    assert (front + [s])[..|front|] == front;
    IndexDomain(front, ServiceKey);
    RefreshedAtStep(m, Index(front, ServiceKey), s);
  }

  method UpdateDesiredAllocations(m: map<string, LocalAllocation>, services: seq<DesiredService>)
    returns (r: map<string, LocalAllocation>)
    requires DistinctKeys(services, ServiceKey)
    ensures r == DesiredAllocations(m, services)
  {
    r := m;
    for i := 0 to |services|
      invariant r == DesiredAllocations(m, services[..i])
    {
      assert services[i].allocationId !in Keys(services[..i], ServiceKey);
      DesiredAllocationsStep(m, services[..i], services[i]);
      assert services[..i + 1] == services[..i] + [services[i]];
      var allocation := Refreshed(AllocationAt(r, services[i].allocationId), services[i]);
      r := r[allocation.allocationId := allocation];
    }
    assert services[..|services|] == services;
  }

  method RecoveryOwnershipEstablished(inventory: map<string, RuntimeResource>, services: seq<DesiredService>)
    returns (established: bool)
    ensures established <==> OwnershipEstablished(inventory, ListedIds(services))
  {
    var desired := IndexList(map[], services, ServiceKey);
    IndexDomain(services, ServiceKey);
    assert desired.Keys == ListedIds(services);
    established := true;
    var left := inventory.Keys;
    while left != {}
      invariant left <= inventory.Keys
      invariant established <==> forall k :: k in inventory && k !in left ==>
        inventory[k].allocationId in ListedIds(services)
      decreases |left|
    {
      var k :| k in left;
      if inventory[k].allocationId !in desired {
        established := false;
      }
      left := left - {k};
    }
  }

  predicate RecordsUnderTheirIds(m: map<string, LocalAllocation>) {
    forall id :: id in m ==> m[id].allocationId == id
  }

  /** Rewrites every record for which the caller asks, each under the identity it names. */
  method ClearRuntimeIdentities(m: map<string, LocalAllocation>) returns (r: map<string, LocalAllocation>)
    requires RecordsUnderTheirIds(m)
    ensures r == map id | id in m :: m[id].(runtimeId := "")
  {
    r := m;
    var left := m.Keys;
    while left != {}
      invariant left <= m.Keys == r.Keys
      invariant forall id :: id in m ==> r[id] == if id in left then m[id] else m[id].(runtimeId := "")
      decreases |left|
    {
      var id :| id in left;
      if m[id].runtimeId != "" {
        var allocation := m[id].(runtimeId := "");
        r := r[allocation.allocationId := allocation];
      }
      left := left - {id};
    }
  }

  lemma InventoriedStep(m: map<string, LocalAllocation>, inventory: seq<RuntimeResource>, i: nat)
    requires i < |inventory|
    ensures var before := InventoriedAllocations(m, inventory[..i]); var r := inventory[i];
      InventoriedAllocations(m, inventory[..i + 1])
      == before[r.allocationId :=
        AllocationAt(before, r.allocationId).(allocationId := r.allocationId, runtimeId := r.runtimeId)]
  {
    var front, r := inventory[..i], inventory[i];
    assert inventory[..i + 1][..i] == front;
    var before, after := InventoriedAllocations(m, front), InventoriedAllocations(m, inventory[..i + 1]);
    var found := Index(front, ResourceKey);
    assert Index(inventory[..i + 1], ResourceKey) == found[r.allocationId := r];
    assert after.Keys == before.Keys + {r.allocationId};
    forall id | id in before && id != r.allocationId ensures after[id] == before[id] {
    }
  }

  method AttachRuntimeIdentities(m: map<string, LocalAllocation>, inventory: seq<RuntimeResource>)
    returns (r: map<string, LocalAllocation>)
    requires RecordsUnderTheirIds(m) && DiscoveredResources(inventory)
    ensures r == InventoriedAllocations(m, inventory)
  {
    r := ClearRuntimeIdentities(m);
    for i := 0 to |inventory|
      invariant r == InventoriedAllocations(m, inventory[..i])
    {
      InventoriedStep(m, inventory, i);
      var resource := inventory[i];
      assert resource.allocationId != "";
      var allocation := AllocationAt(r, resource.allocationId).(allocationId := resource.allocationId,
        runtimeId := resource.runtimeId);
      r := r[allocation.allocationId := allocation];
    }
    assert inventory[..|inventory|] == inventory;
  }

  method WriteRuntimeInventory(inventory: seq<RuntimeResource>) returns (ok: bool, bucket: map<string, RuntimeResource>)
    ensures ok <==> DiscoveredResources(inventory)
    ensures ok ==> bucket == Index(inventory, InventoryKey)
  {
    bucket := map[];
    for i := 0 to |inventory|
      invariant DiscoveredResources(inventory[..i])
      invariant bucket == Index(inventory[..i], InventoryKey)
    {
      assert inventory[..i + 1][..i] == inventory[..i];
      if !ValidRuntimeId(inventory[i].allocationId) {
        return false, bucket;
      }
      bucket := bucket[InventoryKey(inventory[i]) := inventory[i]];
    }
    assert inventory[..|inventory|] == inventory;
    return true, bucket;
  }

  /** The records after the conditions alone. */
  function ObservedAllocations(
      m: map<string, LocalAllocation>, conditions: seq<ServiceCondition>): map<string, LocalAllocation>
  {
    var seen := Index(conditions, ConditionKey);
    map id | id in m.Keys + seen.Keys :: ObservedAt(m, seen, id)
  }

  function ObservedAt(
      m: map<string, LocalAllocation>, seen: map<string, ServiceCondition>, id: string): LocalAllocation
  {
    if id in seen then Observed(AllocationAt(m, id), seen[id]) else AllocationAt(m, id)
  }

  lemma ObservedStep(m: map<string, LocalAllocation>, conditions: seq<ServiceCondition>, i: nat)
    requires i < |conditions|
    ensures var before := ObservedAllocations(m, conditions[..i]); var c := conditions[i];
      ObservedAllocations(m, conditions[..i + 1])
        == before[c.allocationId := Observed(AllocationAt(before, c.allocationId), c)]
  {
    assert conditions[..i + 1][..i] == conditions[..i];
    IndexDomain(conditions[..i], ConditionKey);
  }

  method ApplyReportToAllocations(
      m: map<string, LocalAllocation>, conditions: seq<ServiceCondition>, desired: set<string>)
    returns (ok: bool, r: map<string, LocalAllocation>)
    requires RecordsUnderTheirIds(m)
    ensures ok <==> !NamesEmptyKey(conditions)
    ensures ok ==> r == ReportedAllocations(m, conditions, desired)
  {
    r := m;
    var seen: set<string> := {};
    for i := 0 to |conditions|
      invariant !NamesEmptyKey(conditions[..i])
      invariant r == ObservedAllocations(m, conditions[..i]) && seen == Keys(conditions[..i], ConditionKey)
    {
      ObservedStep(m, conditions, i);
      SeenStep(conditions, i);
      seen := seen + {conditions[i].allocationId};
      if conditions[i].allocationId == "" {
        return false, r;
      }
      var allocation := Observed(AllocationAt(r, conditions[i].allocationId), conditions[i]);
      r := r[allocation.allocationId := allocation];
    }
    assert conditions[..|conditions|] == conditions;
    IndexDomain(conditions, ConditionKey);
    r := StopOthers(r, seen, desired);
    ok := true;
  }

  lemma SeenStep(conditions: seq<ServiceCondition>, i: nat)
    requires i < |conditions|
    ensures Keys(conditions[..i + 1], ConditionKey) == Keys(conditions[..i], ConditionKey)
      + {conditions[i].allocationId}
  {
    assert conditions[..i + 1] == conditions[..i] + [conditions[i]];
  }

  method StopOthers(m: map<string, LocalAllocation>, seen: set<string>, desired: set<string>)
    returns (r: map<string, LocalAllocation>)
    requires RecordsUnderTheirIds(m)
    ensures r == map id | id in m ::
      if id in seen || id in desired then m[id] else m[id].(runtimeId := "", phase := "Stopped")
  {
    r := m;
    var left := m.Keys;
    while left != {}
      invariant left <= m.Keys == r.Keys
      invariant forall id :: id in m ==>
        r[id] == if id in left || id in seen || id in desired then m[id]
          else m[id].(runtimeId := "", phase := "Stopped")
      decreases |left|
    {
      var id :| id in left;
      if id !in seen && id !in desired {
        var allocation := m[id].(runtimeId := "", phase := "Stopped");
        r := r[allocation.allocationId := allocation];
      }
      left := left - {id};
    }
  }

  method ReplaceCredentials(credentials: seq<AllocationCredential>) returns (r: map<string, PullCredential>)
    ensures r == CredentialMap(credentials)
  {
    r := map[];
    for i := 0 to |credentials|
      invariant r == CredentialMap(credentials[..i])
    {
      assert credentials[..i + 1][..i] == credentials[..i];
      r := r[credentials[i].allocationId := CredentialOf(credentials[i])];
    }
    assert credentials[..|credentials|] == credentials;
  }

  lemma {:induction false} NonEmptyPrefixesStep(prefixes: seq<string>, i: nat)
    requires i < |prefixes|
    ensures NonEmptyPrefixes(prefixes[..i + 1])
         == NonEmptyPrefixes(prefixes[..i])
           + (if prefixes[i] == "" then [] else [NetworkReservation("", 0, prefixes[i])])
  {
    if i > 0 {
      NonEmptyPrefixesStep(prefixes[1..], i - 1);
      assert prefixes[..i + 1][1..] == prefixes[1..][..i] && prefixes[..i][1..] == prefixes[1..][..i - 1];
    }
  }

  lemma {:induction false} HostPrefixesStep(ext: Externals, addresses: seq<string>, i: nat)
    requires i < |addresses|
    ensures var host := ext.hostPrefix(addresses[i]);
      HostPrefixes(ext, addresses[..i + 1])
      == HostPrefixes(ext, addresses[..i]) + (if host.Some? then [NetworkReservation("", 0, host.value)] else [])
  {
    if i > 0 {
      HostPrefixesStep(ext, addresses[1..], i - 1);
      assert addresses[..i + 1][1..] == addresses[1..][..i] && addresses[..i][1..] == addresses[1..][..i - 1];
    }
  }

  lemma {:induction false} IdentityReservationsStep(services: seq<DesiredService>, i: nat)
    requires i < |services|
    ensures IdentityReservations(services[..i + 1])
         == IdentityReservations(services[..i])
          + (if services[i].networkIdentity != 0
            then [NetworkReservation(services[i].environmentId, services[i].networkIdentity, "")] else [])
  {
    if i > 0 {
      IdentityReservationsStep(services[1..], i - 1);
      assert services[..i + 1][1..] == services[1..][..i] && services[..i][1..] == services[1..][..i - 1];
    }
  }

  method AppendNodeReservations(ext: Externals, held: seq<NetworkReservation>, node: NodeConfig)
    returns (r: seq<NetworkReservation>)
    ensures r == held + NodeReservations(ext, node)
  {
    r := held;
    var subnets := [node.workloadIpv4Subnet, node.workloadIpv6Subnet];
    for i := 0 to |subnets|
      invariant r == held + NonEmptyPrefixes(subnets[..i])
    {
      NonEmptyPrefixesStep(subnets, i);
      if subnets[i] != "" {
        r := r + [NetworkReservation("", 0, subnets[i])];
      }
    }
    assert subnets[..|subnets|] == subnets;
    var addresses := node.wireguardAddresses;
    for i := 0 to |addresses|
      invariant r == held + NonEmptyPrefixes(subnets) + HostPrefixes(ext, addresses[..i])
    {
      HostPrefixesStep(ext, addresses, i);
      var host := ext.hostPrefix(addresses[i]);
      if host.Some? {
        r := r + [NetworkReservation("", 0, host.value)];
      }
    }
    assert addresses[..|addresses|] == addresses;
  }

  method AppendIdentityReservations(held: seq<NetworkReservation>, services: seq<DesiredService>)
    returns (r: seq<NetworkReservation>)
    ensures r == held + IdentityReservations(services)
  {
    r := held;
    for i := 0 to |services|
      invariant r == held + IdentityReservations(services[..i])
    {
      IdentityReservationsStep(services, i);
      if services[i].networkIdentity != 0 {
        r := r + [NetworkReservation(services[i].environmentId, services[i].networkIdentity, "")];
      }
    }
    assert services[..|services|] == services;
  }

  method CheckCredentialKeys(credentials: map<string, PullCredential>) returns (ok: bool)
    ensures ok <==> ValidCredentials(credentials)
  {
    var left := credentials.Keys;
    while left != {}
      invariant left <= credentials.Keys
      invariant forall id :: id in credentials && id !in left ==> ValidRuntimeId(id)
      decreases |left|
    {
      var id :| id in left;
      if !ValidRuntimeId(id) {
        return false;
      }
      left := left - {id};
    }
    return true;
  }

  method CheckAllocationRecords(allocations: map<string, LocalAllocation>) returns (ok: bool)
    ensures ok <==> ValidAllocations(allocations)
  {
    var left := allocations.Keys;
    while left != {}
      invariant left <= allocations.Keys
      invariant forall id :: id in allocations && id !in left ==>
        allocations[id].allocationId == id && ValidRuntimeId(id)
      decreases |left|
    {
      var id :| id in left;
      if allocations[id].allocationId != id || !ValidRuntimeId(id) {
        return false;
      }
      left := left - {id};
    }
    return true;
  }

  method CheckInventory(inventory: map<string, RuntimeResource>) returns (ok: bool)
    ensures ok <==> ValidInventory(inventory)
  {
    var left := inventory.Keys;
    while left != {}
      invariant left <= inventory.Keys
      invariant forall k :: k in inventory && k !in left ==>
        ValidRuntimeId(inventory[k].allocationId) && k == InventoryKey(inventory[k]) && !Blank(inventory[k].runtimeId)
      decreases |left|
    {
      var k :| k in left;
      if !ValidRuntimeId(inventory[k].allocationId) || k != InventoryKey(inventory[k])
        || Blank(inventory[k].runtimeId) {
        return false;
      }
      left := left - {k};
    }
    return true;
  }

  /** Opens what is on disk, or replaces it by an empty store in recovery when it cannot be trusted. */
  method OpenLocalStateStore(ext: Externals, disk: Disk, agentId: string, freshId: string)
    returns (store: Store?, quarantined: bool)
    ensures store == null <==> OpenStore(ext, disk, agentId, freshId).NotOpened?
    ensures store != null ==>
      fresh(store) && store.ext == ext && store.Valid()
        && OpenStore(ext, disk, agentId, freshId) == Opened(store.Contents(), quarantined)
  {
    store, quarantined := null, false;
    if Blank(agentId) {
      return;
    }
    if !disk.Damaged? {
      var existed := disk.File?;
      var found := new Store(ext, if existed then disk.db else EMPTY_DB);
      var ok := found.Initialize(agentId, existed, false, freshId);
      if !ok {
        return;
      }
      var valid := found.ValidateRecords();
      if valid {
        return found, false;
      }
    }
    OpenedIsValid(ext, disk, agentId, freshId);
    var recreated := new Store(ext, EMPTY_DB);
    var ok := recreated.Initialize(agentId, false, true, freshId);
    assert ok;
    return recreated, true;
  }

  // ---------------------------------------------------------------- the store

  class Store {
    const ext: Externals
    var meta: Meta
    var desired: DesiredBucket
    var credentials: map<string, PullCredential>
    var allocations: map<string, LocalAllocation>
    var observations: Observations
    var inventory: map<string, RuntimeResource>

    function Contents(): Db
      reads this
    {
      Db(meta, desired, credentials, allocations, observations, inventory)
    }

    /** The startup check holds. The methods keep the stronger `Sound` around it, which every reachable store has. */
    ghost predicate Valid()
      reads this
    {
      ValidRecords(ext, Contents())
    }

    constructor (ext: Externals, db: Db)
      ensures this.ext == ext && Contents() == db
    {
      this.ext := ext;
      meta, desired, credentials, allocations, observations, inventory
        := db.meta, db.desired, db.credentials, db.allocations, db.observations, db.inventory;
    }

    method Rollback(before: Db)
      modifies this
      ensures Contents() == before
    {
      meta, desired, credentials, allocations, observations, inventory
        := before.meta, before.desired, before.credentials, before.allocations, before.observations, before.inventory;
    }

    method RequireClusterIdentity(clusterId: string) returns (out: Outcome)
      modifies this
      ensures Tx(Contents(), out) == RequireIdentityTx(old(Contents()), clusterId)
      ensures out.Refused? <==> old(meta).identityRecovery || ClusterMismatch(old(meta), clusterId)
      ensures out.Refused? <==> meta.identityRecovery
      ensures out.Done? ==> Contents() == old(Contents())
      ensures desired == old(desired) && allocations == old(allocations) && inventory == old(inventory)
    {
      if meta.identityRecovery {
        return Refused(IdentityFlagged);
      }
      if ClusterMismatch(meta, clusterId) {
        meta := meta.(identityRecovery := true);
        meta := meta.(init := Recovery);
        return Refused(ForeignCluster);
      }
      return Done(false);
    }

    method ObserveAuthorityEpoch(env: Envelope) returns (out: Outcome)
      modifies this
      ensures Tx(Contents(), out) == ObserveTx(old(Contents()), env)
      ensures out.Done? <==> SameGeneration(old(meta), env) && env.epoch >= Fence(old(meta))
      ensures out.Done? ==> Fence(meta) == env.epoch
      ensures out.Refused? ==> Contents() == old(Contents())
      ensures Fence(old(meta)) <= Fence(meta) && meta.acceptedEpoch == old(meta).acceptedEpoch
    {
      if !SameGeneration(meta, env) {
        return Refused(ForeignGeneration);
      }
      if env.epoch < Fence(meta) {
        return Refused(StaleEpoch);
      }
      meta := meta.(highestEpoch := env.epoch);
      return Done(true);
    }

    method RecordRuntimeInventory(found: seq<RuntimeResource>) returns (out: Outcome)
      requires RecordsUnderTheirIds(allocations)
      modifies this
      ensures Tx(Contents(), out) == RecordInventoryTx(old(Contents()), found)
      ensures Sound(ext, old(Contents())) && Identified(found) ==> Sound(ext, Contents()) && Valid()
    {
      if Sound(ext, Contents()) && Identified(found) {
        RecordInventoryKeeps(ext, Contents(), found);
      }
      var before := Contents();
      inventory := map[];
      var ok, bucket := WriteRuntimeInventory(found);
      if !ok {
        Rollback(before);
        return Refused(Invalid);
      }
      inventory := bucket;
      allocations := AttachRuntimeIdentities(allocations, found);
      return Done(true);
    }

    method PrepareStartup(clusterId: string, found: seq<RuntimeResource>) returns (out: Outcome)
      requires RecordsUnderTheirIds(allocations)
      modifies this
      ensures var required := RequireIdentityTx(old(Contents()), clusterId);
        Tx(Contents(), out) == if required.out.Refused? then required else StartupTx(required.db, clusterId, found)
      ensures Sound(ext, old(Contents())) && Identified(found) ==> Sound(ext, Contents()) && Valid()
    {
      if Sound(ext, Contents()) && Identified(found) {
        IdentityKeeps(ext, Contents(), clusterId);
        StartupKeeps(ext, RequireIdentityTx(Contents(), clusterId).db, clusterId, found);
      }
      var required := RequireClusterIdentity(clusterId);
      if required.Refused? {
        return required;
      }
      var before := Contents();
      if ClusterMismatch(meta, clusterId) {
        return Refused(ForeignCluster);
      }
      meta := Pinned(meta, clusterId);
      if meta.init == Uninitialized && |found| > 0 {
        meta := meta.(init := Recovery);
      }
      out := RecordRuntimeInventory(found);
      if out.Refused? {
        Rollback(before);
      }
    }

    /** The recovery decision of an accepted state. */
    method SettleInitialization(state: DesiredState)
      modifies this`meta
      ensures meta == old(meta).(init := InitAfterAccept(old(meta).init, inventory, state))
    {
      if meta.init == Uninitialized {
        meta := meta.(init := Ready);
      }
      if meta.init == Recovery {
        var established := RecoveryOwnershipEstablished(inventory, state.services);
        if established {
          meta := meta.(init := Ready);
        }
      }
    }

    method StageDesired(sessionId: string, state: DesiredState, now: int) returns (out: Outcome)
      modifies this
      ensures Tx(Contents(), out) == StageStateTx(old(Contents()), sessionId, state, now)
    {
      if !GrantHolds(state.env, sessionId, now) {
        return Refused(GrantExpired);
      }
      desired := desired.(stagedState := Some(state));
      return Done(true);
    }

    /** The checks before a checkpoint is written, and whether it changes anything. */
    method CheckStaged(clusterId: string, staged: DesiredState, clean: DesiredState) returns (out: Outcome)
      requires clean == Cleaned(staged)
      ensures forall sessionId, now ::
        AcceptStateTx(ext, Contents(), clusterId, sessionId, staged, now)
        == (if out.Refused? then Tx(Contents(), out)
            else if !GrantHolds(staged.env, sessionId, now) then Tx(Contents(), Refused(GrantExpired))
            else Tx(CommitState(Contents(), clusterId, staged), out))
    {
      if desired.stagedState != Some(staged) {
        return Refused(NotStaged);
      }
      if staged.env.agentId != meta.agentId {
        return Refused(ForeignAgent);
      }
      if ClusterMismatch(meta, clusterId) {
        return Refused(ForeignCluster);
      }
      if meta.clusterId == "" && clusterId == "" {
        return Refused(NoCluster);
      }
      if staged.env.epoch < Fence(meta) {
        return Refused(StaleEpoch);
      }
      if staged.env.epoch == meta.acceptedEpoch && staged.cursor < meta.cursor {
        return Refused(StaleCursor);
      }
      if AtPosition(meta, staged.env, staged.cursor) && desired.accepted.Some? {
        var previous := desired.accepted.value;
        if !ConfigurationEqual(previous, clean) {
          return Refused(ChangedAtCursor);
        }
        return Done(previous.nodeConfigVersion != clean.nodeConfigVersion
          || ext.hashOverlay(previous.services) != ext.hashOverlay(clean.services));
      }
      return Done(true);
    }

    /** Writes position, state, allocations and recovery decision, then checks the grant once more. */
    method AcceptStagedDesired(clusterId: string, sessionId: string, staged: DesiredState, now: int)
      returns (out: Outcome)
      requires ValidState(ext, staged)
      modifies this
      ensures Tx(Contents(), out) == AcceptStateTx(ext, old(Contents()), clusterId, sessionId, staged, now)
      ensures Sound(ext, old(Contents())) && SameGeneration(old(meta), staged.env) ==> Sound(ext, Contents()) && Valid()
      ensures out.Done? <==>
        StateFits(old(Contents()), clusterId, sessionId, staged, now) && Continues(old(Contents()), staged)
      ensures out.Done? ==> meta.acceptedEpoch == staged.env.epoch && meta.cursor == staged.cursor
      ensures out.Done? ==> Decided(old(Contents()), Contents())
    {
      StagedStateLaws(ext, Contents(), clusterId, sessionId, staged, now);
      if Sound(ext, Contents()) && SameGeneration(meta, staged.env) {
        AcceptStateKeeps(ext, Contents(), clusterId, sessionId, staged, now);
      }
      out := CommitStagedDesired(clusterId, sessionId, staged, now);
    }

    /** The accepting transaction itself: the checks, then the writes, undone when the grant has run out meanwhile. */
    method CommitStagedDesired(clusterId: string, sessionId: string, staged: DesiredState, now: int)
      returns (out: Outcome)
      requires ValidState(ext, staged)
      modifies this
      ensures Tx(Contents(), out) == AcceptStateTx(ext, old(Contents()), clusterId, sessionId, staged, now)
    {
      var before := Contents();
      var clean := Cleaned(staged);
      CleanedKeeps(ext, staged);
      out := CheckStaged(clusterId, staged, clean);
      if out.Refused? {
        return;
      }
      meta := Pinned(meta, clusterId);
      WriteCheckpoint(clean);
      assert Contents() == CommitState(before, clusterId, staged);
      if !GrantHolds(staged.env, sessionId, now) {
        Rollback(before);
        return Refused(GrantExpired);
      }
    }

    method WriteCheckpoint(clean: DesiredState)
      requires DistinctKeys(clean.services, ServiceKey)
      modifies this
      ensures Contents() == Accepting(
        old(Contents()).(meta := old(meta).(checkpointRequired := false, nodeConfigVersion := clean.nodeConfigVersion),
                         desired := old(desired).(stagedState := None)), clean)
    {
      desired := desired.(accepted := Some(clean));
      meta := meta.(acceptedEpoch := clean.env.epoch);
      meta := meta.(cursor := clean.cursor);
      meta := meta.(nodeConfigVersion := clean.nodeConfigVersion);
      allocations := UpdateDesiredAllocations(allocations, clean.services);
      SettleInitialization(clean);
      meta := meta.(checkpointRequired := false);
      desired := desired.(stagedState := None);
    }

    method StageDiff(sessionId: string, diff: AllocationDiff, now: int) returns (out: Outcome)
      modifies this
      ensures Tx(Contents(), out) == StageDiffTx(old(Contents()), sessionId, diff, now)
    {
      if !GrantHolds(diff.env, sessionId, now) {
        return Refused(GrantExpired);
      }
      desired := desired.(stagedDiff := Some(diff));
      return Done(true);
    }

    method AcceptStagedDiff(clusterId: string, sessionId: string, diff: AllocationDiff, now: int) returns (out: Outcome)
      modifies this
      ensures Tx(Contents(), out) == AcceptDiffTx(ext, old(Contents()), clusterId, sessionId, diff, now)
      ensures Sound(ext, old(Contents())) && ValidDiff(diff) ==> Sound(ext, Contents()) && Valid()
      ensures Sound(ext, old(Contents())) && ValidDiff(diff) ==>
        (out == Done(true) <==>
           && DiffFits(old(Contents()), clusterId, sessionId, diff, now)
           && diff.base == old(meta).cursor < diff.target && old(desired).accepted.Some?)
      ensures out == Done(true) ==> meta.acceptedEpoch == diff.env.epoch && meta.cursor == diff.target
      ensures out == Done(true) ==> Decided(old(Contents()), Contents())
    {
      StagedDiffLaws(ext, Contents(), clusterId, sessionId, diff, now);
      if Sound(ext, Contents()) && ValidDiff(diff) {
        AcceptDiffKeeps(ext, Contents(), clusterId, sessionId, diff, now);
      }
      out := CommitStagedDiff(clusterId, sessionId, diff, now);
    }

    method CommitStagedDiff(clusterId: string, sessionId: string, diff: AllocationDiff, now: int) returns (out: Outcome)
      modifies this
      ensures Tx(Contents(), out) == AcceptDiffTx(ext, old(Contents()), clusterId, sessionId, diff, now)
    {
      var before := Contents();
      if desired.stagedDiff != Some(diff) {
        return Refused(NotStaged);
      }
      if diff.env.agentId != meta.agentId {
        return Refused(ForeignAgent);
      }
      if ClusterMismatch(meta, clusterId) {
        return Refused(ForeignCluster);
      }
      if meta.clusterId == "" && clusterId == "" {
        return Refused(NoCluster);
      }
      meta := Pinned(meta, clusterId);
      if diff.env.epoch < Fence(meta) {
        Rollback(before);
        return Refused(StaleEpoch);
      }
      if diff.target <= meta.cursor {
        if diff.target < meta.cursor {
          Rollback(before);
          return Refused(StaleCursor);
        }
        desired := desired.(stagedDiff := None);
        if !GrantHolds(diff.env, sessionId, now) {
          Rollback(before);
          return Refused(GrantExpired);
        }
        return Done(false);
      }
      if diff.base != meta.cursor {
        Rollback(before);
        return Refused(BaseMismatch);
      }
      if desired.accepted.None? {
        Rollback(before);
        return Refused(NoCheckpoint);
      }
      out := MergeDiff(before, sessionId, diff, now);
    }

    method MergeDiff(before: Db, sessionId: string, diff: AllocationDiff, now: int) returns (out: Outcome)
      requires desired.accepted.Some?
      modifies this
      ensures var merged := ApplyDiff(old(desired).accepted.value, diff);
        Tx(Contents(), out)
        == if !ValidState(ext, merged) then Tx(before, Refused(Invalid))
           else if !GrantHolds(diff.env, sessionId, now) then Tx(before, Refused(GrantExpired))
           else Tx(Accepting(old(Contents()).(desired := old(desired).(stagedDiff := None)), merged), Done(true))
    {
      var merged := ApplyDiffToState(desired.accepted.value, diff);
      var ok := ValidateDesiredState(ext, merged);
      if !ok {
        Rollback(before);
        return Refused(Invalid);
      }
      desired := desired.(accepted := Some(merged));
      meta := meta.(acceptedEpoch := diff.env.epoch);
      meta := meta.(cursor := diff.target);
      allocations := UpdateDesiredAllocations(allocations, merged.services);
      SettleInitialization(merged);
      desired := desired.(stagedDiff := None);
      if !GrantHolds(diff.env, sessionId, now) {
        Rollback(before);
        return Refused(GrantExpired);
      }
      return Done(true);
    }

    method StageNodeConfig(sessionId: string, update: NodeConfigUpdate, now: int) returns (out: Outcome)
      modifies this
      ensures Tx(Contents(), out) == StageNodeConfigTx(old(Contents()), sessionId, update, now)
    {
      if !GrantHolds(update.env, sessionId, now) {
        return Refused(GrantExpired);
      }
      desired := desired.(stagedNodeConfig := Some(update));
      return Done(true);
    }

    method AcceptStagedNodeConfig(clusterId: string, sessionId: string, update: NodeConfigUpdate, now: int)
      returns (out: Outcome)
      modifies this
      ensures Tx(Contents(), out) == AcceptNodeConfigTx(ext, old(Contents()), clusterId, sessionId, update, now)
      ensures Sound(ext, old(Contents())) ==> Sound(ext, Contents()) && Valid()
    {
      if Sound(ext, Contents()) {
        AcceptNodeConfigKeeps(ext, Contents(), clusterId, sessionId, update, now);
      }
      var before := Contents();
      if desired.stagedNodeConfig != Some(update) {
        return Refused(NotStaged);
      }
      if update.env.agentId != meta.agentId {
        return Refused(ForeignAgent);
      }
      if ClusterMismatch(meta, clusterId) {
        return Refused(ForeignCluster);
      }
      if meta.clusterId == "" && clusterId == "" {
        return Refused(NoCluster);
      }
      meta := Pinned(meta, clusterId);
      if update.env.epoch < Fence(meta) {
        Rollback(before);
        return Refused(StaleEpoch);
      }
      var changed := meta.nodeConfigVersion != update.version;
      if changed {
        if desired.accepted.None? {
          Rollback(before);
          return Refused(NoCheckpoint);
        }
        var merged := Reconfigured(desired.accepted.value, update);
        var ok := ValidateDesiredState(ext, merged);
        if !ok {
          Rollback(before);
          return Refused(Invalid);
        }
        desired := desired.(accepted := Some(merged));
        meta := meta.(nodeConfigVersion := update.version);
      }
      desired := desired.(stagedNodeConfig := None);
      if !GrantHolds(update.env, sessionId, now) {
        Rollback(before);
        return Refused(GrantExpired);
      }
      return Done(changed);
    }

    method StoreCredentials(clusterId: string, sessionId: string, creds: PullCredentialSet, now: int)
      returns (out: Outcome)
      modifies this
      ensures Tx(Contents(), out) == AcceptCredentialsTx(old(Contents()), clusterId, sessionId, creds, now)
      ensures Sound(ext, old(Contents())) && CredentialIdsValid(creds.credentials) ==> Sound(ext, Contents()) && Valid()
    {
      if Sound(ext, Contents()) && CredentialIdsValid(creds.credentials) {
        AcceptCredentialsKeeps(ext, Contents(), clusterId, sessionId, creds, now);
      }
      var before := Contents();
      if creds.env.agentId != meta.agentId {
        return Refused(ForeignAgent);
      }
      if ClusterMismatch(meta, clusterId) {
        return Refused(ForeignCluster);
      }
      meta := Pinned(meta, clusterId);
      if creds.env.epoch < Fence(meta) {
        Rollback(before);
        return Refused(StaleEpoch);
      }
      var changed := meta.credentialsVersion != creds.version;
      if changed {
        credentials := ReplaceCredentials(creds.credentials);
        meta := meta.(credentialsVersion := creds.version);
      }
      if !GrantHolds(creds.env, sessionId, now) {
        Rollback(before);
        return Refused(GrantExpired);
      }
      return Done(changed);
    }

    method SetReplicaAddresses(addresses: seq<string>)
      modifies this
      ensures Contents() == SetReplicasTx(old(Contents()), addresses).db
    {
      var seeds := NormalizeAddresses(meta.discovery.seeds);
      var replicas := NormalizeAddresses(addresses);
      meta := meta.(discovery := Discovery(seeds, replicas));
    }

    method SetReplicaSeeds(addresses: seq<string>)
      modifies this
      ensures Contents() == SetSeedsTx(old(Contents()), addresses).db
    {
      var seeds := NormalizeAddresses(addresses);
      var replicas := NormalizeAddresses(meta.discovery.replicas);
      meta := meta.(discovery := Discovery(seeds, replicas));
    }

    method StoreReplicas(clusterId: string, sessionId: string, replicas: ReplicaEndpoints, now: int)
      returns (out: Outcome)
      modifies this
      ensures Tx(Contents(), out) == AcceptReplicasTx(old(Contents()), clusterId, sessionId, replicas, now)
      ensures Sound(ext, old(Contents())) ==> Sound(ext, Contents()) && Valid()
    {
      if Sound(ext, Contents()) {
        AcceptReplicasKeeps(ext, Contents(), clusterId, sessionId, replicas, now);
      }
      var before := Contents();
      if replicas.env.agentId != meta.agentId {
        return Refused(ForeignAgent);
      }
      if ClusterMismatch(meta, clusterId) {
        return Refused(ForeignCluster);
      }
      meta := Pinned(meta, clusterId);
      if replicas.env.epoch < Fence(meta) {
        Rollback(before);
        return Refused(StaleEpoch);
      }
      var changed := meta.replicasVersion != replicas.version;
      if changed {
        SetReplicaAddresses(replicas.addresses);
        meta := meta.(replicasVersion := replicas.version);
      }
      if !GrantHolds(replicas.env, sessionId, now) {
        Rollback(before);
        return Refused(GrantExpired);
      }
      return Done(changed);
    }

    /** The sequence a report gets: the stored one for repeated content, the next one otherwise. */
    method NextSequence(next: StatusReport) returns (out: Outcome, sequence: nat)
      ensures var same := SameReport(observations.report, next);
        var bumped := if same then observations.sequence else observations.sequence + 1;
        && sequence == (if bumped == 0 then 1 else bumped)
        && out == (if !same && observations.sequence >= MAX_INT64 then Refused(Exhausted)
            else Done(!same || bumped == 0))
    {
      var changed := !SameReport(observations.report, next);
      sequence := observations.sequence;
      out := Done(changed);
      if changed {
        if sequence >= MAX_INT64 {
          out := Refused(Exhausted);
        }
        sequence := sequence + 1;
      }
      if sequence == 0 {
        sequence := 1;
        out := Done(true);
      }
    }

    method RecordReport(report: StatusReport) returns (out: Outcome)
      requires RecordsUnderTheirIds(allocations)
      modifies this
      ensures Tx(Contents(), out) == RecordReportTx(old(Contents()), report)
      ensures Sound(ext, old(Contents())) && NamesAccepted(old(desired), report) ==> Sound(ext, Contents()) && Valid()
    {
      if Sound(ext, Contents()) && NamesAccepted(desired, report) {
        RecordReportKeeps(ext, Contents(), report);
      }
      if report.agentId != meta.agentId {
        return Refused(ForeignAgent);
      }
      if meta.acceptedEpoch == 0 || desired.accepted.None? {
        return Refused(NoCheckpoint);
      }
      var next := report.(sessionId := "", epoch := meta.acceptedEpoch, cursor := meta.cursor);
      var sequence;
      out, sequence := NextSequence(next);
      if out.Refused? {
        return;
      }
      next := next.(sequence := sequence);
      out := WriteReport(next, sequence, out);
    }

    method WriteReport(next: StatusReport, sequence: nat, done: Outcome) returns (out: Outcome)
      requires RecordsUnderTheirIds(allocations) && desired.accepted.Some?
      modifies this
      ensures NamesEmptyKey(next.services) ==> Contents() == old(Contents()) && out == Refused(Invalid)
      ensures !NamesEmptyKey(next.services) ==> out == done
      ensures !NamesEmptyKey(next.services) ==> Contents() == old(Contents()).(
        observations := Observations(Some(next), sequence, old(meta).acceptedEpoch, old(meta).cursor),
        allocations := ReportedAllocations(old(allocations), next.services,
          ListedIds(old(desired).accepted.value.services)))
    {
      var before := Contents();
      observations := Observations(Some(next), sequence, meta.acceptedEpoch, meta.cursor);
      var services := desired.accepted.value.services;
      var listed := IndexList(map[], services, ServiceKey);
      IndexDomain(services, ServiceKey);
      assert listed.Keys == ListedIds(services);
      var ok, records := ApplyReportToAllocations(allocations, next.services, listed.Keys);
      if !ok {
        Rollback(before);
        return Refused(Invalid);
      }
      allocations := records;
      return done;
    }

    /** Adds to the retained network exactly what the accepted state uses, and changes nothing else. */
    method RetainRecoveryNetwork()
      modifies this`meta
      ensures meta == old(meta).(retainedNetwork := Retained(ext, old(Contents())))
      ensures forall r :: r in meta.retainedNetwork <==>
        r in old(meta).retainedNetwork || (desired.accepted.Some? && Uses(ext, desired.accepted.value, r))
    {
      RetainedElements(ext, Contents());
      var reservations := meta.retainedNetwork;
      if desired.accepted.Some? {
        var state := desired.accepted.value;
        if state.nodeConfig.Some? {
          reservations := AppendNodeReservations(ext, reservations, state.nodeConfig.value);
        }
        reservations := AppendIdentityReservations(reservations, state.services);
        assert reservations == meta.retainedNetwork + ReservationsOf(ext, state);
      } else {
        assert reservations == meta.retainedNetwork + [];
      }
      meta := meta.(retainedNetwork := Compact(SortByText(ext, reservations)));
    }

    /** The writes of a cutover: the old generation is retired, everything it decided is dropped, the rest is kept. */
    method Cutover(a: Authority)
      modifies this
      ensures Contents() == old(Contents()).(
        meta := AdmittedMeta(ext, old(Contents()), a), desired := DesiredBucket(None, None, None, None),
        credentials := map[], observations := Observations(None, 0, 0, 0))
    {
      RetainRecoveryNetwork();
      if meta.recoveryGeneration != "" {
        meta := meta.(retired := meta.retired + {meta.recoveryGeneration});
      }
      meta := meta.(checkpointApproved := false);
      if a.checkpoints {
        meta := meta.(checkpointApproved := true);
      }
      meta := meta.(installationId := a.installationId, recoveryGeneration := a.generation, clusterId := a.clusterId,
                    checkpointRequired := true, init := Recovery);
      meta := meta.(acceptedEpoch := 0, highestEpoch := 0, cursor := 0, nodeConfigVersion := "",
                    credentialsVersion := "", replicasVersion := "", identityRecovery := false);
      desired := DesiredBucket(None, None, None, None);
      credentials := map[];
      observations := Observations(None, 0, 0, 0);
    }

    method AdmitAuthority(a: Authority) returns (out: Outcome)
      modifies this
      ensures Tx(Contents(), out) == AdmitTx(ext, old(Contents()), a)
      ensures Sound(ext, old(Contents())) && a.generation != "" ==> Sound(ext, Contents()) && Valid()
      ensures out.Refused? <==>
        || (old(meta).installationId != "" && old(meta).installationId != a.installationId)
        || (old(meta).recoveryGeneration != a.generation && a.generation in old(meta).retired)
      ensures out.Refused? ==> Contents() == old(Contents())
    {
      AdmittedExactly(ext, Contents(), a);
      if Sound(ext, Contents()) && a.generation != "" {
        AdmitKeeps(ext, Contents(), a);
      }
      if meta.installationId != "" && meta.installationId != a.installationId {
        return Refused(ForeignInstallation);
      }
      if meta.recoveryGeneration == a.generation {
        if a.checkpoints {
          meta := meta.(checkpointApproved := true);
        }
        return Done(false);
      }
      if a.generation in meta.retired {
        return Refused(Retired);
      }
      Cutover(a);
      return Done(true);
    }

    // -------------------------------------------------------------- opening

    method Migrate()
      modifies this
      ensures Contents() == Migrated(ext, old(Contents()))
    {
      if desired.accepted.Some? {
        var state := Canonicalized(desired.accepted.value);
        state := state.(nodeConfigVersion := ext.hashNodeConfig(state.nodeConfig));
        desired := desired.(accepted := Some(state));
        meta := meta.(nodeConfigVersion := state.nodeConfigVersion);
      }
    }

    method DropCandidates()
      modifies this
      ensures Contents() == WithoutCandidates(old(Contents()))
    {
      desired := desired.(stagedState := None);
      desired := desired.(stagedDiff := None);
      desired := desired.(stagedNodeConfig := None);
    }

    method Claim(agentId: string, existed: bool, corrupt: bool, freshId: string)
      modifies this`meta
      ensures meta == Claimed(old(meta), agentId, existed, corrupt, freshId)
    {
      meta := meta.(formatVersion := FORMAT_VERSION);
      meta := meta.(agentId := agentId);
      if meta.storeId == "" {
        meta := meta.(storeId := freshId);
      }
      if meta.init == Unset {
        meta := meta.(init := if corrupt || existed then Recovery else Uninitialized);
      }
    }

    /** Drops candidates, migrates the previous format, and claims the store for the agent. */
    method Initialize(agentId: string, existed: bool, corrupt: bool, freshId: string) returns (ok: bool)
      modifies this
      ensures ok == InitializeTx(ext, old(Contents()), agentId, existed, corrupt, freshId).Initialized?
      ensures ok ==> Contents() == InitializeTx(ext, old(Contents()), agentId, existed, corrupt, freshId).db
      ensures !ok ==> Contents() == old(Contents())
    {
      var before := Contents();
      if !KnownFormat(meta.formatVersion) {
        return false;
      }
      DropCandidates();
      if meta.formatVersion == 2 {
        Migrate();
      }
      assert Contents() == CurrentFormat(ext, before);
      if meta.agentId != "" && meta.agentId != agentId {
        Rollback(before);
        return false;
      }
      Claim(agentId, existed, corrupt, freshId);
      return true;
    }

    method CheckPosition() returns (ok: bool)
      ensures ok <==> ValidPosition(ext, meta, desired.accepted)
    {
      if desired.accepted.None? {
        return meta.acceptedEpoch == 0 && meta.cursor == 0;
      }
      var state := desired.accepted.value;
      var valid := ValidateDesiredState(ext, state);
      return
        valid && state.env.agentId == meta.agentId && state.env.epoch == meta.acceptedEpoch
          && state.cursor == meta.cursor
        && state.nodeConfigVersion == meta.nodeConfigVersion;
    }

    method CheckObservations() returns (ok: bool)
      ensures ok <==> ValidObservations(meta.agentId, observations)
    {
      if observations.report.None? {
        return true;
      }
      var report := observations.report.value;
      return
        && report.agentId == meta.agentId && report.sequence != 0 && report.sequence == observations.sequence
        && report.epoch == observations.reportEpoch && report.cursor == observations.reportCursor;
    }

    /** The startup check, record by record. */
    method ValidateRecords() returns (ok: bool)
      ensures ok <==> Valid()
    {
      if meta.init != Uninitialized && meta.init != Ready && meta.init != Recovery {
        return false;
      }
      if Blank(meta.agentId) {
        return false;
      }
      var position := CheckPosition();
      if !position {
        return false;
      }
      var keys := CheckCredentialKeys(credentials);
      var records := CheckAllocationRecords(allocations);
      var resources := CheckInventory(inventory);
      var observed := CheckObservations();
      var seeds := NormalizeAddresses(meta.discovery.seeds);
      var replicas := NormalizeAddresses(meta.discovery.replicas);
      return keys && records && resources && observed && seeds == meta.discovery.seeds
        && replicas == meta.discovery.replicas;
    }

    // -------------------------------------------------------------- whole calls

    method AcceptDesired(
        clusterId: string, sessionId: string, incoming: Option<DesiredState>, staging: int, committing: int)
      returns (out: Outcome)
      modifies this
      ensures incoming.None? ==> out.Refused? && Contents() == RequireIdentityTx(old(Contents()), clusterId).db
      ensures incoming.Some? ==>
        Tx(Contents(), out) == WholeCall(ext, old(Contents()),
          Call(Checkpoint(incoming.value), clusterId, sessionId, Identify), staging, committing)
      ensures Sound(ext, old(Contents())) ==> Sound(ext, Contents()) && Valid()
    {
      if Sound(ext, Contents()) {
        IdentityKeeps(ext, Contents(), clusterId);
        if incoming.Some? {
          ghost var call := Call(Checkpoint(incoming.value), clusterId, sessionId, Identify);
          WholeCallSound(ext, Contents(), call, staging, committing);
        }
      }
      out := RequireClusterIdentity(clusterId);
      if out.Refused? {
        return;
      }
      if incoming.None? {
        return Refused(Missing);
      }
      var state := incoming.value;
      var call := Call(Checkpoint(state), clusterId, sessionId, Identify);
      out := Addressed(meta, call);
      if out.Refused? {
        return;
      }
      out := ObserveAuthorityEpoch(state.env);
      if out.Refused? {
        return;
      }
      var ok := ValidateDesiredState(ext, state);
      if !ok {
        return Refused(Invalid);
      }
      out := StageDesired(sessionId, state, staging);
      if out.Refused? {
        return;
      }
      out := AcceptStagedDesired(clusterId, sessionId, state, committing);
    }

    method AcceptAllocationDiff(
        clusterId: string, sessionId: string, incoming: Option<AllocationDiff>, staging: int, committing: int)
      returns (out: Outcome)
      modifies this
      ensures incoming.None? ==> out.Refused?
      ensures incoming.None? ==> Contents() in {old(Contents()), RequireIdentityTx(old(Contents()), clusterId).db}
      ensures incoming.Some? ==>
        Tx(Contents(), out) == WholeCall(ext, old(Contents()),
          Call(Diff(incoming.value), clusterId, sessionId, Identify), staging, committing)
      ensures Sound(ext, old(Contents())) ==> Sound(ext, Contents()) && Valid()
    {
      if Sound(ext, Contents()) {
        IdentityKeeps(ext, Contents(), clusterId);
        if incoming.Some? {
          ghost var call := Call(Diff(incoming.value), clusterId, sessionId, Identify);
          WholeCallSound(ext, Contents(), call, staging, committing);
        }
      }
      if meta.checkpointRequired {
        return Refused(CheckpointRequired);
      }
      out := RequireClusterIdentity(clusterId);
      if out.Refused? {
        return;
      }
      if incoming.None? {
        return Refused(Missing);
      }
      var diff := incoming.value;
      out := Addressed(meta, Call(Diff(diff), clusterId, sessionId, Identify));
      if out.Refused? {
        return;
      }
      out := ObserveAuthorityEpoch(diff.env);
      if out.Refused? {
        return;
      }
      var ok := ValidateAllocationDiff(diff);
      if !ok {
        return Refused(Invalid);
      }
      out := StageDiff(sessionId, diff, staging);
      if out.Refused? {
        return;
      }
      out := AcceptStagedDiff(clusterId, sessionId, diff, committing);
    }
  }

  lemma StagedStateLaws(
      ext: Externals, db: Db, clusterId: string, sessionId: string, staged: DesiredState, now: int)
    requires ValidState(ext, staged)
    ensures var tx := AcceptStateTx(ext, db, clusterId, sessionId, staged, now);
      && (tx.out.Done? <==> StateFits(db, clusterId, sessionId, staged, now) && Continues(db, staged))
      && (tx.out.Done? ==>
            tx.db.meta.acceptedEpoch == staged.env.epoch && tx.db.meta.cursor == staged.cursor && Decided(db, tx.db))
  {
    CheckpointAcceptedExactly(ext, db, clusterId, sessionId, staged, now);
    if AcceptStateTx(ext, db, clusterId, sessionId, staged, now).out.Done? {
      CheckpointLeaves(ext, db, clusterId, sessionId, staged, now);
      CheckpointDecides(ext, db, clusterId, sessionId, staged, now);
    }
  }

  lemma StagedDiffLaws(ext: Externals, db: Db, clusterId: string, sessionId: string, diff: AllocationDiff, now: int)
    ensures var tx := AcceptDiffTx(ext, db, clusterId, sessionId, diff, now);
      && (Sound(ext, db) && ValidDiff(diff) ==>
            (tx.out == Done(true) <==>
               && DiffFits(db, clusterId, sessionId, diff, now)
               && diff.base == db.meta.cursor < diff.target && db.desired.accepted.Some?))
      && (tx.out == Done(true) ==>
            tx.db.meta.acceptedEpoch == diff.env.epoch && tx.db.meta.cursor == diff.target && Decided(db, tx.db))
  {
    if Sound(ext, db) && ValidDiff(diff) {
      DiffAcceptedExactly(ext, db, clusterId, sessionId, diff, now);
    }
    if AcceptDiffTx(ext, db, clusterId, sessionId, diff, now).out == Done(true) {
      DiffLeaves(ext, db, clusterId, sessionId, diff, now);
      DiffDecides(ext, db, clusterId, sessionId, diff, now);
    }
  }

  lemma CommitLastSound(ext: Externals, db: Db, call: Call, now: int)
    requires Sound(ext, db) && CallSound(ext, db.meta, call.(at := Commit))
    ensures Sound(ext, CommitCallTx(ext, db, call, now).db)
  {
    CommitCallKeeps(ext, db, call.(at := Commit), now);
  }

  lemma IdentifyFirstSound(ext: Externals, db: Db, call: Call)
    requires Sound(ext, db)
    ensures var tx := IdentifyTx(db, call); Sound(ext, tx.db) && (tx.out.Done? ==> !tx.db.meta.identityRecovery)
  {
    IdentityKeeps(ext, db, call.clusterId);
  }

  /** A whole call keeps a sound store sound, however it ends. */
  lemma WholeCallSound(ext: Externals, db: Db, call: Call, staging: int, committing: int)
    requires Sound(ext, db)
    ensures Sound(ext, WholeCall(ext, db, call, staging, committing).db)
  {
    var identified := IdentifyTx(db, call);
    IdentifyFirstSound(ext, db, call);
    if identified.out.Done? {
      var observed := ObserveCallTx(identified.db, call);
      ObserveCallKeeps(ext, identified.db, call);
      if observed.out.Done? {
        var staged := StageCallTx(ext, observed.db, call, staging);
        StageCallKeeps(ext, observed.db, call, staging);
        if staged.out.Done? {
          CommitLastSound(ext, staged.db, call, committing);
        }
      }
    }
  }

  ghost predicate NamesAccepted(desired: DesiredBucket, report: StatusReport) {
    desired.accepted.Some? ==> ReportsOnly(report, desired.accepted.value)
  }
}
