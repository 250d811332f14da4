/**
 * What the store's records say after a transaction, field by field: allocations, inventories, reports, generations,
 * and the store a file opens to.
 */
module Bookkeeping {
  import opened Strings
  import opened Keyed
  import opened Messages
  import opened Validation
  import opened Configuration
  import opened Database
  import opened Records
  import opened Agent
  import opened Runs
  import opened Evolution
  import opened RunTheorems

  // ---------------------------------------------------------------- allocation records

  /** The record says what the service says; what was applied, and where it runs, it has from before. */
  predicate RecordsService(r: LocalAllocation, s: DesiredService, before: LocalAllocation) {
    && r.allocationId == s.allocationId && r.serviceId == s.serviceId
    && r.environmentId == s.environmentId && r.deploymentId == s.deploymentId
    && r.ipv4 == s.ipv4 && r.ipv6 == s.ipv6 && r.networkIdentity == s.networkIdentity
    && r.desiredSpecRevision == s.specRevision && r.desiredGeneration == s.rolloutGeneration
    && r.createdAt == (if s.createdAt.Some? then s.createdAt.value else before.createdAt)
    && r.runtimeId == before.runtimeId && r.phase == before.phase
    && r.appliedSpecRevision == before.appliedSpecRevision && r.appliedGeneration == before.appliedGeneration
  }

  predicate Untold(r: LocalAllocation) {
    r.runtimeId == "" && r.phase == "" && r.appliedSpecRevision == 0 && r.appliedGeneration == 0 && r.createdAt == 0
  }

  /** Accepting a state records each service it lists and leaves every other record alone. */
  lemma ServicesRecorded(m: map<string, LocalAllocation>, services: seq<DesiredService>, i: nat, id: string)
    requires DistinctKeys(services, ServiceKey)
    ensures var b := DesiredAllocations(m, services);
      && (i < |services| ==>
            var s := services[i];
            && s.allocationId in b
            && (s.allocationId in m ==> RecordsService(b[s.allocationId], s, m[s.allocationId]))
            && (s.allocationId !in m ==> exists f :: Untold(f) && RecordsService(b[s.allocationId], s, f)))
      && (id !in ListedIds(services) ==> (id in b <==> id in m) && (id in m ==> b[id] == m[id]))
  {
    IndexDomain(services, ServiceKey);
    if i < |services| {
      IndexAt(services, ServiceKey, i);
      if services[i].allocationId !in m {
        assert Untold(FreshAllocation(services[i].allocationId));
      }
    }
  }

  /** A report updates what was applied and the phase, and stops what is neither reported nor desired. */
  lemma ConditionsRecorded(
      m: map<string, LocalAllocation>, conditions: seq<ServiceCondition>, desired: set<string>, i: nat, id: string)
    requires DistinctKeys(conditions, ConditionKey)
    ensures var b := ReportedAllocations(m, conditions, desired);
      && (i < |conditions| ==>
            var c := conditions[i];
            && c.allocationId in b
            && b[c.allocationId].appliedSpecRevision == c.appliedSpecRevision
            && b[c.allocationId].appliedGeneration == c.appliedGeneration && b[c.allocationId].phase == c.phase
            && (c.allocationId in m ==>
                  && b[c.allocationId].runtimeId == m[c.allocationId].runtimeId
                  && b[c.allocationId].desiredSpecRevision == m[c.allocationId].desiredSpecRevision
                  && b[c.allocationId].desiredGeneration == m[c.allocationId].desiredGeneration))
      && (id !in Keys(conditions, ConditionKey) ==>
            && (id in b <==> id in m)
            && (id in m && id in desired ==> b[id] == m[id])
            && (id in m && id !in desired ==> b[id] == m[id].(runtimeId := "", phase := "Stopped")))
  {
    IndexDomain(conditions, ConditionKey);
    if i < |conditions| {
      IndexAt(conditions, ConditionKey, i);
    }
  }

  /** After an inventory a record has the runtime identity of the resource found for it, and none if none was. */
  lemma ResourcesRecorded(m: map<string, LocalAllocation>, found: seq<RuntimeResource>, i: nat, id: string)
    requires DistinctKeys(found, ResourceKey)
    ensures var b := InventoriedAllocations(m, found);
      && (i < |found| ==> found[i].allocationId in b && b[found[i].allocationId].runtimeId == found[i].runtimeId)
      && (id !in Keys(found, ResourceKey) ==>
            (id in b <==> id in m) && (id in m ==> b[id] == m[id].(runtimeId := "")))
  {
    IndexDomain(found, ResourceKey);
    if i < |found| {
      IndexAt(found, ResourceKey, i);
    }
  }

  /** The first start with resources nobody claims enters recovery; no other start changes the recovery state. */
  lemma StartDecides(db: Db, clusterId: string, found: seq<RuntimeResource>)
    ensures var tx := StartupTx(db, clusterId, found);
      && (tx.out.Done? <==>
            && (db.meta.clusterId == "" || clusterId == "" || db.meta.clusterId == clusterId)
            && forall i :: 0 <= i < |found| ==> ValidRuntimeId(found[i].allocationId))
      && (tx.out.Done? ==>
            && tx.db.meta.init == (if db.meta.init == Uninitialized && found != [] then Recovery else db.meta.init)
            && tx.db.inventory.Keys == Keys(found, InventoryKey)
            && tx.db.allocations == InventoriedAllocations(db.allocations, found)
            && tx.db.desired == db.desired)
      && (tx.out.Refused? ==> tx.db == db)
  {
    IndexDomain(found, InventoryKey);
  }

  // ---------------------------------------------------------------- reports

  /** Two reports that differ at most in session and sequence. */
  predicate SameContent(a: StatusReport, b: StatusReport) {
    && a.agentId == b.agentId && a.services == b.services && a.volumes == b.volumes && a.wakeDemands == b.wakeDemands
    && a.recoveryMode == b.recoveryMode && a.installationId == b.installationId
    && a.recoveryGeneration == b.recoveryGeneration && a.epoch == b.epoch && a.cursor == b.cursor
  }

  /** The report repeats the stored one at the accepted position. */
  predicate Repeats(db: Db, report: StatusReport) {
    && db.observations.report.Some?
    && SameContent(db.observations.report.value, report.(epoch := db.meta.acceptedEpoch, cursor := db.meta.cursor))
  }

  /**
   * A report is recorded exactly when it is this agent's, a state is accepted, it names allocations and a number is
   * left.
   */
  lemma ReportRecordedExactly(db: Db, report: StatusReport)
    ensures var tx := RecordReportTx(db, report);
      && (tx.out.Done? <==>
            && report.agentId == db.meta.agentId && db.meta.acceptedEpoch != 0 && db.desired.accepted.Some?
            && (forall i :: 0 <= i < |report.services| ==> report.services[i].allocationId != "")
            && (Repeats(db, report) || db.observations.sequence < 0x7FFF_FFFF_FFFF_FFFF))
      && (tx.out.Refused? ==> tx.db == db)
  {
  }

  /** A repeated report keeps its sequence, any other takes the next; zero is never used. */
  lemma ReportNumbered(db: Db, report: StatusReport)
    requires RecordReportTx(db, report).out.Done?
    ensures var tx := RecordReportTx(db, report); var o := tx.db.observations;
      && o.report.Some? && SameContent(o.report.value,
          report.(epoch := db.meta.acceptedEpoch, cursor := db.meta.cursor))
      && o.report.value.sessionId == "" && o.report.value.sequence == o.sequence
      && o.reportEpoch == db.meta.acceptedEpoch && o.reportCursor == db.meta.cursor
      && o.sequence == (if Repeats(db, report)
          then (if db.observations.sequence == 0 then 1 else db.observations.sequence)
                        else db.observations.sequence + 1)
      && (tx.out.changed <==> !Repeats(db, report) || db.observations.sequence == 0)
      && tx.db.meta == db.meta && tx.db.desired == db.desired && tx.db.inventory == db.inventory
  {
  }

  // ---------------------------------------------------------------- generations

  /** A generation is refused exactly when it is of another installation, or is not current and was retired. */
  lemma AdmittedExactly(ext: Externals, db: Db, a: Authority)
    ensures var tx := AdmitTx(ext, db, a);
      && (tx.out.Refused? <==>
            || (db.meta.installationId != "" && db.meta.installationId != a.installationId)
            || (db.meta.recoveryGeneration != a.generation && a.generation in db.meta.retired))
      && (tx.out == Done(true) <==> !tx.out.Refused? && db.meta.recoveryGeneration != a.generation)
      && (tx.out.Refused? ==> tx.db == db)
      && (tx.out == Done(false) ==>
            tx.db == db.(meta := db.meta.(checkpointApproved := db.meta.checkpointApproved || a.checkpoints)))
  {
  }

  /** A cutover starts from nothing accepted, retires the old generation, and keeps records, addresses and identity. */
  lemma CutoverLeaves(ext: Externals, db: Db, a: Authority)
    requires AdmitTx(ext, db, a).out == Done(true)
    ensures var b := AdmitTx(ext, db, a).db;
      && b.meta.installationId == a.installationId && b.meta.recoveryGeneration == a.generation
      && b.meta.clusterId == a.clusterId && b.meta.checkpointApproved == a.checkpoints && b.meta.checkpointRequired
      && (forall g :: g in b.meta.retired <==> g in db.meta.retired || (g != "" && g == db.meta.recoveryGeneration))
      && b.meta.acceptedEpoch == 0 && b.meta.highestEpoch == 0 && b.meta.cursor == 0
      && b.meta.nodeConfigVersion == "" && b.meta.credentialsVersion == "" && b.meta.replicasVersion == ""
      && b.meta.init == Recovery && !b.meta.identityRecovery
      && b.desired == DesiredBucket(None, None, None, None) && b.credentials == map[]
      && b.observations.report.None? && b.observations.sequence == 0
      && b.allocations == db.allocations && b.inventory == db.inventory && b.meta.discovery == db.meta.discovery
      && b.meta.agentId == db.meta.agentId && b.meta.storeId == db.meta.storeId
      && b.meta.sessionIncarnation == db.meta.sessionIncarnation
  {
  }

  predicate InstallationKept(a: Meta, b: Meta) {
    a.installationId != "" ==> b.installationId == a.installationId
  }

  lemma CallKeepsInstallation(ext: Externals, db: Db, call: Call, now: int)
    ensures Proceed(ext, db, call, now).db.meta.installationId == db.meta.installationId
  {
    if call.at == Commit {
      if CommitCallTx(ext, db, call, now).out.Done? {
        CommitGuards(ext, db, call, now);
      } else {
        RefusalChangesNothing(ext, db, call, now);
      }
    } else if call.at == Stage {
      assert StageCallTx(ext, db, call, now).db.meta == db.meta;
    }
  }

  lemma QuietKeepsInstallation(ext: Externals, n: Node, e: Event)
    requires Enabled(n, e) && Quiet(e)
    ensures Content(Next(ext, n, e)).meta.installationId == Content(n).meta.installationId
  {
  }

  lemma StepKeepsInstallation(ext: Externals, n: Node, e: Event)
    requires NodeSound(ext, n) && Enabled(n, e)
    ensures InstallationKept(Content(n).meta, Content(Next(ext, n, e)).meta)
  {
    if Quiet(e) {
      QuietKeepsInstallation(ext, n, e);
    } else if e.Advance? {
      CallKeepsInstallation(ext, n.disk.db, n.phase.call.value, e.now);
    } else if e.Admit? {
      AdmittedExactly(ext, n.disk.db, e.authority);
    } else if e.Report? {
      assert RecordReportTx(n.disk.db, e.report).db.meta == n.disk.db.meta;
    } else if n.disk.File? && n.disk.db != EMPTY_DB && n.disk.db.meta.agentId == e.agentId {
      SoundReopens(ext, n.disk.db, e.freshId);
    }
  }

  lemma RunStepKeepsInstallation(ext: Externals, nodes: seq<Node>, events: seq<Event>, i: nat)
    requires IsRun(ext, nodes, events) && i < |events|
    ensures InstallationKept(Content(nodes[i]).meta, Content(nodes[i + 1]).meta)
  {
    RunSound(ext, nodes, events, i);
    StepKeepsInstallation(ext, nodes[i], events[i]);
  }

  lemma {:induction false} InstallationChain(metas: seq<Meta>, i: nat, j: nat)
    requires i <= j < |metas| && forall k :: i <= k < j ==> InstallationKept(metas[k], metas[k + 1])
    ensures InstallationKept(metas[i], metas[j])
  {
    if i < j {
      InstallationChain(metas, i, j - 1);
      assert InstallationKept(metas[j - 1], metas[j]);
    }
  }

  /** Once a store has an installation, it has that one for good. */
  lemma InstallationIsForGood(ext: Externals, nodes: seq<Node>, events: seq<Event>, i: nat, j: nat)
    requires IsRun(ext, nodes, events) && i <= j < |nodes| && Content(nodes[i]).meta.installationId != ""
    ensures Content(nodes[j]).meta.installationId == Content(nodes[i]).meta.installationId
  {
    var metas := seq(|nodes|, k requires 0 <= k < |nodes| => Content(nodes[k]).meta);
    forall k | i <= k < j ensures InstallationKept(metas[k], metas[k + 1]) {
      RunStepKeepsInstallation(ext, nodes, events, k);
    }
    InstallationChain(metas, i, j);
  }

  // ---------------------------------------------------------------- opening

  /**
   * A store is not opened exactly when there is no agent to open it for, or it is of an unknown format or another
   * agent's.
   */
  lemma OpenedExactly(ext: Externals, disk: Disk, agentId: string, freshId: string)
    ensures OpenStore(ext, disk, agentId, freshId).NotOpened? <==>
      || Blank(agentId)
      || (disk.File? && disk.db.meta.formatVersion !in {0, 2, 3})
      || (disk.File? && disk.db.meta.agentId != "" && disk.db.meta.agentId != agentId)
  {
  }

  /**
   * A store opened as it was keeps its identity, position and records, and a recovery state is given to one without.
   */
  lemma OpenedKeeps(ext: Externals, disk: Disk, agentId: string, freshId: string)
    requires disk.File?
    ensures var open := OpenStore(ext, disk, agentId, freshId);
      open.Opened? && !open.quarantined ==>
        && open.db.meta.init == (if disk.db.meta.init == Unset then Recovery else disk.db.meta.init)
        && open.db.meta.storeId == (if disk.db.meta.storeId == "" then freshId else disk.db.meta.storeId)
        && open.db.meta.formatVersion == 3
        && SamePosition(open.db.meta, disk.db.meta) && open.db.meta.highestEpoch == disk.db.meta.highestEpoch
        && open.db.meta.recoveryGeneration == disk.db.meta.recoveryGeneration
        && open.db.meta.retired == disk.db.meta.retired
        && open.db.allocations == disk.db.allocations && open.db.inventory == disk.db.inventory
        && open.db.observations == disk.db.observations && open.db.credentials == disk.db.credentials
        && (disk.db.meta.formatVersion != 2 ==> open.db.desired.accepted == disk.db.desired.accepted)
  {
  }

  /** A store of the previous format keeps its configuration, sorted, and gets the version of its node configuration. */
  lemma MigrationKeeps(ext: Externals, db: Db)
    requires db.desired.accepted.Some? && DistinctKeys(db.desired.accepted.value.services, ServiceKey)
    ensures var b := Migrated(ext, db); var was := db.desired.accepted.value;
      && b.desired.accepted.Some?
      && ConfigOf(b.desired.accepted.value) == ConfigOf(was)
      && Sorted(b.desired.accepted.value.services, ServiceKey) && Sorted(b.desired.accepted.value.volumes, VolumeKey)
      && b.desired.accepted.value.nodeConfig == was.nodeConfig
      && b.desired.accepted.value.nodeConfigVersion == b.meta.nodeConfigVersion == ext.hashNodeConfig(was.nodeConfig)
      && b.desired.accepted.value.env == was.env && b.desired.accepted.value.cursor == was.cursor
  {
    var was := db.desired.accepted.value;
    CanonicalIndex(was.services, ServiceKey);
    CanonicalIndex(was.volumes, VolumeKey);
    IndexWithoutOverlay(was.services);
    IndexWithoutOverlay(Canonical(was.services, ServiceKey));
  }

  // ---------------------------------------------------------------- configuration of one service

  /**
   * Two services configure the same exactly when they agree on everything but internal hosts and restart observation.
   */
  lemma OverlayIsExact(a: DesiredService, b: DesiredService)
    ensures WithoutOverlay(a) == WithoutOverlay(b) <==>
      && a.allocationId == b.allocationId && a.serviceId == b.serviceId && a.environmentId == b.environmentId
      && a.deploymentId == b.deploymentId && a.specRevision == b.specRevision
      && a.rolloutGeneration == b.rolloutGeneration && a.spec == b.spec && a.ipv4 == b.ipv4 && a.ipv6 == b.ipv6
      && a.networkIdentity == b.networkIdentity && a.volumeId == b.volumeId
      && a.registryUsername == b.registryUsername && a.registryPassword == b.registryPassword
      && a.operatorRestartNonce == b.operatorRestartNonce && a.intent == b.intent
      && a.drainDeadline == b.drainDeadline && a.createdAt == b.createdAt
  {
  }
}
