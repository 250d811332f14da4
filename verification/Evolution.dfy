/** How a store changes along a run: positions, fences, configuration, reports and generations. */
module Evolution {
  import opened Strings
  import opened Messages
  import opened Validation
  import opened Configuration
  import opened Database
  import opened Records
  import opened Agent
  import opened Runs

  // ---------------------------------------------------------------- relations between two stores

  predicate PositionLe(a: Meta, b: Meta) {
    a.acceptedEpoch < b.acceptedEpoch || (a.acceptedEpoch == b.acceptedEpoch && a.cursor <= b.cursor)
  }

  predicate SamePosition(a: Meta, b: Meta) {
    a.acceptedEpoch == b.acceptedEpoch && a.cursor == b.cursor
  }

  /** At one position the configuration is fixed. */
  ghost predicate ConfigurationFixed(a: Db, b: Db) {
    SamePosition(a.meta, b.meta) && a.desired.accepted.Some? ==>
      b.desired.accepted.Some? && ConfigurationEqual(a.desired.accepted.value, b.desired.accepted.value)
  }

  /** Sequences never fall, and at one sequence the content is fixed. */
  ghost predicate ReportsAdvance(a: Observations, b: Observations) {
    && a.sequence <= b.sequence
    && (a.report.Some? ==> b.report.Some? && (a.sequence == b.sequence ==>
          ReportContent(a.report.value) == ReportContent(b.report.value)))
  }

  /** A store flagged for identity recovery takes no command. */
  ghost predicate FlagFreezes(a: Db, b: Db) {
    a.meta.identityRecovery ==>
      && b.meta.identityRecovery
      && b.desired.accepted == a.desired.accepted && b.credentials == a.credentials
      && SamePosition(a.meta, b.meta) && b.meta.highestEpoch == a.meta.highestEpoch
      && b.meta.nodeConfigVersion == a.meta.nodeConfigVersion
      && b.meta.credentialsVersion == a.meta.credentialsVersion
      && b.meta.replicasVersion == a.meta.replicasVersion
  }

  ghost predicate WithinGeneration(a: Db, b: Db) {
    && a.meta.recoveryGeneration == b.meta.recoveryGeneration && a.meta.retired == b.meta.retired
    && PositionLe(a.meta, b.meta) && Fence(a.meta) <= Fence(b.meta)
    && ConfigurationFixed(a, b)
    && ReportsAdvance(a.observations, b.observations)
    && FlagFreezes(a, b)
  }

  ghost predicate NewGeneration(a: Meta, b: Meta) {
    && b.recoveryGeneration != "" && b.recoveryGeneration != a.recoveryGeneration
    && a.retired <= b.retired
    && (a.recoveryGeneration != "" ==> a.recoveryGeneration in b.retired)
  }

  ghost predicate RetainsNetwork(a: Meta, b: Meta) {
    forall r :: r in a.retainedNetwork ==> r in b.retainedNetwork
  }

  /** b is a later content of the store whose content was a. */
  ghost predicate Evolves(a: Db, b: Db) {
    && RetainsNetwork(a.meta, b.meta)
    && b.meta.recoveryGeneration !in b.meta.retired
    && (WithinGeneration(a, b) || NewGeneration(a.meta, b.meta))
  }

  lemma WithinTransitive(a: Db, b: Db, c: Db)
    requires WithinGeneration(a, b) && WithinGeneration(b, c)
    ensures WithinGeneration(a, c)
  {
  }

  lemma EvolvesTransitive(a: Db, b: Db, c: Db)
    requires Evolves(a, b) && Evolves(b, c)
    ensures Evolves(a, c)
  {
    if WithinGeneration(a, b) && WithinGeneration(b, c) {
      WithinTransitive(a, b, c);
    }
  }

  // ---------------------------------------------------------------- reservations

  lemma {:induction false} InsertByTextElements(ext: Externals, s: seq<NetworkReservation>, x: NetworkReservation)
    ensures forall r :: r in InsertByText(ext, s, x) <==> r == x || r in s
  {
    if s != [] && !Less(ext.reservationText(x), ext.reservationText(s[0])) {
      InsertByTextElements(ext, s[1..], x);
      assert s == [s[0]] + s[1..];
    }
  }

  lemma {:induction false} SortByTextElements(ext: Externals, s: seq<NetworkReservation>)
    ensures forall r :: r in SortByText(ext, s) <==> r in s
  {
    if s != [] {
      SortByTextElements(ext, s[..|s| - 1]);
      InsertByTextElements(ext, SortByText(ext, s[..|s| - 1]), s[|s| - 1]);
      assert s == s[..|s| - 1] + [s[|s| - 1]];
    }
  }

  lemma {:induction false} CompactElements(s: seq<NetworkReservation>)
    ensures forall r :: r in Compact(s) <==> r in s
  {
    if |s| >= 2 {
      CompactElements(s[..|s| - 1]);
      assert s == s[..|s| - 1] + [s[|s| - 1]];
      assert s[|s| - 2] in s[..|s| - 1];
    }
  }

  /** The reservation of a service that has a network identity. */
  predicate IdentityOf(s: DesiredService, r: NetworkReservation) {
    s.networkIdentity != 0 && r.identity == s.networkIdentity && r.environmentId == s.environmentId && r.prefix == ""
  }

  predicate PrefixOnly(r: NetworkReservation) { r.environmentId == "" && r.identity == 0 }

  /** The state uses this part of the network: a workload subnet, the host of a mesh address, or a workload identity. */
  predicate Uses(ext: Externals, state: DesiredState, r: NetworkReservation) {
    || (&& state.nodeConfig.Some? && PrefixOnly(r) && r.prefix != ""
        && (r.prefix == state.nodeConfig.value.workloadIpv4Subnet
              || r.prefix == state.nodeConfig.value.workloadIpv6Subnet))
    || (&& state.nodeConfig.Some? && PrefixOnly(r)
        && exists i :: 0 <= i < |state.nodeConfig.value.wireguardAddresses|
             && ext.hostPrefix(state.nodeConfig.value.wireguardAddresses[i]) == Some(r.prefix))
    || (exists i :: 0 <= i < |state.services| && IdentityOf(state.services[i], r))
  }

  lemma {:induction false} HostPrefixElements(ext: Externals, addresses: seq<string>, r: NetworkReservation)
    ensures r in HostPrefixes(ext, addresses) <==>
      PrefixOnly(r) && exists i :: 0 <= i < |addresses| && ext.hostPrefix(addresses[i]) == Some(r.prefix)
  {
    if addresses != [] {
      HostPrefixElements(ext, addresses[1..], r);
      if i :| 0 <= i < |addresses| && ext.hostPrefix(addresses[i]) == Some(r.prefix) {
        assert i > 0 ==> addresses[1..][i - 1] == addresses[i];
      }
    }
  }

  lemma {:induction false} IdentityElements(services: seq<DesiredService>, r: NetworkReservation)
    ensures r in IdentityReservations(services) <==>
      exists i :: 0 <= i < |services| && IdentityOf(services[i], r)
  {
    if services != [] {
      IdentityElements(services[1..], r);
      if i :| 0 <= i < |services| && IdentityOf(services[i], r) {
        assert i > 0 ==> services[1..][i - 1] == services[i];
      }
    }
  }

  lemma SubnetElements(ipv4: string, ipv6: string, r: NetworkReservation)
    ensures r in NonEmptyPrefixes([ipv4, ipv6]) <==>
      PrefixOnly(r) && r.prefix != "" && (r.prefix == ipv4 || r.prefix == ipv6)
  {
    assert [ipv4, ipv6][1..] == [ipv6] && [ipv6][1..] == [];
    assert NonEmptyPrefixes([ipv6]) == if ipv6 == "" then [] else [NetworkReservation("", 0, ipv6)];
  }

  /** What is reserved for a state is exactly the network it uses. */
  lemma ReservationsAreUses(ext: Externals, state: DesiredState, r: NetworkReservation)
    ensures r in ReservationsOf(ext, state) <==> Uses(ext, state, r)
  {
    IdentityElements(state.services, r);
    if state.nodeConfig.Some? {
      var node := state.nodeConfig.value;
      SubnetElements(node.workloadIpv4Subnet, node.workloadIpv6Subnet, r);
      HostPrefixElements(ext, node.wireguardAddresses, r);
    }
  }

  /** A cutover retains exactly what was retained and the network the replaced state used. */
  lemma RetainedElements(ext: Externals, db: Db)
    ensures forall r :: r in Retained(ext, db) <==>
      r in db.meta.retainedNetwork || (db.desired.accepted.Some? && Uses(ext, db.desired.accepted.value, r))
  {
    var held := if db.desired.accepted.Some? then ReservationsOf(ext, db.desired.accepted.value) else [];
    SortByTextElements(ext, db.meta.retainedNetwork + held);
    CompactElements(SortByText(ext, db.meta.retainedNetwork + held));
    if db.desired.accepted.Some? {
      forall r ensures r in held <==> Uses(ext, db.desired.accepted.value, r) {
        ReservationsAreUses(ext, db.desired.accepted.value, r);
      }
    }
  }

  ghost predicate SortedByText(ext: Externals, s: seq<NetworkReservation>) {
    forall i, j :: 0 <= i < j < |s| ==> !Less(ext.reservationText(s[j]), ext.reservationText(s[i]))
  }

  lemma {:induction false} InsertSorted(ext: Externals, s: seq<NetworkReservation>, x: NetworkReservation)
    requires SortedByText(ext, s)
    ensures SortedByText(ext, InsertByText(ext, s, x))
  {
    if s == [] {
    } else if Less(ext.reservationText(x), ext.reservationText(s[0])) {
      forall j | 0 <= j < |s| ensures !Less(ext.reservationText(s[j]), ext.reservationText(x)) {
        if Less(ext.reservationText(s[j]), ext.reservationText(x)) {
          LessTransitive(ext.reservationText(s[j]), ext.reservationText(x), ext.reservationText(s[0]));
          LessIrreflexive(ext.reservationText(s[0]));
        }
      }
    } else {
      InsertSorted(ext, s[1..], x);
      InsertByTextElements(ext, s[1..], x);
      var rest := InsertByText(ext, s[1..], x);
      forall j | 0 <= j < |rest| ensures !Less(ext.reservationText(rest[j]), ext.reservationText(s[0])) {
        assert rest[j] in rest;
        if rest[j] != x {
          var k :| 0 <= k < |s[1..]| && s[1..][k] == rest[j];
          assert s[k + 1] == rest[j];
        }
      }
    }
  }

  lemma {:induction false} SortSorted(ext: Externals, s: seq<NetworkReservation>)
    ensures SortedByText(ext, SortByText(ext, s))
  {
    if s != [] {
      SortSorted(ext, s[..|s| - 1]);
      InsertSorted(ext, SortByText(ext, s[..|s| - 1]), s[|s| - 1]);
    }
  }

  lemma {:induction false} CompactSorted(ext: Externals, s: seq<NetworkReservation>)
    requires SortedByText(ext, s)
    ensures SortedByText(ext, Compact(s))
    ensures forall i :: 0 < i < |Compact(s)| ==> Compact(s)[i - 1] != Compact(s)[i]
    ensures s != [] ==> Compact(s) != [] && Compact(s)[|Compact(s)| - 1] == s[|s| - 1]
  {
    if |s| >= 2 {
      var front := s[..|s| - 1];
      CompactSorted(ext, front);
      CompactElements(front);
      forall i | 0 <= i < |Compact(front)| ensures !Less(ext.reservationText(s[|s| - 1]),
        ext.reservationText(Compact(front)[i])) {
        assert Compact(front)[i] in front;
        var k :| 0 <= k < |front| && front[k] == Compact(front)[i];
      }
    }
  }

  /** The retained reservations stand in the order of their text, none beside its equal. */
  lemma RetainedSorted(ext: Externals, db: Db)
    ensures SortedByText(ext, Retained(ext, db))
    ensures forall i :: 0 < i < |Retained(ext, db)| ==> Retained(ext, db)[i - 1] != Retained(ext, db)[i]
  {
    var held := if db.desired.accepted.Some? then ReservationsOf(ext, db.desired.accepted.value) else [];
    SortSorted(ext, db.meta.retainedNetwork + held);
    CompactSorted(ext, SortByText(ext, db.meta.retainedNetwork + held));
  }

  // ---------------------------------------------------------------- one step

  /** Transactions that touch neither state, position, reports, generation nor fence. */
  ghost predicate Untouched(a: Db, b: Db) {
    && a.desired.accepted == b.desired.accepted && a.observations == b.observations && a.credentials == b.credentials
    && a.meta.recoveryGeneration == b.meta.recoveryGeneration && a.meta.retired == b.meta.retired
    && a.meta.retainedNetwork == b.meta.retainedNetwork
    && SamePosition(a.meta, b.meta) && a.meta.highestEpoch == b.meta.highestEpoch
    && a.meta.nodeConfigVersion == b.meta.nodeConfigVersion && a.meta.credentialsVersion == b.meta.credentialsVersion
    && a.meta.replicasVersion == b.meta.replicasVersion
    && (a.meta.identityRecovery ==> b.meta.identityRecovery)
  }

  lemma UntouchedEvolves(a: Db, b: Db)
    requires Untouched(a, b) && a.meta.recoveryGeneration !in a.meta.retired
    ensures Evolves(a, b)
  {
  }

  /** The fields a committed checkpoint leaves alone. */
  lemma CommitStateFrame(db: Db, clusterId: string, state: DesiredState)
    ensures var after := CommitState(db, clusterId, state);
      && after.meta.acceptedEpoch == state.env.epoch && after.meta.cursor == state.cursor
      && after.desired.accepted == Some(Cleaned(state)) && after.observations == db.observations
      && after.meta.recoveryGeneration == db.meta.recoveryGeneration && after.meta.retired == db.meta.retired
      && after.meta.retainedNetwork == db.meta.retainedNetwork && after.meta.highestEpoch == db.meta.highestEpoch
  {
  }

  lemma AcceptStateGuard(ext: Externals, db: Db, clusterId: string, sessionId: string, state: DesiredState, now: int)
    ensures var tx := AcceptStateTx(ext, db, clusterId, sessionId, state, now);
      if tx.out.Done? then
        && tx.db == CommitState(db, clusterId, state)
        && db.desired.stagedState == Some(state) && GrantHolds(state.env, sessionId, now)
        && Fence(db.meta) <= state.env.epoch
        && (state.env.epoch == db.meta.acceptedEpoch ==> db.meta.cursor <= state.cursor)
        && (AtPosition(db.meta, state.env, state.cursor) && db.desired.accepted.Some? ==>
              ConfigurationEqual(db.desired.accepted.value, Cleaned(state)))
      else tx.db == db
  {
  }

  lemma AcceptStateEvolves(ext: Externals, db: Db, clusterId: string, sessionId: string, state: DesiredState, now: int)
    requires db.meta.recoveryGeneration !in db.meta.retired && !db.meta.identityRecovery
    ensures Evolves(db, AcceptStateTx(ext, db, clusterId, sessionId, state, now).db)
  {
    AcceptStateGuard(ext, db, clusterId, sessionId, state, now);
    CommitStateFrame(db, clusterId, state);
    var tx := AcceptStateTx(ext, db, clusterId, sessionId, state, now);
    if tx.out.Refused? {
      UntouchedEvolves(db, tx.db);
    }
  }

  lemma AcceptDiffEvolves(ext: Externals, db: Db, clusterId: string, sessionId: string, diff: AllocationDiff, now: int)
    requires db.meta.recoveryGeneration !in db.meta.retired && !db.meta.identityRecovery
    ensures Evolves(db, AcceptDiffTx(ext, db, clusterId, sessionId, diff, now).db)
  {
    AcceptDiffShape(ext, db, clusterId, sessionId, diff, now);
    var tx := AcceptDiffTx(ext, db, clusterId, sessionId, diff, now);
    if tx.db == db || tx.db == DiffRepeated(db, clusterId) {
      UntouchedEvolves(db, tx.db);
    } else {
      assert PositionLe(db.meta, tx.db.meta) && !SamePosition(db.meta, tx.db.meta);
    }
  }

  lemma ReconfiguredSame(a: DesiredState, update: NodeConfigUpdate)
    ensures ConfigurationEqual(a, Reconfigured(a, update))
  {
  }

  lemma AcceptNodeConfigEvolves(
      ext: Externals, db: Db, clusterId: string, sessionId: string, update: NodeConfigUpdate, now: int)
    requires db.meta.recoveryGeneration !in db.meta.retired && !db.meta.identityRecovery
    ensures Evolves(db, AcceptNodeConfigTx(ext, db, clusterId, sessionId, update, now).db)
  {
    AcceptNodeConfigShape(ext, db, clusterId, sessionId, update, now);
    var tx := AcceptNodeConfigTx(ext, db, clusterId, sessionId, update, now);
    if tx.db == db || tx.db == NodeConfigRepeated(db, clusterId) {
      UntouchedEvolves(db, tx.db);
    } else {
      ReconfiguredSame(db.desired.accepted.value, update);
    }
  }

  lemma AcceptCredentialsEvolves(db: Db, clusterId: string, sessionId: string, creds: PullCredentialSet, now: int)
    requires db.meta.recoveryGeneration !in db.meta.retired && !db.meta.identityRecovery
    ensures Evolves(db, AcceptCredentialsTx(db, clusterId, sessionId, creds, now).db)
  {
    AcceptCredentialsShape(db, clusterId, sessionId, creds, now);
    assert WithinGeneration(db, CredentialsStored(db, clusterId, creds));
    UntouchedEvolves(db, db.(meta := Pinned(db.meta, clusterId)));
  }

  lemma AcceptReplicasEvolves(db: Db, clusterId: string, sessionId: string, replicas: ReplicaEndpoints, now: int)
    requires db.meta.recoveryGeneration !in db.meta.retired && !db.meta.identityRecovery
    ensures Evolves(db, AcceptReplicasTx(db, clusterId, sessionId, replicas, now).db)
  {
    AcceptReplicasShape(db, clusterId, sessionId, replicas, now);
    assert WithinGeneration(db, ReplicasStored(db, clusterId, replicas));
    UntouchedEvolves(db, db.(meta := Pinned(db.meta, clusterId)));
  }

  lemma CommitCallEvolves(ext: Externals, db: Db, call: Call, now: int)
    requires db.meta.recoveryGeneration !in db.meta.retired && !db.meta.identityRecovery
    ensures Evolves(db, CommitCallTx(ext, db, call, now).db)
  {
    match call.cmd
    case Checkpoint(state) => AcceptStateEvolves(ext, db, call.clusterId, call.sessionId, state, now);
    case Diff(diff) => AcceptDiffEvolves(ext, db, call.clusterId, call.sessionId, diff, now);
    case NodeConfiguration(update) => AcceptNodeConfigEvolves(ext, db, call.clusterId, call.sessionId, update, now);
    case Credentials(creds) => AcceptCredentialsEvolves(db, call.clusterId, call.sessionId, creds, now);
    case Replicas(replicas) => AcceptReplicasEvolves(db, call.clusterId, call.sessionId, replicas, now);
  }

  lemma ObserveCallEvolves(db: Db, call: Call)
    requires db.meta.recoveryGeneration !in db.meta.retired && !db.meta.identityRecovery
    ensures Evolves(db, ObserveCallTx(db, call).db)
  {
    var after := ObserveCallTx(db, call).db;
    assert after == db || after == db.(meta := db.meta.(highestEpoch := EnvelopeOf(call.cmd).epoch));
  }

  /** Checking identity and staging a candidate leave everything else as it was. */
  lemma QuietStages(ext: Externals, db: Db, call: Call, now: int)
    requires call.at != Observe && call.at != Commit
    ensures Untouched(db, Proceed(ext, db, call, now).db)
  {
    match call.at
    case Identify => IdentityUntouched(db, call.clusterId);
    case Stage => assert StageCallTx(ext, db, call, now).db.meta == db.meta;
    case Returned(_) =>
  }

  lemma AdvanceEvolves(ext: Externals, db: Db, call: Call, now: int)
    requires db.meta.recoveryGeneration !in db.meta.retired
    requires call.at in {Observe, Commit} ==> !db.meta.identityRecovery
    ensures Evolves(db, Proceed(ext, db, call, now).db)
  {
    if call.at == Observe {
      ObserveCallEvolves(db, call);
    } else if call.at == Commit {
      CommitCallEvolves(ext, db, call, now);
    } else {
      QuietStages(ext, db, call, now);
      UntouchedEvolves(db, Proceed(ext, db, call, now).db);
    }
  }

  lemma RecordReportEvolves(db: Db, report: StatusReport)
    requires db.meta.recoveryGeneration !in db.meta.retired && ValidObservations(db.meta.agentId, db.observations)
    ensures Evolves(db, RecordReportTx(db, report).db)
  {
    var after := RecordReportTx(db, report).db;
    assert after.meta == db.meta && after.desired == db.desired && after.credentials == db.credentials;
    assert ReportsAdvance(db.observations, after.observations);
  }

  lemma AdmitEvolves(ext: Externals, db: Db, a: Authority)
    requires db.meta.recoveryGeneration !in db.meta.retired && a.generation != ""
    ensures Evolves(db, AdmitTx(ext, db, a).db)
  {
    var tx := AdmitTx(ext, db, a);
    if tx.out != Done(true) {
      UntouchedEvolves(db, tx.db);
    } else {
      RetainedElements(ext, db);
      assert NewGeneration(db.meta, AdmittedMeta(ext, db, a));
      assert RetainsNetwork(db.meta, AdmittedMeta(ext, db, a));
    }
  }

  /** The content of a node's store; a missing file is an empty one. */
  function Content(n: Node): Db {
    if n.disk.File? then n.disk.db else EMPTY_DB
  }

  lemma BootEvolves(ext: Externals, n: Node, agentId: string, freshId: string)
    requires NodeSound(ext, n) && n.phase.Down?
    ensures Evolves(Content(n), Content(Booting(ext, n, agentId, freshId)))
  {
    var after := Booting(ext, n, agentId, freshId);
    if after != n {
      if n.disk.NoFile? || n.disk == File(EMPTY_DB) {
        FreshOpens(ext, n.disk, agentId, freshId);
      } else {
        SoundReopens(ext, n.disk.db, freshId);
      }
    }
    UntouchedEvolves(Content(n), Content(after));
  }

  /** Events that leave state, position, reports and generation alone. */
  predicate Quiet(e: Event) {
    !e.Boot? && !e.Admit? && !e.Advance? && !e.Report?
  }

  lemma QuietUntouched(ext: Externals, n: Node, e: Event)
    requires Enabled(n, e) && Quiet(e)
    ensures Untouched(Content(n), Content(Next(ext, n, e)))
  {
    match e
    case Start(found) => StartUntouched(n.disk.db, found);
    case Inventory(found) => InventoryUntouched(n.disk.db, found);
    case Require(c) => IdentityUntouched(n.disk.db, c);
    case Adopt(c) => IdentityUntouched(n.disk.db, c);
    case _ =>
  }

  lemma StartUntouched(db: Db, found: seq<RuntimeResource>)
    ensures Starting(db, found).disk.File? && Untouched(db, Starting(db, found).disk.db)
  {
    var required := RequireIdentityTx(db, db.meta.clusterId);
    assert required.db == db;
  }

  lemma InventoryUntouched(db: Db, found: seq<RuntimeResource>)
    ensures Untouched(db, RecordInventoryTx(db, found).db)
  {
  }

  lemma IdentityUntouched(db: Db, clusterId: string)
    ensures Untouched(db, RequireIdentityTx(db, clusterId).db)
    ensures Untouched(db, AdoptIdentityTx(db, clusterId).db)
  {
  }

  lemma StepEvolves(ext: Externals, n: Node, e: Event)
    requires NodeSound(ext, n) && Enabled(n, e)
    ensures Evolves(Content(n), Content(Next(ext, n, e)))
  {
    assert Content(n).meta.recoveryGeneration !in Content(n).meta.retired;
    match e
    case Boot(agentId, freshId) => BootEvolves(ext, n, agentId, freshId);
    case Admit(authority) => AdmitEvolves(ext, n.disk.db, authority);
    case Advance(now) => AdvanceEvolves(ext, n.disk.db, n.phase.call.value, now);
    case Report(r) => RecordReportEvolves(n.disk.db, r);
    case _ =>
      QuietUntouched(ext, n, e);
      UntouchedEvolves(Content(n), Content(Next(ext, n, e)));
  }

  lemma GenerationNotRetired(ext: Externals, nodes: seq<Node>, events: seq<Event>, i: nat)
    requires IsRun(ext, nodes, events) && i < |nodes|
    ensures Content(nodes[i]).meta.recoveryGeneration !in Content(nodes[i]).meta.retired
  {
    RunSound(ext, nodes, events, i);
  }

  lemma RunStepEvolves(ext: Externals, nodes: seq<Node>, events: seq<Event>, i: nat)
    requires IsRun(ext, nodes, events) && i < |events|
    ensures Evolves(Content(nodes[i]), Content(nodes[i + 1]))
  {
    RunSound(ext, nodes, events, i);
    StepEvolves(ext, nodes[i], events[i]);
  }

  lemma {:induction false} ChainEvolves(dbs: seq<Db>, i: nat, j: nat)
    requires i <= j < |dbs|
    requires dbs[i].meta.recoveryGeneration !in dbs[i].meta.retired
    requires forall k {:trigger dbs[k]} :: i <= k < j ==> Evolves(dbs[k], dbs[k + 1])
    ensures Evolves(dbs[i], dbs[j])
    decreases j
  {
    if i == j {
      UntouchedEvolves(dbs[i], dbs[j]);
    } else {
      ChainEvolves(dbs, i, j - 1);
      assert Evolves(dbs[j - 1], dbs[j - 1 + 1]);
      EvolvesTransitive(dbs[i], dbs[j - 1], dbs[j]);
    }
  }

  lemma RunEvolves(ext: Externals, nodes: seq<Node>, events: seq<Event>, i: nat, j: nat)
    requires IsRun(ext, nodes, events) && i <= j < |nodes|
    ensures Evolves(Content(nodes[i]), Content(nodes[j]))
  {
    var dbs := seq(|nodes|, k requires 0 <= k < |nodes| => Content(nodes[k]));
    GenerationNotRetired(ext, nodes, events, i);
    forall k {:trigger dbs[k]} | i <= k < j ensures Evolves(dbs[k], dbs[k + 1]) {
      RunStepEvolves(ext, nodes, events, k);
    }
    ChainEvolves(dbs, i, j);
  }
}
