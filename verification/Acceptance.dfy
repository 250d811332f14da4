/**
 * Exactly when the store accepts a command, a report, a generation or a candidate, and exactly what it holds then:
 * the laws are about the fields of the store and the message, in both directions.
 */
module Acceptance {
  import opened Strings
  import opened Keyed
  import opened Messages
  import opened Validation
  import opened Configuration
  import opened Database
  import opened Records
  import opened Agent
  import opened Runs
  import opened Evolution
  import opened RunTheorems

  // ---------------------------------------------------------------- fences and grants

  /** The command is for this agent, its cluster does not differ from the store's, and its epoch is not behind. */
  predicate Passes(meta: Meta, clusterId: string, env: Envelope) {
    && env.agentId == meta.agentId
    && (meta.clusterId == "" || clusterId == "" || meta.clusterId == clusterId)
    && env.epoch >= meta.acceptedEpoch && env.epoch >= meta.highestEpoch
  }

  predicate ClusterKnown(meta: Meta, clusterId: string) { meta.clusterId != "" || clusterId != "" }

  /** The deadline of a grant lies more than one and at most sixteen seconds ahead; times are in nanoseconds. */
  predicate Granted(env: Envelope, sessionId: string, now: int) {
    && sessionId != "" && env.sessionId == sessionId && env.notAfter.Some?
    && 1_000_000_000 < env.notAfter.value - now <= 16_000_000_000
  }

  /** The cluster the store belongs to once a command was accepted. */
  predicate Joined(before: Meta, clusterId: string, after: Meta) {
    after.clusterId == if before.clusterId != "" then before.clusterId else clusterId
  }

  // ---------------------------------------------------------------- diffs

  predicate DiffFits(db: Db, clusterId: string, sessionId: string, diff: AllocationDiff, now: int) {
    && db.desired.stagedDiff == Some(diff) && Passes(db.meta, clusterId, diff.env) && ClusterKnown(db.meta, clusterId)
    && Granted(diff.env, sessionId, now)
  }

  lemma DiffDecision(ext: Externals, db: Db, clusterId: string, sessionId: string, diff: AllocationDiff, now: int)
    requires db.desired.accepted.Some? ==> ValidState(ext, ApplyDiff(db.desired.accepted.value, diff))
    ensures var tx := AcceptDiffTx(ext, db, clusterId, sessionId, diff, now);
      && (tx.out == Done(true) <==>
            && DiffFits(db, clusterId, sessionId, diff, now)
            && diff.base == db.meta.cursor < diff.target && db.desired.accepted.Some?)
      && (tx.out == Done(false) <==>
            DiffFits(db, clusterId, sessionId, diff, now) && diff.target == db.meta.cursor)
  {
  }

  /** A valid diff on a sound store is applied exactly when it continues the accepted cursor; once, and whole. */
  lemma DiffAcceptedExactly(
      ext: Externals, db: Db, clusterId: string, sessionId: string, diff: AllocationDiff, now: int)
    requires Sound(ext, db) && ValidDiff(diff)
    ensures var tx := AcceptDiffTx(ext, db, clusterId, sessionId, diff, now);
      && (tx.out == Done(true) <==>
            && DiffFits(db, clusterId, sessionId, diff, now)
            && diff.base == db.meta.cursor < diff.target && db.desired.accepted.Some?)
      && (tx.out == Done(false) <==>
            DiffFits(db, clusterId, sessionId, diff, now) && diff.target == db.meta.cursor)
  {
    if db.desired.accepted.Some? {
      ApplyDiffValid(ext, db.desired.accepted.value, diff);
    }
    DiffDecision(ext, db, clusterId, sessionId, diff, now);
  }

  /** What an applied diff leaves: its own position, and the configuration it changes the accepted one to. */
  lemma DiffLeaves(ext: Externals, db: Db, clusterId: string, sessionId: string, diff: AllocationDiff, now: int)
    requires AcceptDiffTx(ext, db, clusterId, sessionId, diff, now).out == Done(true)
    ensures var b := AcceptDiffTx(ext, db, clusterId, sessionId, diff, now).db;
      && db.desired.accepted.Some? && b.desired.accepted.Some?
      && b.meta.acceptedEpoch == b.desired.accepted.value.env.epoch == diff.env.epoch
      && b.meta.cursor == b.desired.accepted.value.cursor == diff.target
      && ConfigOf(b.desired.accepted.value) == ChangedConfig(ConfigOf(db.desired.accepted.value), diff)
      && b.desired.accepted.value.nodeConfig == db.desired.accepted.value.nodeConfig
      && b.desired.stagedDiff.None? && Joined(db.meta, clusterId, b.meta)
      && b.credentials == db.credentials && b.observations == db.observations && b.inventory == db.inventory
  {
    ApplyDiffRespectsConfig(db.desired.accepted.value, diff);
  }

  // ---------------------------------------------------------------- checkpoints

  /**
   * The checkpoint is not behind the accepted cursor of its epoch, and at the accepted position configures the same.
   */
  predicate Continues(db: Db, state: DesiredState) {
    && (state.env.epoch == db.meta.acceptedEpoch ==> state.cursor >= db.meta.cursor)
    && (state.env.epoch == db.meta.acceptedEpoch && state.cursor == db.meta.cursor && db.desired.accepted.Some? ==>
          && ConfigOf(db.desired.accepted.value) == ConfigOf(state)
          && StandingOf(db.desired.accepted.value) == StandingOf(state))
  }

  predicate StateFits(db: Db, clusterId: string, sessionId: string, state: DesiredState, now: int) {
    && db.desired.stagedState == Some(state) && Passes(db.meta, clusterId, state.env)
    && ClusterKnown(db.meta, clusterId) && Granted(state.env, sessionId, now)
  }

  lemma SameAsCleaned(ext: Externals, a: DesiredState, state: DesiredState)
    requires ValidState(ext, state)
    ensures ConfigurationEqual(a, Cleaned(state)) <==>
      ConfigOf(a) == ConfigOf(state) && StandingOf(a) == StandingOf(state)
  {
    CleanedKeeps(ext, state);
    ConfigurationEqualMeaning(a, Cleaned(state));
    ConfigurationEqualMeaning(Cleaned(state), state);
  }

  lemma CheckpointDecision(
      ext: Externals, db: Db, clusterId: string, sessionId: string, state: DesiredState, now: int)
    requires db.desired.accepted.Some? ==>
      (ConfigurationEqual(db.desired.accepted.value, Cleaned(state)) <==>
         && ConfigOf(db.desired.accepted.value) == ConfigOf(state)
         && StandingOf(db.desired.accepted.value) == StandingOf(state))
    ensures AcceptStateTx(ext, db, clusterId, sessionId, state, now).out.Done? <==>
      StateFits(db, clusterId, sessionId, state, now) && Continues(db, state)
  {
  }

  /** A valid checkpoint is accepted exactly when it fits and continues what was accepted. */
  lemma CheckpointAcceptedExactly(
      ext: Externals, db: Db, clusterId: string, sessionId: string, state: DesiredState, now: int)
    requires ValidState(ext, state)
    ensures AcceptStateTx(ext, db, clusterId, sessionId, state, now).out.Done? <==>
      StateFits(db, clusterId, sessionId, state, now) && Continues(db, state)
  {
    if db.desired.accepted.Some? {
      SameAsCleaned(ext, db.desired.accepted.value, state);
    }
    CheckpointDecision(ext, db, clusterId, sessionId, state, now);
  }

  lemma CheckpointLeaves(
      ext: Externals, db: Db, clusterId: string, sessionId: string, state: DesiredState, now: int)
    requires ValidState(ext, state) && AcceptStateTx(ext, db, clusterId, sessionId, state, now).out.Done?
    ensures var b := AcceptStateTx(ext, db, clusterId, sessionId, state, now).db;
      && b.desired.accepted.Some?
      && b.meta.acceptedEpoch == b.desired.accepted.value.env.epoch == state.env.epoch
      && b.meta.cursor == b.desired.accepted.value.cursor == state.cursor
      && ConfigOf(b.desired.accepted.value) == ConfigOf(state)
      && multiset(b.desired.accepted.value.services) == multiset(state.services)
      && multiset(b.desired.accepted.value.volumes) == multiset(state.volumes)
      && b.desired.accepted.value.nodeConfig == state.nodeConfig
      && b.meta.nodeConfigVersion == b.desired.accepted.value.nodeConfigVersion == state.nodeConfigVersion
      && b.desired.stagedState.None? && !b.meta.checkpointRequired && Joined(db.meta, clusterId, b.meta)
      && b.credentials == db.credentials && b.observations == db.observations && b.inventory == db.inventory
  {
    CleanedKeeps(ext, state);
    ConfigurationEqualMeaning(Cleaned(state), state);
  }

  // ---------------------------------------------------------------- node configurations

  /** A node configuration whose version is the hash of its content. */
  predicate ValidUpdate(ext: Externals, update: NodeConfigUpdate) {
    update.config.Some? && !Blank(update.version) && ext.hashNodeConfig(update.config) == update.version
  }

  predicate UpdateFits(db: Db, clusterId: string, sessionId: string, update: NodeConfigUpdate, now: int) {
    && db.desired.stagedNodeConfig == Some(update) && Passes(db.meta, clusterId, update.env)
    && ClusterKnown(db.meta, clusterId) && Granted(update.env, sessionId, now)
  }

  /** A valid update replaces the node configuration of an accepted state exactly when its version is another one. */
  lemma NodeConfigAcceptedExactly(
      ext: Externals, db: Db, clusterId: string, sessionId: string, update: NodeConfigUpdate, now: int)
    requires Sound(ext, db) && ValidUpdate(ext, update)
    ensures var tx := AcceptNodeConfigTx(ext, db, clusterId, sessionId, update, now);
      && (tx.out == Done(true) <==>
            && UpdateFits(db, clusterId, sessionId, update, now)
            && db.desired.accepted.Some? && db.meta.nodeConfigVersion != update.version)
      && (tx.out == Done(false) <==>
            UpdateFits(db, clusterId, sessionId, update, now) && db.meta.nodeConfigVersion == update.version)
  {
  }

  lemma NodeConfigLeaves(
      ext: Externals, db: Db, clusterId: string, sessionId: string, update: NodeConfigUpdate, now: int)
    requires AcceptNodeConfigTx(ext, db, clusterId, sessionId, update, now).out == Done(true)
    ensures var b := AcceptNodeConfigTx(ext, db, clusterId, sessionId, update, now).db;
      && db.desired.accepted.Some? && b.desired.accepted.Some?
      && b.desired.accepted.value.nodeConfig == update.config
      && b.desired.accepted.value.nodeConfigVersion == b.meta.nodeConfigVersion == update.version
      && b.desired.accepted.value.services == db.desired.accepted.value.services
      && b.desired.accepted.value.volumes == db.desired.accepted.value.volumes
      && SamePosition(db.meta, b.meta) && b.meta.init == db.meta.init
      && b.desired.stagedNodeConfig.None? && Joined(db.meta, clusterId, b.meta)
      && b.allocations == db.allocations && b.credentials == db.credentials && b.observations == db.observations
  {
  }

  // ---------------------------------------------------------------- credentials and replicas

  /** Credentials need no candidate and no known cluster; a repeated version changes none of them. */
  lemma CredentialsAcceptedExactly(db: Db, clusterId: string, sessionId: string, creds: PullCredentialSet, now: int)
    ensures var tx := AcceptCredentialsTx(db, clusterId, sessionId, creds, now);
      var fits := Passes(db.meta, clusterId, creds.env) && Granted(creds.env, sessionId, now);
      && (tx.out == Done(true) <==> fits && db.meta.credentialsVersion != creds.version)
      && (tx.out == Done(false) <==> fits && db.meta.credentialsVersion == creds.version)
      && (tx.out.Done? ==> tx.db.meta.credentialsVersion == creds.version && Joined(db.meta, clusterId, tx.db.meta))
      && (tx.out != Done(true) ==> tx.db.credentials == db.credentials)
      && tx.db.desired == db.desired && SamePosition(db.meta, tx.db.meta)
  {
  }

  /** Afterwards each allocation has the user name and password it was sent with, and no other has any. */
  lemma CredentialsStoredExactly(
      db: Db, clusterId: string, sessionId: string, creds: PullCredentialSet, now: int, i: nat)
    requires AcceptCredentialsTx(db, clusterId, sessionId, creds, now).out == Done(true)
    requires DistinctKeys(creds.credentials, CredentialKey)
    ensures var stored := AcceptCredentialsTx(db, clusterId, sessionId, creds, now).db.credentials;
      && stored.Keys == Keys(creds.credentials, CredentialKey)
      && (i < |creds.credentials| ==>
            var c := creds.credentials[i];
            c.allocationId in stored && stored[c.allocationId].username == c.username
            && stored[c.allocationId].password == c.password)
  {
    IndexDomain(creds.credentials, CredentialKey);
    if i < |creds.credentials| {
      IndexAt(creds.credentials, CredentialKey, i);
    }
  }

  lemma ReplicasAcceptedExactly(db: Db, clusterId: string, sessionId: string, replicas: ReplicaEndpoints, now: int)
    ensures var tx := AcceptReplicasTx(db, clusterId, sessionId, replicas, now);
      var fits := Passes(db.meta, clusterId, replicas.env) && Granted(replicas.env, sessionId, now);
      && (tx.out == Done(true) <==> fits && db.meta.replicasVersion != replicas.version)
      && (tx.out == Done(false) <==> fits && db.meta.replicasVersion == replicas.version)
      && (tx.out.Done? ==> tx.db.meta.replicasVersion == replicas.version && Joined(db.meta, clusterId, tx.db.meta))
      && (tx.out == Done(true) ==> ListsAddresses(tx.db.meta.discovery.replicas, replicas.addresses))
      && (tx.out != Done(true) ==> tx.db.meta.discovery == db.meta.discovery)
      && tx.db.desired == db.desired && SamePosition(db.meta, tx.db.meta)
  {
    NormalizedLists(replicas.addresses);
  }

  /** The list names each address once, trimmed, and names no other and no blank one. */
  ghost predicate ListsAddresses(list: seq<string>, given: seq<string>) {
    && (forall i, j :: 0 <= i < j < |list| ==> list[i] != list[j])
    && (forall a :: a in list <==> a != "" && exists i :: 0 <= i < |given| && TrimSpace(given[i]) == a)
  }

  lemma {:induction false} NormalizedLists(given: seq<string>)
    ensures ListsAddresses(Normalized(given), given)
  {
    if given != [] {
      var front, last := given[..|given| - 1], given[|given| - 1];
      NormalizedLists(front);
      forall a ensures a in Normalized(given) <==> a != "" && exists i :: 0 <= i < |given| && TrimSpace(given[i]) == a {
        if i :| 0 <= i < |front| && TrimSpace(front[i]) == a {
          assert given[i] == front[i];
        }
        if i :| 0 <= i < |given| && TrimSpace(given[i]) == a {
          assert i < |front| ==> front[i] == given[i];
        }
      }
    }
  }

  // ---------------------------------------------------------------- the recovery decision

  /** Every inventoried allocation is one the state lists. */
  ghost predicate Covers(state: DesiredState, inventory: map<string, RuntimeResource>) {
    forall k :: k in inventory ==>
      exists i :: 0 <= i < |state.services| && state.services[i].allocationId == inventory[k].allocationId
  }

  /**
   * A store in recovery is ready afterwards exactly when the accepted state covers its inventory; any other is ready.
   */
  ghost predicate Decided(a: Db, b: Db) {
    && b.desired.accepted.Some?
    && (a.meta.init == Recovery ==>
          b.meta.init == (if Covers(b.desired.accepted.value, a.inventory) then Ready else Recovery))
    && (a.meta.init in {Uninitialized, Ready} ==> b.meta.init == Ready)
  }

  lemma DecidesCoverage(db: Db, state: DesiredState)
    ensures Decided(db, Accepting(db, state))
  {
    var listed := ListedIds(state.services);
    forall k | k in db.inventory
      ensures db.inventory[k].allocationId in listed <==>
        exists i :: 0 <= i < |state.services| && state.services[i].allocationId == db.inventory[k].allocationId
    {
      if db.inventory[k].allocationId in listed {
        var i :| 0 <= i < |state.services| && ServiceKey(state.services[i]) == db.inventory[k].allocationId;
      }
      if i :| 0 <= i < |state.services| && state.services[i].allocationId == db.inventory[k].allocationId {
        assert ServiceKey(state.services[i]) in listed;
      }
    }
  }

  lemma CheckpointDecides(
      ext: Externals, db: Db, clusterId: string, sessionId: string, state: DesiredState, now: int)
    requires AcceptStateTx(ext, db, clusterId, sessionId, state, now).out.Done?
    ensures Decided(db, AcceptStateTx(ext, db, clusterId, sessionId, state, now).db)
  {
    var pinned := Pinned(db.meta, clusterId).(checkpointRequired := false,
      nodeConfigVersion := state.nodeConfigVersion);
    DecidesCoverage(db.(meta := pinned, desired := db.desired.(stagedState := None)), Cleaned(state));
  }

  lemma DiffDecides(ext: Externals, db: Db, clusterId: string, sessionId: string, diff: AllocationDiff, now: int)
    requires AcceptDiffTx(ext, db, clusterId, sessionId, diff, now).out == Done(true)
    ensures Decided(db, AcceptDiffTx(ext, db, clusterId, sessionId, diff, now).db)
  {
    DecidesCoverage(DiffRepeated(db, clusterId), ApplyDiff(db.desired.accepted.value, diff));
  }

  // ---------------------------------------------------------------- whole calls

  /** A store that answers the identity check: not flagged, and of no other cluster. */
  predicate Identifies(meta: Meta, clusterId: string) {
    !meta.identityRecovery && (meta.clusterId == "" || clusterId == "" || meta.clusterId == clusterId)
  }

  /** The command names this agent, this session's cluster, its session, the current generation and no old epoch. */
  predicate Current(meta: Meta, clusterId: string, sessionId: string, env: Envelope) {
    && Identifies(meta, clusterId)
    && env.agentId == meta.agentId && env.clusterId == clusterId && sessionId != "" && env.sessionId == sessionId
    && env.installationId == meta.installationId && env.recoveryGeneration == meta.recoveryGeneration
    && env.epoch >= meta.acceptedEpoch && env.epoch >= meta.highestEpoch
  }

  lemma OpeningStages(db: Db, call: Call)
    requires !call.cmd.Credentials? && !call.cmd.Replicas?
    ensures var env := EnvelopeOf(call.cmd); var identified := IdentifyTx(db, call);
      (identified.out.Done? && ObserveCallTx(identified.db, call).out.Done?) <==>
        Current(db.meta, call.clusterId, call.sessionId, env) && (call.cmd.Diff? ==> !db.meta.checkpointRequired)
    ensures var identified := IdentifyTx(db, call);
      identified.out.Done? && ObserveCallTx(identified.db, call).out.Done? ==>
        identified.db == db
        && ObserveCallTx(db, call).db == db.(meta := db.meta.(highestEpoch := EnvelopeOf(call.cmd).epoch))
  {
  }

  /** The store as it is when a call of this epoch is about to commit its candidate. */
  function ReadyToCommit(db: Db, call: Call): Db {
    var seen := db.(meta := db.meta.(highestEpoch := EnvelopeOf(call.cmd).epoch));
    match call.cmd
    case Checkpoint(state) => seen.(desired := seen.desired.(stagedState := Some(state)))
    case Diff(diff) => seen.(desired := seen.desired.(stagedDiff := Some(diff)))
    case NodeConfiguration(update) => seen.(desired := seen.desired.(stagedNodeConfig := Some(update)))
    case _ => seen
  }

  lemma EarlierStages(ext: Externals, db: Db, call: Call, staging: int, committing: int)
    requires !call.cmd.Credentials? && !call.cmd.Replicas?
    ensures var env := EnvelopeOf(call.cmd);
      var reached := Current(db.meta, call.clusterId, call.sessionId, env)
        && (call.cmd.Diff? ==> !db.meta.checkpointRequired)
        && ValidPayload(ext, call.cmd) && Granted(env, call.sessionId, staging);
      && (reached ==>
            WholeCall(ext, db, call, staging, committing)
              == CommitCallTx(ext, ReadyToCommit(db, call), call, committing))
      && (!reached ==> WholeCall(ext, db, call, staging, committing).out.Refused?)
  {
    OpeningStages(db, call);
  }

  /**
   * A whole diff call on a sound store applies its diff exactly when the diff is valid, current and granted at both
   * checks, the store has a checkpoint, and the diff starts at the accepted cursor.
   */
  lemma DiffCallAcceptedExactly(ext: Externals, db: Db, call: Call, staging: int, committing: int)
    requires Sound(ext, db) && call.cmd.Diff?
    ensures var diff := call.cmd.diff;
      WholeCall(ext, db, call, staging, committing).out == Done(true) <==>
        && Current(db.meta, call.clusterId, call.sessionId, diff.env) && !db.meta.checkpointRequired
        && ValidDiff(diff) && Granted(diff.env, call.sessionId, staging)
            && Granted(diff.env, call.sessionId, committing)
        && db.desired.accepted.Some? && diff.base == db.meta.cursor
  {
    EarlierStages(ext, db, call, staging, committing);
    var diff, ready := call.cmd.diff, ReadyToCommit(db, call);
    if ValidDiff(diff) && Current(db.meta, call.clusterId, call.sessionId, diff.env) {
      ReadyIsSound(ext, db, call);
      DiffAcceptedExactly(ext, ready, call.clusterId, call.sessionId, diff, committing);
    }
  }

  /** The same for a checkpoint: valid, current, granted at both checks, and continuing what was accepted. */
  lemma CheckpointCallAcceptedExactly(ext: Externals, db: Db, call: Call, staging: int, committing: int)
    requires Sound(ext, db) && call.cmd.Checkpoint?
    ensures var state := call.cmd.state;
      WholeCall(ext, db, call, staging, committing).out.Done? <==>
        && Current(db.meta, call.clusterId, call.sessionId, state.env)
        && ValidState(ext, state) && Continues(db, state)
        && Granted(state.env, call.sessionId, staging) && Granted(state.env, call.sessionId, committing)
  {
    EarlierStages(ext, db, call, staging, committing);
    var state, ready := call.cmd.state, ReadyToCommit(db, call);
    if ValidState(ext, state) {
      CheckpointAcceptedExactly(ext, ready, call.clusterId, call.sessionId, state, committing);
    }
  }

  /** The same for a node configuration: a new version needs an accepted state. */
  lemma NodeConfigCallAcceptedExactly(ext: Externals, db: Db, call: Call, staging: int, committing: int)
    requires Sound(ext, db) && call.cmd.NodeConfiguration?
    ensures var update := call.cmd.update;
      WholeCall(ext, db, call, staging, committing).out.Done? <==>
        && Current(db.meta, call.clusterId, call.sessionId, update.env) && ValidUpdate(ext, update)
        && Granted(update.env, call.sessionId, staging) && Granted(update.env, call.sessionId, committing)
        && (db.meta.nodeConfigVersion == update.version || db.desired.accepted.Some?)
        && ClusterKnown(db.meta, call.clusterId)
  {
    EarlierStages(ext, db, call, staging, committing);
    var update, ready := call.cmd.update, ReadyToCommit(db, call);
    if ValidUpdate(ext, update) && Current(db.meta, call.clusterId, call.sessionId, update.env) {
      ReadyIsSound(ext, db, call);
      NodeConfigAcceptedExactly(ext, ready, call.clusterId, call.sessionId, update, committing);
    }
  }

  lemma ReadyIsSound(ext: Externals, db: Db, call: Call)
    requires Sound(ext, db)
    ensures Sound(ext, ReadyToCommit(db, call))
  {
    var seen := db.(meta := db.meta.(highestEpoch := EnvelopeOf(call.cmd).epoch));
    SeenIsSound(ext, db, EnvelopeOf(call.cmd).epoch);
    CandidatesDoNotMatter(ext, seen, ReadyToCommit(db, call).desired);
  }

  lemma SeenIsSound(ext: Externals, db: Db, epoch: nat)
    requires Sound(ext, db)
    ensures Sound(ext, db.(meta := db.meta.(highestEpoch := epoch)))
  {
  }

  // ---------------------------------------------------------------- calls of a run

  ghost predicate AtCommit(n: Node, e: Event) {
    Busy(n) && e.Advance? && n.phase.call.value.at == Commit
  }

  lemma CommitOfRun(ext: Externals, nodes: seq<Node>, events: seq<Event>, i: nat)
    requires IsRun(ext, nodes, events) && i < |events| && AtCommit(nodes[i], events[i])
    ensures nodes[i].disk.File? && Sound(ext, nodes[i].disk.db) && ValidPayload(ext, nodes[i].phase.call.value.cmd)
    ensures var call := nodes[i].phase.call.value; var tx := CommitCallTx(ext, nodes[i].disk.db, call, events[i].now);
      nodes[i + 1] == Node(File(tx.db), Serving(Some(call.(at := Returned(tx.out)))))
  {
    RunSound(ext, nodes, events, i);
    assert Enabled(nodes[i], events[i]) && nodes[i + 1] == Next(ext, nodes[i], events[i]);
  }

  /**
   * In every run, the last step of a diff call applies its diff exactly when the diff fits and starts at the cursor.
   */
  lemma RunAcceptsDiff(ext: Externals, nodes: seq<Node>, events: seq<Event>, i: nat)
    requires IsRun(ext, nodes, events) && i < |events| && AtCommit(nodes[i], events[i])
    requires nodes[i].phase.call.value.cmd.Diff?
    ensures var db, call := nodes[i].disk.db, nodes[i].phase.call.value; var diff := call.cmd.diff;
      nodes[i + 1].phase == Serving(Some(call.(at := Returned(Done(true))))) <==>
        && DiffFits(db, call.clusterId, call.sessionId, diff, events[i].now)
        && diff.base == db.meta.cursor && db.desired.accepted.Some?
  {
    CommitOfRun(ext, nodes, events, i);
    var call := nodes[i].phase.call.value;
    DiffAcceptedExactly(ext, nodes[i].disk.db, call.clusterId, call.sessionId, call.cmd.diff, events[i].now);
  }

  /**
   * And the last step of a checkpoint call succeeds exactly when the checkpoint fits and continues what was accepted.
   */
  lemma RunAcceptsCheckpoint(ext: Externals, nodes: seq<Node>, events: seq<Event>, i: nat)
    requires IsRun(ext, nodes, events) && i < |events| && AtCommit(nodes[i], events[i])
    requires nodes[i].phase.call.value.cmd.Checkpoint?
    ensures var db, call := nodes[i].disk.db, nodes[i].phase.call.value; var state := call.cmd.state;
      (exists changed :: nodes[i + 1].phase == Serving(Some(call.(at := Returned(Done(changed)))))) <==>
        StateFits(db, call.clusterId, call.sessionId, state, events[i].now) && Continues(db, state)
  {
    CommitOfRun(ext, nodes, events, i);
    var call := nodes[i].phase.call.value;
    CheckpointAcceptedExactly(ext, nodes[i].disk.db, call.clusterId, call.sessionId, call.cmd.state, events[i].now);
    var tx := CommitCallTx(ext, nodes[i].disk.db, call, events[i].now);
    if tx.out.Done? {
      assert nodes[i + 1].phase == Serving(Some(call.(at := Returned(Done(tx.out.changed)))));
    }
  }
}
