/** What holds of every node and between any two nodes of a run. */
module Runs {
  import opened Strings
  import opened Messages
  import opened Configuration
  import opened Database
  import opened Records
  import opened Agent

  // ---------------------------------------------------------------- every reachable node is sound

  /** What a call under way has established. */
  ghost predicate CallSound(ext: Externals, meta: Meta, call: Call) {
    && (call.at in {Observe, Stage, Commit} ==> !meta.identityRecovery)
    && (call.at in {Stage, Commit} ==>
          SameGeneration(meta, EnvelopeOf(call.cmd)) && EnvelopeOf(call.cmd).epoch <= meta.highestEpoch)
    && (call.at == Commit ==> ValidPayload(ext, call.cmd))
  }

  ghost predicate NodeSound(ext: Externals, n: Node) {
    match n.phase
    case Down => n.disk.NoFile? || (n.disk.File? && (n.disk.db == EMPTY_DB || Sound(ext, n.disk.db)))
    case Booted => n.disk.File? && Sound(ext, n.disk.db)
    case Serving(call) => n.disk.File? && Sound(ext, n.disk.db) && (call.Some? ==>
      CallSound(ext, n.disk.db.meta, call.value))
  }

  lemma FreshOpens(ext: Externals, disk: Disk, agentId: string, freshId: string)
    requires disk.NoFile? || disk == File(EMPTY_DB)
    requires !Blank(agentId)
    ensures var open := OpenStore(ext, disk, agentId, freshId);
      && open.Opened? && !open.quarantined && Sound(ext, open.db)
      && open.db.meta.init == (if disk.File? then Recovery else Uninitialized)
      && open.db == EMPTY_DB.(meta := open.db.meta)
      && open.db.meta == EMPTY_DB.meta.(formatVersion := FORMAT_VERSION, agentId := agentId, storeId := freshId,
          init := open.db.meta.init)
  {
  }

  lemma BootSound(ext: Externals, n: Node, agentId: string, freshId: string)
    requires NodeSound(ext, n) && n.phase.Down?
    ensures NodeSound(ext, Booting(ext, n, agentId, freshId))
  {
    if !Blank(agentId) {
      if n.disk.NoFile? || n.disk == File(EMPTY_DB) {
        FreshOpens(ext, n.disk, agentId, freshId);
      } else if n.disk.db.meta.agentId == agentId {
        SoundReopens(ext, n.disk.db, freshId);
      }
    }
  }

  lemma StartSound(ext: Externals, db: Db, inventory: seq<RuntimeResource>)
    requires Sound(ext, db) && Identified(inventory)
    ensures NodeSound(ext, Starting(db, inventory))
  {
    IdentityKeeps(ext, db, db.meta.clusterId);
    StartupKeeps(ext, RequireIdentityTx(db, db.meta.clusterId).db, db.meta.clusterId, inventory);
  }

  lemma StageCallKeeps(ext: Externals, db: Db, call: Call, now: int)
    requires Sound(ext, db)
    ensures var tx := StageCallTx(ext, db, call, now);
      Sound(ext, tx.db) && tx.db.meta == db.meta && (tx.out.Done? ==> ValidPayload(ext, call.cmd))
  {
    var tx := StageCallTx(ext, db, call, now);
    assert tx.db == db.(desired := tx.db.desired) && tx.db.desired.accepted == db.desired.accepted;
    CandidatesDoNotMatter(ext, db, tx.db.desired);
  }

  lemma CommitCallKeeps(ext: Externals, db: Db, call: Call, now: int)
    requires Sound(ext, db) && call.at == Commit && CallSound(ext, db.meta, call)
    ensures Sound(ext, CommitCallTx(ext, db, call, now).db)
  {
    match call.cmd
    case Checkpoint(state) => AcceptStateKeeps(ext, db, call.clusterId, call.sessionId, state, now);
    case Diff(diff) => AcceptDiffKeeps(ext, db, call.clusterId, call.sessionId, diff, now);
    case NodeConfiguration(update) => AcceptNodeConfigKeeps(ext, db, call.clusterId, call.sessionId, update, now);
    case Credentials(creds) => AcceptCredentialsKeeps(ext, db, call.clusterId, call.sessionId, creds, now);
    case Replicas(replicas) => AcceptReplicasKeeps(ext, db, call.clusterId, call.sessionId, replicas, now);
  }

  lemma ObserveCallKeeps(ext: Externals, db: Db, call: Call)
    requires Sound(ext, db)
    ensures var tx := ObserveCallTx(db, call);
      && Sound(ext, tx.db) && tx.db.meta.identityRecovery == db.meta.identityRecovery
      && (tx.out.Done? ==>
            SameGeneration(tx.db.meta, EnvelopeOf(call.cmd)) && EnvelopeOf(call.cmd).epoch <= tx.db.meta.highestEpoch)
  {
    ObserveKeeps(ext, db, EnvelopeOf(call.cmd));
  }

  lemma AdvanceSound(ext: Externals, db: Db, call: Call, now: int)
    requires Sound(ext, db) && CallSound(ext, db.meta, call)
    ensures var step := Proceed(ext, db, call, now); Sound(ext, step.db) && CallSound(ext, step.db.meta, step.call)
  {
    match call.at
    case Identify => IdentityKeeps(ext, db, call.clusterId);
    case Observe => ObserveCallKeeps(ext, db, call);
    case Stage => StageCallKeeps(ext, db, call, now);
    case Commit => CommitCallKeeps(ext, db, call, now);
    case Returned(out) =>
  }

  lemma ReconcilerSound(ext: Externals, n: Node, e: Event)
    requires NodeSound(ext, n) && Enabled(n, e) && (e.Report? || e.Inventory?)
    ensures NodeSound(ext, Next(ext, n, e))
  {
    if e.Report? {
      RecordReportKeeps(ext, n.disk.db, e.report);
    } else {
      RecordInventoryKeeps(ext, n.disk.db, e.inventory);
    }
    assert Next(ext, n, e).disk.db.meta == n.disk.db.meta;
  }

  predicate SessionEvent(e: Event) {
    e.Require? || e.Adopt? || e.SetReplicas? || e.NextIncarnation? || e.Deliver? || e.Collect?
  }

  lemma SessionSound(ext: Externals, n: Node, e: Event)
    requires NodeSound(ext, n) && Enabled(n, e) && SessionEvent(e)
    ensures NodeSound(ext, Next(ext, n, e))
  {
    match e
    case Require(c) => IdentityKeeps(ext, n.disk.db, c);
    case Adopt(c) => AdoptKeeps(ext, n.disk.db, c);
    case SetReplicas(addresses) => AddressesKeep(ext, n.disk.db, addresses);
    case NextIncarnation => IncarnationKeeps(ext, n.disk.db);
    case Deliver(_, _, _) =>
    case Collect =>
  }

  lemma StepSound(ext: Externals, n: Node, e: Event)
    requires NodeSound(ext, n) && Enabled(n, e)
    ensures NodeSound(ext, Next(ext, n, e))
  {
    if SessionEvent(e) {
      SessionSound(ext, n, e);
    } else if e.Report? || e.Inventory? {
      ReconcilerSound(ext, n, e);
    } else {
      match e
      case Crash =>
      case LeaveEmptyFile =>
      case Boot(agentId, freshId) => BootSound(ext, n, agentId, freshId);
      case Admit(a) => AdmitKeeps(ext, n.disk.db, a);
      case SetSeeds(addresses) => AddressesKeep(ext, n.disk.db, addresses);
      case Start(found) => StartSound(ext, n.disk.db, found);
      case Advance(now) => AdvanceSound(ext, n.disk.db, n.phase.call.value, now);
    }
  }

  lemma {:induction false} RunSound(ext: Externals, nodes: seq<Node>, events: seq<Event>, i: nat)
    requires IsRun(ext, nodes, events) && i < |nodes|
    ensures NodeSound(ext, nodes[i])
  {
    if i > 0 {
      RunSound(ext, nodes, events, i - 1);
      StepSound(ext, nodes[i - 1], events[i - 1]);
    }
  }

  /**
   * A healthy agent never quarantines its own state: whatever the run, the store it left on disk passes the
   * startup check when opened again under its own identity, and keeps everything but the candidates.
   */
  lemma NeverQuarantinesItself(
      ext: Externals, nodes: seq<Node>, events: seq<Event>, i: nat, agentId: string, freshId: string)
    requires IsRun(ext, nodes, events) && i < |nodes|
    ensures var disk := nodes[i].disk;
      var open := OpenStore(ext, disk, agentId, freshId);
      && (open.Opened? ==> !open.quarantined)
      && (disk.File? && disk.db != EMPTY_DB && agentId == disk.db.meta.agentId ==>
            && open.Opened?
            && open.db == WithoutCandidates(disk.db).(meta := disk.db.meta.(storeId := open.db.meta.storeId)))
  {
    RunSound(ext, nodes, events, i);
    var disk := nodes[i].disk;
    if Blank(agentId) {
    } else if disk.NoFile? || disk == File(EMPTY_DB) {
      FreshOpens(ext, disk, agentId, freshId);
    } else if disk.db.meta.agentId == agentId {
      SoundReopens(ext, disk.db, freshId);
    }
  }
}
