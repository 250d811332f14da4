/**
 * The agent process around its database: opening the store, admitting a generation, accepting commands one
 * transaction at a time, and crashing between any two of them.
 */
module Agent {
  import opened Strings
  import opened Messages
  import opened Validation
  import opened Configuration
  import opened Database
  import opened Records

  // ---------------------------------------------------------------- opening the store

  datatype Disk = NoFile | File(db: Db) | Damaged

  datatype Init = Initialized(db: Db) | WrongFormat | WrongAgent

  /** A store of the previous format is rewritten in place. */
  function Migrated(ext: Externals, db: Db): Db {
    if db.desired.accepted.None? then db
    else
      var sorted := Canonicalized(db.desired.accepted.value);
      var versioned := sorted.(nodeConfigVersion := ext.hashNodeConfig(sorted.nodeConfig));
      db.(desired := db.desired.(accepted := Some(versioned)),
        meta := db.meta.(nodeConfigVersion := versioned.nodeConfigVersion))
  }

  function WithoutCandidates(db: Db): Db {
    db.(desired := DesiredBucket(db.desired.accepted, None, None, None))
  }

  predicate KnownFormat(version: nat) {
    version == 0 || version == 2 || version == FORMAT_VERSION
  }

  /** The meta bucket of a store claimed for an agent; a store without an initialization state gets one. */
  function Claimed(meta: Meta, agentId: string, existed: bool, corrupt: bool, freshId: string): Meta {
    meta.(
      formatVersion := FORMAT_VERSION, agentId := agentId,
      storeId := if meta.storeId == "" then freshId else meta.storeId,
      init := if meta.init != Unset then meta.init else if corrupt || existed then Recovery else Uninitialized)
  }

  function CurrentFormat(ext: Externals, db: Db): Db {
    if db.meta.formatVersion == 2 then Migrated(ext, WithoutCandidates(db)) else WithoutCandidates(db)
  }

  function InitializeTx(ext: Externals, db: Db, agentId: string, existed: bool, corrupt: bool, freshId: string): Init {
    var current := CurrentFormat(ext, db);
    if !KnownFormat(db.meta.formatVersion) then WrongFormat
    else if current.meta.agentId != "" && current.meta.agentId != agentId then WrongAgent
    else Initialized(current.(meta := Claimed(current.meta, agentId, existed, corrupt, freshId)))
  }

  datatype Open = Opened(db: Db, quarantined: bool) | NotOpened

  /** The store that replaces an unreadable one. */
  function Quarantined(ext: Externals, agentId: string, freshId: string): Open {
    match InitializeTx(ext, EMPTY_DB, agentId, false, true, freshId)
    case Initialized(db) => Opened(db, true)
    case WrongFormat => NotOpened
    case WrongAgent => NotOpened
  }

  ghost function OpenStore(ext: Externals, disk: Disk, agentId: string, freshId: string): Open {
    if Blank(agentId) then NotOpened
    else if disk.Damaged? then Quarantined(ext, agentId, freshId)
    else
      match InitializeTx(ext, if disk.File? then disk.db else EMPTY_DB, agentId, disk.File?, false, freshId)
      case Initialized(db) => if ValidRecords(ext, db) then Opened(db, false) else Quarantined(ext, agentId, freshId)
      case WrongFormat => NotOpened
      case WrongAgent => NotOpened
  }

  /**
   * Whatever is on disk, an opened store passes the startup check and holds no candidate. It was quarantined
   * exactly when what it found did not pass, and then it is in recovery and claims no state and no generation.
   */
  lemma OpenedIsValid(ext: Externals, disk: Disk, agentId: string, freshId: string)
    ensures var open := OpenStore(ext, disk, agentId, freshId);
      open.Opened? ==>
        && ValidRecords(ext, open.db) && open.db.meta.agentId == agentId
        && open.db.desired == DesiredBucket(open.db.desired.accepted, None, None, None)
        && (open.quarantined ==>
              && open.db.meta.init == Recovery && open.db.desired.accepted.None?
              && open.db.meta.recoveryGeneration == "" && open.db.meta.retired == {}
              && Sound(ext, open.db))
  {
  }

  /** A store the agent left behind opens as it was, candidates aside; it is never quarantined. */
  lemma SoundReopens(ext: Externals, db: Db, freshId: string)
    requires Sound(ext, db)
    ensures OpenStore(ext, File(db), db.meta.agentId, freshId)
         == Opened(WithoutCandidates(db).(meta :=
           db.meta.(storeId := if db.meta.storeId == "" then freshId else db.meta.storeId)), false)
    ensures Sound(ext, OpenStore(ext, File(db), db.meta.agentId, freshId).db)
  {
    var reopened := WithoutCandidates(db).(meta :=
      db.meta.(storeId := if db.meta.storeId == "" then freshId else db.meta.storeId));
    assert Sound(ext, reopened);
  }

  // ---------------------------------------------------------------- accepting a command

  datatype Command =
    | Checkpoint(state: DesiredState)
    | Diff(diff: AllocationDiff)
    | NodeConfiguration(update: NodeConfigUpdate)
    | Credentials(creds: PullCredentialSet)
    | Replicas(replicas: ReplicaEndpoints)

  function EnvelopeOf(cmd: Command): Envelope {
    match cmd
    case Checkpoint(state) => state.env
    case Diff(diff) => diff.env
    case NodeConfiguration(update) => update.env
    case Credentials(creds) => creds.env
    case Replicas(replicas) => replicas.env
  }

  /** Which transaction of a call comes next. */
  datatype Progress = Identify | Observe | Stage | Commit | Returned(out: Outcome)

  datatype Call = Call(cmd: Command, clusterId: string, sessionId: string, at: Progress)

  datatype CallStep = CallStep(db: Db, call: Call)

  /** The checks made before the command's epoch is observed. */
  function Addressed(meta: Meta, call: Call): Outcome {
    var env := EnvelopeOf(call.cmd);
    if (call.cmd.Credentials? || call.cmd.Replicas?) && Blank(env.agentId) then Refused(ForeignAgent)
    else if !call.cmd.Credentials? && !call.cmd.Replicas? && env.agentId != meta.agentId then Refused(ForeignAgent)
    else if env.clusterId != call.clusterId then Refused(ForeignCluster)
    else if call.sessionId == "" || env.sessionId != call.sessionId then Refused(ForeignSession)
    else Done(false)
  }

  /** The payload checks made between observing the epoch and writing anything else. */
  ghost predicate ValidPayload(ext: Externals, cmd: Command) {
    match cmd
    case Checkpoint(state) => ValidState(ext, state)
    case Diff(diff) => ValidDiff(diff)
    case NodeConfiguration(update) =>
      update.config.Some? && !Blank(update.version) && ext.hashNodeConfig(update.config) == update.version
    case Credentials(creds) =>
      !Blank(creds.version) && ext.hashCredentials(creds.credentials) == creds.version
        && CredentialIdsValid(creds.credentials)
    case Replicas(replicas) =>
      !Blank(replicas.version) && ext.hashReplicas(replicas.addresses) == replicas.version
  }

  function IdentifyTx(db: Db, call: Call): Tx {
    if call.cmd.Diff? && db.meta.checkpointRequired then Tx(db, Refused(CheckpointRequired))
    else RequireIdentityTx(db, call.clusterId)
  }

  function ObserveCallTx(db: Db, call: Call): Tx {
    var addressed := Addressed(db.meta, call);
    if addressed.Refused? then Tx(db, addressed) else ObserveTx(db, EnvelopeOf(call.cmd))
  }

  ghost function StageCallTx(ext: Externals, db: Db, call: Call, now: int): Tx {
    if !ValidPayload(ext, call.cmd) then Tx(db, Refused(Invalid))
    else
      match call.cmd
      case Checkpoint(state) => StageStateTx(db, call.sessionId, state, now)
      case Diff(diff) => StageDiffTx(db, call.sessionId, diff, now)
      case NodeConfiguration(update) => StageNodeConfigTx(db, call.sessionId, update, now)
      case Credentials(_) => Tx(db, Done(false))
      case Replicas(_) => Tx(db, Done(false))
  }

  ghost function CommitCallTx(ext: Externals, db: Db, call: Call, now: int): Tx {
    match call.cmd
    case Checkpoint(state) => AcceptStateTx(ext, db, call.clusterId, call.sessionId, state, now)
    case Diff(diff) => AcceptDiffTx(ext, db, call.clusterId, call.sessionId, diff, now)
    case NodeConfiguration(update) => AcceptNodeConfigTx(ext, db, call.clusterId, call.sessionId, update, now)
    case Credentials(creds) => AcceptCredentialsTx(db, call.clusterId, call.sessionId, creds, now)
    case Replicas(replicas) => AcceptReplicasTx(db, call.clusterId, call.sessionId, replicas, now)
  }

  ghost function CallTx(ext: Externals, db: Db, call: Call, now: int): Tx {
    match call.at
    case Identify => IdentifyTx(db, call)
    case Observe => ObserveCallTx(db, call)
    case Stage => StageCallTx(ext, db, call, now)
    case Commit => CommitCallTx(ext, db, call, now)
    case Returned(out) => Tx(db, out)
  }

  function Following(at: Progress, out: Outcome): Progress {
    if out.Refused? then Returned(out)
    else
      match at
      case Identify => Observe
      case Observe => Stage
      case Stage => Commit
      case Commit => Returned(out)
      case Returned(o) => Returned(o)
  }

  ghost function Proceed(ext: Externals, db: Db, call: Call, now: int): CallStep {
    var tx := CallTx(ext, db, call, now);
    CallStep(tx.db, call.(at := Following(call.at, tx.out)))
  }

  /** A call whose four transactions run without interruption. */
  ghost function WholeCall(ext: Externals, db: Db, call: Call, staging: int, committing: int): Tx {
    var identified := IdentifyTx(db, call);
    if identified.out.Refused? then identified
    else
      var observed := ObserveCallTx(identified.db, call);
      if observed.out.Refused? then observed
      else
        var staged := StageCallTx(ext, observed.db, call, staging);
        if staged.out.Refused? then staged else CommitCallTx(ext, staged.db, call, committing)
  }

  // ---------------------------------------------------------------- the process

  /** A process is down, has opened its store, or serves; one session goroutine makes one call at a time. */
  datatype Phase = Down | Booted | Serving(call: Option<Call>)

  datatype Node = Node(disk: Disk, phase: Phase)

  datatype Event =
    | Crash
    | LeaveEmptyFile
    | Boot(agentId: string, freshId: string)
    | Admit(authority: Authority)
    | SetSeeds(seeds: seq<string>)
    | Start(discovered: seq<RuntimeResource>)
    | Require(requiredCluster: string)
    | Adopt(adoptedCluster: string)
    | SetReplicas(addresses: seq<string>)
    | NextIncarnation
    | Deliver(cmd: Command, clusterId: string, sessionId: string)
    | Advance(now: int)
    | Collect
    | Report(report: StatusReport)
    | Inventory(inventory: seq<RuntimeResource>)

  /**
   * When an event can happen. Generations are admitted before connecting; session work needs an idle session;
   * the reconciler's transactions interleave with anything while serving.
   */
  ghost predicate Enabled(n: Node, e: Event) {
    match e
    case Crash => true
    case LeaveEmptyFile => n == Node(NoFile, Down)
    case Boot(_, _) => n.phase.Down?
    case Admit(a) => n.phase.Booted? && a.generation != "" && n.disk.File?
    case SetSeeds(_) => n.phase.Booted? && n.disk.File?
    case Start(found) => n.phase.Booted? && n.disk.File? && DiscoveredResources(found) && Identified(found)
    case Require(_) => Idle(n)
    case Adopt(_) => Idle(n)
    case SetReplicas(_) => Idle(n)
    case NextIncarnation => Idle(n)
    case Deliver(_, _, _) => Idle(n)
    case Advance(_) => Busy(n)
    case Collect => Busy(n) && n.phase.call.value.at.Returned?
    case Report(r) => n.phase.Serving? && n.disk.File? && (n.disk.db.desired.accepted.Some? ==>
      ReportsOnly(r, n.disk.db.desired.accepted.value))
    case Inventory(found) => n.phase.Serving? && n.disk.File? && DiscoveredResources(found) && Identified(found)
  }

  predicate Idle(n: Node) { n.disk.File? && n.phase == Serving(None) }

  predicate Busy(n: Node) { n.disk.File? && n.phase.Serving? && n.phase.call.Some? }

  ghost function Booting(ext: Externals, n: Node, agentId: string, freshId: string): Node {
    match OpenStore(ext, n.disk, agentId, freshId)
    case Opened(db, _) => Node(File(db), Booted)
    case NotOpened => n
  }

  /** Startup under the store's own cluster identity; a flagged store does not start. */
  ghost function Starting(db: Db, inventory: seq<RuntimeResource>): Node {
    var required := RequireIdentityTx(db, db.meta.clusterId);
    if required.out.Refused? then Node(File(required.db), Down)
    else
      var started := StartupTx(required.db, db.meta.clusterId, inventory);
      Node(File(started.db), if started.out.Refused? then Down else Serving(None))
  }

  ghost function Next(ext: Externals, n: Node, e: Event): Node
    requires Enabled(n, e)
  {
    match e
    case Crash => n.(phase := Down)
    case LeaveEmptyFile => Node(File(EMPTY_DB), Down)
    case Boot(agentId, freshId) => Booting(ext, n, agentId, freshId)
    case Admit(a) =>
      var tx := AdmitTx(ext, n.disk.db, a);
      Node(File(tx.db), if tx.out.Refused? then Down else Booted)
    case SetSeeds(addresses) => n.(disk := File(SetSeedsTx(n.disk.db, addresses).db))
    case Start(found) => Starting(n.disk.db, found)
    case Require(c) => n.(disk := File(RequireIdentityTx(n.disk.db, c).db))
    case Adopt(c) => n.(disk := File(AdoptIdentityTx(n.disk.db, c).db))
    case SetReplicas(addresses) => n.(disk := File(SetReplicasTx(n.disk.db, addresses).db))
    case NextIncarnation => n.(disk := File(NextIncarnationTx(n.disk.db).db))
    case Deliver(cmd, clusterId, sessionId) => n.(phase := Serving(Some(Call(cmd, clusterId, sessionId, Identify))))
    case Advance(now) =>
      var step := Proceed(ext, n.disk.db, n.phase.call.value, now);
      Node(File(step.db), Serving(Some(step.call)))
    case Collect => n.(phase := Serving(None))
    case Report(r) => n.(disk := File(RecordReportTx(n.disk.db, r).db))
    case Inventory(found) => n.(disk := File(RecordInventoryTx(n.disk.db, found).db))
  }

  /** A run from a host without a store file. */
  ghost predicate IsRun(ext: Externals, nodes: seq<Node>, events: seq<Event>) {
    && |nodes| == |events| + 1
    && nodes[0] == Node(NoFile, Down)
    && forall i :: 0 <= i < |events| ==> Enabled(nodes[i], events[i]) && nodes[i + 1] == Next(ext, nodes[i], events[i])
  }
}
