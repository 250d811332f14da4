/** Safety of the local store over whole runs with loss, duplication, reordering and crashes. */
module RunTheorems {
  import opened Strings
  import opened Messages
  import opened Validation
  import opened Configuration
  import opened Database
  import opened Records
  import opened Agent
  import opened Runs
  import opened Evolution

  // ---------------------------------------------------------------- nothing goes back

  /** How many generations were admitted before and up to the current one. */
  function AdmissionIndex(meta: Meta): nat {
    |meta.retired| + if meta.recoveryGeneration == "" then 0 else 1
  }

  lemma NewGenerationRaisesIndex(a: Meta, b: Meta)
    requires NewGeneration(a, b) && a.recoveryGeneration !in a.retired && b.recoveryGeneration !in b.retired
    ensures AdmissionIndex(a) < AdmissionIndex(b)
  {
    if a.recoveryGeneration != "" {
      SubsetSize(a.retired + {a.recoveryGeneration}, b.retired);
    } else {
      SubsetSize(a.retired, b.retired);
    }
  }

  lemma SubsetSize(a: set<string>, b: set<string>)
    requires a <= b
    ensures |a| <= |b|
  {
    assert b == a + (b - a);
  }

  /** Admission order, accepted epoch and accepted cursor never decrease lexicographically; nor does the fence. */
  lemma NothingGoesBack(ext: Externals, nodes: seq<Node>, events: seq<Event>, i: nat, j: nat)
    requires IsRun(ext, nodes, events) && i <= j < |nodes|
    ensures var a, b := Content(nodes[i]).meta, Content(nodes[j]).meta;
      if a.recoveryGeneration == b.recoveryGeneration
      then AdmissionIndex(a) == AdmissionIndex(b) && PositionLe(a, b) && Fence(a) <= Fence(b)
      else AdmissionIndex(a) < AdmissionIndex(b)
  {
    RunEvolves(ext, nodes, events, i, j);
    RunSound(ext, nodes, events, i);
    var a, b := Content(nodes[i]), Content(nodes[j]);
    if !WithinGeneration(a, b) {
      NewGenerationRaisesIndex(a.meta, b.meta);
    }
  }

  /** A replaced generation never becomes current again. */
  lemma ReplacedGenerationStaysReplaced(ext: Externals, nodes: seq<Node>, events: seq<Event>, i: nat, j: nat, k: nat)
    requires IsRun(ext, nodes, events) && i <= j <= k < |nodes|
    requires Content(nodes[i]).meta.recoveryGeneration != Content(nodes[j]).meta.recoveryGeneration
    ensures Content(nodes[k]).meta.recoveryGeneration != Content(nodes[i]).meta.recoveryGeneration
  {
    NothingGoesBack(ext, nodes, events, i, j);
    NothingGoesBack(ext, nodes, events, j, k);
    NothingGoesBack(ext, nodes, events, i, k);
  }

  /** Losing the store to corruption loses that memory: any generation, retired or not, is admitted afresh. */
  lemma QuarantineForgetsRetirement(ext: Externals, agentId: string, freshId: string, a: Authority)
    requires !Blank(agentId) && a.generation != ""
    ensures var open := OpenStore(ext, Damaged, agentId, freshId);
      open.Opened? && AdmitTx(ext, open.db, a).out == Done(true)
  {
  }

  /** With no assumption on senders: within a generation, one position has one configuration. */
  lemma OnePositionOneConfiguration(ext: Externals, nodes: seq<Node>, events: seq<Event>, i: nat, j: nat)
    requires IsRun(ext, nodes, events) && i <= j < |nodes|
    requires Content(nodes[i]).meta.recoveryGeneration == Content(nodes[j]).meta.recoveryGeneration
    requires SamePosition(Content(nodes[i]).meta, Content(nodes[j]).meta)
    ensures var a, b := Content(nodes[i]).desired.accepted, Content(nodes[j]).desired.accepted;
      || (a.None? && b.None?)
      || (a.Some? && b.Some? && ConfigurationEqual(a.value, b.value))
  {
    RunEvolves(ext, nodes, events, i, j);
    RunSound(ext, nodes, events, i);
    RunSound(ext, nodes, events, j);
  }

  /** Within a generation, equal observation sequences are equal content; changed content is a larger sequence. */
  lemma SequencesIdentifyReports(ext: Externals, nodes: seq<Node>, events: seq<Event>, i: nat, j: nat)
    requires IsRun(ext, nodes, events) && i <= j < |nodes|
    requires Content(nodes[i]).meta.recoveryGeneration == Content(nodes[j]).meta.recoveryGeneration
    requires Content(nodes[i]).observations.report.Some?
    ensures Content(nodes[j]).observations.report.Some?
    ensures var r, s := Content(nodes[i]).observations.report.value, Content(nodes[j]).observations.report.value;
      && r.sequence <= s.sequence
      && (r.sequence == s.sequence ==> ReportContent(r) == ReportContent(s))
      && (ReportContent(r) != ReportContent(s) ==> r.sequence < s.sequence)
  {
    RunEvolves(ext, nodes, events, i, j);
    RunSound(ext, nodes, events, i);
    RunSound(ext, nodes, events, j);
  }

  /** A store flagged for identity recovery commits no command until a new generation is admitted. */
  lemma FlaggedStoreIsFrozen(ext: Externals, nodes: seq<Node>, events: seq<Event>, i: nat, j: nat)
    requires IsRun(ext, nodes, events) && i <= j < |nodes|
    requires Content(nodes[i]).meta.identityRecovery
    requires Content(nodes[i]).meta.recoveryGeneration == Content(nodes[j]).meta.recoveryGeneration
    ensures FlagFreezes(Content(nodes[i]), Content(nodes[j])) && Content(nodes[j]).meta.identityRecovery
    ensures j < |events| ==> !Commits(ext, nodes[j], events[j])
  {
    RunEvolves(ext, nodes, events, i, j);
    RunSound(ext, nodes, events, j);
  }

  // ---------------------------------------------------------------- commits

  /** The event is the last transaction of a call, and it succeeds. */
  ghost predicate Commits(ext: Externals, n: Node, e: Event) {
    && Busy(n) && e.Advance?
    && n.phase.call.value.at == Commit
    && CommitCallTx(ext, n.disk.db, n.phase.call.value, e.now).out.Done?
  }

  /** What a successful commit checked, and the fences it leaves. */
  ghost predicate CommitChecked(db: Db, after: Db, call: Call, now: int) {
    var env := EnvelopeOf(call.cmd);
    && Fence(db.meta) <= env.epoch && GrantHolds(env, call.sessionId, now)
    && after.meta.highestEpoch == db.meta.highestEpoch
    && (after.meta.acceptedEpoch == db.meta.acceptedEpoch || after.meta.acceptedEpoch == env.epoch)
    && after.meta.recoveryGeneration == db.meta.recoveryGeneration
    && after.meta.installationId == db.meta.installationId
  }

  lemma CheckpointChecked(ext: Externals, db: Db, call: Call, now: int)
    requires call.cmd.Checkpoint? && CommitCallTx(ext, db, call, now).out.Done?
    ensures CommitChecked(db, CommitCallTx(ext, db, call, now).db, call, now)
  {
    AcceptStateGuard(ext, db, call.clusterId, call.sessionId, call.cmd.state, now);
    CommitStateFrame(db, call.clusterId, call.cmd.state);
  }

  lemma DiffChecked(ext: Externals, db: Db, call: Call, now: int)
    requires call.cmd.Diff? && CommitCallTx(ext, db, call, now).out.Done?
    ensures CommitChecked(db, CommitCallTx(ext, db, call, now).db, call, now)
  {
  }

  lemma NodeConfigChecked(ext: Externals, db: Db, call: Call, now: int)
    requires call.cmd.NodeConfiguration? && CommitCallTx(ext, db, call, now).out.Done?
    ensures CommitChecked(db, CommitCallTx(ext, db, call, now).db, call, now)
  {
  }

  lemma AuxiliaryChecked(ext: Externals, db: Db, call: Call, now: int)
    requires (call.cmd.Credentials? || call.cmd.Replicas?) && CommitCallTx(ext, db, call, now).out.Done?
    ensures CommitChecked(db, CommitCallTx(ext, db, call, now).db, call, now)
  {
  }

  lemma CommitGuards(ext: Externals, db: Db, call: Call, now: int)
    requires CommitCallTx(ext, db, call, now).out.Done?
    ensures CommitChecked(db, CommitCallTx(ext, db, call, now).db, call, now)
  {
    match call.cmd
    case Checkpoint(_) => CheckpointChecked(ext, db, call, now);
    case Diff(_) => DiffChecked(ext, db, call, now);
    case NodeConfiguration(_) => NodeConfigChecked(ext, db, call, now);
    case Credentials(_) => AuxiliaryChecked(ext, db, call, now);
    case Replicas(_) => AuxiliaryChecked(ext, db, call, now);
  }

  /** The command is of the store's generation and its epoch is the store's fence. */
  predicate AtTheFence(meta: Meta, env: Envelope) {
    SameGeneration(meta, env) && env.epoch == Fence(meta)
  }

  lemma CommitAtTheFence(ext: Externals, db: Db, call: Call, now: int)
    requires call.at == Commit && CallSound(ext, db.meta, call) && CommitCallTx(ext, db, call, now).out.Done?
    ensures AtTheFence(db.meta, EnvelopeOf(call.cmd))
    ensures AtTheFence(Proceed(ext, db, call, now).db.meta, EnvelopeOf(call.cmd))
  {
    CommitGuards(ext, db, call, now);
  }

  lemma RunCall(ext: Externals, nodes: seq<Node>, events: seq<Event>, i: nat)
    requires IsRun(ext, nodes, events) && i < |nodes| && Busy(nodes[i])
    ensures CallSound(ext, nodes[i].disk.db.meta, nodes[i].phase.call.value)
  {
    RunSound(ext, nodes, events, i);
  }

  lemma AdvanceContent(ext: Externals, nodes: seq<Node>, events: seq<Event>, i: nat)
    requires IsRun(ext, nodes, events) && i < |events| && events[i].Advance?
    ensures Busy(nodes[i])
    ensures Content(nodes[i]) == nodes[i].disk.db
    ensures Content(nodes[i + 1]) == Proceed(ext, nodes[i].disk.db, nodes[i].phase.call.value, events[i].now).db
  {
    assert Enabled(nodes[i], events[i]) && nodes[i + 1] == Next(ext, nodes[i], events[i]);
  }

  /** Every committed command carries the current generation, and its epoch is the fence before and after. */
  lemma CommittedAtTheFence(ext: Externals, nodes: seq<Node>, events: seq<Event>, i: nat)
    requires IsRun(ext, nodes, events) && i < |events| && Commits(ext, nodes[i], events[i])
    ensures AtTheFence(Content(nodes[i]).meta, EnvelopeOf(nodes[i].phase.call.value.cmd))
    ensures AtTheFence(Content(nodes[i + 1]).meta, EnvelopeOf(nodes[i].phase.call.value.cmd))
  {
    AdvanceContent(ext, nodes, events, i);
    RunCall(ext, nodes, events, i);
    CommitAtTheFence(ext, nodes[i].disk.db, nodes[i].phase.call.value, events[i].now);
  }

  /** The candidate a call works on, as the store would hold it. */
  ghost predicate CandidateStaged(db: Db, cmd: Command) {
    match cmd
    case Checkpoint(state) => db.desired.stagedState == Some(state)
    case Diff(diff) => db.desired.stagedDiff == Some(diff)
    case NodeConfiguration(update) => db.desired.stagedNodeConfig == Some(update)
    case Credentials(_) => true
    case Replicas(_) => true
  }

  /** The state a committed command leaves accepted. */
  ghost function AcceptedBy(
      accepted: Option<DesiredState>, cursor: int, version: string, cmd: Command): Option<DesiredState>
  {
    match cmd
    case Checkpoint(state) => Some(Cleaned(state))
    case Diff(diff) => if diff.target == cursor || accepted.None? then accepted
      else Some(ApplyDiff(accepted.value, diff))
    case NodeConfiguration(update) => if version == update.version || accepted.None? then accepted
      else Some(Reconfigured(accepted.value, update))
    case Credentials(_) => accepted
    case Replicas(_) => accepted
  }

  lemma DiffAccepts(ext: Externals, db: Db, clusterId: string, sessionId: string, diff: AllocationDiff, now: int)
    ensures var tx := AcceptDiffTx(ext, db, clusterId, sessionId, diff, now);
      tx.out.Done? ==>
        && CandidateStaged(db, Diff(diff))
        && tx.db.desired.accepted
            == AcceptedBy(db.desired.accepted, db.meta.cursor, db.meta.nodeConfigVersion, Diff(diff))
  {
  }

  lemma NodeConfigAccepts(
      ext: Externals, db: Db, clusterId: string, sessionId: string, update: NodeConfigUpdate, now: int)
    ensures var tx := AcceptNodeConfigTx(ext, db, clusterId, sessionId, update, now);
      tx.out.Done? ==>
        && CandidateStaged(db, NodeConfiguration(update))
        && tx.db.desired.accepted
            == AcceptedBy(db.desired.accepted, db.meta.cursor, db.meta.nodeConfigVersion, NodeConfiguration(update))
  {
  }

  lemma CommitAccepts(ext: Externals, db: Db, call: Call, now: int)
    requires CommitCallTx(ext, db, call, now).out.Done?
    ensures CandidateStaged(db, call.cmd)
    ensures CommitCallTx(ext, db, call, now).db.desired.accepted
         == AcceptedBy(db.desired.accepted, db.meta.cursor, db.meta.nodeConfigVersion, call.cmd)
  {
    match call.cmd
    case Checkpoint(state) =>
      AcceptStateGuard(ext, db, call.clusterId, call.sessionId, state, now);
      CommitStateFrame(db, call.clusterId, state);
    case Diff(diff) => DiffAccepts(ext, db, call.clusterId, call.sessionId, diff, now);
    case NodeConfiguration(update) => NodeConfigAccepts(ext, db, call.clusterId, call.sessionId, update, now);
    case Credentials(creds) => AcceptCredentialsShape(db, call.clusterId, call.sessionId, creds, now);
    case Replicas(replicas) => AcceptReplicasShape(db, call.clusterId, call.sessionId, replicas, now);
  }

  lemma RefusalChangesNothing(ext: Externals, db: Db, call: Call, now: int)
    requires CommitCallTx(ext, db, call, now).out.Refused?
    ensures CommitCallTx(ext, db, call, now).db == db
  {
    match call.cmd
    case Checkpoint(state) => AcceptStateGuard(ext, db, call.clusterId, call.sessionId, state, now);
    case Diff(diff) => DiffRefusal(ext, db, call.clusterId, call.sessionId, diff, now);
    case NodeConfiguration(update) => NodeConfigRefusal(ext, db, call.clusterId, call.sessionId, update, now);
    case Credentials(creds) => AuxiliaryRefusal(db, call.clusterId, call.sessionId, now);
    case Replicas(replicas) => AuxiliaryRefusal(db, call.clusterId, call.sessionId, now);
  }

  lemma DiffRefusal(ext: Externals, db: Db, clusterId: string, sessionId: string, diff: AllocationDiff, now: int)
    ensures var tx := AcceptDiffTx(ext, db, clusterId, sessionId, diff, now); tx.out.Refused? ==> tx.db == db
  {
  }

  lemma NodeConfigRefusal(
      ext: Externals, db: Db, clusterId: string, sessionId: string, update: NodeConfigUpdate, now: int)
    ensures var tx := AcceptNodeConfigTx(ext, db, clusterId, sessionId, update, now); tx.out.Refused? ==> tx.db == db
  {
  }

  lemma AuxiliaryRefusal(db: Db, clusterId: string, sessionId: string, now: int)
    ensures forall creds :: AcceptCredentialsTx(db, clusterId, sessionId, creds, now).out.Refused? ==>
      AcceptCredentialsTx(db, clusterId, sessionId, creds, now).db == db
    ensures forall replicas :: AcceptReplicasTx(db, clusterId, sessionId, replicas, now).out.Refused? ==>
      AcceptReplicasTx(db, clusterId, sessionId, replicas, now).db == db
  {
  }

  /** What a failed check or a crash must not change. */
  ghost predicate SameAccepted(a: Db, b: Db) {
    && a.desired.accepted == b.desired.accepted && SamePosition(a.meta, b.meta) && a.allocations == b.allocations
    && a.meta.nodeConfigVersion == b.meta.nodeConfigVersion
  }

  /** The accepted state after is the one this call's own candidate makes, and its grant held. */
  ghost predicate AcceptsOwnCandidate(a: Db, b: Db, call: Call, now: int) {
    && CandidateStaged(a, call.cmd) && GrantHolds(EnvelopeOf(call.cmd), call.sessionId, now)
    && b.desired.accepted == AcceptedBy(a.desired.accepted, a.meta.cursor, a.meta.nodeConfigVersion, call.cmd)
  }

  lemma ProceedAccepts(ext: Externals, db: Db, call: Call, now: int)
    ensures var after := Proceed(ext, db, call, now).db;
      if call.at == Commit && CommitCallTx(ext, db, call, now).out.Done?
      then AcceptsOwnCandidate(db, after, call, now)
      else SameAccepted(db, after)
  {
    if call.at == Commit {
      if CommitCallTx(ext, db, call, now).out.Done? {
        CommitGuards(ext, db, call, now);
        CommitAccepts(ext, db, call, now);
      } else {
        RefusalChangesNothing(ext, db, call, now);
      }
    } else {
      EarlyStagesKeepAccepted(ext, db, call, now);
    }
  }

  lemma EarlyStagesKeepAccepted(ext: Externals, db: Db, call: Call, now: int)
    requires call.at != Commit
    ensures SameAccepted(db, Proceed(ext, db, call, now).db)
  {
    match call.at
    case Identify =>
    case Observe =>
    case Stage => assert StageCallTx(ext, db, call, now).db.meta == db.meta;
    case Returned(_) =>
  }

  /** The accepted state, its position and its node configuration are as they were. */
  predicate StateKept(a: Db, b: Db) {
    a.desired.accepted == b.desired.accepted && SamePosition(a.meta, b.meta)
      && a.meta.nodeConfigVersion == b.meta.nodeConfigVersion
  }

  lemma OtherEventsKeepState(ext: Externals, n: Node, e: Event)
    requires NodeSound(ext, n) && Enabled(n, e) && !e.Advance? && !Cutover(ext, n, e)
    ensures StateKept(Content(n), Content(Next(ext, n, e)))
  {
    if Quiet(e) {
      QuietUntouched(ext, n, e);
    } else if e.Boot? {
      BootUntouched(ext, n, e.agentId, e.freshId);
    } else if e.Report? {
      assert RecordReportTx(n.disk.db, e.report).db.desired == n.disk.db.desired;
    } else {
      var tx := AdmitTx(ext, n.disk.db, e.authority);
      assert tx.db.desired == n.disk.db.desired;
    }
  }

  /**
   * Whatever the event, accepted state and position change only by the admission of a new generation or by the
   * transaction that commits a call: its candidate is the one in the store, its grant holds at that moment, and what
   * is accepted is its own content. A refusal anywhere, and a crash anywhere, changes no allocation record either.
   */
  lemma AcceptedOnlyByCommit(ext: Externals, nodes: seq<Node>, events: seq<Event>, i: nat)
    requires IsRun(ext, nodes, events) && i < |events|
    ensures Commits(ext, nodes[i], events[i]) ==>
      AcceptsOwnCandidate(Content(nodes[i]), Content(nodes[i + 1]), nodes[i].phase.call.value, events[i].now)
    ensures !Commits(ext, nodes[i], events[i]) && !Cutover(ext, nodes[i], events[i]) ==>
      StateKept(Content(nodes[i]), Content(nodes[i + 1]))
    ensures !Commits(ext, nodes[i], events[i]) && (events[i].Advance? || events[i].Crash?) ==>
      SameAccepted(Content(nodes[i]), Content(nodes[i + 1]))
  {
    if events[i].Advance? {
      AdvanceContent(ext, nodes, events, i);
      ProceedAccepts(ext, nodes[i].disk.db, nodes[i].phase.call.value, events[i].now);
    } else if !Cutover(ext, nodes[i], events[i]) {
      RunSound(ext, nodes, events, i);
      OtherEventsKeepState(ext, nodes[i], events[i]);
    }
  }

  /** A call about to commit staged its own candidate earlier, in this process, and has been the only call since. */
  lemma {:induction false} CandidateStagedByThisCall(ext: Externals, nodes: seq<Node>, events: seq<Event>, i: nat)
    returns (k: nat)
    requires IsRun(ext, nodes, events) && i < |nodes|
    requires nodes[i].phase.Serving? && nodes[i].phase.call.Some? && nodes[i].phase.call.value.at == Commit
    ensures k < i && events[k].Advance?
    ensures nodes[k].phase == Serving(Some(nodes[i].phase.call.value.(at := Stage)))
    ensures StageCallTx(ext, Content(nodes[k]), nodes[i].phase.call.value.(at := Stage), events[k].now).out.Done?
    ensures forall m :: k < m <= i ==> nodes[m].phase == nodes[i].phase
  {
    assert i > 0;
    var n, e := nodes[i - 1], events[i - 1];
    assert Enabled(n, e) && nodes[i] == Next(ext, n, e);
    if e.Advance? {
      var before := n.phase.call.value;
      var tx := CallTx(ext, n.disk.db, before, e.now);
      assert before.at == Stage && tx.out.Done?;
      assert before == nodes[i].phase.call.value.(at := Stage);
      k := i - 1;
    } else {
      assert n.phase == nodes[i].phase;
      k := CandidateStagedByThisCall(ext, nodes, events, i - 1);
    }
  }

  // ---------------------------------------------------------------- cutovers

  lemma BlankIsNot(cmd: Command)
    ensures cmd.NodeConfiguration? && !Blank(cmd.update.version) ==> cmd.update.version != ""
  {
  }

  /** With no accepted state only a complete checkpoint commits among the commands that change one. */
  lemma CheckpointComesFirst(ext: Externals, nodes: seq<Node>, events: seq<Event>, i: nat)
    requires IsRun(ext, nodes, events) && i < |events| && Commits(ext, nodes[i], events[i])
    requires Content(nodes[i]).desired.accepted.None?
    ensures var cmd := nodes[i].phase.call.value.cmd;
      && !cmd.Diff? && !cmd.NodeConfiguration?
      && (cmd.Checkpoint? ==> cmd.state.complete && cmd.state.scope == AgentScope)
      && (Content(nodes[i + 1]).desired.accepted.Some? ==> cmd.Checkpoint?)
  {
    RunSound(ext, nodes, events, i);
    var db, call, now := nodes[i].disk.db, nodes[i].phase.call.value, events[i].now;
    CommitAccepts(ext, db, call, now);
    BlankIsNot(call.cmd);
  }

  lemma OnlyCallsAccept(ext: Externals, n: Node, e: Event)
    requires NodeSound(ext, n) && Enabled(n, e) && !e.Advance? && Content(n).desired.accepted.None?
    ensures Content(Next(ext, n, e)).desired.accepted.None?
  {
    if Quiet(e) {
      QuietUntouched(ext, n, e);
    } else if e.Boot? {
      BootUntouched(ext, n, e.agentId, e.freshId);
    }
  }

  /** Where no state was accepted and later one is, a complete checkpoint was committed in between. */
  lemma {:induction false} AcceptedByCheckpoint(ext: Externals, nodes: seq<Node>, events: seq<Event>, i: nat, j: nat)
    returns (k: nat)
    requires IsRun(ext, nodes, events) && i <= j < |nodes|
    requires Content(nodes[i]).desired.accepted.None? && Content(nodes[j]).desired.accepted.Some?
    ensures i <= k < j && CommitsCheckpoint(ext, nodes[k], events[k])
  {
    if Content(nodes[j - 1]).desired.accepted.Some? {
      k := AcceptedByCheckpoint(ext, nodes, events, i, j - 1);
    } else {
      k := j - 1;
      RunSound(ext, nodes, events, k);
      assert Enabled(nodes[k], events[k]) && nodes[j] == Next(ext, nodes[k], events[k]);
      if events[k].Advance? {
        AcceptedOnlyByCommit(ext, nodes, events, k);
        CheckpointComesFirst(ext, nodes, events, k);
      } else {
        OnlyCallsAccept(ext, nodes[k], events[k]);
      }
    }
  }

  ghost predicate CommitsCheckpoint(ext: Externals, n: Node, e: Event) {
    Commits(ext, n, e) && n.phase.call.value.cmd.Checkpoint? && n.phase.call.value.cmd.state.complete
  }

  /** After a cutover no diff and no node configuration commits before a complete checkpoint has. */
  lemma CutoverAwaitsCheckpoint(ext: Externals, nodes: seq<Node>, events: seq<Event>, i: nat, j: nat) returns (k: nat)
    requires IsRun(ext, nodes, events) && i < j < |events| && Cutover(ext, nodes[i], events[i])
    requires Commits(ext, nodes[j], events[j])
    requires (nodes[j].phase.call.value.cmd.Diff? || nodes[j].phase.call.value.cmd.NodeConfiguration?)
    ensures i < k < j && CommitsCheckpoint(ext, nodes[k], events[k])
  {
    CutoverKeepsRecords(ext, nodes, events, i);
    if Content(nodes[j]).desired.accepted.None? {
      CheckpointComesFirst(ext, nodes, events, j);
    }
    k := AcceptedByCheckpoint(ext, nodes, events, i + 1, j);
  }

  /** The event admits a new generation. */
  ghost predicate Cutover(ext: Externals, n: Node, e: Event) {
    Enabled(n, e) && e.Admit? && AdmitTx(ext, n.disk.db, e.authority).out == Done(true)
  }

  /** A cutover empties the accepted state and keeps the allocation and inventory records. */
  lemma CutoverKeepsRecords(ext: Externals, nodes: seq<Node>, events: seq<Event>, i: nat)
    requires IsRun(ext, nodes, events) && i < |events| && Cutover(ext, nodes[i], events[i])
    ensures var a, b := Content(nodes[i]), Content(nodes[i + 1]);
      && b.desired.accepted.None? && b.meta.checkpointRequired && b.meta.init == Recovery && !b.meta.identityRecovery
      && b.allocations == a.allocations && b.inventory == a.inventory
      && b.meta.recoveryGeneration == events[i].authority.generation
  {
  }

  /**
   * Across any number of cutovers, the network every replaced state used stays retained: its workload subnets,
     the hosts
   * of its mesh addresses, and the identity and environment of each of its services that has one.
   */
  lemma ReservationsStayRetained(
      ext: Externals, nodes: seq<Node>, events: seq<Event>, i: nat, j: nat, r: NetworkReservation)
    requires IsRun(ext, nodes, events) && i < |events| && Cutover(ext, nodes[i], events[i]) && i < j < |nodes|
    requires Content(nodes[i]).desired.accepted.Some?
    requires Uses(ext, Content(nodes[i]).desired.accepted.value, r)
    ensures r in Content(nodes[j]).meta.retainedNetwork
  {
    RetainedElements(ext, nodes[i].disk.db);
    assert Content(nodes[i + 1]).meta.retainedNetwork == Retained(ext, nodes[i].disk.db);
    RunEvolves(ext, nodes, events, i + 1, j);
  }

  // ---------------------------------------------------------------- following a history

  /** What the control plane means each cursor of each generation to be. */
  type History = (string, int) -> Config

  ghost predicate Honest(H: History, cmd: Command) {
    match cmd
    case Checkpoint(state) => ConfigOf(state) == H(state.env.recoveryGeneration, state.cursor)
    case Diff(diff) => ChangedConfig(H(diff.env.recoveryGeneration, diff.base), diff)
      == H(diff.env.recoveryGeneration, diff.target)
    case _ => true
  }

  ghost predicate Follows(H: History, db: Db) {
    db.desired.accepted.Some? ==> ConfigOf(db.desired.accepted.value) == H(db.meta.recoveryGeneration, db.meta.cursor)
  }

  ghost predicate NodeFollows(H: History, n: Node) {
    && Follows(H, Content(n))
    && (n.phase.Serving? && n.phase.call.Some? ==> Honest(H, n.phase.call.value.cmd))
  }

  lemma StateFollows(ext: Externals, H: History, db: Db, call: Call, now: int)
    requires Follows(H, db) && Honest(H, call.cmd) && call.cmd.Checkpoint?
    requires SameGeneration(db.meta, call.cmd.state.env) && ValidState(ext, call.cmd.state)
    ensures Follows(H, CommitCallTx(ext, db, call, now).db)
  {
    var state := call.cmd.state;
    AcceptStateGuard(ext, db, call.clusterId, call.sessionId, state, now);
    CommitStateFrame(db, call.clusterId, state);
    CleanedKeeps(ext, state);
    ConfigurationEqualMeaning(Cleaned(state), state);
  }

  lemma AcceptDiffGuard(ext: Externals, db: Db, clusterId: string, sessionId: string, diff: AllocationDiff, now: int)
    ensures var tx := AcceptDiffTx(ext, db, clusterId, sessionId, diff, now);
      || (tx.db.desired.accepted == db.desired.accepted && SamePosition(tx.db.meta, db.meta)
          && tx.db.meta.recoveryGeneration == db.meta.recoveryGeneration)
      || (&& db.desired.accepted.Some? && diff.base == db.meta.cursor
          && tx.db.desired.accepted == Some(ApplyDiff(db.desired.accepted.value, diff))
          && tx.db.meta.cursor == diff.target && tx.db.meta.recoveryGeneration == db.meta.recoveryGeneration)
  {
  }

  lemma DiffFollows(ext: Externals, H: History, db: Db, call: Call, now: int)
    requires Follows(H, db) && Honest(H, call.cmd) && call.cmd.Diff?
    requires SameGeneration(db.meta, call.cmd.diff.env)
    ensures Follows(H, CommitCallTx(ext, db, call, now).db)
  {
    AcceptDiffGuard(ext, db, call.clusterId, call.sessionId, call.cmd.diff, now);
    if db.desired.accepted.Some? {
      ApplyDiffRespectsConfig(db.desired.accepted.value, call.cmd.diff);
    }
  }

  lemma NodeConfigFollows(ext: Externals, H: History, db: Db, call: Call, now: int)
    requires Follows(H, db) && call.cmd.NodeConfiguration?
    ensures Follows(H, CommitCallTx(ext, db, call, now).db)
  {
    AcceptNodeConfigShape(ext, db, call.clusterId, call.sessionId, call.cmd.update, now);
  }

  lemma AuxiliaryFollows(ext: Externals, H: History, db: Db, call: Call, now: int)
    requires Follows(H, db) && (call.cmd.Credentials? || call.cmd.Replicas?)
    ensures Follows(H, CommitCallTx(ext, db, call, now).db)
  {
    if call.cmd.Credentials? {
      AcceptCredentialsShape(db, call.clusterId, call.sessionId, call.cmd.creds, now);
    } else {
      AcceptReplicasShape(db, call.clusterId, call.sessionId, call.cmd.replicas, now);
    }
  }

  lemma CommitFollows(ext: Externals, H: History, db: Db, call: Call, now: int)
    requires Follows(H, db) && Honest(H, call.cmd) && call.at == Commit && CallSound(ext, db.meta, call)
    ensures Follows(H, CommitCallTx(ext, db, call, now).db)
  {
    match call.cmd
    case Checkpoint(_) => StateFollows(ext, H, db, call, now);
    case Diff(_) => DiffFollows(ext, H, db, call, now);
    case NodeConfiguration(_) => NodeConfigFollows(ext, H, db, call, now);
    case Credentials(_) => AuxiliaryFollows(ext, H, db, call, now);
    case Replicas(_) => AuxiliaryFollows(ext, H, db, call, now);
  }

  lemma AdvanceFollows(ext: Externals, H: History, db: Db, call: Call, now: int)
    requires Follows(H, db) && Honest(H, call.cmd) && CallSound(ext, db.meta, call)
    ensures Follows(H, Proceed(ext, db, call, now).db)
  {
    if call.at == Commit {
      CommitFollows(ext, H, db, call, now);
    } else if call.at != Observe {
      QuietStages(ext, db, call, now);
    }
  }

  lemma StepFollows(ext: Externals, H: History, n: Node, e: Event)
    requires NodeSound(ext, n) && Enabled(n, e) && NodeFollows(H, n)
    requires e.Deliver? ==> Honest(H, e.cmd)
    ensures NodeFollows(H, Next(ext, n, e))
  {
    if Quiet(e) {
      QuietUntouched(ext, n, e);
    } else if e.Advance? {
      AdvanceFollows(ext, H, n.disk.db, n.phase.call.value, e.now);
    } else if e.Boot? {
      BootUntouched(ext, n, e.agentId, e.freshId);
    } else if e.Report? {
      ReportFollows(H, n.disk.db, e.report);
    } else {
      AdmitFollows(ext, H, n.disk.db, e.authority);
    }
  }

  lemma ReportFollows(H: History, db: Db, report: StatusReport)
    requires Follows(H, db)
    ensures Follows(H, RecordReportTx(db, report).db)
  {
    var after := RecordReportTx(db, report).db;
    assert after.desired == db.desired && after.meta == db.meta;
  }

  lemma AdmitFollows(ext: Externals, H: History, db: Db, a: Authority)
    requires Follows(H, db)
    ensures Follows(H, AdmitTx(ext, db, a).db)
  {
    var tx := AdmitTx(ext, db, a);
    if tx.out != Done(true) {
      assert tx.db.desired == db.desired && tx.db.meta.cursor == db.meta.cursor
        && tx.db.meta.recoveryGeneration == db.meta.recoveryGeneration;
    }
  }

  lemma BootUntouched(ext: Externals, n: Node, agentId: string, freshId: string)
    requires NodeSound(ext, n) && n.phase.Down?
    ensures Untouched(Content(n), Content(Booting(ext, n, agentId, freshId)))
  {
    if Booting(ext, n, agentId, freshId) != n {
      if n.disk.NoFile? || n.disk == File(EMPTY_DB) {
        FreshOpens(ext, n.disk, agentId, freshId);
      } else {
        SoundReopens(ext, n.disk.db, freshId);
      }
    }
  }

  /**
   * If every checkpoint sent is the history at its cursor and every diff sent takes the history at its base to
   * the history at its target, then, whatever is lost, repeated, reordered or cut short by a crash, the accepted
   * services and volumes are the history at the accepted cursor.
   */
  lemma {:induction false} AcceptedFollowsHistory(
      ext: Externals, H: History, nodes: seq<Node>, events: seq<Event>, i: nat)
    requires IsRun(ext, nodes, events) && i < |nodes|
    requires forall k :: 0 <= k < i && events[k].Deliver? ==> Honest(H, events[k].cmd)
    ensures NodeFollows(H, nodes[i])
  {
    if i > 0 {
      AcceptedFollowsHistory(ext, H, nodes, events, i - 1);
      RunSound(ext, nodes, events, i - 1);
      StepFollows(ext, H, nodes[i - 1], events[i - 1]);
    }
  }
}
