/**
 * One control-plane session over the store: which reports and acknowledgements it may send, and with which
 * position, while the reconciler's transactions interleave with its own.
 */
module Session {
  import opened Strings
  import opened Messages
  import opened Configuration
  import opened Database
  import opened Records
  import opened Agent
  import opened Runs
  import opened Evolution
  import opened RunTheorems

  datatype Ack = Ack(
    agentId: string, sessionId: string, installationId: string, generation: string, epoch: nat, cursor: int,
    nodeConfigVersion: string, credentialsVersion: string, replicasVersion: string)

  /** The whole accepted position, at the session's confirmed epoch. */
  function CumulativeAck(meta: Meta, sessionId: string, confirmed: nat): Ack {
    Ack(meta.agentId, sessionId, meta.installationId, meta.recoveryGeneration, confirmed, meta.cursor,
        meta.nodeConfigVersion, meta.credentialsVersion, meta.replicasVersion)
  }

  /**
   * How far publishing has come: a report read from the store, or one whose position was found to be the accepted
   * one.
   */
  datatype Publishing = Resting | Reading(report: StatusReport) | Cleared(report: StatusReport)

  datatype Stream = Stream(
    id: string, lastSent: nat, confirmed: nat, publishing: Publishing, reports: seq<StatusReport>, acks: seq<Ack>)

  datatype Live = Live(node: Node, stream: Stream)

  /** Publishing reads the report, then the summary to compare it with, and only then sends. */
  datatype Action = OfStore(event: Event) | ReadReport | ReadSummary | Send | Acknowledge

  /** The reconciler's transactions; every other store event is the session's own. */
  predicate Interleaves(e: Event) { e.Report? || e.Inventory? }

  predicate Succeeded(at: Progress) { at.Returned? && at.out.Done? }

  predicate Answered(n: Node) {
    Busy(n) && Succeeded(n.phase.call.value.at)
  }

  ghost predicate Can(l: Live, a: Action) {
    match a
    case OfStore(e) =>
      && Enabled(l.node, e) && !e.Crash? && !e.Collect?
      && (Interleaves(e) || (l.stream.publishing.Resting? && !Answered(l.node)))
    case ReadReport => Idle(l.node) && l.stream.publishing.Resting?
    case ReadSummary => l.node.disk.File? && l.stream.publishing.Reading?
    case Send => l.stream.publishing.Cleared?
    case Acknowledge => Answered(l.node)
  }

  function ReportRead(db: Db, s: Stream): Stream {
    var report := CurrentReport(db);
    s.(publishing := if report.Some? then Reading(report.value) else Resting)
  }

  function Compared(meta: Meta, s: Stream): Stream
    requires s.publishing.Reading?
  {
    var r := s.publishing.report;
    var current := r.epoch == meta.acceptedEpoch && r.cursor == meta.cursor && r.sequence > s.lastSent;
    s.(publishing := if current then Cleared(r) else Resting)
  }

  function Sent(s: Stream): Stream
    requires s.publishing.Cleared?
  {
    var r := s.publishing.report;
    s.(publishing := Resting, lastSent := r.sequence, reports := s.reports + [r.(sessionId := s.id)])
  }

  function Acknowledging(meta: Meta, s: Stream, epoch: nat): Stream {
    var confirmed := if epoch > s.confirmed then epoch else s.confirmed;
    s.(confirmed := confirmed, acks := s.acks + [CumulativeAck(meta, s.id, confirmed)])
  }

  ghost function After(ext: Externals, l: Live, a: Action): Live
    requires Can(l, a)
  {
    match a
    case OfStore(e) => l.(node := Next(ext, l.node, e))
    case ReadReport => l.(stream := ReportRead(l.node.disk.db, l.stream))
    case ReadSummary => l.(stream := Compared(l.node.disk.db.meta, l.stream))
    case Send => l.(stream := Sent(l.stream))
    case Acknowledge =>
      Live(l.node.(phase := Serving(None)),
           Acknowledging(l.node.disk.db.meta, l.stream, EnvelopeOf(l.node.phase.call.value.cmd).epoch))
  }

  // ---------------------------------------------------------------- the invariant

  ghost predicate ReportsIncrease(s: Stream) {
    && (forall i, j :: 0 <= i < j < |s.reports| ==> s.reports[i].sequence < s.reports[j].sequence)
    && (forall i :: 0 <= i < |s.reports| ==> s.reports[i].sequence <= s.lastSent)
  }

  ghost predicate AcksIncrease(s: Stream) {
    && (forall i, j :: 0 <= i < j < |s.acks| ==> s.acks[i].epoch <= s.acks[j].epoch)
    && (forall i :: 0 <= i < |s.acks| ==> s.acks[i].epoch <= s.confirmed)
  }

  /** The confirmed epoch lies between the accepted epoch and the fence, an answered call's epoch included. */
  ghost predicate Confirmed(meta: Meta, call: Option<Call>, confirmed: nat) {
    && confirmed <= Fence(meta)
    && if call.Some? && Succeeded(call.value.at) then
         && EnvelopeOf(call.value.cmd).epoch <= Fence(meta)
         && (meta.acceptedEpoch <= confirmed || meta.acceptedEpoch <= EnvelopeOf(call.value.cmd).epoch)
       else meta.acceptedEpoch <= confirmed
  }

  ghost predicate Confirms(n: Node, confirmed: nat) {
    n.disk.File? && n.phase.Serving? && Confirmed(n.disk.db.meta, n.phase.call, confirmed)
  }

  /** A report that was compared is still at the accepted position, and still newer than anything sent. */
  ghost predicate StillCurrent(n: Node, s: Stream) {
    s.publishing.Cleared? ==>
      && n.disk.File?
      && s.publishing.report.epoch == n.disk.db.meta.acceptedEpoch
          && s.publishing.report.cursor == n.disk.db.meta.cursor
      && s.publishing.report.sequence > s.lastSent
  }

  ghost predicate LiveSound(ext: Externals, l: Live) {
    && NodeSound(ext, l.node)
    && ReportsIncrease(l.stream) && AcksIncrease(l.stream)
    && Confirms(l.node, l.stream.confirmed)
    && StillCurrent(l.node, l.stream)
    && (!l.stream.publishing.Resting? ==> !Answered(l.node))
  }

  // ---------------------------------------------------------------- store steps

  /**
   * One transaction of a call: the fence never falls, and only a successful commit moves the accepted epoch, to the
   * fence.
   */
  ghost predicate EpochsAdvance(a: Meta, b: Meta, epoch: nat, committed: bool) {
    && Fence(a) <= Fence(b)
    && (if committed then epoch == Fence(b) else a.acceptedEpoch == b.acceptedEpoch)
  }

  lemma ObserveEpochs(db: Db, call: Call)
    ensures EpochsAdvance(db.meta, ObserveCallTx(db, call).db.meta, EnvelopeOf(call.cmd).epoch, false)
  {
    var after := ObserveCallTx(db, call).db;
    assert after == db || after == db.(meta := db.meta.(highestEpoch := EnvelopeOf(call.cmd).epoch));
  }

  lemma CommitEpochs(ext: Externals, db: Db, call: Call, now: int)
    requires call.at == Commit && CallSound(ext, db.meta, call)
    ensures var tx := CommitCallTx(ext, db, call, now);
      EpochsAdvance(db.meta, tx.db.meta, EnvelopeOf(call.cmd).epoch, tx.out.Done?)
  {
    if CommitCallTx(ext, db, call, now).out.Done? {
      CommitGuards(ext, db, call, now);
    } else {
      RefusalChangesNothing(ext, db, call, now);
    }
  }

  lemma AdvanceEpochs(ext: Externals, db: Db, call: Call, now: int)
    requires CallSound(ext, db.meta, call) && !call.at.Returned?
    ensures var step := Proceed(ext, db, call, now);
      && step.call.cmd == call.cmd
      && EpochsAdvance(db.meta, step.db.meta, EnvelopeOf(call.cmd).epoch, Succeeded(step.call.at))
  {
    if call.at == Observe {
      ObserveEpochs(db, call);
    } else if call.at == Commit {
      CommitEpochs(ext, db, call, now);
    } else {
      QuietStages(ext, db, call, now);
    }
  }

  lemma EpochsConfirm(a: Meta, before: Call, b: Meta, after: Call, confirmed: nat)
    requires Confirmed(a, Some(before), confirmed) && !Succeeded(before.at) && after.cmd == before.cmd
    requires EpochsAdvance(a, b, EnvelopeOf(before.cmd).epoch, Succeeded(after.at))
    ensures Confirmed(b, Some(after), confirmed)
  {
  }

  lemma AdvanceConfirms(ext: Externals, n: Node, now: int, confirmed: nat)
    requires NodeSound(ext, n) && Busy(n) && !Answered(n) && Confirms(n, confirmed)
    ensures Confirms(Next(ext, n, Advance(now)), confirmed)
  {
    var call := n.phase.call.value;
    var step := Proceed(ext, n.disk.db, call, now);
    if call.at.Returned? {
      assert step.db == n.disk.db && step.call == call;
    } else {
      AdvanceEpochs(ext, n.disk.db, call, now);
      EpochsConfirm(n.disk.db.meta, call, step.db.meta, step.call, confirmed);
    }
  }

  lemma QuietConfirms(ext: Externals, n: Node, e: Event, confirmed: nat)
    requires NodeSound(ext, n) && n.phase.Serving? && Enabled(n, e) && Confirms(n, confirmed)
    requires !e.Crash? && !e.Collect? && !e.Advance?
    ensures Confirms(Next(ext, n, e), confirmed) && Next(ext, n, e).phase.Serving?
  {
    if e.Report? {
      RecordReportEvolves(n.disk.db, e.report);
    } else {
      QuietUntouched(ext, n, e);
    }
  }

  /** The reconciler's transactions move neither the position nor the call. */
  lemma InterleavingKeepsPosition(ext: Externals, n: Node, e: Event)
    requires Enabled(n, e) && Interleaves(e)
    ensures Next(ext, n, e).disk.File? && Next(ext, n, e).disk.db.meta == n.disk.db.meta
    ensures Next(ext, n, e).phase == n.phase
  {
  }

  lemma StoreStepSound(ext: Externals, l: Live, e: Event)
    requires LiveSound(ext, l) && Can(l, OfStore(e))
    ensures LiveSound(ext, After(ext, l, OfStore(e)))
  {
    StepSound(ext, l.node, e);
    if e.Advance? {
      AdvanceConfirms(ext, l.node, e.now, l.stream.confirmed);
    } else {
      QuietConfirms(ext, l.node, e, l.stream.confirmed);
    }
    if Interleaves(e) {
      InterleavingKeepsPosition(ext, l.node, e);
    }
  }

  lemma SendKeeps(s: Stream)
    requires s.publishing.Cleared? && s.publishing.report.sequence > s.lastSent && ReportsIncrease(s) && AcksIncrease(s)
    ensures ReportsIncrease(Sent(s)) && AcksIncrease(Sent(s))
  {
  }

  lemma AcknowledgeKeeps(meta: Meta, s: Stream, epoch: nat)
    requires ReportsIncrease(s) && AcksIncrease(s)
    ensures ReportsIncrease(Acknowledging(meta, s, epoch)) && AcksIncrease(Acknowledging(meta, s, epoch))
  {
  }

  lemma StepLive(ext: Externals, l: Live, a: Action)
    requires LiveSound(ext, l) && Can(l, a)
    ensures LiveSound(ext, After(ext, l, a))
  {
    match a
    case OfStore(e) => StoreStepSound(ext, l, e);
    case ReadReport =>
    case ReadSummary =>
    case Send => SendKeeps(l.stream);
    case Acknowledge => AcknowledgeKeeps(l.node.disk.db.meta, l.stream, EnvelopeOf(l.node.phase.call.value.cmd).epoch);
  }

  // ---------------------------------------------------------------- whole sessions

  /** A session begins idle, with nothing sent and the accepted epoch confirmed. */
  ghost predicate IsSession(ext: Externals, lives: seq<Live>, actions: seq<Action>) {
    && |lives| == |actions| + 1
    && NodeSound(ext, lives[0].node) && Idle(lives[0].node)
    && lives[0].stream == Stream(lives[0].stream.id, 0, lives[0].node.disk.db.meta.acceptedEpoch, Resting, [], [])
    && forall i :: 0 <= i < |actions| ==> Can(lives[i], actions[i]) && lives[i + 1] == After(ext, lives[i], actions[i])
  }

  lemma {:induction false} StreamSound(ext: Externals, lives: seq<Live>, actions: seq<Action>, i: nat)
    requires IsSession(ext, lives, actions) && i < |lives|
    ensures LiveSound(ext, lives[i])
  {
    if i > 0 {
      StreamSound(ext, lives, actions, i - 1);
      StepLive(ext, lives[i - 1], actions[i - 1]);
    }
  }

  /** Within a session sent sequences strictly increase and acknowledged epochs never fall. */
  lemma SessionNeverRegresses(ext: Externals, lives: seq<Live>, actions: seq<Action>, i: nat)
    requires IsSession(ext, lives, actions) && i < |lives|
    ensures forall j, k :: 0 <= j < k < |lives[i].stream.reports| ==>
      lives[i].stream.reports[j].sequence < lives[i].stream.reports[k].sequence
    ensures forall j, k :: 0 <= j < k < |lives[i].stream.acks| ==>
      lives[i].stream.acks[j].epoch <= lives[i].stream.acks[k].epoch
  {
    StreamSound(ext, lives, actions, i);
  }

  /** Nothing but a send adds a report. */
  lemma OnlySendsSend(ext: Externals, lives: seq<Live>, actions: seq<Action>, i: nat)
    requires IsSession(ext, lives, actions) && i < |actions| && !actions[i].Send?
    ensures lives[i + 1].stream.reports == lives[i].stream.reports
  {
    assert Can(lives[i], actions[i]) && lives[i + 1] == After(ext, lives[i], actions[i]);
  }

  /**
   * However the sent reports change, one report was added, at the accepted position of the moment it is sent, whatever
   * the reconciler committed since that position was compared; it is newer than anything sent before, and under the
   * session's own id.
   */
  lemma SentAtTheAcceptedPosition(ext: Externals, lives: seq<Live>, actions: seq<Action>, i: nat)
    requires IsSession(ext, lives, actions) && i < |actions|
    requires lives[i + 1].stream.reports != lives[i].stream.reports
    ensures var sent := lives[i + 1].stream.reports; var meta := Content(lives[i].node).meta;
      && lives[i].node.disk.File? && |sent| > 0 && sent == lives[i].stream.reports + [sent[|sent| - 1]]
      && sent[|sent| - 1].epoch == meta.acceptedEpoch && sent[|sent| - 1].cursor == meta.cursor
      && sent[|sent| - 1].sequence > lives[i].stream.lastSent
      && sent[|sent| - 1].sessionId == lives[i].stream.id
  {
    if !actions[i].Send? {
      OnlySendsSend(ext, lives, actions, i);
    }
    StreamSound(ext, lives, actions, i);
    assert Can(lives[i], actions[i]) && lives[i + 1] == After(ext, lives[i], actions[i]);
  }

  /** An acknowledgement names the accepted cursor, and its epoch lies between the accepted epoch and the fence. */
  lemma AckedWithinTheFence(ext: Externals, lives: seq<Live>, actions: seq<Action>, i: nat)
    requires IsSession(ext, lives, actions) && i < |actions|
    requires lives[i + 1].stream.acks != lives[i].stream.acks
    ensures var acks := lives[i + 1].stream.acks; var meta := lives[i].node.disk.db.meta;
      && lives[i].node.disk.File? && |acks| > 0 && acks == lives[i].stream.acks + [acks[|acks| - 1]]
      && meta.acceptedEpoch <= acks[|acks| - 1].epoch <= Fence(meta)
      && Answered(lives[i].node) && acks[|acks| - 1].epoch >= EnvelopeOf(lives[i].node.phase.call.value.cmd).epoch
      && acks[|acks| - 1].cursor == meta.cursor && acks[|acks| - 1].generation == meta.recoveryGeneration
      && acks[|acks| - 1].agentId == meta.agentId && acks[|acks| - 1].sessionId == lives[i].stream.id
      && acks[|acks| - 1].installationId == meta.installationId
      && acks[|acks| - 1].nodeConfigVersion == meta.nodeConfigVersion
      && acks[|acks| - 1].credentialsVersion == meta.credentialsVersion
      && acks[|acks| - 1].replicasVersion == meta.replicasVersion
  {
    StreamSound(ext, lives, actions, i);
    assert Can(lives[i], actions[i]) && lives[i + 1] == After(ext, lives[i], actions[i]);
  }

  /** A report at the accepted position that is newer than anything sent is sent by the three steps of publishing. */
  lemma NewerReportIsSent(ext: Externals, l: Live)
    requires LiveSound(ext, l) && Idle(l.node) && l.stream.publishing.Resting?
    requires var o, meta := l.node.disk.db.observations, l.node.disk.db.meta;
      && o.report.Some? && o.report.value.epoch == meta.acceptedEpoch && o.report.value.cursor == meta.cursor
      && o.report.value.sequence > l.stream.lastSent
    ensures Can(l, ReadReport)
    ensures var read := After(ext, l, ReadReport); Can(read, ReadSummary)
    ensures var compared := After(ext, After(ext, l, ReadReport), ReadSummary);
      && Can(compared, Send)
      && var sent := After(ext, compared, Send).stream;
         && sent.reports == l.stream.reports + [l.node.disk.db.observations.report.value.(sessionId := l.stream.id)]
         && sent.lastSent == l.node.disk.db.observations.report.value.sequence
  {
    assert Sound(ext, l.node.disk.db);
  }

  /**
   * Every command that succeeded is acknowledged: the step is possible, adds one acknowledgement and frees the
   * session.
   */
  lemma SuccessIsAcknowledged(ext: Externals, l: Live)
    requires LiveSound(ext, l) && Answered(l.node)
    ensures Can(l, Acknowledge)
    ensures var after := After(ext, l, Acknowledge);
      |after.stream.acks| == |l.stream.acks| + 1 && Idle(after.node) && after.node.disk == l.node.disk
  {
  }
}
