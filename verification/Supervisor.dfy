/**
 * The workload supervisor: updates and reconciliations as threads over one store, two mutexes, a count of
 * waiting updates and a cancel handle. Any number of threads of each kind interleave step by step.
 */
module Supervisor {
  import opened Strings
  import opened Keyed
  import opened Messages
  import opened Configuration
  import opened Database
  import opened Records
  import opened Agent
  import opened Bookkeeping
  import opened RunTheorems
  import opened ProgressReports

  /** What an update does under the lock: accept a command, or restart the managed dashboard. */
  datatype Work = Accept(call: Call) | Restart

  datatype Summary = Summary(installationId: string, generation: string, cleanup: bool)

  /** Where the runtime work of a pass stands. */
  datatype RuntimeWork = Loading | Loaded | Summarized | Running(previous: seq<ServiceCondition>)
    | Progressing(merged: StatusReport) | Finishing(report: StatusReport) | Discovering

  datatype Pass = Pass(cancelled: bool, desired: Option<DesiredState>, summary: Option<Summary>, stage: RuntimeWork)

  /**
   * Where a thread is. An update announces itself, waits for the reconcile lock, stops counting as waiting and
   * works; a reconciliation takes the lock, checks for waiting updates, registers its cancel, works and clears it.
   */
  datatype Pc =
    | Arriving(work: Work) | Announcing(work: Work) | Waiting(work: Work)
    | Entering(work: Work) | Settling(work: Work) | Updating(work: Work)
    | Contending | Checking | Registering | Working(pass: Pass) | Closing | Clearing | Leaving

  datatype State = State(
    db: Db, threads: map<nat, Pc>, reconcileMu: Option<nat>, cancelMu: Option<nat>, cancelReconcile: Option<nat>,
    updatesWaiting: nat)

  /** Store transactions the session makes without the reconcile lock. */
  datatype Unlocked = RequireIdentity(clusterId: string) | AdoptIdentity(clusterId: string) | Incarnate
    | Discovered(addresses: seq<string>) | ReplicaCall(call: Call, now: int)

  datatype Action =
    | Update(work: Work) | LockCancel | Announce | LockReconcile | Settle | Transact(now: int) | ReleaseUpdate
    | Reconcile | Register | ReadDesired | Abandon | ReadSummary(paused: bool)
    | ReadPrevious(fallback: seq<ServiceCondition>) | CheckProgress(partial: StatusReport) | RecordProgress
    | Finish(result: StatusReport) | RecordFinal
    | RecordInventory(found: seq<RuntimeResource>) | Clear | Release
    | Shutdown | WriteUnlocked(write: Unlocked)

  predicate HoldsReconcile(pc: Pc) {
    pc.Entering? || pc.Settling? || pc.Updating? || pc.Checking? || pc.Registering? || pc.Working? || pc.Closing?
      || pc.Clearing? || pc.Leaving?
  }

  predicate HoldsCancel(pc: Pc) {
    pc.Announcing? || pc.Settling? || pc.Registering? || pc.Clearing?
  }

  /** Threads the waiting count stands for. */
  predicate Counted(pc: Pc) {
    pc.Waiting? || pc.Entering? || pc.Settling?
  }

  predicate Registered(pc: Pc) {
    pc.Working? || pc.Closing? || pc.Clearing?
  }

  function Cancelled(threads: map<nat, Pc>, who: nat): map<nat, Pc> {
    if who in threads && threads[who].Working? then threads[who := Working(threads[who].pass.(cancelled := true))]
      else threads
  }

  function Stopped(pc: Pc): Pc {
    if pc.Working? then Working(pc.pass.(cancelled := true)) else pc
  }


  predicate WorkingAt(s: State, t: nat) {
    t in s.threads && s.threads[t].Working?
  }

  function PassOf(s: State, t: nat): Pass
    requires WorkingAt(s, t)
  {
    s.threads[t].pass
  }

  ghost predicate Can(s: State, t: nat, a: Action) {
    match a
    case Update(_) => t !in s.threads
    case Reconcile => t !in s.threads
    case LockCancel =>
      && s.cancelMu.None? && t in s.threads
      && (s.threads[t].Arriving? || s.threads[t].Entering? || s.threads[t].Checking? || s.threads[t].Closing?)
    case Announce => t in s.threads && s.threads[t].Announcing?
    case LockReconcile => s.reconcileMu.None? && t in s.threads && (s.threads[t].Waiting? || s.threads[t].Contending?)
    case Settle => t in s.threads && s.threads[t].Settling? && s.updatesWaiting > 0
    case Transact(_) => t in s.threads && s.threads[t].Updating? && s.threads[t].work.Accept?
    case ReleaseUpdate => t in s.threads && s.threads[t].Updating?
    case Register => t in s.threads && s.threads[t].Registering?
    case ReadDesired => WorkingAt(s, t) && PassOf(s, t).stage.Loading?
    case Abandon => WorkingAt(s, t)
    case ReadSummary(_) => WorkingAt(s, t) && PassOf(s, t).stage.Loaded?
    case ReadPrevious(_) => WorkingAt(s, t) && PassOf(s, t).stage.Summarized?
    case CheckProgress(_) => WorkingAt(s, t) && PassOf(s, t).stage.Running? && PassOf(s, t).desired.Some?
    case RecordProgress => WorkingAt(s, t) && PassOf(s, t).stage.Progressing? && PassOf(s, t).summary.Some?
    case Finish(_) => WorkingAt(s, t) && PassOf(s, t).stage.Running?
    case RecordFinal => WorkingAt(s, t) && PassOf(s, t).stage.Finishing? && PassOf(s, t).summary.Some?
    case RecordInventory(_) => WorkingAt(s, t) && PassOf(s, t).stage.Discovering?
    case Clear => t in s.threads && s.threads[t].Clearing?
    case Release => t in s.threads && s.threads[t].Leaving?
    case Shutdown => true
    case WriteUnlocked(w) => w.ReplicaCall? ==> w.call.cmd.Replicas?
  }

  function Moved(s: State, t: nat, pc: Pc): State {
    s.(threads := s.threads[t := pc])
  }

  function Gone(s: State, t: nat): State {
    s.(threads := s.threads - {t})
  }

  function Continued(s: State, t: nat, stage: RuntimeWork): State
    requires WorkingAt(s, t)
  {
    Moved(s, t, Working(PassOf(s, t).(stage := stage)))
  }

  /** What a pass reads of the store; an agent paused for recovery has no permission to clean up. */
  function SummaryOf(db: Db, paused: bool): Summary {
    Summary(db.meta.installationId, db.meta.recoveryGeneration, db.meta.init == Ready && !paused)
  }

  /** A report as it is handed to the store. */
  function Stamped(report: StatusReport, agentId: string, summary: Summary): StatusReport {
    report.(agentId := agentId, recoveryMode := !summary.cleanup, installationId := summary.installationId,
      recoveryGeneration := summary.generation)
  }

  ghost function UnlockedDb(ext: Externals, db: Db, w: Unlocked): Db {
    match w
    case RequireIdentity(c) => RequireIdentityTx(db, c).db
    case AdoptIdentity(c) => AdoptIdentityTx(db, c).db
    case Incarnate => NextIncarnationTx(db).db
    case Discovered(addresses) => SetReplicasTx(db, addresses).db
    case ReplicaCall(call, now) => Proceed(ext, db, call, now).db
  }

  ghost function LockStep(s: State, t: nat, a: Action): State
    requires Can(s, t, a)
  {
    match a
    case Update(work) => Moved(s, t, Arriving(work))
    case Reconcile => Moved(s, t, Contending)
    case LockCancel =>
      var pc := s.threads[t];
      var next := if pc.Arriving? then Announcing(pc.work) else if pc.Entering? then Settling(pc.work)
                  else if pc.Checking? then Registering else Clearing;
      Moved(s, t, next).(cancelMu := Some(t))
    case Announce =>
      var threads := if s.cancelReconcile.Some? then Cancelled(s.threads, s.cancelReconcile.value) else s.threads;
      State(s.db, threads[t := Waiting(s.threads[t].work)], s.reconcileMu, None, s.cancelReconcile,
        s.updatesWaiting + 1)
    case LockReconcile =>
      Moved(s, t, if s.threads[t].Waiting? then Entering(s.threads[t].work) else Checking).(reconcileMu := Some(t))
    case Settle => Moved(s, t, Updating(s.threads[t].work)).(cancelMu := None, updatesWaiting := s.updatesWaiting - 1)
    case ReleaseUpdate => Gone(s, t).(reconcileMu := None)
    case Register =>
      if s.updatesWaiting > 0 then Moved(s, t, Leaving).(cancelMu := None)
      else Moved(s, t, Working(Pass(false, None, None, Loading))).(cancelMu := None, cancelReconcile := Some(t))
    case Clear => Moved(s, t, Leaving).(cancelMu := None, cancelReconcile := None)
    case Release => Gone(s, t).(reconcileMu := None)
    case Shutdown => s.(threads := map u | u in s.threads :: Stopped(s.threads[u]))
    case _ => s
  }

  predicate LockAction(a: Action) {
    a.Update? || a.Reconcile? || a.LockCancel? || a.Announce? || a.LockReconcile? || a.Settle? || a.ReleaseUpdate?
    || a.Register? || a.Clear? || a.Release? || a.Shutdown?
  }

  ghost function PassStep(s: State, t: nat, a: Action): State
    requires Can(s, t, a) && WorkingAt(s, t)
  {
    var pass := PassOf(s, t);
    match a
    case ReadDesired =>
      if s.db.desired.accepted.None? then Moved(s, t, Closing)
      else Moved(s, t, Working(pass.(desired := s.db.desired.accepted, stage := Loaded)))
    case Abandon => Moved(s, t, Closing)
    case ReadSummary(paused) =>
      Moved(s, t, Working(pass.(summary := Some(SummaryOf(s.db, paused)), stage := Summarized)))
    case ReadPrevious(fallback) =>
      var previous := CurrentReport(s.db);
      Continued(s, t, Running(if previous.Some? then previous.value.services else fallback))
    case CheckProgress(partial) =>
      if pass.cancelled then s
        else Continued(s, t, Progressing(Merged(pass.desired.value, pass.stage.previous, partial)))
    case RecordProgress =>
      var merged := Stamped(pass.stage.merged, s.db.meta.agentId, pass.summary.value);
      Continued(s, t, Running(merged.services)).(db := RecordReportTx(s.db, merged).db)
    case Finish(result) => if pass.cancelled then Moved(s, t, Closing) else Continued(s, t, Finishing(result))
    case RecordFinal =>
      Continued(s, t, Discovering).(db :=
        RecordReportTx(s.db, Stamped(pass.stage.report, s.db.meta.agentId, pass.summary.value)).db)
    case RecordInventory(found) => Moved(s, t, Closing).(db := RecordInventoryTx(s.db, found).db)
    case _ => s
  }

  predicate PassAction(a: Action) {
    a.ReadDesired? || a.Abandon? || a.ReadSummary? || a.ReadPrevious? || a.CheckProgress? || a.RecordProgress?
      || a.Finish?
    || a.RecordFinal? || a.RecordInventory?
  }

  ghost function After(ext: Externals, s: State, t: nat, a: Action): State
    requires Can(s, t, a)
  {
    if LockAction(a) then LockStep(s, t, a)
    else if PassAction(a) then PassStep(s, t, a)
    else
      match a
      case Transact(now) =>
        var step := Proceed(ext, s.db, s.threads[t].work.call, now);
        Moved(s, t, Updating(Accept(step.call))).(db := step.db)
      case WriteUnlocked(w) => s.(db := UnlockedDb(ext, s.db, w))
      case _ => s
  }

  // ---------------------------------------------------------------- mutual exclusion and the waiting count

  function CountedThreads(threads: map<nat, Pc>): set<nat> {
    set t | t in threads && Counted(threads[t])
  }

  /** A thread holds a mutex, or is the registered one, exactly when it is at a place that says so. */
  predicate Fits(s: State, t: nat, pc: Pc) {
    && (HoldsReconcile(pc) <==> s.reconcileMu == Some(t))
    && (HoldsCancel(pc) <==> s.cancelMu == Some(t))
    && (Registered(pc) <==> s.cancelReconcile == Some(t))
  }

  ghost predicate Locks(s: State) {
    && (s.reconcileMu.Some? ==> s.reconcileMu.value in s.threads)
    && (s.cancelMu.Some? ==> s.cancelMu.value in s.threads)
    && (s.cancelReconcile.Some? ==> s.cancelReconcile.value in s.threads)
    && (forall t :: t in s.threads ==> Fits(s, t, s.threads[t]))
    && s.updatesWaiting == |CountedThreads(s.threads)|
  }

  /** While any update waits, the pass under way is cancelled. */
  ghost predicate Interrupted(s: State) {
    forall u, t :: u in s.threads && t in s.threads && s.threads[u].Waiting? && s.threads[t].Working? ==>
      s.threads[t].pass.cancelled
  }

  /** Only thread t took or gave up this. */
  predicate OnlyFor(t: nat, before: Option<nat>, after: Option<nat>) {
    before == after || (before in {None, Some(t)} && after in {None, Some(t)})
  }

  lemma OthersFit(s: State, after: State, t: nat)
    requires forall u :: u in s.threads ==> Fits(s, u, s.threads[u])
    requires OnlyFor(t, s.reconcileMu, after.reconcileMu) && OnlyFor(t, s.cancelMu, after.cancelMu)
    requires OnlyFor(t, s.cancelReconcile, after.cancelReconcile)
    requires forall u :: u in after.threads && u != t ==>
      u in s.threads && (after.threads[u] == s.threads[u] || after.threads[u] == Stopped(s.threads[u]))
    requires t in after.threads ==> Fits(after, t, after.threads[t])
    ensures forall u :: u in after.threads ==> Fits(after, u, after.threads[u])
  {
  }

  lemma CountedMoves(threads: map<nat, Pc>, t: nat, pc: Pc)
    ensures CountedThreads(threads[t := pc]) == if Counted(pc) then CountedThreads(threads) + {t}
      else CountedThreads(threads) - {t}
  {
  }

  lemma CountedKept(a: map<nat, Pc>, b: map<nat, Pc>)
    requires a.Keys == b.Keys && forall t :: t in a ==> Counted(a[t]) == Counted(b[t])
    ensures CountedThreads(a) == CountedThreads(b)
  {
  }

  /** A thread that moves without starting or ceasing to count leaves the count alone. */
  lemma CountUnmoved(threads: map<nat, Pc>, t: nat, pc: Pc)
    requires if t in threads then Counted(threads[t]) == Counted(pc) else !Counted(pc)
    ensures CountedThreads(threads[t := pc]) == CountedThreads(threads)
  {
    CountedMoves(threads, t, pc);
  }

  lemma CancelLocks(s: State, who: nat)
    requires Locks(s)
    ensures Locks(s.(threads := Cancelled(s.threads, who)))
  {
    CountedKept(s.threads, Cancelled(s.threads, who));
  }

  lemma AnnouncedLocks(s: State, t: nat, work: Work)
    requires Locks(s) && t in s.threads && s.threads[t].Announcing?
    ensures Locks(State(s.db, s.threads[t := Waiting(work)], s.reconcileMu, None, s.cancelReconcile,
      s.updatesWaiting + 1))
  {
    var after := State(s.db, s.threads[t := Waiting(work)], s.reconcileMu, None, s.cancelReconcile,
      s.updatesWaiting + 1);
    assert Fits(s, t, s.threads[t]);
    CountedMoves(s.threads, t, Waiting(work));
    OthersFit(s, after, t);
  }

  lemma AnnounceLocks(s: State, t: nat)
    requires Locks(s) && Can(s, t, Announce)
    ensures Locks(LockStep(s, t, Announce))
  {
    if s.cancelReconcile.Some? {
      CancelLocks(s, s.cancelReconcile.value);
      AnnouncedLocks(s.(threads := Cancelled(s.threads, s.cancelReconcile.value)), t, s.threads[t].work);
    } else {
      AnnouncedLocks(s, t, s.threads[t].work);
    }
  }

  lemma ReleaseLocks(s: State, t: nat)
    requires Locks(s) && t in s.threads && (s.threads[t].Leaving? || s.threads[t].Updating?)
    ensures Locks(Gone(s, t).(reconcileMu := None))
  {
    var after := Gone(s, t).(reconcileMu := None);
    assert CountedThreads(after.threads) == CountedThreads(s.threads);
    OthersFit(s, after, t);
  }

  lemma SettleLocks(s: State, t: nat)
    requires Locks(s) && Can(s, t, Settle)
    ensures Locks(LockStep(s, t, Settle))
  {
    CountedMoves(s.threads, t, Updating(s.threads[t].work));
    OthersFit(s, LockStep(s, t, Settle), t);
  }

  lemma ShutdownLocks(s: State, t: nat)
    requires Locks(s)
    ensures Locks(LockStep(s, t, Shutdown))
  {
    CountedKept(s.threads, LockStep(s, t, Shutdown).threads);
  }

  lemma MoveLocks(s: State, after: State, t: nat, pc: Pc)
    requires Locks(s) && after.threads == s.threads[t := pc] && Fits(after, t, pc)
    requires after.updatesWaiting == s.updatesWaiting
    requires if t in s.threads then Counted(s.threads[t]) == Counted(pc) else !Counted(pc)
    requires OnlyFor(t, s.reconcileMu, after.reconcileMu) && OnlyFor(t, s.cancelMu, after.cancelMu)
    requires OnlyFor(t, s.cancelReconcile, after.cancelReconcile)
    ensures Locks(after)
  {
    CountUnmoved(s.threads, t, pc);
    OthersFit(s, after, t);
  }

  lemma LockStepLocks(s: State, t: nat, a: Action)
    requires Locks(s) && Can(s, t, a) && LockAction(a)
    ensures Locks(LockStep(s, t, a))
  {
    if a.Announce? {
      AnnounceLocks(s, t);
    } else if a.Shutdown? {
      ShutdownLocks(s, t);
    } else if a.ReleaseUpdate? || a.Release? {
      ReleaseLocks(s, t);
    } else if a.Settle? {
      SettleLocks(s, t);
    } else {
      var after := LockStep(s, t, a);
      assert t in s.threads ==> Fits(s, t, s.threads[t]);
      MoveLocks(s, after, t, after.threads[t]);
    }
  }

  lemma PassStepLocks(s: State, t: nat, a: Action)
    requires Locks(s) && Can(s, t, a) && PassAction(a)
    ensures Locks(PassStep(s, t, a))
  {
    var after := PassStep(s, t, a);
    assert Fits(s, t, s.threads[t]);
    if after.threads[t].Closing? {
      MoveLocks(s, after, t, Closing);
    } else {
      assert s.threads[t := s.threads[t]] == s.threads;
      MoveLocks(s, after, t, after.threads[t]);
    }
  }

  lemma StepLocks(ext: Externals, s: State, t: nat, a: Action)
    requires Locks(s) && Can(s, t, a)
    ensures Locks(After(ext, s, t, a))
  {
    if LockAction(a) {
      LockStepLocks(s, t, a);
    } else if PassAction(a) {
      PassStepLocks(s, t, a);
    } else if a.Transact? {
      assert Fits(s, t, s.threads[t]);
      MoveLocks(s, After(ext, s, t, a), t, After(ext, s, t, a).threads[t]);
    }
  }

  // ---------------------------------------------------------------- waiting updates interrupt the pass

  lemma NoneCounted(s: State, u: nat)
    requires Locks(s) && u in s.threads && s.threads[u].Waiting?
    ensures s.updatesWaiting > 0
  {
    assert u in CountedThreads(s.threads);
  }

  lemma AnnounceInterrupts(s: State, t: nat)
    requires Locks(s) && Can(s, t, Announce)
    ensures Interrupted(LockStep(s, t, Announce))
  {
    var after := LockStep(s, t, Announce);
    forall x | x in after.threads && after.threads[x].Working? ensures after.threads[x].pass.cancelled {
      assert Fits(s, x, s.threads[x]);
    }
  }

  lemma RegisterInterrupts(s: State, t: nat)
    requires Locks(s) && Interrupted(s) && Can(s, t, Register)
    ensures Interrupted(LockStep(s, t, Register))
  {
    forall u | u in s.threads && s.threads[u].Waiting? ensures s.updatesWaiting > 0 {
      NoneCounted(s, u);
    }
  }

  lemma LockStepInterrupts(s: State, t: nat, a: Action)
    requires Locks(s) && Interrupted(s) && Can(s, t, a) && LockAction(a)
    ensures Interrupted(LockStep(s, t, a))
  {
    if a.Announce? {
      AnnounceInterrupts(s, t);
    } else if a.Register? {
      RegisterInterrupts(s, t);
    }
  }

  lemma PassStepInterrupts(s: State, t: nat, a: Action)
    requires Interrupted(s) && Can(s, t, a) && PassAction(a)
    ensures Interrupted(PassStep(s, t, a))
  {
    var after := PassStep(s, t, a).threads;
    assert after[t].Working? ==> after[t].pass.cancelled == s.threads[t].pass.cancelled;
    assert forall u :: u in after && u != t ==> u in s.threads && after[u] == s.threads[u];
  }

  lemma StepInterrupts(ext: Externals, s: State, t: nat, a: Action)
    requires Locks(s) && Interrupted(s) && Can(s, t, a)
    ensures Interrupted(After(ext, s, t, a))
  {
    if LockAction(a) {
      LockStepInterrupts(s, t, a);
    } else if PassAction(a) {
      PassStepInterrupts(s, t, a);
    }
  }

  // ---------------------------------------------------------------- reports and the state they come from

  ghost predicate Positioned(db: Db) {
    db.desired.accepted.Some? ==>
      db.desired.accepted.value.env.epoch == db.meta.acceptedEpoch && db.desired.accepted.value.cursor == db.meta.cursor
  }

  /** A pass past its first read works from the accepted state. */
  predicate WorksFrom(pass: Pass, accepted: Option<DesiredState>) {
    && (pass.stage.Loading? || (accepted.Some? && pass.desired == accepted))
    && (pass.stage.Loading? || pass.stage.Loaded? || pass.summary.Some?)
  }

  ghost predicate Honest(s: State) {
    && Positioned(s.db)
    && forall t :: t in s.threads && s.threads[t].Working? ==> WorksFrom(s.threads[t].pass, s.db.desired.accepted)
  }

  ghost predicate KeepsPosition(a: Db, b: Db) {
    Positioned(b) && b.observations == a.observations
  }

  lemma CheckpointPositioned(ext: Externals, db: Db, call: Call, now: int)
    requires Positioned(db) && call.cmd.Checkpoint?
    ensures KeepsPosition(db, CommitCallTx(ext, db, call, now).db)
  {
    AcceptStateShape(ext, db, call.clusterId, call.sessionId, call.cmd.state, now);
  }

  lemma DiffPositioned(ext: Externals, db: Db, call: Call, now: int)
    requires Positioned(db) && call.cmd.Diff?
    ensures KeepsPosition(db, CommitCallTx(ext, db, call, now).db)
  {
    AcceptDiffShape(ext, db, call.clusterId, call.sessionId, call.cmd.diff, now);
  }

  lemma OtherCommitPositioned(ext: Externals, db: Db, call: Call, now: int)
    requires Positioned(db) && !call.cmd.Checkpoint? && !call.cmd.Diff?
    ensures KeepsPosition(db, CommitCallTx(ext, db, call, now).db)
    ensures call.cmd.Replicas? ==> CommitCallTx(ext, db, call, now).db.desired.accepted == db.desired.accepted
  {
    match call.cmd
    case NodeConfiguration(update) => AcceptNodeConfigShape(ext, db, call.clusterId, call.sessionId, update, now);
    case Credentials(creds) => AcceptCredentialsShape(db, call.clusterId, call.sessionId, creds, now);
    case Replicas(replicas) => AcceptReplicasShape(db, call.clusterId, call.sessionId, replicas, now);
  }

  /** No transaction of a call touches the observations or leaves the position behind the accepted state. */
  lemma ProceedPositioned(ext: Externals, db: Db, call: Call, now: int)
    requires Positioned(db)
    ensures KeepsPosition(db, Proceed(ext, db, call, now).db)
    ensures call.cmd.Replicas? ==> Proceed(ext, db, call, now).db.desired.accepted == db.desired.accepted
  {
    if call.at == Commit {
      if call.cmd.Checkpoint? {
        CheckpointPositioned(ext, db, call, now);
      } else if call.cmd.Diff? {
        DiffPositioned(ext, db, call, now);
      } else {
        OtherCommitPositioned(ext, db, call, now);
      }
    } else if call.at == Stage {
      assert StageCallTx(ext, db, call, now).db.meta == db.meta;
    }
  }

  lemma UnlockedKeeps(ext: Externals, db: Db, w: Unlocked)
    requires Positioned(db) && (w.ReplicaCall? ==> w.call.cmd.Replicas?)
    ensures var b := UnlockedDb(ext, db, w);
      Positioned(b) && b.observations == db.observations && b.desired.accepted == db.desired.accepted
  {
    if w.ReplicaCall? {
      ProceedPositioned(ext, db, w.call, w.now);
    }
  }

  lemma RecordKeeps(db: Db, report: StatusReport)
    requires Positioned(db)
    ensures var b := RecordReportTx(db, report).db; Positioned(b) && b.desired.accepted == db.desired.accepted
    ensures var b := RecordReportTx(db, report).db;
      b.observations != db.observations ==>
        && b.observations.report.Some? && b.observations.report.value.services == report.services
        && b.observations.report.value.epoch == b.observations.reportEpoch == db.meta.acceptedEpoch
        && b.observations.report.value.cursor == b.observations.reportCursor == db.meta.cursor
  {
  }

  lemma PassStepHonest(s: State, t: nat, a: Action)
    requires Honest(s) && Can(s, t, a) && PassAction(a)
    ensures Honest(PassStep(s, t, a))
  {
    var after := PassStep(s, t, a);
    var pass := PassOf(s, t);
    if a.RecordProgress? {
      RecordKeeps(s.db, Stamped(pass.stage.merged, s.db.meta.agentId, pass.summary.value));
    } else if a.RecordFinal? {
      RecordKeeps(s.db, Stamped(pass.stage.report, s.db.meta.agentId, pass.summary.value));
    }
    assert after.db.desired.accepted == s.db.desired.accepted;
    assert after.threads[t].Working? ==> WorksFrom(after.threads[t].pass, s.db.desired.accepted);
    assert forall u :: u in after.threads && u != t ==> u in s.threads && after.threads[u] == s.threads[u];
  }

  lemma LockStepHonest(s: State, t: nat, a: Action)
    requires Honest(s) && Can(s, t, a) && LockAction(a)
    ensures Honest(LockStep(s, t, a))
  {
  }

  lemma OneHolder(s: State, t: nat, x: nat)
    requires Locks(s) && t in s.threads && x in s.threads && t != x && HoldsReconcile(s.threads[t])
    ensures !HoldsReconcile(s.threads[x])
  {
    assert Fits(s, t, s.threads[t]) && Fits(s, x, s.threads[x]);
  }

  lemma TransactHonest(ext: Externals, s: State, t: nat, now: int)
    requires Locks(s) && Honest(s) && Can(s, t, Transact(now))
    ensures Honest(After(ext, s, t, Transact(now)))
  {
    ProceedPositioned(ext, s.db, s.threads[t].work.call, now);
    forall x | x in s.threads && x != t ensures !s.threads[x].Working? {
      OneHolder(s, t, x);
    }
  }

  lemma StepHonest(ext: Externals, s: State, t: nat, a: Action)
    requires Locks(s) && Honest(s) && Can(s, t, a)
    ensures Honest(After(ext, s, t, a))
  {
    if LockAction(a) {
      LockStepHonest(s, t, a);
    } else if PassAction(a) {
      PassStepHonest(s, t, a);
    } else if a.Transact? {
      TransactHonest(ext, s, t, a.now);
    } else {
      UnlockedKeeps(ext, s.db, a.write);
    }
  }

  // ---------------------------------------------------------------- whole runs

  datatype ThreadStep = ThreadStep(thread: nat, action: Action)

  ghost predicate Reached(s: State) {
    Locks(s) && Interrupted(s) && Honest(s)
  }

  /** A run of a process that has opened its store. */
  ghost predicate IsRun(ext: Externals, states: seq<State>, events: seq<ThreadStep>) {
    && |states| == |events| + 1
    && states[0] == State(states[0].db, map[], None, None, None, 0) && Positioned(states[0].db)
    && forall i :: 0 <= i < |events| ==>
         Can(states[i], events[i].thread, events[i].action)
         && states[i + 1] == After(ext, states[i], events[i].thread, events[i].action)
  }

  lemma {:induction false} RunReached(ext: Externals, states: seq<State>, events: seq<ThreadStep>, i: nat)
    requires IsRun(ext, states, events) && i < |states|
    ensures Reached(states[i])
  {
    if i == 0 {
      assert CountedThreads(states[0].threads) == {};
    } else {
      RunReached(ext, states, events, i - 1);
      StepLocks(ext, states[i - 1], events[i - 1].thread, events[i - 1].action);
      StepInterrupts(ext, states[i - 1], events[i - 1].thread, events[i - 1].action);
      StepHonest(ext, states[i - 1], events[i - 1].thread, events[i - 1].action);
    }
  }

  /** What the pass of a thread that is recording was computed from, and what it records. */
  ghost predicate Recording(s: State, e: ThreadStep, services: seq<ServiceCondition>) {
    && WorkingAt(s, e.thread) && PassOf(s, e.thread).desired.Some?
    && match e.action
       case RecordProgress => PassOf(s, e.thread).stage.Progressing?
         && services == PassOf(s, e.thread).stage.merged.services
       case RecordFinal => PassOf(s, e.thread).stage.Finishing? && services == PassOf(s, e.thread).stage.report.services
       case _ => false
  }

  lemma StepStamps(ext: Externals, s: State, e: ThreadStep)
    requires Reached(s) && Can(s, e.thread, e.action)
    ensures var after := After(ext, s, e.thread, e.action);
      after.db.observations != s.db.observations ==>
        && after.db.observations.report.Some?
        && Recording(s, e, after.db.observations.report.value.services)
        && var d := PassOf(s, e.thread).desired.value; var o := after.db.observations;
           && o.report.value.epoch == o.reportEpoch == d.env.epoch
           && o.report.value.cursor == o.reportCursor == d.cursor
           && s.db.desired.accepted == Some(d)
  {
    var t, a := e.thread, e.action;
    if PassAction(a) {
      var pass := PassOf(s, t);
      assert WorksFrom(pass, s.db.desired.accepted);
      if a.RecordProgress? {
        RecordKeeps(s.db, Stamped(pass.stage.merged, s.db.meta.agentId, pass.summary.value));
      } else if a.RecordFinal? {
        RecordKeeps(s.db, Stamped(pass.stage.report, s.db.meta.agentId, pass.summary.value));
      }
    } else if a.Transact? {
      ProceedPositioned(ext, s.db, s.threads[t].work.call, a.now);
    } else if a.WriteUnlocked? {
      UnlockedKeeps(ext, s.db, a.write);
    }
  }

  /**
   * In every interleaving, the persisted report changes only when a pass records one, and it is then stamped with
   * the epoch and cursor of the desired state that pass read, which is still the accepted one.
   */
  lemma ReportsCarryTheirPosition(ext: Externals, states: seq<State>, events: seq<ThreadStep>, i: nat)
    requires IsRun(ext, states, events) && i < |events|
    requires states[i + 1].db.observations != states[i].db.observations
    ensures var o := states[i + 1].db.observations;
      && o.report.Some? && Recording(states[i], events[i], o.report.value.services)
      && var d := PassOf(states[i], events[i].thread).desired.value;
         && o.report.value.epoch == o.reportEpoch == d.env.epoch
         && o.report.value.cursor == o.reportCursor == d.cursor
         && states[i].db.desired.accepted == Some(d)
  {
    RunReached(ext, states, events, i);
    StepStamps(ext, states[i], events[i]);
  }

  // ---------------------------------------------------------------- reports name only desired allocations

  /** The report a thread is about to hand to the store. */
  function Handed(pass: Pass): Option<StatusReport> {
    match pass.stage
    case Progressing(merged) => Some(merged)
    case Finishing(report) => Some(report)
    case _ => None
  }

  /** A report under way names only allocations of the state its pass works from. */
  ghost predicate NamesDesired(pass: Pass) {
    Handed(pass).Some? ==> pass.desired.Some? && ReportsOnly(Handed(pass).value, pass.desired.value)
  }

  ghost predicate AllNameDesired(s: State) {
    forall t :: t in s.threads && s.threads[t].Working? ==> NamesDesired(s.threads[t].pass)
  }

  /** What the runtime owes: the result of a pass names only allocations of the state the pass was given. */
  ghost predicate RuntimeNamesDesired(s: State, e: ThreadStep) {
    e.action.Finish? && WorkingAt(s, e.thread) && PassOf(s, e.thread).desired.Some? ==>
      ReportsOnly(e.action.result, PassOf(s, e.thread).desired.value)
  }

  /** A merged report names only desired allocations, whatever the partial one named. */
  lemma MergedNamesDesired(desired: DesiredState, previous: seq<ServiceCondition>, partial: StatusReport)
    ensures ReportsOnly(Merged(desired, previous, partial), desired)
  {
    MergedIsComplete(desired, previous, partial);
    var services := Merged(desired, previous, partial).services;
    forall id | id in Keys(services, ConditionKey) ensures id in ListedIds(desired.services) {
      var i :| 0 <= i < |services| && ConditionKey(services[i]) == id;
      assert ServiceKey(desired.services[i]) == id;
    }
  }

  lemma PassStepNames(s: State, t: nat, a: Action)
    requires Honest(s) && AllNameDesired(s) && Can(s, t, a) && PassAction(a) && RuntimeNamesDesired(s, ThreadStep(t, a))
    ensures AllNameDesired(PassStep(s, t, a))
  {
    var after, pass := PassStep(s, t, a), PassOf(s, t);
    assert WorksFrom(pass, s.db.desired.accepted);
    if a.CheckProgress? {
      MergedNamesDesired(pass.desired.value, pass.stage.previous, a.partial);
    }
    assert after.threads[t].Working? ==> NamesDesired(after.threads[t].pass);
    assert forall u :: u in after.threads && u != t ==> u in s.threads && after.threads[u] == s.threads[u];
  }

  lemma LockStepNames(s: State, t: nat, a: Action)
    requires AllNameDesired(s) && Can(s, t, a) && LockAction(a)
    ensures AllNameDesired(LockStep(s, t, a))
  {
  }

  lemma {:induction false} RunNamesDesired(ext: Externals, states: seq<State>, events: seq<ThreadStep>, i: nat)
    requires IsRun(ext, states, events) && i < |states|
    requires forall k :: 0 <= k < i ==> RuntimeNamesDesired(states[k], events[k])
    ensures AllNameDesired(states[i])
  {
    if i > 0 {
      RunNamesDesired(ext, states, events, i - 1);
      RunReached(ext, states, events, i - 1);
      var s, t, a := states[i - 1], events[i - 1].thread, events[i - 1].action;
      assert events[i - 1] == ThreadStep(t, a);
      if LockAction(a) {
        LockStepNames(s, t, a);
      } else if PassAction(a) {
        PassStepNames(s, t, a);
      }
    }
  }

  /**
   * If the runtime's results name only allocations of the state their pass was given, then in every interleaving each
   * recorded report, progress reports included, names only allocations of the state accepted at that moment: the
   * recording is a step the process model allows.
   */
  lemma RecordedReportsNameAccepted(ext: Externals, states: seq<State>, events: seq<ThreadStep>, i: nat)
    returns (report: StatusReport)
    requires IsRun(ext, states, events) && i < |events|
    requires events[i].action.RecordProgress? || events[i].action.RecordFinal?
    requires forall k :: 0 <= k < i ==> RuntimeNamesDesired(states[k], events[k])
    ensures states[i + 1].db == RecordReportTx(states[i].db, report).db
    ensures states[i].db.desired.accepted.Some? && ReportsOnly(report, states[i].db.desired.accepted.value)
  {
    RunReached(ext, states, events, i);
    RunNamesDesired(ext, states, events, i);
    var s, t := states[i], events[i].thread;
    assert Can(s, t, events[i].action) && states[i + 1] == After(ext, s, t, events[i].action);
    var pass := PassOf(s, t);
    assert WorksFrom(pass, s.db.desired.accepted) && NamesDesired(pass);
    report := Stamped(Handed(pass).value, s.db.meta.agentId, pass.summary.value);
  }

  // ---------------------------------------------------------------- what a recorded report says of its sender

  /** The installation and generation a pass read are still the store's. */
  predicate SummaryCurrent(pass: Pass, meta: Meta) {
    pass.summary.Some? ==>
      pass.summary.value.installationId == meta.installationId
        && pass.summary.value.generation == meta.recoveryGeneration
  }

  ghost predicate SummariesCurrent(s: State) {
    forall t :: t in s.threads && s.threads[t].Working? ==> SummaryCurrent(s.threads[t].pass, s.db.meta)
  }

  lemma CallKeepsGeneration(ext: Externals, db: Db, call: Call, now: int)
    ensures Proceed(ext, db, call, now).db.meta.recoveryGeneration == db.meta.recoveryGeneration
  {
    if call.at == Commit {
      if CommitCallTx(ext, db, call, now).out.Done? {
        CommitGuards(ext, db, call, now);
      } else {
        RefusalChangesNothing(ext, db, call, now);
      }
    } else if call.at == Stage {
      assert StageCallTx(ext, db, call, now).db.meta == db.meta;
    }
  }

  lemma UnlockedKeepsAuthority(ext: Externals, db: Db, w: Unlocked)
    ensures var b := UnlockedDb(ext, db, w).meta;
      b.installationId == db.meta.installationId && b.recoveryGeneration == db.meta.recoveryGeneration
  {
    if w.ReplicaCall? {
      CallKeepsInstallation(ext, db, w.call, w.now);
      CallKeepsGeneration(ext, db, w.call, w.now);
    }
  }

  lemma PassStepSummaries(s: State, t: nat, a: Action)
    requires SummariesCurrent(s) && Can(s, t, a) && PassAction(a)
    ensures SummariesCurrent(PassStep(s, t, a))
  {
    var after := PassStep(s, t, a);
    assert after.db.meta == s.db.meta;
    assert after.threads[t].Working? ==> SummaryCurrent(after.threads[t].pass, s.db.meta);
    assert forall u :: u in after.threads && u != t ==> u in s.threads && after.threads[u] == s.threads[u];
  }

  lemma StepSummaries(ext: Externals, s: State, t: nat, a: Action)
    requires SummariesCurrent(s) && Can(s, t, a)
    ensures SummariesCurrent(After(ext, s, t, a))
  {
    if PassAction(a) {
      PassStepSummaries(s, t, a);
    } else if a.Transact? {
      CallKeepsInstallation(ext, s.db, s.threads[t].work.call, a.now);
      CallKeepsGeneration(ext, s.db, s.threads[t].work.call, a.now);
    } else if a.WriteUnlocked? {
      UnlockedKeepsAuthority(ext, s.db, a.write);
    }
  }

  lemma {:induction false} RunSummaries(ext: Externals, states: seq<State>, events: seq<ThreadStep>, i: nat)
    requires IsRun(ext, states, events) && i < |states|
    ensures SummariesCurrent(states[i])
  {
    if i > 0 {
      RunSummaries(ext, states, events, i - 1);
      StepSummaries(ext, states[i - 1], events[i - 1].thread, events[i - 1].action);
    }
  }

  /** A summary a pass has is the one it had, or one it reads in this step. */
  lemma SummaryStep(ext: Externals, s: State, e: ThreadStep, t: nat)
    requires Can(s, e.thread, e.action)
    requires var after := After(ext, s, e.thread, e.action); WorkingAt(after, t) && PassOf(after, t).summary.Some?
    ensures var after := After(ext, s, e.thread, e.action);
      || (e.thread == t && e.action.ReadSummary?
          && PassOf(after, t).summary.value.cleanup == (s.db.meta.init == Ready && !e.action.paused))
      || (WorkingAt(s, t) && PassOf(s, t).summary == PassOf(after, t).summary)
  {
  }

  lemma RunSummaryStep(ext: Externals, states: seq<State>, events: seq<ThreadStep>, i: nat, t: nat)
    requires IsRun(ext, states, events) && i < |states| && WorkingAt(states[i], t)
    requires PassOf(states[i], t).summary.Some?
    ensures i > 0
    ensures var e := events[i - 1];
      || (e.thread == t && e.action.ReadSummary? && PassOf(states[i], t).summary.value.cleanup
            == (states[i - 1].db.meta.init == Ready && !e.action.paused))
      || (WorkingAt(states[i - 1], t) && PassOf(states[i - 1], t).summary == PassOf(states[i], t).summary)
  {
    SummaryStep(ext, states[i - 1], events[i - 1], t);
  }

  lemma {:induction false} SummaryWasRead(ext: Externals, states: seq<State>, events: seq<ThreadStep>, i: nat, t: nat)
    returns (k: nat)
    requires IsRun(ext, states, events) && i < |states| && WorkingAt(states[i], t)
    requires PassOf(states[i], t).summary.Some?
    ensures k < i && events[k].thread == t && events[k].action.ReadSummary?
    ensures PassOf(states[i], t).summary.value.cleanup
      == (states[k].db.meta.init == Ready && !events[k].action.paused)
  {
    RunSummaryStep(ext, states, events, i, t);
    if WorkingAt(states[i - 1], t) && PassOf(states[i - 1], t).summary == PassOf(states[i], t).summary {
      k := SummaryWasRead(ext, states, events, i - 1, t);
    } else {
      k := i - 1;
    }
  }

  /**
   * In every interleaving a recorded report names this agent and the installation and generation of the store, and says
   * recovery mode exactly when the store was not ready, or the agent paused, as its pass read the summary.
   */
  lemma RecordedReportsNameTheirSender(ext: Externals, states: seq<State>, events: seq<ThreadStep>, i: nat)
    returns (report: StatusReport, k: nat)
    requires IsRun(ext, states, events) && i < |events|
    requires events[i].action.RecordProgress? || events[i].action.RecordFinal?
    ensures states[i + 1].db == RecordReportTx(states[i].db, report).db
    ensures report.agentId == states[i].db.meta.agentId && report.installationId == states[i].db.meta.installationId
    ensures report.recoveryGeneration == states[i].db.meta.recoveryGeneration
    ensures k < i && events[k].thread == events[i].thread && events[k].action.ReadSummary?
    ensures report.recoveryMode <==> states[k].db.meta.init != Ready || events[k].action.paused
  {
    RunSummaries(ext, states, events, i);
    var s, t := states[i], events[i].thread;
    assert Can(s, t, events[i].action) && states[i + 1] == After(ext, s, t, events[i].action);
    var pass := PassOf(s, t);
    report := Stamped(Handed(pass).value, s.db.meta.agentId, pass.summary.value);
    k := SummaryWasRead(ext, states, events, i, t);
  }

  // ---------------------------------------------------------------- an undisturbed pass records

  /** With no update waiting the check lets the pass work, from the accepted state. */
  lemma UnawaitedPassWorks(ext: Externals, s: State, t: nat)
    requires Can(s, t, Register) && s.updatesWaiting == 0 && s.db.desired.accepted.Some?
    ensures var a := After(ext, s, t, Register);
      && Can(a, t, ReadDesired)
      && var b := After(ext, a, t, ReadDesired);
         WorkingAt(b, t) && !PassOf(b, t).cancelled && PassOf(b, t).desired == s.db.desired.accepted
           && forall paused :: Can(b, t, ReadSummary(paused))
  {
  }

  /** A result a pass returns uncancelled is recorded, condition for condition. */
  lemma UncancelledResultIsRecorded(ext: Externals, s: State, t: nat, result: StatusReport)
    returns (final: StatusReport)
    requires Reached(s) && WorkingAt(s, t) && PassOf(s, t).stage.Running? && !PassOf(s, t).cancelled
    ensures Can(s, t, Finish(result))
    ensures var a := After(ext, s, t, Finish(result));
      Can(a, t, RecordFinal) && After(ext, a, t, RecordFinal).db == RecordReportTx(s.db, final).db
    ensures final.services == result.services && final.wakeDemands == result.wakeDemands
    ensures final.volumes == result.volumes
  {
    var pass := PassOf(s, t);
    assert WorksFrom(pass, s.db.desired.accepted);
    final := Stamped(result, s.db.meta.agentId, pass.summary.value);
  }

  /** And so is each progress report, merged over what was reported before. */
  lemma UncancelledProgressIsRecorded(ext: Externals, s: State, t: nat, partial: StatusReport)
    returns (progress: StatusReport)
    requires Reached(s) && WorkingAt(s, t) && PassOf(s, t).stage.Running? && !PassOf(s, t).cancelled
    ensures Can(s, t, CheckProgress(partial))
    ensures var a := After(ext, s, t, CheckProgress(partial));
      Can(a, t, RecordProgress) && After(ext, a, t, RecordProgress).db == RecordReportTx(s.db, progress).db
    ensures PassOf(s, t).desired.Some? && progress.volumes == partial.volumes
    ensures progress.services == Merged(PassOf(s, t).desired.value, PassOf(s, t).stage.previous, partial).services
  {
    var pass := PassOf(s, t);
    assert WorksFrom(pass, s.db.desired.accepted);
    progress := Stamped(
      Merged(pass.desired.value, pass.stage.previous, partial), s.db.meta.agentId, pass.summary.value);
  }

  /**
   * Whenever an update has announced itself and waits, the holder of the reconcile lock is another update, a
   * reconciliation that has not yet looked at a positive waiting count, one that is cancelled, or one that is done.
   */
  lemma WaitingUpdateInterrupts(ext: Externals, states: seq<State>, events: seq<ThreadStep>, i: nat, u: nat)
    requires IsRun(ext, states, events) && i < |states|
    requires u in states[i].threads && states[i].threads[u].Waiting? && states[i].reconcileMu.Some?
    ensures var s := states[i];
      && s.reconcileMu.value in s.threads && s.updatesWaiting > 0
      && var pc := s.threads[s.reconcileMu.value];
         || pc.Entering? || pc.Settling? || pc.Updating?
         || pc.Checking? || pc.Registering?
         || (pc.Working? && pc.pass.cancelled)
         || pc.Closing? || pc.Clearing? || pc.Leaving?
  {
    RunReached(ext, states, events, i);
    NoneCounted(states[i], u);
    assert Fits(states[i], states[i].reconcileMu.value, states[i].threads[states[i].reconcileMu.value]);
  }

  /** A reconciliation that holds the lock and has done no runtime work. */
  predicate Idling(pc: Pc) {
    pc.Checking? || pc.Registering? || pc.Leaving?
  }

  predicate HoldsFrom(states: seq<State>, i: nat, j: nat, t: nat)
    requires i <= j < |states|
  {
    forall k :: i <= k <= j ==> states[k].reconcileMu == Some(t)
  }

  lemma WaitingStays(ext: Externals, s: State, e: ThreadStep, u: nat, t: nat)
    requires Reached(s) && Can(s, e.thread, e.action)
    requires u in s.threads && s.threads[u].Waiting? && s.reconcileMu == Some(t) && t in s.threads
    ensures var after := After(ext, s, e.thread, e.action);
      u in after.threads && after.threads[u] == s.threads[u]
  {
    assert Fits(s, u, s.threads[u]);
  }

  lemma IdlingStays(ext: Externals, s: State, e: ThreadStep, u: nat, t: nat)
    requires Reached(s) && Can(s, e.thread, e.action)
    requires u in s.threads && s.threads[u].Waiting? && s.reconcileMu == Some(t) && t in s.threads
    requires Idling(s.threads[t])
    ensures var after := After(ext, s, e.thread, e.action);
      after.reconcileMu == Some(t) ==> t in after.threads && Idling(after.threads[t])
  {
    NoneCounted(s, u);
  }

  /** While t holds the lock without having worked and u waits, both stay that way. */
  predicate IdleStep(a: State, b: State, u: nat, t: nat) {
    (&& a.reconcileMu == b.reconcileMu == Some(t) && u in a.threads && a.threads[u].Waiting?
     && t in a.threads && Idling(a.threads[t])) ==>
      u in b.threads && b.threads[u].Waiting? && t in b.threads && Idling(b.threads[t])
  }

  lemma RunIdleStep(ext: Externals, states: seq<State>, events: seq<ThreadStep>, k: nat, u: nat, t: nat)
    requires IsRun(ext, states, events) && k < |events|
    ensures IdleStep(states[k], states[k + 1], u, t)
  {
    RunReached(ext, states, events, k);
    var s, e := states[k], events[k];
    if s.reconcileMu == Some(t) && u in s.threads && s.threads[u].Waiting? && t in s.threads && Idling(s.threads[t]) {
      WaitingStays(ext, s, e, u, t);
      IdlingStays(ext, s, e, u, t);
    }
  }

  lemma {:induction false} IdleChain(states: seq<State>, i: nat, j: nat, u: nat, t: nat)
    requires i <= j < |states| && HoldsFrom(states, i, j, t)
    requires forall k :: i <= k < j ==> IdleStep(states[k], states[k + 1], u, t)
    requires u in states[i].threads && states[i].threads[u].Waiting?
    requires t in states[i].threads && Idling(states[i].threads[t])
    ensures t in states[j].threads && Idling(states[j].threads[t])
    ensures u in states[j].threads && states[j].threads[u].Waiting?
  {
    if i < j {
      IdleChain(states, i, j - 1, u, t);
      assert IdleStep(states[j - 1], states[j], u, t);
    }
  }

  /** An update announced before the check makes that reconciliation give the lock up without runtime work. */
  lemma NoWorkPastTheCheck(
      ext: Externals, states: seq<State>, events: seq<ThreadStep>, i: nat, j: nat, u: nat, t: nat)
    requires IsRun(ext, states, events) && i <= j < |states| && HoldsFrom(states, i, j, t)
    requires u in states[i].threads && states[i].threads[u].Waiting?
    requires t in states[i].threads && Idling(states[i].threads[t])
    ensures t in states[j].threads && Idling(states[j].threads[t])
    ensures u in states[j].threads && states[j].threads[u].Waiting?
  {
    forall k | i <= k < j ensures IdleStep(states[k], states[k + 1], u, t) {
      RunIdleStep(ext, states, events, k, u, t);
    }
    IdleChain(states, i, j, u, t);
  }

  /** A pass that is cancelled or over, with no report past its check. */
  predicate Quieted(pc: Pc) {
    (pc.Working? && pc.pass.cancelled && !pc.pass.stage.Progressing? && !pc.pass.stage.Finishing?) || pc.Closing?
      || pc.Clearing? || pc.Leaving?
  }

  lemma QuietedStays(ext: Externals, s: State, e: ThreadStep, t: nat)
    requires Reached(s) && Can(s, e.thread, e.action) && s.reconcileMu == Some(t) && t in s.threads
    requires Quieted(s.threads[t])
    ensures var after := After(ext, s, e.thread, e.action);
      && after.db.observations == s.db.observations
      && (after.reconcileMu == Some(t) ==> t in after.threads && Quieted(after.threads[t]))
  {
    StepStamps(ext, s, e);
    assert e.thread in s.threads ==> Fits(s, e.thread, s.threads[e.thread]);
  }

  /** While t holds the lock quieted, it stays quieted and nothing is recorded. */
  predicate QuietStep(a: State, b: State, t: nat) {
    a.reconcileMu == b.reconcileMu == Some(t) && t in a.threads && Quieted(a.threads[t]) ==>
      b.db.observations == a.db.observations && t in b.threads && Quieted(b.threads[t])
  }

  lemma RunQuietStep(ext: Externals, states: seq<State>, events: seq<ThreadStep>, k: nat, t: nat)
    requires IsRun(ext, states, events) && k < |events|
    ensures QuietStep(states[k], states[k + 1], t)
  {
    RunReached(ext, states, events, k);
    var s, e := states[k], events[k];
    if s.reconcileMu == Some(t) && t in s.threads && Quieted(s.threads[t]) {
      QuietedStays(ext, s, e, t);
    }
  }

  lemma {:induction false} QuietChain(states: seq<State>, i: nat, j: nat, t: nat)
    requires i <= j < |states| && HoldsFrom(states, i, j, t)
    requires forall k :: i <= k < j ==> QuietStep(states[k], states[k + 1], t)
    requires t in states[i].threads && Quieted(states[i].threads[t])
    ensures t in states[j].threads && Quieted(states[j].threads[t])
    ensures states[j].db.observations == states[i].db.observations
  {
    if i < j {
      QuietChain(states, i, j - 1, t);
      assert QuietStep(states[j - 1], states[j], t);
    }
  }

  /** Once a waiting update has cancelled a pass, that pass persists no further report while it holds the lock. */
  lemma CancelledPassRecordsNothing(
      ext: Externals, states: seq<State>, events: seq<ThreadStep>, i: nat, j: nat, t: nat)
    requires IsRun(ext, states, events) && i <= j < |states| && HoldsFrom(states, i, j, t)
    requires t in states[i].threads && Quieted(states[i].threads[t])
    ensures t in states[j].threads && Quieted(states[j].threads[t])
    ensures states[j].db.observations == states[i].db.observations
  {
    forall k | i <= k < j ensures QuietStep(states[k], states[k + 1], t) {
      RunQuietStep(ext, states, events, k, t);
    }
    QuietChain(states, i, j, t);
  }

  /** The next step of the thread that can move: the two mutexes never wait for each other. */
  function NextAction(pc: Pc): Action {
    match pc
    case Arriving(_) => LockCancel
    case Announcing(_) => Announce
    case Waiting(_) => LockReconcile
    case Entering(_) => LockCancel
    case Settling(_) => Settle
    case Updating(_) => ReleaseUpdate
    case Contending => LockReconcile
    case Checking => LockCancel
    case Registering => Register
    case Working(_) => Abandon
    case Closing => LockCancel
    case Clearing => Clear
    case Leaving => Release
  }

  lemma NeverDeadlocked(ext: Externals, states: seq<State>, events: seq<ThreadStep>, i: nat) returns (t: nat)
    requires IsRun(ext, states, events) && i < |states| && states[i].threads != map[]
    ensures t in states[i].threads && Can(states[i], t, NextAction(states[i].threads[t]))
  {
    var s := states[i];
    RunReached(ext, states, events, i);
    if s.cancelMu.Some? {
      t := s.cancelMu.value;
      assert Counted(s.threads[t]) ==> t in CountedThreads(s.threads);
    } else if s.reconcileMu.Some? {
      t := s.reconcileMu.value;
    } else {
      t :| t in s.threads;
    }
    assert Fits(s, t, s.threads[t]);
  }
}
