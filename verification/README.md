# Verified model of the fleet agent's reconciliation core

A fleet agent keeps a transactional local store of what a control plane wants on its host, accepts commands into it
through three nested fences (recovery generation, authority epoch, cursor), and drives a container runtime from the
accepted state. The control plane may be replaced, restored or partitioned; messages may be lost, repeated or
reordered; the agent may crash between any two transactions; its store may be corrupted. This project models that
core in Dafny and proves what holds of every run.

The files follow the agent's parts:

- `Strings`, `Keyed`, `Messages`: ordering and trimming of strings, lists with keys, the protocol's messages.
- `Validation`, `Configuration`: payload validation, the configuration comparison, and applying a diff.
- `Database`: the store's buckets as a value, and one function per transaction.
- `Records`, `Agent`, `Runs`: the startup check as an inductive invariant, the process with its crashes, and its preservation.
- `Evolution`, `RunTheorems`: how two contents of one store are related along a run, and the theorems about whole runs.
- `Acceptance`, `Bookkeeping`: exactly when each transaction, call and step of a run succeeds, and what the store holds then, field by field.
- `LocalStateStore`: the store as a class whose methods write bucket by bucket and are proved against the transactions.
- `Cleanup`, `CleanupRace`: the node together with the containers of its host, what reconciliation may prune, and the
  one race it leaves open.
- `ProgressReports`, `Supervisor`: updates and reconciliations as interleaved threads over two mutexes.
- `Session`: which reports and acknowledgements a session sends.
- `WorkerPool`, `Readiness`, `DiskUsage`, `Wake`: the runtime's volume-grouped workers, readiness cache, disk samples and wake counters.
- `Utf8`, `LogLines`: the bounded log line splitter.

How the source is read:

- Messages are datatypes, encodings are identities, and a bbolt transaction is atomic: a failed one leaves the store as it was.
- Hashes, prefix parsing, the restart policy, the engine and the probes are uninterpreted: function-valued fields of
  `Externals`, or parameters that may take any value.
- In the process model, one session goroutine makes one call at a time, a generation is admitted only between opening the
  store and starting, and the reconciler's transactions interleave with anything. Generation names are not empty, discovered
  resources have valid allocation ids and runtime ids, and the runtime reports conditions only for desired allocations;
  `Supervisor.RecordedReportsNameAccepted` derives the last from what the runtime returns for the state it was given.
- A pass prunes before its workers run, as the source does; in the call sequences of `Readiness`, restarting
  the managed dashboards is one call for each of them.
- The theorems about whole runs start from a host without a store file and let nothing but the agent write the store.
  `RunTheorems.QuarantineForgetsRetirement` shows why: a store lost to corruption takes the memory of retired generations
  with it. `Cleanup` does let the store be corrupted or lost at any time the agent is down.
- `wake.go` says a pass consumes the counters. The code consumes nothing when no service sleeps or nothing could be read,
  and the model does the same.

Two promised properties hold only under a condition, and the model states it both ways and shows the failing input:

- Over every sequence of runtime calls, cached readiness for an existing container was earned by a successful probe of
  that very container if and only if no call since that probe left a container of the allocation behind after failing to
  start it (`Readiness.ReadinessIsEarned`). `Readiness.LeftContainerInheritsReadiness` is a sequence of four calls that
  ends in a healthy verdict the present container never earned.
- In recovery nothing is pruned before one accepted state covers the inventory, except by a pass that was pruning with
  permission when recovery was entered and has not finished pruning (`Cleanup.PruneAwaitsCoverage`), and such a pass can
  prune whatever undesired container is left (`Cleanup.PermittedPassPrunes`): the permission is sampled when a pass begins
  and is not held. `CleanupRace.MismatchDuringPass` is a run from a host without a store file in which a cluster mismatch
  is found while a pass prunes. What is pruned then was still listed by an accepted state (`Cleanup.PrunedWasListed`).

## Model

| member | source | states |
|---|---|---|
| `Validation.ValidateDesiredState` | internal/agent/local_state.go:1185-1239 | accepts exactly the complete, agent-scoped states whose services and volumes have valid, distinct ids and all required fields |
| `Validation.ValidateAllocationDiff` | internal/agent/local_state.go:1241-1324 | accepts exactly the diffs whose five lists are valid and whose start, update and stop ids are disjoint |
| `Configuration.ConfigurationEqualMeaning` | internal/agent/local_state.go:1524-1546 | the blank-and-compare equality is equality of the keyed configuration and the standing fields, hence an equivalence |
| `Configuration.ConfigurationIgnoresOrder` | internal/agent/local_state.go:1504-1546 | the equality does not see the order of services or volumes |
| `Configuration.CleanedKeeps` | internal/agent/local_state.go:1504-1522 | sorting and stripping credentials keeps a valid state valid and configuration-equal; the stored lists are rearrangements of the given ones |
| `Configuration.ApplyDiffRefinesMapUpdate` | internal/agent/local_state.go:908-951 | applying a diff is map update: previous minus stops plus starts plus updates, strictly sorted by id |
| `Configuration.PartsCommute` | internal/agent/local_state.go:908-951 | for a valid diff the order of the three parts does not matter |
| `Configuration.ApplyDiffRespectsEquality` | internal/agent/local_state.go:908-951 | configuration-equal states stay configuration-equal under the same diff |
| `Configuration.ApplyDiffValid` | internal/agent/local_state.go:858-864 | a valid diff on a valid state always passes the re-validation |
| `Configuration.MergeServices` | internal/agent/local_state.go:908-934 | whatever order the map is walked in, the merged list indexes to the previous map minus stops plus starts plus updates |
| `Configuration.ApplyDiffToState` | internal/agent/local_state.go:908-951 | the map-building code computes the specified state |
| `Records.ReportedAllocationsValid` | internal/agent/local_state.go:1667-1708 | allocation records stay valid under a report if and only if every id the report names is valid |
| `Records.AcceptStateKeeps` | internal/agent/local_state.go:652-749 | committing a checkpoint keeps every clause of the startup check |
| `Records.AcceptDiffKeeps` | internal/agent/local_state.go:806-904 | committing a diff keeps every clause of the startup check |
| `Records.AcceptNodeConfigKeeps` | internal/agent/local_state.go:987-1054 | committing a node configuration keeps every clause of the startup check |
| `Records.AcceptCredentialsKeeps` | internal/agent/local_state.go:1057-1121 | storing pull credentials keeps every clause of the startup check |
| `Records.AcceptReplicasKeeps` | internal/agent/local_state.go:1123-1183 | storing replica endpoints keeps every clause of the startup check |
| `Records.RecordReportKeeps` | internal/agent/local_state.go:1353-1428 | recording a report keeps every clause of the startup check |
| `Records.StartupKeeps` | internal/agent/local_state.go:527-573 | the startup transaction keeps every clause of the startup check |
| `Records.AdmitKeeps` | internal/agent/recovery.go:34-96 | admitting a generation keeps every clause of the startup check |
| `Agent.OpenedIsValid` | internal/agent/local_state.go:145-274 | whatever is on disk, an opened store passes the startup check and holds no candidate; a quarantined one is in recovery with no state and no generation |
| `Agent.SoundReopens` | internal/agent/local_state.go:219-274 | a store the agent left opens unchanged except for its candidates |
| `Runs.RunSound` | internal/agent/local_state.go:301-408 | every reachable node satisfies the inductive invariant around the startup check |
| `Runs.NeverQuarantinesItself` | internal/agent/local_state.go:301-408 | in every run, opening what the agent left never quarantines and keeps everything but the candidates |
| `RunTheorems.NothingGoesBack` | internal/agent/local_state.go:683-690 | along every run the admission order, accepted epoch and cursor never decrease lexicographically, nor the fence within a generation |
| `RunTheorems.ReplacedGenerationStaysReplaced` | internal/agent/recovery.go:34-68 | a replaced generation never becomes current again |
| `RunTheorems.QuarantineForgetsRetirement` | internal/agent/local_state.go:189-213 | after corruption any generation, retired or not, is admitted |
| `RunTheorems.CommittedAtTheFence` | internal/agent/local_state.go:831-848 | every committed command carries the current generation and an epoch equal to the fence before and after |
| `RunTheorems.OnePositionOneConfiguration` | internal/agent/local_state.go:683-707 | with no assumption on senders, one position of a generation has one configuration |
| `RunTheorems.SequencesIdentifyReports` | internal/agent/local_state.go:1353-1447 | within a generation equal observation sequences are equal contents and changed content is a larger sequence |
| `RunTheorems.FlaggedStoreIsFrozen` | internal/agent/local_state.go:1789-1836 | a store flagged for identity recovery commits no command until a new generation is admitted |
| `RunTheorems.AcceptedOnlyByCommit` | internal/agent/local_state.go:652-749 | at every event, accepted state and position change only by a cutover or by a call's own final transaction, with its own candidate in the store and its grant in force; a refusal or a crash changes no allocation record either |
| `RunTheorems.CandidateStagedByThisCall` | internal/agent/local_state.go:638-650 | a call about to commit staged that candidate itself, in this process, with no other call since |
| `RunTheorems.CheckpointComesFirst` | internal/agent/local_state.go:751-762 | with nothing accepted, neither a diff nor a node configuration commits, and only a complete agent checkpoint makes a state accepted |
| `RunTheorems.CutoverAwaitsCheckpoint` | internal/agent/local_state.go:1025-1028 | after a cutover, a diff or node configuration commits only after a complete checkpoint committed in between |
| `RunTheorems.CutoverKeepsRecords` | internal/agent/recovery.go:34-96 | a cutover empties the accepted state, enters recovery and keeps allocation and inventory records |
| `RunTheorems.ReservationsStayRetained` | internal/agent/recovery_inventory.go:16-57 | across any number of cutovers every service identity, workload subnet and mesh host prefix a replaced state used stays retained |
| `RunTheorems.AcceptedFollowsHistory` | internal/agent/local_state.go:602-951 | if checkpoints and diffs agree with a history, the accepted services and volumes are that history at the accepted cursor, under loss, duplication, reordering and crashes |
| `Evolution.RetainedElements` | internal/agent/recovery_inventory.go:16-57 | a cutover retains exactly what was retained and the network the replaced state used |
| `Evolution.ReservationsAreUses` | internal/agent/recovery_inventory.go:16-57 | what is reserved for a state is exactly its service identities, its workload subnets and the host prefixes of its mesh addresses |
| `Evolution.RetainedSorted` | internal/agent/recovery_inventory.go:16-57 | the retained reservations are in the order of their encoding |
| `Acceptance.DiffAcceptedExactly` | internal/agent/local_state.go:806-904 | a valid diff on a sound store is applied if and only if it is staged, of this agent and cluster, not behind the fence, granted, and starts at the accepted cursor of an accepted state; it is answered unchanged if and only if it fits and ends at that cursor |
| `Acceptance.DiffLeaves` | internal/agent/local_state.go:858-904 | the applied diff's epoch and target are the position, the configuration is the changed one, and node configuration, credentials, observations and inventory are kept |
| `Acceptance.CheckpointAcceptedExactly` | internal/agent/local_state.go:652-749 | a valid checkpoint is accepted if and only if it fits and is not behind the accepted cursor of its epoch, nor different at the accepted position |
| `Acceptance.CheckpointLeaves` | internal/agent/local_state.go:708-749 | the checkpoint's position, configuration, services and volumes as multisets, and node configuration are what the store holds |
| `Acceptance.NodeConfigAcceptedExactly` | internal/agent/local_state.go:987-1054 | a valid node configuration is applied if and only if it fits, a state is accepted and its version is new; a known version is answered unchanged |
| `Acceptance.NodeConfigLeaves` | internal/agent/local_state.go:1025-1054 | only the node configuration, its version and the cluster change |
| `Acceptance.CredentialsAcceptedExactly` | internal/agent/local_state.go:1057-1121 | credentials are stored if and only if they pass the fences, are granted and have a new version; state and position never change |
| `Acceptance.CredentialsStoredExactly` | internal/agent/local_state.go:1559-1582 | each allocation has the user name and password it was sent with, and no other has any |
| `Acceptance.ReplicasAcceptedExactly` | internal/agent/local_state.go:1123-1183 | replica addresses are stored if and only if they pass the fences, are granted and have a new version, and the list then is the given one normalized |
| `Acceptance.NormalizedLists` | internal/agent/local_state.go:478-496 | the list names exactly the trimmed addresses that are not blank, each once |
| `Acceptance.CheckpointDecides` | internal/agent/local_state.go:724-739 | after a checkpoint a store in recovery is ready if and only if every inventoried allocation is listed; an uninitialized one is ready |
| `Acceptance.DiffDecides` | internal/agent/local_state.go:880-896 | the same decision after a diff |
| `Acceptance.DiffCallAcceptedExactly` | internal/agent/local_state.go:751-904 | a whole diff call succeeds with a change if and only if the diff is current, valid, granted at both checks and starts at the cursor of an accepted state with no checkpoint due |
| `Acceptance.CheckpointCallAcceptedExactly` | internal/agent/local_state.go:602-749 | a whole checkpoint call succeeds if and only if the checkpoint is current, valid, granted at both checks and continues what was accepted |
| `Acceptance.NodeConfigCallAcceptedExactly` | internal/agent/local_state.go:953-1055 | a whole node configuration call succeeds if and only if the update is current, valid, granted at both checks and either known or for an accepted state |
| `Acceptance.RunAcceptsDiff` | internal/agent/local_state.go:806-904 | in every run the final step of a diff call applies the diff if and only if it fits and starts at the cursor |
| `Acceptance.RunAcceptsCheckpoint` | internal/agent/local_state.go:652-749 | in every run the final step of a checkpoint call succeeds if and only if the checkpoint fits and continues what was accepted |
| `Bookkeeping.ServicesRecorded` | internal/agent/local_state.go:1584-1603 | each listed service is recorded field by field, what was applied and where it runs is kept, and no other record changes |
| `Bookkeeping.ConditionsRecorded` | internal/agent/local_state.go:1667-1708 | each reported condition sets what was applied and the phase; what is neither reported nor desired is stopped, the rest kept |
| `Bookkeeping.ResourcesRecorded` | internal/agent/local_state.go:1730-1751 | a record has the runtime identity of the resource found for it, and none if none was found |
| `Bookkeeping.StartDecides` | internal/agent/local_state.go:527-573 | a start succeeds if and only if the cluster does not differ and all ids are valid; recovery is entered exactly on a first start that finds resources |
| `Bookkeeping.ReportRecordedExactly` | internal/agent/local_state.go:1353-1428 | a report is recorded if and only if it is this agent's, a state is accepted, it names allocations and a sequence is left |
| `Bookkeeping.ReportNumbered` | internal/agent/local_state.go:1353-1447 | a repeated report keeps its sequence and any other takes the next; content and position are stored as given |
| `Bookkeeping.AdmittedExactly` | internal/agent/recovery.go:34-68 | a generation is refused if and only if it is of another installation, or is not current and was retired; a refusal changes nothing |
| `Bookkeeping.CutoverLeaves` | internal/agent/recovery.go:34-96 | a cutover retires exactly the old generation, empties what it decided, and keeps records, addresses and identity |
| `Bookkeeping.InstallationIsForGood` | internal/agent/recovery.go:34-68 | in every run a store that has an installation keeps that one |
| `Bookkeeping.OpenedExactly` | internal/agent/local_state.go:145-274 | a store is not opened if and only if no agent is named, the format is unknown, or it is another agent's |
| `Bookkeeping.OpenedKeeps` | internal/agent/local_state.go:219-274 | a store opened as it was keeps position, generations, records, reports and credentials, and gets a recovery state if it had none |
| `Bookkeeping.MigrationKeeps` | internal/agent/local_state.go:279-299 | migration keeps the configuration, sorted, and adds the hash of the node configuration |
| `Bookkeeping.OverlayIsExact` | internal/agent/local_state.go:1524-1546 | two services configure the same if and only if they agree on every field but internal hosts and restart observation |
| `LocalStateStore.NormalizeAddresses` | internal/agent/local_state.go:478-496 | trims, drops blanks and duplicates, keeps first occurrences in order |
| `LocalStateStore.UpdateDesiredAllocations` | internal/agent/local_state.go:1584-1603 | the loop refreshes exactly the records of the listed services |
| `LocalStateStore.RecoveryOwnershipEstablished` | internal/agent/local_state.go:1605-1622 | true exactly when every inventoried resource is listed |
| `LocalStateStore.WriteRuntimeInventory` | internal/agent/local_state.go:1647-1665 | the loop stores exactly the discovered resources, or refuses |
| `LocalStateStore.ApplyReportToAllocations` | internal/agent/local_state.go:1667-1708 | the loop computes the specified allocation records |
| `LocalStateStore.ReplaceCredentials` | internal/agent/local_state.go:1559-1582 | the bucket ends up with exactly the given credentials |
| `LocalStateStore.OpenLocalStateStore` | internal/agent/local_state.go:145-213 | opening code computes the specified outcome for every disk |
| `LocalStateStore.Store.ValidateRecords` | internal/agent/local_state.go:301-408 | the check accepts exactly the stores with valid records |
| `LocalStateStore.Store.Initialize` | internal/agent/local_state.go:219-299 | claims, migrates and drops candidates as specified, or refuses a foreign store |
| `LocalStateStore.Store.RequireClusterIdentity` | internal/agent/local_state.go:1789-1807 | refused if and only if the store was flagged or the cluster differs, and refused exactly when it is flagged afterwards; state, allocations and inventory are untouched |
| `LocalStateStore.Store.ObserveAuthorityEpoch` | internal/agent/local_state.go:1838-1851 | accepted if and only if the generation is current and the epoch is not below the fence, which then is that epoch; the fence never falls and a refusal changes nothing |
| `LocalStateStore.Store.PrepareStartup` | internal/agent/local_state.go:527-573 | identity, recovery decision and inventory are written as one transaction; given identified resources, a sound store stays sound |
| `LocalStateStore.Store.RecordRuntimeInventory` | internal/agent/local_state.go:575-600 | inventory and runtime identities are replaced as one transaction; given identified resources, a sound store stays sound |
| `LocalStateStore.WholeCallSound` | internal/agent/local_state.go:602-636 | a whole call of any command keeps a sound store sound, however it ends |
| `LocalStateStore.Store.AcceptDesired` | internal/agent/local_state.go:602-636 | the whole call is its four transactions in order, refusals included; a sound store stays sound |
| `LocalStateStore.Store.AcceptStagedDesired` | internal/agent/local_state.go:652-749 | for a valid state, accepted if and only if it fits and continues what was accepted; then its position is the store's and recovery ends exactly on coverage; nothing is kept when a late check fails, and a sound store stays sound |
| `LocalStateStore.Store.AcceptAllocationDiff` | internal/agent/local_state.go:751-790 | the whole call is its four transactions in order, refusals included; a sound store stays sound |
| `LocalStateStore.Store.AcceptStagedDiff` | internal/agent/local_state.go:806-904 | for a valid diff, applied if and only if it fits and starts at the cursor; then its epoch and target are the position and recovery ends exactly on coverage; nothing is kept when a late check fails, and a sound store stays sound |
| `LocalStateStore.Store.AcceptStagedNodeConfig` | internal/agent/local_state.go:987-1054 | the accepting transaction, with nothing kept when a late check fails; a sound store stays sound |
| `LocalStateStore.Store.StoreCredentials` | internal/agent/local_state.go:1057-1121 | the credential transaction; given valid ids, a sound store stays sound |
| `LocalStateStore.Store.StoreReplicas` | internal/agent/local_state.go:1123-1183 | the replica transaction; a sound store stays sound |
| `LocalStateStore.Store.RecordReport` | internal/agent/local_state.go:1353-1428 | stamps, sequences and persists a report with the allocation records; given a report on accepted allocations, a sound store stays sound |
| `LocalStateStore.Store.RetainRecoveryNetwork` | internal/agent/recovery_inventory.go:16-57 | the loops retain exactly what was retained and the service identities, subnets and mesh host prefixes the accepted state uses, sorted and compacted |
| `LocalStateStore.Store.AdmitAuthority` | internal/agent/recovery.go:34-96 | refused, with nothing changed, if and only if the generation is of another installation, or is not current and was retired; given a named generation, a sound store stays sound |
| `Cleanup.ReadyMeansCovered` | internal/agent/local_state.go:724-739 | recovery ends only under a state that lists every inventoried allocation |
| `Cleanup.WorldRunSound` | internal/agent/supervisor.go:228-308 | in every run of node and host, corruption and loss included, a ready store accounts for every container |
| `Cleanup.PrunedWasListed` | internal/agent/runtime_containerd.go:720-760 | every allocation ever pruned was listed by a state accepted since recovery was last entered at startup |
| `Cleanup.BecomesReady` | internal/agent/local_state.go:886-896 | a store becomes ready only by accepting a state, which covers the inventory if it was in recovery |
| `Cleanup.AcceptanceDecides` | internal/agent/local_state.go:724-739 | accepting a state in recovery makes the store ready if and only if the state covers the inventory |
| `Cleanup.RecoveryEndsOnCoverage` | internal/agent/local_state.go:880-896 | the same at every step of every run of node and host |
| `Cleanup.ReadyPassPrunes` | internal/agent/supervisor.go:269 | a pass may prune a container no accepted state lists if and only if the store is ready and the agent not paused as it begins |
| `Cleanup.PruneAwaitsCoverage` | internal/agent/runtime_containerd.go:226-232 | a prune after recovery was entered follows a state that covers the whole inventory, or is the work of a pass that has been pruning with permission all along |
| `Cleanup.UncoveredPruneIsOlder` | internal/agent/supervisor.go:269 | without such a state, a pass that may prune in recovery is the very pass that was pruning when recovery was entered |
| `Cleanup.PermittedPassPrunes` | internal/agent/runtime_containerd.go:226-232 | any run that ends in recovery while such a pass is pruning goes on with the prune of an undesired container |
| `Cleanup.WorkersFindOnlyDesired` | internal/agent/runtime_containerd.go:220-232 | while the workers of a pass with permission run, every managed container is one the pass desires |
| `CleanupRace.MismatchDuringPass` | internal/agent/supervisor.go:269 | a run from no store file that finds another cluster while a pass prunes, enters recovery and prunes on |
| `ProgressReports.MergeProgressReport` | internal/agent/supervisor.go:346-363 | each entry is the last partial condition of its service, or else the last previous one, if that is about the desired revision and generation; otherwise it is pending, not healthy, nothing applied, with the service's own ids and addresses |
| `ProgressReports.MergedIsComplete` | internal/agent/supervisor.go:344-363 | one condition per desired service, in order, of the desired revision and generation |
| `ProgressReports.MergedSaysLatest` | internal/agent/supervisor.go:344-363 | an entry of a merged report is the latest matching word on its service, or pending |
| `ProgressReports.SilenceKeepsReadiness` | internal/agent/supervisor.go:344-363 | a matching observation stays until the allocation is spoken of again |
| `ProgressReports.MergeAccumulates` | internal/agent/supervisor.go:280-286 | merging partial reports one by one is merging them all at once |
| `Supervisor.RunReached` | internal/agent/supervisor.go:213-308 | in every interleaving each mutex has one holder, the waiting count is the number of waiting updates, and every pass works from the accepted state |
| `Supervisor.ReportsCarryTheirPosition` | internal/agent/supervisor.go:228-342 | the persisted report changes only when a pass records one, stamped with the epoch and cursor of the state that pass read |
| `Supervisor.RecordedReportsNameAccepted` | internal/agent/supervisor.go:228-342 | if the runtime's results name only allocations of the state their pass was given, every recorded report, progress reports included, names only allocations of the state accepted at that moment |
| `Supervisor.RecordedReportsNameTheirSender` | internal/agent/supervisor.go:327-342 | a recorded report names this agent and the installation and generation of the store, and says recovery mode if and only if the store was not ready, or the agent paused, as its pass read the summary |
| `Supervisor.WaitingUpdateInterrupts` | internal/agent/supervisor.go:213-251 | while an announced update waits, a reconciliation holding the lock is cancelled, done, or not yet past its check |
| `Supervisor.NoWorkPastTheCheck` | internal/agent/supervisor.go:236-244 | a reconciliation that had not passed its check gives the lock up without runtime work |
| `Supervisor.CancelledPassRecordsNothing` | internal/agent/supervisor.go:280-300 | a cancelled pass with no report past its check persists no further report |
| `Supervisor.UnawaitedPassWorks` | internal/agent/supervisor.go:236-262 | with no update waiting the check lets the pass work, from the accepted state |
| `Supervisor.UncancelledResultIsRecorded` | internal/agent/supervisor.go:290-308 | a result returned uncancelled is recorded, condition for condition |
| `Supervisor.UncancelledProgressIsRecorded` | internal/agent/supervisor.go:280-286 | a progress report of an uncancelled pass is recorded, merged over what was reported before |
| `Supervisor.NeverDeadlocked` | internal/agent/supervisor.go:213-251 | some thread can always take its next step |
| `Session.StreamSound` | internal/agent/app.go:591-638 | the confirmed epoch stays between the accepted epoch and the fence |
| `Session.SessionNeverRegresses` | internal/agent/app.go:597-620 | sent sequences strictly increase and acknowledged epochs never fall |
| `Session.SentAtTheAcceptedPosition` | internal/agent/app.go:597-620 | however the sent reports change, one report was added, at the accepted position of the moment it is sent, whatever was committed since the comparison, and newer than anything sent |
| `Session.AckedWithinTheFence` | internal/agent/app.go:402-411 | an acknowledgement follows an answered call and names this agent, session, installation, generation and accepted cursor, the store's three versions, and an epoch not below the call's, between the accepted epoch and the fence |
| `Session.NewerReportIsSent` | internal/agent/app.go:597-620 | a report at the accepted position that is newer than anything sent is sent, under this session's id |
| `Session.SuccessIsAcknowledged` | internal/agent/app.go:621-629 | an answered call is acknowledged once, and the store is not touched |
| `WorkerPool.GroupByVolume` | internal/agent/runtime_containerd.go:253-265 | every service is in exactly one group, in order, and two services share a group exactly when they share a volume |
| `WorkerPool.PassSound` | internal/agent/runtime_containerd.go:266-325 | the pool invariant over every interleaving and cancellation |
| `WorkerPool.SharedVolumesNeverOverlap` | internal/agent/runtime_containerd.go:277-289 | at most four workers, never two on one service or on services that share a volume |
| `WorkerPool.SharedVolumesInOrder` | internal/agent/runtime_containerd.go:277-289 | a service starts only after every earlier service on its volume finished |
| `WorkerPool.EveryServiceReported` | internal/agent/runtime_containerd.go:293-325 | an uncancelled pass ends with each service reconciled once and its condition at its own index |
| `WorkerPool.ResultsNeverBlock` | internal/agent/runtime_containerd.go:266-271 | the result channel never holds more than its capacity |
| `Readiness.ContainerdRuntime.ReconcileService` | internal/agent/runtime_containerd.go:330-545 | whatever engine, policy and probes answer, an entry is new only if a probe of the present container just succeeded, a healthy verdict on an HTTP-checked service is the cached one of its generation, and other allocations are untouched |
| `Readiness.ContainerdRuntime.FinishRunningCondition` | internal/agent/runtime_containerd.go:547-599 | the cache is served only for the desired generation, and an entry is cached only after a successful probe |
| `Readiness.ContainerdRuntime.LivenessFailed` | internal/agent/runtime_containerd.go:601-626 | liveness fails exactly when a checked probe fails uninterrupted and readiness of this generation is cached where there is a readiness check |
| `Readiness.ContainerdRuntime.Ensure` | internal/agent/runtime_containerd_engine_linux.go:278-394 | a current container is kept, any other replaced, with every failure point |
| `Readiness.ContainerdRuntime.InspectPreserved` | internal/agent/runtime_containerd.go:631-653 | a preserved allocation never gets a container |
| `Readiness.ContainerdRuntime.StopService` | internal/agent/runtime_containerd.go:350-418 | a drain keeps the entry, a sleep that does not fail forgets it |
| `Readiness.ContainerdRuntime.RestartManagedDashboard` | internal/agent/runtime_containerd.go:169-185 | restarts every managed dashboard up to the first removal that fails, and fails exactly then; otherwise all are marked and gone; the cache is untouched |
| `Readiness.ContainerdRuntime.PruneService` | internal/agent/runtime_containerd.go:740-747 | a pruned allocation loses container and entry, no other is touched |
| `Readiness.ReconcilingStep` | internal/agent/runtime_containerd.go:330-599 | an entry a reconciliation keeps keeps its container too, unless a failed start left a new one |
| `Readiness.HealthyHasContainer` | internal/agent/runtime_containerd.go:501-545 | if the policy keeps only what runs, a service said to be healthy has its current container |
| `Readiness.OrdinaryVerdict` | internal/agent/runtime_containerd.go:447-599 | when nothing fails a current container is kept and any other replaced, and the service is healthy if and only if it has no readiness check, cached readiness of its generation, or an answering probe |
| `Readiness.HeldVerdict` | internal/agent/runtime_containerd.go:506-515 | a service the policy holds back is not healthy, with the policy's phase, and nothing is started |
| `Readiness.RestartVerdict` | internal/agent/runtime_containerd.go:516-544 | a restart makes a new container, healthy only by its own probe |
| `Readiness.TakenDownIsGone` | internal/agent/runtime_containerd.go:459-486 | after disk exhaustion or failed liveness neither container nor cached readiness is left |
| `Readiness.ReadinessIsEarned` | internal/agent/runtime_containerd.go:447-599 | over every sequence of calls, an entry goes back to a successful probe, and that probe was of the present container if and only if no later call left a container behind |
| `Readiness.LeftContainerInheritsReadiness` | internal/agent/runtime_containerd_engine_linux.go:357-369 | four calls from a new runtime that end in a healthy verdict for a container that was never probed with success |
| `DiskUsage.DiskUsageCache.BeginUsage` | internal/agent/runtime_disk_usage.go:24-39 | answers from a fresh or pending sample, otherwise marks one pending and measures |
| `DiskUsage.DiskUsageCache.FinishUsage` | internal/agent/runtime_disk_usage.go:40-53 | writes only the very sample the scan was begun for |
| `DiskUsage.ScanServes` | internal/agent/runtime_disk_usage.go:24-53 | a finished scan is served for thirty seconds and then measured again by one asker; a failed one keeps the old size |
| `DiskUsage.DiskUsageCache.Cached` | internal/agent/runtime_disk_usage.go:55-62 | the cached size, zero without a sample |
| `DiskUsage.DiskUsageCache.Remove` | internal/agent/runtime_disk_usage.go:64-68 | drops exactly that sample |
| `DiskUsage.OneScanPerSample` | internal/agent/runtime_disk_usage.go:24-53 | at most one scan in flight can write a live sample |
| `DiskUsage.ScanBeforeRemovalIsLost` | internal/agent/runtime_disk_usage.go:43-46 | a scan begun before a removal changes nothing after it |
| `DiskUsage.ZeroUntilLaterScan` | internal/agent/runtime_disk_usage.go:24-68 | after a removal the cached size is zero until a scan begun later completes |
| `Wake.SleepingAddresses` | internal/agent/wake.go:24-39 | exactly the addresses of sleeping services, each mapped to the last of them |
| `Wake.AddRises` | internal/agent/wake.go:110-120 | in any iteration order, baselines move to the samples and totals are the rises modulo 2^64 |
| `Wake.WakeTracker.CheckWakeDemand` | internal/agent/wake.go:73-86 | true exactly when some sleeping address is above its baseline |
| `Wake.WakeTracker.CollectWakeDemands` | internal/agent/wake.go:93-129 | exactly the allocations with new packets are reported, each once, with the packets of all its addresses |
| `Wake.PollForetellsReport` | internal/agent/wake.go:70-86 | the poll is true exactly when the next pass on the same samples reports demand |
| `Wake.QuietAfterPass` | internal/agent/wake.go:88-120 | right after a pass the poll is false |
| `Wake.DemandsAddUp` | internal/agent/wake.go:88-129 | over any number of passes the reported packets are the counters' rise above the starting baseline, exact if it fits 64 bits and modulo 2^64 always |
| `Utf8.TrimToRune` | internal/agent/logs.go:91-101 | the backward loop finds the specified cut |
| `Utf8.TrimIsBoundary` | internal/agent/logs.go:88-101 | cutting valid UTF-8 anywhere and trimming ends at the last rune boundary |
| `Utf8.BoundaryIsLongest` | internal/agent/logs.go:88-101 | no longer prefix within the cut is valid |
| `Utf8.TrimmedIsValid` | internal/agent/logs.go:88-101 | the result is valid and at most three bytes shorter; whole text is not cut |
| `LogLines.LogWriter.Append` | internal/agent/logs.go:70-83 | keeps the exact prefix up to the cap and notes any loss |
| `LogLines.LogWriter.Emit` | internal/agent/logs.go:85-125 | ships the buffer, trimmed when truncated, and resets |
| `LogLines.LogWriter.Write` | internal/agent/logs.go:40-66 | after every write, entries and buffer are those of the whole stream so far; the buffer is below the cap |
| `LogLines.OneReturnGoes` | internal/agent/logs.go:107 | exactly one trailing carriage return is dropped, and nothing else |
| `LogLines.StreamIsItsLines` | internal/agent/logs.go:40-66 | splitting loses nothing: the lines and the open line joined by newlines are the stream, and none holds a newline |
| `LogLines.TextsOfStream` | internal/agent/logs.go:40-125 | the texts shipped for a valid stream are the texts of its lines |
| `LogLines.SplitDoesNotMatter` | internal/agent/logs.go:40-125 | any two splits of a valid stream ship the same texts; only a line exactly at the cap may differ in its flag |
| `LogLines.TruncatedTextValid` | internal/agent/logs.go:85-125 | every text is valid UTF-8 and a truncated one loses at most three bytes and a carriage return |

## Left out

- bbolt, protobuf, JSON and the file system: transactions are atomic and encodings are values; quarantine renames are the value `Quarantined`.
- Nil list elements and other malformed wire objects that a datatype cannot hold; an absent command is modelled.
- Whole-call methods for node configuration, credentials and replicas: their transactions are modelled one by one, and the process model runs them in order.
- The order of two reservations whose JSON text is equal.
- `fleetInventory` and `summary`: projections of the store that would only add easy members; what they rest on (retained reservations, allocation and inventory records) is proved to survive.
- `reconciliation.*`, `restartpolicy.*`, `volumestore.*`, `metering.*` and image pinning: uninterpreted or not modelled; grant checking is modelled as a time window over the command's deadline.
- The containerd engine, network namespaces, cgroups and CNI: only containers with incarnations remain, with every point at which ensuring one can fail.
- Marker files of desired services: pruning is stated for containers.
- Refusing updates and passes while an agent is paused for recovery (cleanup permission and recovery mode do see the pause), and the session's handshake, batch and republish timing: they only restrict when a modelled step may happen, so the model has more runs than the agent.
- The work inside a section of `cancelMu`, `wakeMu`, `stateMu` or the cache mutex is one step; the Go memory model is not modelled.
- An acknowledgement reads the summary and is sent in one step: between the two the reconciler moves no position.
- Liveness, timers, backoff and reconnecting; TLS, enrollment, dashboard certificates and dialing; log shipping and its spool; telemetry.
- Log entries whose sink or sequence source is missing, and line identifiers.
