/**
 * A run from a host without a store file in which a cluster mismatch is found during a reconciliation pass: the pass
 * began with permission to prune, the store is in recovery, and the pass still prunes.
 */
module CleanupRace {
  import opened Strings
  import opened Messages
  import opened Validation
  import opened Configuration
  import opened Database
  import opened Agent
  import opened Runs
  import opened Cleanup

  const ENVELOPE := Envelope("agent", "cluster", "session", "", "", 1, Some(MAX_CLOCK_SKEW + 1))

  const SERVICE := DesiredService(
    "web", "web", "", "", 1, 1, ServiceSpec("", false, false, ""), "", "", 0, "", "", "", [], None, 0, Run, None, None)

  /** A checkpoint of the given services at the given cursor. */
  function StateAt(ext: Externals, config: NodeConfig, services: seq<DesiredService>, cursor: nat): DesiredState {
    DesiredState(ENVELOPE, cursor, services, [], None, Some(config), ext.hashNodeConfig(Some(config)), AgentScope, true)
  }

  function CallOf(state: DesiredState, at: Progress): Call {
    Call(Checkpoint(state), "cluster", "session", at)
  }

  /** A store of this agent and cluster that would take the checkpoint. */
  ghost predicate Takes(db: Db, state: DesiredState) {
    && db.meta.agentId == "agent" && db.meta.clusterId in {"", "cluster"} && !db.meta.identityRecovery
    && db.meta.installationId == "" && db.meta.recoveryGeneration == ""
    && Fence(db.meta) <= 1 && (db.meta.acceptedEpoch == 1 ==> db.meta.cursor < state.cursor)
  }

  function Seen(db: Db): Db { db.(meta := db.meta.(highestEpoch := 1)) }

  function Staged(db: Db, state: DesiredState): Db {
    Seen(db).(desired := db.desired.(stagedState := Some(state)))
  }

  lemma IdentifyStage(ext: Externals, db: Db, state: DesiredState)
    requires Takes(db, state)
    ensures Proceed(ext, db, CallOf(state, Identify), 0) == CallStep(db, CallOf(state, Observe))
  {
  }

  lemma ObserveStage(ext: Externals, db: Db, state: DesiredState)
    requires Takes(db, state) && state.env == ENVELOPE
    ensures Proceed(ext, db, CallOf(state, Observe), 0) == CallStep(Seen(db), CallOf(state, Stage))
  {
  }

  lemma StageStage(ext: Externals, db: Db, state: DesiredState)
    requires ValidState(ext, state) && state.env == ENVELOPE
    ensures Proceed(ext, Seen(db), CallOf(state, Stage), 0) == CallStep(Staged(db, state), CallOf(state, Commit))
  {
  }

  lemma CommitStage(ext: Externals, db: Db, state: DesiredState)
    requires Takes(db, state) && state.env == ENVELOPE
    ensures var step := Proceed(ext, Staged(db, state), CallOf(state, Commit), 0);
      step.db == CommitState(Staged(db, state), "cluster", state) && step.call.at.Returned? && step.call.at.out.Done?
  {
  }

  // ---------------------------------------------------------------- segments of a run

  ghost predicate Chained(ext: Externals, worlds: seq<World>, events: seq<WorldEvent>) {
    && |worlds| == |events| + 1
    && forall i :: 0 <= i < |events| ==>
        Possible(ext, worlds[i], events[i]) && worlds[i + 1] == After(ext, worlds[i], events[i])
  }

  lemma Extend(ext: Externals, worlds: seq<World>, events: seq<WorldEvent>, e: WorldEvent)
    requires Chained(ext, worlds, events) && Possible(ext, worlds[|events|], e)
    ensures Chained(ext, worlds + [After(ext, worlds[|events|], e)], events + [e])
  {
    var longer, more := worlds + [After(ext, worlds[|events|], e)], events + [e];
    forall i | 0 <= i < |more|
      ensures Possible(ext, longer[i], more[i]) && longer[i + 1] == After(ext, longer[i], more[i])
    {
      if i < |events| {
        assert longer[i] == worlds[i] && longer[i + 1] == worlds[i + 1] && more[i] == events[i];
      }
    }
  }

  /** The segment is a run whose last world has this node, the same containers and no pass. */
  ghost predicate Leads(
      ext: Externals, worlds: seq<World>, events: seq<WorldEvent>, node: Node, containers: set<string>)
  {
    && Chained(ext, worlds, events)
    && worlds[|events|].node == node && worlds[|events|].containers == containers && worlds[|events|].pass.None?
  }

  lemma Delivers(
      ext: Externals, worlds: seq<World>, events: seq<WorldEvent>, db: Db, containers: set<string>, state: DesiredState)
    returns (ws: seq<World>, es: seq<WorldEvent>)
    requires Leads(ext, worlds, events, Node(File(db), Serving(None)), containers)
    ensures Leads(ext, ws, es, Node(File(db), Serving(Some(CallOf(state, Identify)))), containers) && ws[0] == worlds[0]
  {
    var e := OfNode(Deliver(Checkpoint(state), "cluster", "session"));
    Extend(ext, worlds, events, e);
    ws, es := worlds + [After(ext, worlds[|events|], e)], events + [e];
  }

  lemma Advances(
    ext: Externals, worlds: seq<World>, events: seq<WorldEvent>, db: Db, containers: set<string>, call: Call,
    next: CallStep)
    returns (ws: seq<World>, es: seq<WorldEvent>)
    requires Leads(ext, worlds, events, Node(File(db), Serving(Some(call))), containers)
    requires Proceed(ext, db, call, 0) == next
    ensures Leads(ext, ws, es, Node(File(next.db), Serving(Some(next.call))), containers) && ws[0] == worlds[0]
  {
    var e := OfNode(Advance(0));
    Extend(ext, worlds, events, e);
    ws, es := worlds + [After(ext, worlds[|events|], e)], events + [e];
  }

  lemma Collects(
      ext: Externals, worlds: seq<World>, events: seq<WorldEvent>, db: Db, containers: set<string>, call: Call)
    returns (ws: seq<World>, es: seq<WorldEvent>)
    requires Leads(ext, worlds, events, Node(File(db), Serving(Some(call))), containers) && call.at.Returned?
    ensures Leads(ext, ws, es, Node(File(db), Serving(None)), containers) && ws[0] == worlds[0]
  {
    var e := OfNode(Collect);
    Extend(ext, worlds, events, e);
    ws, es := worlds + [After(ext, worlds[|events|], e)], events + [e];
  }

  ghost function Committed(db: Db, state: DesiredState): Db { CommitState(Staged(db, state), "cluster", state) }

  /** Delivering a checkpoint, advancing the call to its answer, and collecting it. */
  lemma Accepts(
      ext: Externals, worlds: seq<World>, events: seq<WorldEvent>, db: Db, containers: set<string>, state: DesiredState)
    returns (ws: seq<World>, es: seq<WorldEvent>)
    requires Leads(ext, worlds, events, Node(File(db), Serving(None)), containers)
    requires Takes(db, state) && ValidState(ext, state) && state.env == ENVELOPE
    ensures Leads(ext, ws, es, Node(File(Committed(db, state)), Serving(None)), containers) && ws[0] == worlds[0]
  {
    IdentifyStage(ext, db, state);
    ObserveStage(ext, db, state);
    StageStage(ext, db, state);
    CommitStage(ext, db, state);
    var last := Proceed(ext, Staged(db, state), CallOf(state, Commit), 0);
    ws, es := Delivers(ext, worlds, events, db, containers, state);
    ws, es := Advances(ext, ws, es, db, containers, CallOf(state, Identify), CallStep(db, CallOf(state, Observe)));
    ws, es := Advances(ext, ws, es, db, containers, CallOf(state, Observe), CallStep(Seen(db), CallOf(state, Stage)));
    ws, es := Advances(ext, ws, es, Seen(db), containers, CallOf(state, Stage),
      CallStep(Staged(db, state), CallOf(state, Commit)));
    ws, es := Advances(ext, ws, es, Staged(db, state), containers, CallOf(state, Commit), last);
    ws, es := Collects(ext, ws, es, last.db, containers, last.call);
  }

  const BOOTED_META :=
    EMPTY_DB.meta.(formatVersion := FORMAT_VERSION, agentId := "agent", storeId := "store", init := Uninitialized)

  lemma Boots(ext: Externals, w: World)
    requires w == World(Node(NoFile, Down), {}, None, {})
    ensures Possible(ext, w, OfNode(Boot("agent", "store")))
    ensures var after := After(ext, w, OfNode(Boot("agent", "store")));
      after.node == Node(File(EMPTY_DB.(meta := BOOTED_META)), Booted) && after.containers == {} && after.pass.None?
  {
    NotBlank();
    FreshOpens(ext, NoFile, "agent", "store");
  }

  lemma StartsEmpty(ext: Externals, w: World)
    requires w.node == Node(File(EMPTY_DB.(meta := BOOTED_META)), Booted) && w.containers == {} && w.pass.None?
    ensures Possible(ext, w, OfNode(Start([])))
    ensures var after := After(ext, w, OfNode(Start([])));
      && after.node.disk.File? && after.node.phase == Serving(None) && after.node.disk.db.meta == BOOTED_META
      && after.containers == {} && after.pass.None?
  {
    var db := EMPTY_DB.(meta := BOOTED_META);
    assert RequireIdentityTx(db, db.meta.clusterId) == Tx(db, Done(false));
    assert StartupTx(db, "", []).db.meta == BOOTED_META;
  }

  /** The first start of the agent on a host without containers. */
  lemma Starts(ext: Externals) returns (ws: seq<World>, es: seq<WorldEvent>, db: Db)
    ensures Leads(ext, ws, es, Node(File(db), Serving(None)), {})
    ensures ws[0] == World(Node(NoFile, Down), {}, None, {}) && db.meta == BOOTED_META
  {
    var w := World(Node(NoFile, Down), {}, None, {});
    var boot, start := OfNode(Boot("agent", "store")), OfNode(Start([]));
    Boots(ext, w);
    Extend(ext, [w], [], boot);
    var w1 := After(ext, w, boot);
    StartsEmpty(ext, w1);
    Extend(ext, [w] + [w1], [] + [boot], start);
    ws, es := [w] + [w1] + [After(ext, w1, start)], [] + [boot] + [start];
    db := ws[2].node.disk.db;
  }

  /** A pass that creates the desired container. */
  lemma Creates(ext: Externals, worlds: seq<World>, events: seq<WorldEvent>, db: Db, id: string)
    returns (ws: seq<World>, es: seq<WorldEvent>)
    requires Leads(ext, worlds, events, Node(File(db), Serving(None)), {})
    requires db.desired.accepted.Some? && id in ListedIds(db.desired.accepted.value.services)
    ensures Leads(ext, ws, es, Node(File(db), Serving(None)), {id}) && ws[0] == worlds[0]
  {
    ws, es := worlds, events;
    Extend(ext, ws, es, BeginPass(false));
    ws, es := ws + [After(ext, ws[|es|], BeginPass(false))], es + [BeginPass(false)];
    Extend(ext, ws, es, EndPrune);
    ws, es := ws + [After(ext, ws[|es|], EndPrune)], es + [EndPrune];
    Extend(ext, ws, es, Create(id));
    ws, es := ws + [After(ext, ws[|es|], Create(id))], es + [Create(id)];
    Extend(ext, ws, es, EndPass);
    ws, es := ws + [After(ext, ws[|es|], EndPass)], es + [EndPass];
  }

  /** A pass begins with permission, and then the session finds another cluster. */
  lemma Mismatches(ext: Externals, worlds: seq<World>, events: seq<WorldEvent>, db: Db, id: string)
    returns (ws: seq<World>, es: seq<WorldEvent>)
    requires Leads(ext, worlds, events, Node(File(db), Serving(None)), {id})
    requires db.desired.accepted.Some? && ListedIds(db.desired.accepted.value.services) == {} && db.meta.init == Ready
    requires db.meta.clusterId == "cluster" && !db.meta.identityRecovery
    ensures Chained(ext, ws, es) && ws[0] == worlds[0] && |es| > 0 && es[|es| - 1] == OfNode(Require("other"))
    ensures var w := ws[|es|];
      && w.node.disk.File? && w.node.disk.db.meta.init == Recovery
      && w.containers == {id} && w.pass == Some(Pass({}, true, true)) && w.node.phase.Serving?
    ensures ws[|es| - 1].node == Node(File(db), Serving(None))
  {
    ws, es := worlds, events;
    Extend(ext, ws, es, BeginPass(false));
    ws, es := ws + [After(ext, ws[|es|], BeginPass(false))], es + [BeginPass(false)];
    var e := OfNode(Require("other"));
    Extend(ext, ws, es, e);
    ws, es := ws + [After(ext, ws[|es|], e)], es + [e];
  }

  lemma NotBlank()
    ensures !Blank("web") && !Blank("agent")
  {
    assert TrimLeft("web") == "web" && TrimRight("web") == "web";
    assert TrimLeft("agent") == "agent" && TrimRight("agent") == "agent";
  }

  lemma ServiceValid()
    ensures ValidServices([SERVICE]) && ListedIds([SERVICE]) == {"web"}
  {
    NotBlank();
    assert ServiceKey([SERVICE][0]) == "web";
    assert forall i :: 0 <= i < |"web"| ==> RuntimeIdChar("web"[i]);
  }

  lemma StateValid(ext: Externals, config: NodeConfig, services: seq<DesiredService>, cursor: nat)
    requires !Blank(ext.hashNodeConfig(Some(config))) && ValidServices(services)
    ensures var state := StateAt(ext, config, services, cursor);
      ValidState(ext, state) && ListedIds(Cleaned(state).services) == ListedIds(services)
  {
    NotBlank();
    CleanedKeeps(ext, StateAt(ext, config, services, cursor));
  }

  lemma FirstCommit(ext: Externals, config: NodeConfig, db: Db)
    requires Takes(db, StateAt(ext, config, [SERVICE], 1)) && db.meta.init == Uninitialized
    ensures var one := StateAt(ext, config, [SERVICE], 1); var b := Committed(db, one);
      && b.desired.accepted == Some(Cleaned(one)) && b.meta.init == Ready && b.meta.clusterId == "cluster"
      && Takes(b, StateAt(ext, config, [], 2))
  {
  }

  lemma SecondCommit(ext: Externals, config: NodeConfig, db: Db)
    requires Takes(db, StateAt(ext, config, [], 2)) && db.meta.init == Ready && db.meta.clusterId == "cluster"
    ensures var none := StateAt(ext, config, [], 2); var b := Committed(db, none);
      && b.desired.accepted == Some(Cleaned(none)) && b.meta.init == Ready && b.meta.clusterId == "cluster"
      && !b.meta.identityRecovery
  {
  }

  /** The agent has accepted a service, created its container, and accepted a state without it. */
  lemma Prepared(ext: Externals, config: NodeConfig) returns (ws: seq<World>, es: seq<WorldEvent>, db: Db)
    requires !Blank(ext.hashNodeConfig(Some(config)))
    ensures Leads(ext, ws, es, Node(File(db), Serving(None)), {"web"})
    ensures ws[0] == World(Node(NoFile, Down), {}, None, {})
    ensures db.desired.accepted.Some? && ListedIds(db.desired.accepted.value.services) == {} && db.meta.init == Ready
    ensures db.meta.clusterId == "cluster" && !db.meta.identityRecovery
  {
    var one, none := StateAt(ext, config, [SERVICE], 1), StateAt(ext, config, [], 2);
    ServiceValid();
    StateValid(ext, config, [SERVICE], 1);
    StateValid(ext, config, [], 2);
    var first;
    ws, es, first := Starts(ext);
    ws, es := Accepts(ext, ws, es, first, {}, one);
    FirstCommit(ext, config, first);
    ws, es := Creates(ext, ws, es, Committed(first, one), "web");
    ws, es := Accepts(ext, ws, es, Committed(first, one), {"web"}, none);
    SecondCommit(ext, config, Committed(first, one));
    db := Committed(Committed(first, one), none);
    assert ListedIds([]) == {};
  }

  lemma ServingStore(ext: Externals, ws: seq<World>, es: seq<WorldEvent>, i: nat)
    requires IsWorldRun(ext, ws, es) && i < |ws| && ws[i].node.disk.File? && ws[i].node.phase.Serving?
    ensures StoreIs(ext, ws[i], ws[i].node.disk.db.meta.init)
  {
    WorldRunSound(ext, ws, es, i);
  }

  lemma ChainedIsRun(ext: Externals, ws: seq<World>, es: seq<WorldEvent>)
    requires Chained(ext, ws, es) && ws[0] == World(Node(NoFile, Down), {}, None, {})
    ensures IsWorldRun(ext, ws, es)
  {
  }

  /**
   * A run from a host without a store file: the agent accepts a service, creates its container, accepts a state
   * without it and begins a pass; then the session meets another cluster. The store is in recovery, no state covers
   * the inventory, and the pass prunes the container.
   */
  lemma MismatchDuringPass(ext: Externals, config: NodeConfig) returns (ws: seq<World>, es: seq<WorldEvent>, r: nat)
    requires !Blank(ext.hashNodeConfig(Some(config)))
    ensures IsWorldRun(ext, ws, es) && 0 < r < |es| == r + 1
    ensures StoreIs(ext, ws[r - 1], Ready) && es[r - 1] == OfNode(Require("other"))
    ensures StoreIs(ext, ws[r], Recovery) && es[r] == Prune("web")
    ensures "web" in ws[r].containers && "web" !in ws[r + 1].containers && !CoversInventory(ws[r], ws[r + 1])
  {
    var db;
    ws, es, db := Prepared(ext, config);
    ws, es := Mismatches(ext, ws, es, db, "web");
    r := |es|;
    ChainedIsRun(ext, ws, es);
    ServingStore(ext, ws, es, r);
    ServingStore(ext, ws, es, r - 1);
    PermittedPassPrunes(ext, ws, es, "web");
    ws, es := ws + [After(ext, ws[r], Prune("web"))], es + [Prune("web")];
  }
}
