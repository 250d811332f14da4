/**
 * Destructive cleanup: which containers a reconciliation pass may prune. The world is the node, the managed
 * containers on the host and the pass under way; `listed` remembers what accepted states have listed since the
 * store last entered recovery at startup.
 */
module Cleanup {
  import opened Strings
  import opened Keyed
  import opened Messages
  import opened Configuration
  import opened Database
  import opened Records
  import opened Agent
  import opened Runs
  import opened Acceptance

  /**
   * A pass holds the reconcile lock and works from the state and the cleanup permission it read. It prunes first, if
   * it may, and only then creates and removes containers of the services it desires.
   */
  datatype Pass = Pass(desired: set<string>, cleanup: bool, pruning: bool)

  datatype World = World(node: Node, containers: set<string>, pass: Option<Pass>, listed: set<string>)

  datatype WorldEvent =
    | OfNode(event: Event)
    | Corrupt(disk: Disk)
    | Vanish(id: string)
    | BeginPass(paused: bool)
    | Prune(id: string)
    | EndPrune
    | Create(id: string)
    | Remove(id: string)
    | EndPass

  /** Content no opening trusts: it is unreadable, or it fails the startup check. */
  ghost predicate Untrusted(ext: Externals, disk: Disk) {
    forall agentId, freshId {:trigger OpenStore(ext, disk, agentId, freshId)} ::
      OpenStore(ext, disk, agentId, freshId).Opened? ==> OpenStore(ext, disk, agentId, freshId).quarantined
  }

  /** Discovery is exact: only the agent creates managed containers, and it lists them all. */
  ghost predicate Discovers(found: seq<RuntimeResource>, containers: set<string>) {
    Keys(found, ResourceKey) == containers
  }

  /** Commands that take the reconcile lock. */
  predicate Locked(cmd: Command) { !cmd.Replicas? }

  ghost predicate NodeEventFits(w: World, e: Event) {
    && (e.Start? ==> Discovers(e.discovered, w.containers))
    && (e.Inventory? ==> Discovers(e.inventory, w.containers))
    && (e.Advance? && Busy(w.node) && Locked(w.node.phase.call.value.cmd) ==> w.pass.None?)
  }

  /** The pass has permission and has not finished pruning. */
  predicate MayPrune(pass: Pass) { pass.cleanup && pass.pruning }

  ghost predicate Possible(ext: Externals, w: World, e: WorldEvent) {
    match e
    case OfNode(event) => Enabled(w.node, event) && NodeEventFits(w, event)
    case Corrupt(disk) => w.node.phase.Down? && (disk.NoFile? || Untrusted(ext, disk))
    case Vanish(id) => true
    case BeginPass(_) => w.pass.None? && w.node.phase.Serving? && w.node.disk.File?
      && w.node.disk.db.desired.accepted.Some?
    case Prune(id) => w.pass.Some? && MayPrune(w.pass.value) && id in w.containers && id !in w.pass.value.desired
    case EndPrune => w.pass.Some? && w.pass.value.pruning
      && (w.pass.value.cleanup ==> w.containers <= w.pass.value.desired)
    case Create(id) => w.pass.Some? && !w.pass.value.pruning && id in w.pass.value.desired
    case Remove(id) => w.pass.Some? && !w.pass.value.pruning && id in w.pass.value.desired
    case EndPass => w.pass.Some?
  }

  /** Recovery entered at startup: a fresh or replaced store, a new generation, or resources nobody claims. */
  ghost predicate EntersRecovery(ext: Externals, n: Node, e: Event) {
    match e
    case Boot(agentId, freshId) =>
      var open := OpenStore(ext, n.disk, agentId, freshId);
      open.Opened? && (open.quarantined || !n.disk.File? || n.disk.db == EMPTY_DB)
    case Admit(a) => n.disk.File? && AdmitTx(ext, n.disk.db, a).out == Done(true)
    case Start(found) => n.disk.File? && n.disk.db.meta.init == Uninitialized && |found| > 0
    case _ => false
  }

  function AcceptedIds(n: Node): set<string> {
    if n.disk.File? && n.disk.db.desired.accepted.Some? then ListedIds(n.disk.db.desired.accepted.value.services)
      else {}
  }

  ghost function After(ext: Externals, w: World, e: WorldEvent): World
    requires Possible(ext, w, e)
  {
    match e
    case OfNode(event) =>
      var node := Next(ext, w.node, event);
      World(node, w.containers, if node.phase.Serving? then w.pass else None,
            (if EntersRecovery(ext, w.node, event) then {} else w.listed) + AcceptedIds(node))
    case Corrupt(disk) => w.(node := Node(disk, Down))
    case Vanish(id) => w.(containers := w.containers - {id})
    case BeginPass(paused) =>
      w.(pass := Some(Pass(AcceptedIds(w.node), w.node.disk.db.meta.init == Ready && !paused, true)))
    case Prune(id) => w.(containers := w.containers - {id})
    case EndPrune => w.(pass := Some(w.pass.value.(pruning := false)))
    case Create(id) => w.(containers := w.containers + {id})
    case Remove(id) => w.(containers := w.containers - {id})
    case EndPass => w.(pass := None)
  }

  // ---------------------------------------------------------------- the invariant

  function InventoriedIds(inventory: map<string, RuntimeResource>): set<string> {
    set k | k in inventory :: inventory[k].allocationId
  }

  ghost predicate Accounted(db: Db, w: World) {
    && (db.meta.init == Ready ==> w.containers <= w.listed)
    && (w.node.phase.Serving? && db.meta.init == Recovery ==> w.containers <= InventoriedIds(db.inventory) + w.listed)
    && (w.node.phase.Serving? && db.meta.init == Uninitialized ==> w.containers == {})
    && (db.meta.init == Uninitialized ==> db.desired.accepted.None?)
  }

  ghost predicate PassAccounted(w: World) {
    w.pass.Some? ==>
      && w.node.phase.Serving?
      && w.pass.value.desired <= w.listed
      && AcceptedIds(w.node) == w.pass.value.desired
      && w.node.disk.File? && w.node.disk.db.desired.accepted.Some?
      && (w.pass.value.cleanup ==> w.containers <= w.listed)
      && (w.pass.value.cleanup && !w.pass.value.pruning ==> w.containers <= w.pass.value.desired)
  }

  ghost predicate WorldSound(ext: Externals, w: World) {
    && (NodeSound(ext, w.node) || (w.node.phase.Down? && Untrusted(ext, w.node.disk)))
    && (NodeSound(ext, w.node) ==>
          && AcceptedIds(w.node) <= w.listed
          && (w.node.disk.File? ==> Accounted(w.node.disk.db, w)))
    && PassAccounted(w)
  }

  // ---------------------------------------------------------------- node steps

  /** The recovery decision lifts quarantine only over an inventory the new state lists. */
  lemma ReadyMeansCovered(init: Initialization, inventory: map<string, RuntimeResource>, state: DesiredState)
    requires init == Recovery && InitAfterAccept(init, inventory, state) == Ready
    ensures InventoriedIds(inventory) <= ListedIds(state.services)
  {
  }

  /** What one transaction of a call does to the recovery state, the inventory and the listing. */
  ghost predicate CallEffect(a: Db, b: Db) {
    && b.inventory == a.inventory
    && (|| (b.meta.init == a.meta.init && b.desired.accepted.Some? == a.desired.accepted.Some?)
        || (b.meta.init == Recovery && b.desired.accepted == a.desired.accepted)
        || (&& b.desired.accepted.Some?
            && b.meta.init == InitAfterAccept(a.meta.init, a.inventory, b.desired.accepted.value)))
  }

  lemma CheckpointEffect(ext: Externals, db: Db, call: Call, now: int)
    requires call.cmd.Checkpoint?
    ensures CallEffect(db, CommitCallTx(ext, db, call, now).db)
  {
    AcceptStateShape(ext, db, call.clusterId, call.sessionId, call.cmd.state, now);
  }

  lemma DiffEffect(ext: Externals, db: Db, call: Call, now: int)
    requires call.cmd.Diff?
    ensures CallEffect(db, CommitCallTx(ext, db, call, now).db)
  {
    AcceptDiffShape(ext, db, call.clusterId, call.sessionId, call.cmd.diff, now);
  }

  lemma CommitEffect(ext: Externals, db: Db, call: Call, now: int)
    ensures CallEffect(db, CommitCallTx(ext, db, call, now).db)
  {
    match call.cmd
    case Checkpoint(_) => CheckpointEffect(ext, db, call, now);
    case Diff(_) => DiffEffect(ext, db, call, now);
    case NodeConfiguration(update) => AcceptNodeConfigShape(ext, db, call.clusterId, call.sessionId, update, now);
    case Credentials(creds) => AcceptCredentialsShape(db, call.clusterId, call.sessionId, creds, now);
    case Replicas(replicas) => AcceptReplicasShape(db, call.clusterId, call.sessionId, replicas, now);
  }

  lemma ProceedEffect(ext: Externals, db: Db, call: Call, now: int)
    ensures CallEffect(db, Proceed(ext, db, call, now).db)
  {
    if call.at == Commit {
      CommitEffect(ext, db, call, now);
    } else if call.at == Stage {
      assert StageCallTx(ext, db, call, now).db.meta == db.meta;
    }
  }

  /** A call that does not take the lock leaves the accepted state alone. */
  lemma UnlockedKeepsAccepted(ext: Externals, db: Db, call: Call, now: int)
    requires !Locked(call.cmd)
    ensures Proceed(ext, db, call, now).db.desired.accepted == db.desired.accepted
  {
    AcceptReplicasShape(db, call.clusterId, call.sessionId, call.cmd.replicas, now);
  }

  /** A transaction with the effect of a call keeps the store's account of the containers. */
  lemma EffectAccounted(a: Db, b: Db, w: World, after: World)
    requires CallEffect(a, b) && Accounted(a, w) && w.node.phase.Serving? && after.node.phase.Serving?
    requires a.meta.init in {Uninitialized, Ready, Recovery}
    requires after.containers == w.containers && after.listed == w.listed + AcceptedIds(after.node)
    requires after.node.disk == File(b)
    ensures Accounted(b, after)
  {
    if a.meta.init == Recovery && b.meta.init == Ready {
      ReadyMeansCovered(a.meta.init, a.inventory, b.desired.accepted.value);
    }
  }

  lemma AdvanceAccounted(ext: Externals, w: World, now: int)
    requires Busy(w.node) && NodeEventFits(w, Advance(now)) && Accounted(w.node.disk.db, w) && PassAccounted(w)
    requires w.node.disk.db.meta.init in {Uninitialized, Ready, Recovery}
    ensures var after := After(ext, w, OfNode(Advance(now)));
      Accounted(after.node.disk.db, after) && PassAccounted(after)
  {
    var db, call := w.node.disk.db, w.node.phase.call.value;
    ProceedEffect(ext, db, call, now);
    EffectAccounted(db, Proceed(ext, db, call, now).db, w, After(ext, w, OfNode(Advance(now))));
    if !Locked(call.cmd) {
      UnlockedKeepsAccepted(ext, db, call, now);
    }
  }

  lemma InventoryIdsOf(found: seq<RuntimeResource>)
    ensures InventoriedIds(Index(found, InventoryKey)) == Keys(found, ResourceKey)
  {
    IndexDomain(found, InventoryKey);
    var bucket := Index(found, InventoryKey);
    forall id | id in Keys(found, ResourceKey) ensures id in InventoriedIds(bucket) {
      var i :| 0 <= i < |found| && found[i].allocationId == id;
      var k := InventoryKey(found[i]);
      assert k in Keys(found, InventoryKey);
      KeyNamesAllocation(bucket[k], found[i]);
    }
    forall id | id in InventoriedIds(bucket) ensures id in Keys(found, ResourceKey) {
      var k :| k in bucket && bucket[k].allocationId == id;
      var i :| 0 <= i < |found| && found[i] == bucket[k];
      assert ResourceKey(found[i]) == id;
    }
  }

  lemma KeyNamesAllocation(a: RuntimeResource, b: RuntimeResource)
    requires InventoryKey(a) == InventoryKey(b)
    ensures a.allocationId == b.allocationId
  {
    assert InventoryKey(a)[|"allocation:"|..] == a.allocationId && InventoryKey(b)[|"allocation:"|..] == b.allocationId;
  }

  lemma StartAccounted(ext: Externals, w: World, found: seq<RuntimeResource>)
    requires WorldSound(ext, w) && Possible(ext, w, OfNode(Start(found))) && NodeSound(ext, w.node)
    ensures var after := After(ext, w, OfNode(Start(found)));
      Accounted(after.node.disk.db, after) && PassAccounted(after)
  {
    InventoryIdsOf(found);
    var db := w.node.disk.db;
    assert RequireIdentityTx(db, db.meta.clusterId).db == db;
    if |found| > 0 {
      assert ResourceKey(found[0]) in w.containers;
    }
  }

  lemma InventoryAccounted(ext: Externals, w: World, found: seq<RuntimeResource>)
    requires WorldSound(ext, w) && Possible(ext, w, OfNode(Inventory(found))) && NodeSound(ext, w.node)
    ensures var after := After(ext, w, OfNode(Inventory(found)));
      Accounted(after.node.disk.db, after) && PassAccounted(after)
  {
    InventoryIdsOf(found);
  }

  lemma BootAccounted(ext: Externals, w: World, agentId: string, freshId: string)
    requires WorldSound(ext, w) && w.node.phase.Down?
    ensures var after := After(ext, w, OfNode(Boot(agentId, freshId)));
      && WorldSound(ext, after)
  {
    var n := w.node;
    var open := OpenStore(ext, n.disk, agentId, freshId);
    if open.Opened? {
      if NodeSound(ext, n) {
        if n.disk.NoFile? || n.disk == File(EMPTY_DB) {
          FreshOpens(ext, n.disk, agentId, freshId);
        } else {
          SoundReopens(ext, n.disk.db, freshId);
        }
      } else {
        OpenedIsValid(ext, n.disk, agentId, freshId);
      }
    }
  }

  lemma AdmitAccounted(ext: Externals, w: World, a: Authority)
    requires WorldSound(ext, w) && Possible(ext, w, OfNode(Admit(a))) && NodeSound(ext, w.node)
    ensures var after := After(ext, w, OfNode(Admit(a)));
      Accounted(after.node.disk.db, after) && PassAccounted(after)
  {
    var tx := AdmitTx(ext, w.node.disk.db, a);
    if tx.out != Done(true) {
      assert tx.db.meta.init == w.node.disk.db.meta.init && tx.db.desired == w.node.disk.db.desired;
    }
  }

  /** Every other transaction keeps the accepted state and the inventory, and at most enters recovery. */
  ghost predicate KeepsClaims(a: Node, b: Node) {
    && (b.disk.File? && a.disk.File? ==>
          && b.disk.db.inventory == a.disk.db.inventory && b.disk.db.desired.accepted == a.disk.db.desired.accepted
          && (b.disk.db.meta.init == a.disk.db.meta.init || b.disk.db.meta.init == Recovery))
    && (b.disk.File? && !a.disk.File? ==> b.disk.db == EMPTY_DB)
    && (a.disk.File? ==> b.disk.File?)
    && (b.phase.Serving? ==> a.phase.Serving?)
  }

  predicate Plain(e: Event) {
    !e.Boot? && !e.Admit? && !e.Start? && !e.Advance? && !e.Inventory?
  }

  lemma PlainKeepsClaims(ext: Externals, n: Node, e: Event)
    requires Enabled(n, e) && Plain(e)
    ensures KeepsClaims(n, Next(ext, n, e))
  {
  }

  lemma PlainAccounted(ext: Externals, w: World, e: Event)
    requires WorldSound(ext, w) && Possible(ext, w, OfNode(e)) && NodeSound(ext, w.node) && Plain(e)
    ensures var after := After(ext, w, OfNode(e));
      (after.node.disk.File? ==> Accounted(after.node.disk.db, after)) && PassAccounted(after)
  {
    PlainKeepsClaims(ext, w.node, e);
  }

  lemma NodeStepAccounted(ext: Externals, w: World, e: Event)
    requires WorldSound(ext, w) && NodeSound(ext, w.node) && Possible(ext, w, OfNode(e)) && !e.Boot?
    ensures var after := After(ext, w, OfNode(e));
      (after.node.disk.File? ==> Accounted(after.node.disk.db, after)) && PassAccounted(after)
  {
    if Plain(e) {
      PlainAccounted(ext, w, e);
    } else {
      match e
      case Admit(a) => AdmitAccounted(ext, w, a);
      case Start(found) => StartAccounted(ext, w, found);
      case Advance(now) => AdvanceAccounted(ext, w, now);
      case Inventory(found) => InventoryAccounted(ext, w, found);
    }
  }

  lemma NodeStepSound(ext: Externals, w: World, e: Event)
    requires WorldSound(ext, w) && Possible(ext, w, OfNode(e))
    ensures WorldSound(ext, After(ext, w, OfNode(e)))
  {
    if e.Boot? {
      BootAccounted(ext, w, e.agentId, e.freshId);
    } else if !NodeSound(ext, w.node) {
      assert e == Crash;
    } else {
      StepSound(ext, w.node, e);
      NodeStepAccounted(ext, w, e);
    }
  }

  lemma FreshIsTrusted(ext: Externals, disk: Disk)
    requires disk.NoFile? || disk == File(EMPTY_DB)
    ensures !Untrusted(ext, disk)
  {
    FreshOpens(ext, disk, "agent", "store");
  }

  lemma SoundIsTrusted(ext: Externals, db: Db)
    requires Sound(ext, db)
    ensures !Untrusted(ext, File(db))
  {
    SoundReopens(ext, db, "store");
  }

  /** Untrusted content is never something the agent wrote. */
  lemma UntrustedIsNotSound(ext: Externals, disk: Disk)
    ensures Untrusted(ext, disk) ==> !NodeSound(ext, Node(disk, Down))
  {
    if disk.NoFile? || disk == File(EMPTY_DB) {
      FreshIsTrusted(ext, disk);
    } else if disk.File? && Sound(ext, disk.db) {
      SoundIsTrusted(ext, disk.db);
    }
  }

  lemma WorldStepSound(ext: Externals, w: World, e: WorldEvent)
    requires WorldSound(ext, w) && Possible(ext, w, e)
    ensures WorldSound(ext, After(ext, w, e))
  {
    match e
    case OfNode(event) => NodeStepSound(ext, w, event);
    case Corrupt(disk) => UntrustedIsNotSound(ext, disk);
    case _ =>
  }

  // ---------------------------------------------------------------- whole runs

  /** A run from a host without a store file, whatever containers it holds. */
  ghost predicate IsWorldRun(ext: Externals, worlds: seq<World>, events: seq<WorldEvent>) {
    && |worlds| == |events| + 1
    && worlds[0] == World(Node(NoFile, Down), worlds[0].containers, None, {})
    && forall i :: 0 <= i < |events| ==>
        Possible(ext, worlds[i], events[i]) && worlds[i + 1] == After(ext, worlds[i], events[i])
  }

  lemma {:induction false} WorldRunSound(ext: Externals, worlds: seq<World>, events: seq<WorldEvent>, i: nat)
    requires IsWorldRun(ext, worlds, events) && i < |worlds|
    ensures WorldSound(ext, worlds[i])
  {
    if i > 0 {
      WorldRunSound(ext, worlds, events, i - 1);
      WorldStepSound(ext, worlds[i - 1], events[i - 1]);
    }
  }

  ghost predicate RecoveryEntered(ext: Externals, w: World, e: WorldEvent) {
    e.OfNode? && EntersRecovery(ext, w.node, e.event)
  }

  /** What is remembered as listed was listed by a state accepted since recovery was last entered at startup. */
  lemma {:induction false} ListedWasAccepted(
      ext: Externals, worlds: seq<World>, events: seq<WorldEvent>, i: nat, id: string)
    returns (k: nat)
    requires IsWorldRun(ext, worlds, events) && i < |worlds| && id in worlds[i].listed
    ensures k <= i && id in AcceptedIds(worlds[k].node)
    ensures forall m :: k <= m < i ==> !RecoveryEntered(ext, worlds[m], events[m])
  {
    if id in AcceptedIds(worlds[i].node) {
      k := i;
    } else {
      assert i > 0;
      assert Possible(ext, worlds[i - 1], events[i - 1]) && worlds[i] == After(ext, worlds[i - 1], events[i - 1]);
      k := ListedWasAccepted(ext, worlds, events, i - 1, id);
    }
  }

  /**
   * Every allocation ever pruned was listed by a state accepted since recovery was last entered at startup:
   * corruption, an unknown inventory and a new generation never let a pass remove what nobody has claimed since.
   */
  lemma PrunedWasListed(ext: Externals, worlds: seq<World>, events: seq<WorldEvent>, i: nat) returns (k: nat)
    requires IsWorldRun(ext, worlds, events) && i < |events| && events[i].Prune?
    ensures k <= i && events[i].id in AcceptedIds(worlds[k].node)
    ensures forall m :: k <= m < i ==> !RecoveryEntered(ext, worlds[m], events[m])
  {
    WorldRunSound(ext, worlds, events, i);
    assert Possible(ext, worlds[i], events[i]);
    k := ListedWasAccepted(ext, worlds, events, i, events[i].id);
  }

  // ---------------------------------------------------------------- leaving recovery

  /** A store the agent vouches for, in the given initialization state. */
  ghost predicate StoreIs(ext: Externals, w: World, init: Initialization) {
    NodeSound(ext, w.node) && w.node.disk.File? && w.node.disk.db.meta.init == init
  }

  /** The step at which one accepted state covers the whole inventory. */
  ghost predicate CoversInventory(a: World, b: World) {
    && a.node.disk.File? && b.node.disk.File?
    && a.node.disk.db.meta.init == Recovery && b.node.disk.db.meta.init == Ready
    && b.node.disk.db.desired.accepted.Some?
    && InventoriedIds(a.node.disk.db.inventory) <= AcceptedIds(b.node)
  }

  lemma AdvanceBecomesReady(ext: Externals, w: World, now: int)
    requires NodeSound(ext, w.node) && Busy(w.node) && Possible(ext, w, OfNode(Advance(now)))
    requires w.node.disk.db.meta.init != Ready && After(ext, w, OfNode(Advance(now))).node.disk.db.meta.init == Ready
    ensures w.node.disk.db.meta.init == Recovery ==> CoversInventory(w, After(ext, w, OfNode(Advance(now))))
    ensures w.node.disk.db.meta.init in {Recovery, Uninitialized}
  {
    var db, call := w.node.disk.db, w.node.phase.call.value;
    ProceedEffect(ext, db, call, now);
    if db.meta.init == Recovery {
      ReadyMeansCovered(db.meta.init, db.inventory, Proceed(ext, db, call, now).db.desired.accepted.value);
    }
  }

  lemma BootKeepsInitialization(ext: Externals, w: World, agentId: string, freshId: string)
    requires WorldSound(ext, w) && w.node.phase.Down?
    ensures var e := OfNode(Boot(agentId, freshId));
      && (!StoreIs(ext, w, Ready) ==> !StoreIs(ext, After(ext, w, e), Ready))
      && (!StoreIs(ext, w, Uninitialized) && !RecoveryEntered(ext, w, e) ==>
            !StoreIs(ext, After(ext, w, e), Uninitialized))
  {
    var n := w.node;
    OpenedIsValid(ext, n.disk, agentId, freshId);
    if !Blank(agentId) && NodeSound(ext, n) {
      if n.disk.NoFile? || n.disk == File(EMPTY_DB) {
        FreshOpens(ext, n.disk, agentId, freshId);
      } else if n.disk.db.meta.agentId == agentId {
        SoundReopens(ext, n.disk.db, freshId);
      }
    }
  }

  /** Apart from opening a store and advancing a call, a step at most enters recovery. */
  lemma InitializationKept(ext: Externals, n: Node, e: Event)
    requires Enabled(n, e) && !e.Boot? && !e.Advance?
    ensures var next := Next(ext, n, e);
      next.disk.File? ==>
        next.disk.db.meta.init in {Recovery, Unset} || (n.disk.File? && next.disk.db.meta.init == n.disk.db.meta.init)
  {
    if Plain(e) {
      PlainKeepsClaims(ext, n, e);
    }
  }

  /** A store becomes ready only by accepting a state, which covers the inventory when the store was in recovery. */
  lemma BecomesReady(ext: Externals, w: World, e: WorldEvent)
    requires WorldSound(ext, w) && Possible(ext, w, e)
    requires !StoreIs(ext, w, Ready) && StoreIs(ext, After(ext, w, e), Ready)
    ensures StoreIs(ext, w, Uninitialized) || CoversInventory(w, After(ext, w, e))
  {
    match e
    case OfNode(event) => {
      if event.Boot? {
        BootKeepsInitialization(ext, w, event.agentId, event.freshId);
      } else if event.Advance? {
        AdvanceBecomesReady(ext, w, event.now);
      } else {
        InitializationKept(ext, w.node, event);
      }
    }
    case Corrupt(disk) => UntrustedIsNotSound(ext, disk);
    case _ =>
  }

  lemma StaysInitialized(ext: Externals, w: World, e: WorldEvent)
    requires WorldSound(ext, w) && Possible(ext, w, e)
    requires !StoreIs(ext, w, Uninitialized) && !RecoveryEntered(ext, w, e)
    ensures !StoreIs(ext, After(ext, w, e), Uninitialized)
  {
    match e
    case OfNode(event) => {
      if event.Boot? {
        BootKeepsInitialization(ext, w, event.agentId, event.freshId);
      } else if event.Advance? {
        ProceedEffect(ext, w.node.disk.db, w.node.phase.call.value, event.now);
      } else {
        InitializationKept(ext, w.node, event);
      }
    }
    case Corrupt(disk) => UntrustedIsNotSound(ext, disk);
    case _ =>
  }

  /** A pass that may prune is the one under way before, or it began just now while the store was ready. */
  lemma PassStep(ext: Externals, w: World, e: WorldEvent)
    requires WorldSound(ext, w) && Possible(ext, w, e)
    requires var after := After(ext, w, e); after.pass.Some? && MayPrune(after.pass.value)
    ensures w.pass == After(ext, w, e).pass || StoreIs(ext, w, Ready)
  {
  }

  // ---------------------------------------------------------------- runs seen from the recovery state and the pass

  datatype Mark = Mark(ready: bool, uninitialized: bool, pass: Option<Pass>)

  /** The marks of a run, and which of its steps enter recovery at startup or cover the inventory. */
  datatype Trail = Trail(marks: seq<Mark>, entered: seq<bool>, covered: seq<bool>)

  predicate MarkStep(a: Mark, b: Mark, entered: bool, covered: bool) {
    && (!a.ready && b.ready ==> a.uninitialized || covered)
    && (!a.uninitialized && !entered ==> !b.uninitialized)
    && (b.pass.Some? && MayPrune(b.pass.value) ==> a.pass == b.pass || a.ready)
  }

  ghost predicate IsTrail(t: Trail) {
    && |t.marks| == |t.entered| + 1 && |t.covered| == |t.entered|
    && forall i :: 0 <= i < |t.entered| ==> MarkStep(t.marks[i], t.marks[i + 1], t.entered[i], t.covered[i])
  }

  ghost function MarkOf(ext: Externals, w: World): Mark {
    Mark(StoreIs(ext, w, Ready), StoreIs(ext, w, Uninitialized), w.pass)
  }

  ghost function TrailOf(ext: Externals, worlds: seq<World>, events: seq<WorldEvent>): Trail
    requires |worlds| == |events| + 1
  {
    Trail(seq(|worlds|, i requires 0 <= i < |worlds| => MarkOf(ext, worlds[i])),
          seq(|events|, i requires 0 <= i < |events| => RecoveryEntered(ext, worlds[i], events[i])),
          seq(|events|, i requires 0 <= i < |events| => CoversInventory(worlds[i], worlds[i + 1])))
  }

  lemma StepIsMarked(ext: Externals, w: World, e: WorldEvent)
    requires WorldSound(ext, w) && Possible(ext, w, e)
    ensures var after := After(ext, w, e);
      MarkStep(MarkOf(ext, w), MarkOf(ext, after), RecoveryEntered(ext, w, e), CoversInventory(w, after))
  {
    var a, b := MarkOf(ext, w), MarkOf(ext, After(ext, w, e));
    if !a.ready && b.ready {
      BecomesReady(ext, w, e);
    }
    if !a.uninitialized && !RecoveryEntered(ext, w, e) {
      StaysInitialized(ext, w, e);
    }
    if b.pass.Some? && MayPrune(b.pass.value) {
      PassStep(ext, w, e);
    }
  }

  lemma RunStepIsMarked(ext: Externals, worlds: seq<World>, events: seq<WorldEvent>, i: nat)
    requires IsWorldRun(ext, worlds, events) && i < |events|
    ensures MarkStep(MarkOf(ext, worlds[i]), MarkOf(ext, worlds[i + 1]),
                     RecoveryEntered(ext, worlds[i], events[i]), CoversInventory(worlds[i], worlds[i + 1]))
  {
    WorldRunSound(ext, worlds, events, i);
    StepIsMarked(ext, worlds[i], events[i]);
  }

  lemma RunsAreTrails(ext: Externals, worlds: seq<World>, events: seq<WorldEvent>)
    requires IsWorldRun(ext, worlds, events)
    ensures IsTrail(TrailOf(ext, worlds, events))
  {
    var t := TrailOf(ext, worlds, events);
    forall i | 0 <= i < |events| ensures MarkStep(t.marks[i], t.marks[i + 1], t.entered[i], t.covered[i]) {
      RunStepIsMarked(ext, worlds, events, i);
    }
  }

  /** From a store in recovery, with recovery not entered again, nothing is uninitialized any more. */
  lemma {:induction false} TrailStaysInitialized(t: Trail, r: nat, j: nat)
    requires IsTrail(t) && r <= j < |t.marks| && !t.marks[r].uninitialized
    requires forall m :: r <= m < j ==> !t.entered[m]
    ensures !t.marks[j].uninitialized
  {
    if r < j {
      TrailStaysInitialized(t, r, j - 1);
      assert MarkStep(t.marks[j - 1], t.marks[j], t.entered[j - 1], t.covered[j - 1]);
    }
  }

  /** A store that was not ready and is has had its inventory covered in between. */
  lemma {:induction false} TrailReadyWasCovered(t: Trail, r: nat, j: nat)
    requires IsTrail(t) && r <= j < |t.marks|
    requires !t.marks[r].uninitialized && !t.marks[r].ready && forall m :: r <= m < j ==> !t.entered[m]
    requires forall k :: r <= k < j ==> !t.covered[k]
    ensures !t.marks[j].ready
  {
    if r < j {
      TrailReadyWasCovered(t, r, j - 1);
      TrailStaysInitialized(t, r, j - 1);
      assert MarkStep(t.marks[j - 1], t.marks[j], t.entered[j - 1], t.covered[j - 1]);
    }
  }

  lemma {:induction false} TrailPassIsOlder(t: Trail, r: nat, i: nat)
    requires IsTrail(t) && r <= i < |t.marks|
    requires !t.marks[r].uninitialized && !t.marks[r].ready && forall m :: r <= m < i ==> !t.entered[m]
    requires forall k :: r <= k < i ==> !t.covered[k]
    requires t.marks[i].pass.Some? && MayPrune(t.marks[i].pass.value)
    ensures forall m :: r <= m <= i ==> t.marks[m].pass == t.marks[i].pass
  {
    if r < i {
      TrailReadyWasCovered(t, r, i - 1);
      assert MarkStep(t.marks[i - 1], t.marks[i], t.entered[i - 1], t.covered[i - 1]);
      TrailPassIsOlder(t, r, i - 1);
    }
  }

  ghost predicate Undisturbed(ext: Externals, worlds: seq<World>, events: seq<WorldEvent>, from: nat, to: nat)
    requires to <= |events| <= |worlds|
  {
    forall m :: from <= m < to ==> !RecoveryEntered(ext, worlds[m], events[m])
  }

  ghost predicate Uncovered(worlds: seq<World>, from: nat, to: nat)
    requires to < |worlds|
  {
    forall k :: from <= k < to ==> !CoversInventory(worlds[k], worlds[k + 1])
  }

  lemma TrailFacts(ext: Externals, worlds: seq<World>, events: seq<WorldEvent>, r: nat, i: nat)
    requires |worlds| == |events| + 1 && r <= i < |worlds|
    requires Undisturbed(ext, worlds, events, r, i) && Uncovered(worlds, r, i)
    ensures var t := TrailOf(ext, worlds, events); forall m :: r <= m < i ==> !t.entered[m] && !t.covered[m]
  {
  }

  /**
   * A pass that may prune in recovery, before any accepted state covers the inventory, is the very pass that was under
   * way, with permission and still pruning, when recovery was entered; it has not ended since.
   */
  lemma UncoveredPruneIsOlder(ext: Externals, worlds: seq<World>, events: seq<WorldEvent>, r: nat, i: nat)
    requires IsWorldRun(ext, worlds, events) && r <= i < |worlds| && StoreIs(ext, worlds[r], Recovery)
    requires worlds[i].pass.Some? && MayPrune(worlds[i].pass.value)
    requires Undisturbed(ext, worlds, events, r, i) && Uncovered(worlds, r, i)
    ensures forall m :: r <= m <= i ==> worlds[m].pass == worlds[i].pass
  {
    var t := TrailOf(ext, worlds, events);
    RunsAreTrails(ext, worlds, events);
    TrailFacts(ext, worlds, events, r, i);
    TrailPassIsOlder(t, r, i);
    forall m | r <= m <= i ensures worlds[m].pass == worlds[i].pass {
      assert t.marks[m].pass == worlds[m].pass;
    }
  }

  /**
   * In recovery, nothing is pruned until one accepted state covers the whole inventory, except by a pass that was
   * pruning with permission when recovery was entered and still is: the prune is preceded by such a step, or it is
   * that pass's.
   */
  lemma PruneAwaitsCoverage(ext: Externals, worlds: seq<World>, events: seq<WorldEvent>, r: nat, i: nat)
    requires IsWorldRun(ext, worlds, events) && r <= i < |events| && events[i].Prune?
    requires StoreIs(ext, worlds[r], Recovery) && Undisturbed(ext, worlds, events, r, i)
    ensures
      || (exists k :: r <= k < i && CoversInventory(worlds[k], worlds[k + 1]))
      || (&& worlds[r].pass.Some? && MayPrune(worlds[r].pass.value)
          && forall m :: r <= m <= i ==> worlds[m].pass == worlds[r].pass)
  {
    assert Possible(ext, worlds[i], events[i]);
    if Uncovered(worlds, r, i) {
      UncoveredPruneIsOlder(ext, worlds, events, r, i);
    }
  }

  /** Once a pass with permission has pruned, every managed container is one it desires, for as long as it runs. */
  lemma WorkersFindOnlyDesired(ext: Externals, worlds: seq<World>, events: seq<WorldEvent>, i: nat)
    requires IsWorldRun(ext, worlds, events) && i < |worlds|
    requires worlds[i].pass.Some? && worlds[i].pass.value.cleanup && !worlds[i].pass.value.pruning
    ensures worlds[i].containers <= worlds[i].pass.value.desired && worlds[i].pass.value.desired <= worlds[i].listed
  {
    WorldRunSound(ext, worlds, events, i);
  }

  /**
   * And such a pass can prune: any run that ends in recovery while it is pruning goes on with the prune of an
   * undesired container.
   */
  lemma PermittedPassPrunes(ext: Externals, worlds: seq<World>, events: seq<WorldEvent>, id: string)
    requires IsWorldRun(ext, worlds, events)
    requires var w := worlds[|events|];
      && StoreIs(ext, w, Recovery) && w.pass.Some? && MayPrune(w.pass.value)
      && id in w.containers && id !in w.pass.value.desired
    ensures var after := After(ext, worlds[|events|], Prune(id));
      && IsWorldRun(ext, worlds + [after], events + [Prune(id)])
      && id !in after.containers && !CoversInventory(worlds[|events|], after) && StoreIs(ext, after, Recovery)
  {
    var w := worlds[|events|];
    var longer, more := worlds + [After(ext, w, Prune(id))], events + [Prune(id)];
    forall i | 0 <= i < |more|
      ensures Possible(ext, longer[i], more[i]) && longer[i + 1] == After(ext, longer[i], more[i])
    {
      if i < |events| {
        assert longer[i] == worlds[i] && longer[i + 1] == worlds[i + 1] && more[i] == events[i];
      }
    }
  }

  /** The step commits a checkpoint, or applies a diff. */
  ghost predicate AcceptsState(ext: Externals, n: Node, e: Event) {
    && Busy(n) && e.Advance? && n.phase.call.value.at == Commit
    && var out := CommitCallTx(ext, n.disk.db, n.phase.call.value, e.now).out;
       (n.phase.call.value.cmd.Checkpoint? && out.Done?) || (n.phase.call.value.cmd.Diff? && out == Done(true))
  }

  lemma CoverageIsInclusion(state: DesiredState, inventory: map<string, RuntimeResource>)
    ensures Covers(state, inventory) <==> InventoriedIds(inventory) <= ListedIds(state.services)
  {
    if Covers(state, inventory) {
      forall id | id in InventoriedIds(inventory) ensures id in ListedIds(state.services) {
        var k :| k in inventory && inventory[k].allocationId == id;
        var i :| 0 <= i < |state.services| && state.services[i].allocationId == id;
        assert ServiceKey(state.services[i]) == id;
      }
    }
    if InventoriedIds(inventory) <= ListedIds(state.services) {
      forall k | k in inventory
        ensures exists i :: 0 <= i < |state.services| && state.services[i].allocationId == inventory[k].allocationId
      {
        assert inventory[k].allocationId in InventoriedIds(inventory);
        var i :| 0 <= i < |state.services| && ServiceKey(state.services[i]) == inventory[k].allocationId;
      }
    }
  }

  /** The acceptance of a state decides a store in recovery: ready exactly when the state covers the inventory. */
  lemma AcceptanceDecides(ext: Externals, w: World, e: Event)
    requires Possible(ext, w, OfNode(e)) && AcceptsState(ext, w.node, e) && w.node.disk.db.meta.init == Recovery
    ensures var after := After(ext, w, OfNode(e));
      && after.node.disk.File? && after.node.disk.db.desired.accepted.Some?
      && (after.node.disk.db.meta.init == Ready <==>
            InventoriedIds(w.node.disk.db.inventory) <= AcceptedIds(after.node))
      && (after.node.disk.db.meta.init != Ready ==> after.node.disk.db.meta.init == Recovery)
  {
    var db, call := w.node.disk.db, w.node.phase.call.value;
    if call.cmd.Checkpoint? {
      CheckpointDecides(ext, db, call.clusterId, call.sessionId, call.cmd.state, e.now);
    } else {
      DiffDecides(ext, db, call.clusterId, call.sessionId, call.cmd.diff, e.now);
    }
    CoverageIsInclusion(After(ext, w, OfNode(e)).node.disk.db.desired.accepted.value, db.inventory);
  }

  /**
   * In every run, a store in recovery that accepts a state is ready after that step exactly when the state covers it.
   */
  lemma RecoveryEndsOnCoverage(ext: Externals, worlds: seq<World>, events: seq<WorldEvent>, i: nat)
    requires IsWorldRun(ext, worlds, events) && i < |events| && StoreIs(ext, worlds[i], Recovery)
    requires events[i].OfNode? && AcceptsState(ext, worlds[i].node, events[i].event)
    ensures worlds[i + 1].node.disk.File?
    ensures worlds[i + 1].node.disk.db.meta.init == Ready <==>
      InventoriedIds(worlds[i].node.disk.db.inventory) <= AcceptedIds(worlds[i + 1].node)
  {
    assert Possible(ext, worlds[i], events[i]) && worlds[i + 1] == After(ext, worlds[i], events[i]);
    AcceptanceDecides(ext, worlds[i], events[i].event);
  }

  /**
   * A ready store lets an unpaused pass prune whatever the accepted state does not list; a pass that is paused,
     or whose
   * store is not ready, may prune nothing.
   */
  lemma ReadyPassPrunes(ext: Externals, w: World, paused: bool, id: string)
    requires Possible(ext, w, BeginPass(paused)) && id in w.containers && id !in AcceptedIds(w.node)
    ensures Possible(ext, After(ext, w, BeginPass(paused)), Prune(id)) <==> w.node.disk.db.meta.init == Ready && !paused
  {
  }
}
