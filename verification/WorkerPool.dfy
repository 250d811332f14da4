/**
 * A runtime pass: services grouped by shared volume, groups handed to at most four workers, conditions collected
 * by index, with cancellation at any moment.
 */
module WorkerPool {
  import opened Strings
  import opened Messages

  const CONCURRENCY := 4

  // ---------------------------------------------------------------- grouping

  function VolumesOf(services: seq<DesiredService>): (volumes: seq<string>)
    ensures |volumes| == |services|
  {
    seq(|services|, i requires 0 <= i < |services| => services[i].volumeId)
  }

  predicate InGroup(groups: seq<seq<nat>>, g: nat, k: nat) {
    g < |groups| && k < |groups[g]|
  }

  ghost predicate Placed(groups: seq<seq<nat>>, i: nat) {
    exists g: nat, k: nat :: InGroup(groups, g, k) && groups[g][k] == i
  }

  /** Each of the first n services has one place, and groups list services in order; no group is empty. */
  ghost predicate Partition(groups: seq<seq<nat>>, n: nat) {
    && (forall g :: 0 <= g < |groups| ==> |groups[g]| > 0)
    && (forall g: nat, k: nat :: InGroup(groups, g, k) ==> groups[g][k] < n)
    && (forall g: nat, k: nat, l: nat :: InGroup(groups, g, k) && InGroup(groups, g, l) && k < l ==>
          groups[g][k] < groups[g][l])
    && (forall g: nat, h: nat, k: nat, l: nat ::
          InGroup(groups, g, k) && InGroup(groups, h, l) && groups[g][k] == groups[h][l] ==> g == h)
    && (forall i: nat :: i < n ==> Placed(groups, i))
  }

  /** A member with a volume is in that volume's group; a member without one is alone. */
  predicate FitsIndex(volumes: seq<string>, groups: seq<seq<nat>>, index: map<string, nat>, g: nat, k: nat)
    requires InGroup(groups, g, k)
  {
    && groups[g][k] < |volumes|
    && var v := volumes[groups[g][k]];
       if v == "" then |groups[g]| == 1 && g !in index.Values else v in index && index[v] == g
  }

  ghost predicate Indexed(volumes: seq<string>, groups: seq<seq<nat>>, index: map<string, nat>) {
    && (forall v :: v in index ==> index[v] < |groups|)
    && (forall v, w :: v in index && w in index && index[v] == index[w] ==> v == w)
    && (forall g: nat, k: nat :: InGroup(groups, g, k) ==> FitsIndex(volumes, groups, index, g, k))
  }

  /** Two services are in one group exactly when they share a volume. */
  ghost predicate GroupsOf(volumes: seq<string>, groups: seq<seq<nat>>) {
    && Partition(groups, |volumes|)
    && (forall g: nat, h: nat, k: nat, l: nat {:trigger InGroup(groups, g, k), InGroup(groups, h, l)} ::
          InGroup(groups, g, k) && InGroup(groups, h, l) && groups[g][k] != groups[h][l] ==>
            (g == h <==> volumes[groups[g][k]] == volumes[groups[h][l]] != ""))
  }

  lemma Grew(groups: seq<seq<nat>>, more: seq<seq<nat>>, i: nat, at: nat, pos: nat)
    requires Partition(groups, i)
    requires InGroup(more, at, pos) && more[at][pos] == i && pos == |more[at]| - 1
    requires forall g: nat, k: nat :: InGroup(more, g, k) && !(g == at && k == pos) ==>
      InGroup(groups, g, k) && more[g][k] == groups[g][k]
    requires forall g: nat, k: nat :: InGroup(groups, g, k) ==> InGroup(more, g, k) && more[g][k] == groups[g][k]
    requires forall g :: 0 <= g < |more| ==> |more[g]| > 0
    ensures Partition(more, i + 1)
  {
    forall x: nat | x < i + 1 ensures Placed(more, x) {
      if x < i {
        assert Placed(groups, x);
        var g: nat, k: nat :| InGroup(groups, g, k) && groups[g][k] == x;
        assert InGroup(more, g, k) && more[g][k] == x;
      }
    }
  }

  lemma JoinsGroup(volumes: seq<string>, groups: seq<seq<nat>>, index: map<string, nat>, i: nat)
    requires i < |volumes| && Partition(groups, i) && Indexed(volumes, groups, index) && volumes[i] in index
    requires volumes[i] != ""
    ensures var more := groups[index[volumes[i]] := groups[index[volumes[i]]] + [i]];
      Partition(more, i + 1) && Indexed(volumes, more, index)
  {
    var at := index[volumes[i]];
    var more := groups[at := groups[at] + [i]];
    Grew(groups, more, i, at, |groups[at]|);
    assert at in index.Values;
    forall g: nat, k: nat | InGroup(more, g, k) ensures FitsIndex(volumes, more, index, g, k) {
      if g != at || k < |groups[at]| {
        assert InGroup(groups, g, k) && FitsIndex(volumes, groups, index, g, k);
      }
    }
  }

  lemma OpensGroup(volumes: seq<string>, groups: seq<seq<nat>>, index: map<string, nat>, i: nat)
    requires i < |volumes| && Partition(groups, i) && Indexed(volumes, groups, index) && volumes[i] !in index
    ensures Partition(groups + [[i]], i + 1)
    ensures Indexed(volumes, groups + [[i]], if volumes[i] == "" then index else index[volumes[i] := |groups|])
  {
    var more := groups + [[i]];
    var index' := if volumes[i] == "" then index else index[volumes[i] := |groups|];
    Grew(groups, more, i, |groups|, 0);
    forall g: nat, k: nat | InGroup(more, g, k) ensures FitsIndex(volumes, more, index', g, k) {
      if g < |groups| {
        assert InGroup(groups, g, k) && FitsIndex(volumes, groups, index, g, k);
      }
    }
  }

  lemma IndexedGroups(volumes: seq<string>, groups: seq<seq<nat>>, index: map<string, nat>)
    requires Partition(groups, |volumes|) && Indexed(volumes, groups, index)
    ensures GroupsOf(volumes, groups)
  {
    forall g: nat, h: nat, k: nat,
      l: nat | InGroup(groups, g, k) && InGroup(groups, h, l) && groups[g][k] != groups[h][l]
      ensures g == h <==> volumes[groups[g][k]] == volumes[groups[h][l]] != ""
    {
      assert FitsIndex(volumes, groups, index, g, k) && FitsIndex(volumes, groups, index, h, l);
    }
  }

  /** Services that share a volume form one group in desired order; every service is in exactly one group. */
  method GroupByVolume(services: seq<DesiredService>) returns (groups: seq<seq<nat>>)
    ensures GroupsOf(VolumesOf(services), groups)
  {
    ghost var volumes := VolumesOf(services);
    groups := [];
    var volumeGroups: map<string, nat> := map[];
    for i := 0 to |services|
      invariant Partition(groups, i) && Indexed(volumes, groups, volumeGroups) && "" !in volumeGroups
    {
      var volumeId := services[i].volumeId;
      if volumeId != "" {
        if volumeId in volumeGroups {
          JoinsGroup(volumes, groups, volumeGroups, i);
          var group := volumeGroups[volumeId];
          groups := groups[group := groups[group] + [i]];
          continue;
        }
        OpensGroup(volumes, groups, volumeGroups, i);
        volumeGroups := volumeGroups[volumeId := |groups|];
      } else {
        OpensGroup(volumes, groups, volumeGroups, i);
      }
      groups := groups + [[i]];
    }
    IndexedGroups(volumes, groups, volumeGroups);
  }

  // ---------------------------------------------------------------- the workers

  datatype Result = Result(index: nat, condition: ServiceCondition)

  /** A worker is between groups, before its cancellation check for a member, reconciling that member, or gone. */
  datatype Worker = Fetching | Checking(group: nat, pos: nat) | Reconciling(group: nat, pos: nat) | Exited

  /**
   * `taken` groups have left the closed job channel. `log` is what workers have sent; the first `collected` of it
   * have been received. `completed` counts, per group, the members reconciled.
   */
  datatype Pool = Pool(
    taken: nat, workers: seq<Worker>, log: seq<Result>, collected: nat, conditions: seq<Option<ServiceCondition>>,
    completed: seq<nat>, collecting: bool, cancelled: bool)

  datatype Action = Cancel | Take(worker: nat) | Check(worker: nat) | Complete(worker: nat,
    condition: ServiceCondition) | Receive | Close

  function Start(groups: seq<seq<nat>>, n: nat): Pool {
    var workers := if |groups| < CONCURRENCY then |groups| else CONCURRENCY;
    Pool(0, seq(workers, i => Fetching), [], 0, seq(n, i => None), seq(|groups|, i => 0), true, false)
  }

  predicate WorkerAt(p: Pool, w: nat) { w < |p.workers| }

  predicate Holding(worker: Worker) { worker.Checking? || worker.Reconciling? }

  predicate Can(groups: seq<seq<nat>>, p: Pool, a: Action) {
    match a
    case Cancel => true
    case Take(w) => WorkerAt(p, w) && p.workers[w].Fetching?
    case Check(w) => WorkerAt(p, w) && p.workers[w].Checking?
    case Complete(w, _) =>
      && WorkerAt(p, w) && p.workers[w].Reconciling? && InGroup(groups, p.workers[w].group, p.workers[w].pos)
      && p.workers[w].group < |p.completed|
    case Receive => p.collecting && p.collected < |p.log| && p.log[p.collected].index < |p.conditions|
    case Close => p.collecting && p.collected == |p.log| && forall w :: 0 <= w < |p.workers| ==> p.workers[w].Exited?
  }

  function After(groups: seq<seq<nat>>, p: Pool, a: Action): Pool
    requires Can(groups, p, a)
  {
    match a
    case Cancel => p.(cancelled := true)
    case Take(w) =>
      if p.taken < |groups| then p.(taken := p.taken + 1, workers := p.workers[w := Checking(p.taken, 0)])
      else p.(workers := p.workers[w := Exited])
    case Check(w) =>
      var at := p.workers[w];
      p.(workers := p.workers[w := if p.cancelled then Exited else Reconciling(at.group, at.pos)])
    case Complete(w, condition) =>
      var at := p.workers[w];
      var next := if at.pos + 1 < |groups[at.group]| then Checking(at.group, at.pos + 1) else Fetching;
      p.(workers := p.workers[w := next], log := p.log + [Result(groups[at.group][at.pos], condition)],
         completed := p.completed[at.group := p.completed[at.group] + 1])
    case Receive =>
      var r := p.log[p.collected];
      p.(collected := p.collected + 1, conditions := p.conditions[r.index := Some(r.condition)])
    case Close => p.(collecting := false)
  }

  // ---------------------------------------------------------------- the invariant

  ghost predicate Held(p: Pool, g: nat) {
    exists w: nat :: WorkerAt(p, w) && Holding(p.workers[w]) && p.workers[w].group == g
  }

  /** Each worker holds a group no other holds, at the member its group has come to. */
  ghost predicate Owning(groups: seq<seq<nat>>, p: Pool) {
    && p.taken <= |groups| && |p.completed| == |groups|
    && (forall w: nat :: WorkerAt(p, w) && Holding(p.workers[w]) ==>
          && p.workers[w].group < p.taken && InGroup(groups, p.workers[w].group, p.workers[w].pos)
          && p.completed[p.workers[w].group] == p.workers[w].pos)
    && (forall v: nat, w: nat ::
          WorkerAt(p, v) && WorkerAt(p, w) && v != w && Holding(p.workers[v]) && Holding(p.workers[w]) ==>
          p.workers[v].group != p.workers[w].group)
  }

  /** Groups not taken are untouched; without cancellation, a taken group nobody holds is finished. */
  ghost predicate Progressing(groups: seq<seq<nat>>, p: Pool) {
    && |p.completed| == |groups|
    && (forall g: nat :: g < |groups| ==>
          && p.completed[g] <= |groups[g]|
          && (p.taken <= g ==> p.completed[g] == 0)
          && (g < p.taken && !p.cancelled && !Held(p, g) ==> p.completed[g] == |groups[g]|))
    && (!p.cancelled && (exists w: nat :: WorkerAt(p, w) && p.workers[w].Exited?) ==> p.taken == |groups|)
  }

  ghost predicate Logged(log: seq<Result>, i: nat) {
    exists x :: 0 <= x < |log| && log[x].index == i
  }

  /** The log holds exactly the completed members, each once. */
  ghost predicate LogComplete(groups: seq<seq<nat>>, p: Pool) {
    && |p.completed| == |groups|
    && (forall x, y :: 0 <= x < y < |p.log| ==> p.log[x].index != p.log[y].index)
    && (forall g: nat, k: nat :: InGroup(groups, g, k) ==> (Logged(p.log, groups[g][k]) <==> k < p.completed[g]))
    && (forall x :: 0 <= x < |p.log| ==> Placed(groups, p.log[x].index))
  }

  /** What was received is what stands at each index. */
  ghost predicate Received(p: Pool, n: nat) {
    && |p.conditions| == n && p.collected <= |p.log|
    && (forall x :: 0 <= x < |p.log| ==> p.log[x].index < n)
    && (forall x :: 0 <= x < p.collected ==> p.conditions[p.log[x].index] == Some(p.log[x].condition))
    && (forall i :: 0 <= i < n && p.conditions[i].Some? ==> Logged(p.log[..p.collected], i))
  }

  ghost predicate Closed(p: Pool) {
    !p.collecting ==> p.collected == |p.log| && forall w :: 0 <= w < |p.workers| ==> p.workers[w].Exited?
  }

  ghost predicate PoolSound(groups: seq<seq<nat>>, n: nat, p: Pool) {
    && |p.workers| == (if |groups| < CONCURRENCY then |groups| else CONCURRENCY)
    && Owning(groups, p) && Progressing(groups, p) && LogComplete(groups, p) && Received(p, n) && Closed(p)
  }

  // ---------------------------------------------------------------- steps keep it

  lemma TakeSound(groups: seq<seq<nat>>, n: nat, p: Pool, w: nat)
    requires Partition(groups, n)
    requires PoolSound(groups, n, p) && Can(groups, p, Take(w))
    ensures PoolSound(groups, n, After(groups, p, Take(w)))
  {
    var after := After(groups, p, Take(w));
    forall g: nat | g < |groups| && Held(p, g) ensures Held(after, g) {
      var v: nat :| WorkerAt(p, v) && Holding(p.workers[v]) && p.workers[v].group == g;
      assert WorkerAt(after, v) && after.workers[v] == p.workers[v];
    }
    if p.taken < |groups| {
      assert WorkerAt(after, w) && after.workers[w].group == p.taken;
      assert Held(after, p.taken);
      assert forall v: nat :: WorkerAt(after, v) && after.workers[v].Exited? ==> WorkerAt(p, v) && p.workers[v].Exited?;
    }
  }

  lemma CheckSound(groups: seq<seq<nat>>, n: nat, p: Pool, w: nat)
    requires PoolSound(groups, n, p) && Can(groups, p, Check(w))
    ensures PoolSound(groups, n, After(groups, p, Check(w)))
  {
    var after := After(groups, p, Check(w));
    if !p.cancelled {
      forall g: nat | g < |groups| && Held(p, g) ensures Held(after, g) {
        var v: nat :| WorkerAt(p, v) && Holding(p.workers[v]) && p.workers[v].group == g;
        assert WorkerAt(after, v) && Holding(after.workers[v]) && after.workers[v].group == g;
      }
      assert forall v: nat :: WorkerAt(after, v) && after.workers[v].Exited? ==> WorkerAt(p, v) && p.workers[v].Exited?;
    }
  }

  lemma CompleteProgress(groups: seq<seq<nat>>, n: nat, p: Pool, w: nat, condition: ServiceCondition)
    requires PoolSound(groups, n, p) && Can(groups, p, Complete(w, condition))
    ensures Owning(groups, After(groups, p, Complete(w, condition)))
    ensures Progressing(groups, After(groups, p, Complete(w, condition)))
  {
    var after := After(groups, p, Complete(w, condition));
    var at := p.workers[w];
    forall g: nat | g < |groups| && g != at.group && Held(p, g) ensures Held(after, g) {
      var v: nat :| WorkerAt(p, v) && Holding(p.workers[v]) && p.workers[v].group == g;
      assert WorkerAt(after, v) && after.workers[v] == p.workers[v];
    }
    if at.pos + 1 < |groups[at.group]| {
      assert WorkerAt(after, w) && after.workers[w].group == at.group;
      assert Held(after, at.group);
    }
    assert forall v: nat :: WorkerAt(after, v) && after.workers[v].Exited? ==> WorkerAt(p, v) && p.workers[v].Exited?;
  }

  lemma LoggedAppend(log: seq<Result>, r: Result, i: nat)
    ensures Logged(log + [r], i) <==> Logged(log, i) || i == r.index
  {
    if Logged(log, i) {
      var x :| 0 <= x < |log| && log[x].index == i;
      assert (log + [r])[x].index == i;
    }
    assert (log + [r])[|log|] == r;
  }

  lemma CompleteLog(groups: seq<seq<nat>>, n: nat, p: Pool, w: nat, condition: ServiceCondition)
    requires Partition(groups, n) && PoolSound(groups, n, p) && Can(groups, p, Complete(w, condition))
    ensures LogComplete(groups, After(groups, p, Complete(w, condition)))
  {
    var after := After(groups, p, Complete(w, condition));
    var at := p.workers[w];
    var r := Result(groups[at.group][at.pos], condition);
    assert !Logged(p.log, r.index);
    forall g: nat, k: nat | InGroup(groups, g, k) ensures Logged(after.log, groups[g][k]) <==> k < after.completed[g] {
      LoggedAppend(p.log, r, groups[g][k]);
    }
    assert Placed(groups, r.index);
  }

  lemma CompleteSound(groups: seq<seq<nat>>, n: nat, p: Pool, w: nat, condition: ServiceCondition)
    requires Partition(groups, n) && PoolSound(groups, n, p) && Can(groups, p, Complete(w, condition))
    ensures PoolSound(groups, n, After(groups, p, Complete(w, condition)))
  {
    CompleteProgress(groups, n, p, w, condition);
    CompleteLog(groups, n, p, w, condition);
    var after := After(groups, p, Complete(w, condition));
    assert after.log[..after.collected] == p.log[..p.collected];
    assert Received(after, n);
  }

  lemma ReceiveSound(groups: seq<seq<nat>>, n: nat, p: Pool)
    requires PoolSound(groups, n, p) && Can(groups, p, Receive)
    ensures PoolSound(groups, n, After(groups, p, Receive))
  {
    var after := After(groups, p, Receive);
    assert after.log[..after.collected] == p.log[..p.collected] + [p.log[p.collected]];
    forall i | 0 <= i < n && after.conditions[i].Some? ensures Logged(after.log[..after.collected], i) {
      LoggedAppend(p.log[..p.collected], p.log[p.collected], i);
    }
    assert forall g: nat :: Held(after, g) <==> Held(p, g);
    assert Received(after, n);
  }

  lemma StepSound(groups: seq<seq<nat>>, n: nat, p: Pool, a: Action)
    requires Partition(groups, n)
    requires PoolSound(groups, n, p) && Can(groups, p, a)
    ensures PoolSound(groups, n, After(groups, p, a))
  {
    match a
    case Take(w) => TakeSound(groups, n, p, w);
    case Check(w) => CheckSound(groups, n, p, w);
    case Complete(w, condition) => CompleteSound(groups, n, p, w, condition);
    case Receive => ReceiveSound(groups, n, p);
    case Cancel =>
    case Close => assert forall g: nat :: Held(After(groups, p, a), g) <==> Held(p, g);
  }

  // ---------------------------------------------------------------- whole passes

  ghost predicate IsPass(volumes: seq<string>, groups: seq<seq<nat>>, pools: seq<Pool>, actions: seq<Action>) {
    && GroupsOf(volumes, groups)
    && |pools| == |actions| + 1
    && pools[0] == Start(groups, |volumes|)
    && forall i :: 0 <= i < |actions| ==>
        Can(groups, pools[i], actions[i]) && pools[i + 1] == After(groups, pools[i], actions[i])
  }

  lemma {:induction false} PassSound(
      volumes: seq<string>, groups: seq<seq<nat>>, pools: seq<Pool>, actions: seq<Action>, i: nat)
    requires IsPass(volumes, groups, pools, actions) && i < |pools|
    ensures PoolSound(groups, |volumes|, pools[i])
  {
    if i == 0 {
      assert pools[0].log == [];
    } else {
      PassSound(volumes, groups, pools, actions, i - 1);
      StepSound(groups, |volumes|, pools[i - 1], actions[i - 1]);
    }
  }

  /** The service a worker is reconciling. */
  function Current(groups: seq<seq<nat>>, worker: Worker): nat
    requires worker.Reconciling? && InGroup(groups, worker.group, worker.pos)
  {
    groups[worker.group][worker.pos]
  }

  /** At most four workers run, no two on one service, and never two on services that share a volume. */
  lemma SharedVolumesNeverOverlap(
      volumes: seq<string>, groups: seq<seq<nat>>, pools: seq<Pool>, actions: seq<Action>, i: nat, v: nat, w: nat)
    requires IsPass(volumes, groups, pools, actions) && i < |pools|
    requires v < w < |pools[i].workers| && pools[i].workers[v].Reconciling? && pools[i].workers[w].Reconciling?
    ensures |pools[i].workers| <= CONCURRENCY
    ensures var a, b := pools[i].workers[v], pools[i].workers[w];
      && InGroup(groups, a.group, a.pos) && InGroup(groups, b.group, b.pos)
      && Current(groups, a) < |volumes| && Current(groups, b) < |volumes|
      && Current(groups, a) != Current(groups, b)
      && (volumes[Current(groups, a)] != "" ==> volumes[Current(groups, a)] != volumes[Current(groups, b)])
  {
    PassSound(volumes, groups, pools, actions, i);
    assert WorkerAt(pools[i], v) && WorkerAt(pools[i], w);
  }

  /** A service begins only after every earlier service on its volume has finished. */
  lemma SharedVolumesInOrder(
      volumes: seq<string>, groups: seq<seq<nat>>, pools: seq<Pool>, actions: seq<Action>, i: nat, w: nat, earlier: nat)
    requires IsPass(volumes, groups, pools, actions) && i < |pools|
    requires w < |pools[i].workers| && pools[i].workers[w].Reconciling?
    requires InGroup(groups, pools[i].workers[w].group, pools[i].workers[w].pos)
    requires earlier < Current(groups, pools[i].workers[w]) < |volumes|
    requires volumes[earlier] == volumes[Current(groups, pools[i].workers[w])] != ""
    ensures Logged(pools[i].log, earlier)
  {
    PassSound(volumes, groups, pools, actions, i);
    var at := pools[i].workers[w];
    assert WorkerAt(pools[i], w) && pools[i].completed[at.group] == at.pos;
    assert Placed(groups, earlier);
    var g: nat, k: nat :| InGroup(groups, g, k) && groups[g][k] == earlier;
    assert InGroup(groups, at.group, at.pos);
    assert g == at.group;
  }

  /** An uncancelled pass ends with every service reconciled once, its condition at its own index. */
  lemma EveryServiceReported(
      volumes: seq<string>, groups: seq<seq<nat>>, pools: seq<Pool>, actions: seq<Action>, i: nat, s: nat)
    returns (x: nat)
    requires IsPass(volumes, groups, pools, actions) && i < |pools| && s < |volumes|
    requires !pools[i].collecting && !pools[i].cancelled
    ensures |pools[i].conditions| == |volumes|
    ensures x < |pools[i].log| && pools[i].log[x].index == s
    ensures pools[i].conditions[s] == Some(pools[i].log[x].condition)
    ensures forall y :: 0 <= y < |pools[i].log| && pools[i].log[y].index == s ==> y == x
  {
    PassSound(volumes, groups, pools, actions, i);
    var p := pools[i];
    assert Placed(groups, s);
    var g: nat, k: nat :| InGroup(groups, g, k) && groups[g][k] == s;
    assert WorkerAt(p, 0) && p.workers[0].Exited?;
    assert !Held(p, g);
    assert p.completed[g] == |groups[g]|;
    assert Logged(p.log, groups[g][k]);
    x :| 0 <= x < |p.log| && p.log[x].index == s;
  }

  /** The result channel, made with room for one result per service, never makes a worker wait. */
  lemma ResultsNeverBlock(volumes: seq<string>, groups: seq<seq<nat>>, pools: seq<Pool>, actions: seq<Action>, i: nat)
    requires IsPass(volumes, groups, pools, actions) && i < |pools|
    ensures |pools[i].log| - pools[i].collected <= |volumes|
  {
    PassSound(volumes, groups, pools, actions, i);
    DistinctFit(pools[i].log, |volumes|);
  }

  lemma {:induction false} DistinctFit(log: seq<Result>, n: nat)
    requires forall x :: 0 <= x < |log| ==> log[x].index < n
    requires forall x, y :: 0 <= x < y < |log| ==> log[x].index != log[y].index
    ensures |log| <= n
  {
    if |log| > 0 {
      assert log[0].index < n;
      if x :| 0 <= x < |log| && log[x].index == n - 1 {
        DistinctFit(log[..x] + log[x + 1..], n - 1);
      } else {
        DistinctFit(log, n - 1);
      }
    }
  }
}
