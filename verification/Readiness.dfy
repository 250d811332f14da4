/**
 * The readiness cache of HTTP-checked services across containers that come and go. The engine, the restart policy
 * and the probes answer whatever they like; each call to the runtime is one step on its own allocation.
 */
module Readiness {
  import opened Messages

  // ---------------------------------------------------------------- the host

  datatype Container = Container(incarnation: nat, generation: int, networkIdentity: int)

  datatype Ready = Ready(generation: int, healthyIpv4Ports: seq<int>, healthyIpv6Ports: seq<int>)

  /** `next` numbers containers in the order they are created. */
  datatype Host = Host(
    containers: map<string, Container>, next: nat, ready: map<string, Ready>, forceStart: set<string>)

  const NEW_HOST := Host(map[], 0, map[], {})

  datatype Removal = Removal(gone: bool, failed: bool)

  /** How far an attempt to ensure a container gets; `left` when the cleanup of a failed start fails too. */
  datatype Ensuring = Succeeds | FailsEarly | FailsAfterRemoval | FailsAfterCreate(left: bool)

  datatype Action = Keep | Start | Wait | Stop | CrashLoop

  /** Everything outside the runtime that one reconciliation of a service asks. */
  datatype Answers = Answers(
    accepted: bool, deadlineValid: bool, drained: Removal, volumeAvailable: bool,
    preserve: bool, inspected: bool, preservedRemoval: Removal,
    ensuring: Ensuring, running: bool, exhausted: bool, exhaustedRemoval: Removal,
    livenessHealthy: bool, interrupted: bool, livenessRemoval: Removal,
    action: Action, phase: string, saved: bool,
    restartRemoval: Removal, restarting: Ensuring, restartRunning: bool, resaved: bool,
    ipv4Healthy: bool, ipv6Healthy: bool)

  datatype Condition = Condition(phase: string, healthy: bool, ipv4Ports: seq<int>, ipv6Ports: seq<int>)

  /** A service as the readiness code sees it. */
  datatype Service = Service(
    id: string, generation: int, networkIdentity: int, intent: Intent,
    healthCheck: bool, livenessCheck: bool, ports: seq<int>)

  function Unhealthy(phase: string): Condition { Condition(phase, false, [], []) }

  // ---------------------------------------------------------------- what each call does to the host

  function Forgotten(h: Host, id: string): Host {
    h.(ready := h.ready - {id})
  }

  function WithoutContainer(h: Host, id: string): Host {
    h.(containers := h.containers - {id})
  }

  function Removing(h: Host, id: string, r: Removal): Host {
    if r.gone || !r.failed then WithoutContainer(h, id) else h
  }

  function Creating(h: Host, svc: Service): Host {
    h.(containers := h.containers[svc.id := Container(h.next, svc.generation, svc.networkIdentity)], next := h.next + 1)
  }

  predicate Current(h: Host, svc: Service) {
    && svc.id in h.containers
    && h.containers[svc.id].generation == svc.generation && h.containers[svc.id].networkIdentity == svc.networkIdentity
  }

  datatype Ensured = Ensured(host: Host, created: bool, failed: bool)

  /** A current container is kept; a stale one is replaced; a missing one is created. */
  function EnsureService(h: Host, svc: Service, e: Ensuring): Ensured {
    if Current(h, svc) then Ensured(h, false, !e.Succeeds?)
    else
      match e
      case Succeeds => Ensured(Creating(h, svc), true, false)
      case FailsEarly => Ensured(h, false, true)
      case FailsAfterRemoval => Ensured(WithoutContainer(h, svc.id), false, true)
      case FailsAfterCreate(left) =>
        Ensured(if left then Creating(h, svc) else WithoutContainer(h, svc.id), false, true)
  }

  /** The cache holds an entry of the service's own generation. */
  predicate ReadyFor(h: Host, svc: Service) {
    svc.id in h.ready && h.ready[svc.id].generation == svc.generation
  }

  /** Readiness goes with the container that is taken down. */
  function TakenDown(h: Host, id: string, r: Removal): Host {
    if r.failed then Removing(h, id, r) else Forgotten(WithoutContainer(h, id), id)
  }

  function Cached(h: Host, svc: Service, ans: Answers): Host {
    var ipv4, ipv6 := if ans.ipv4Healthy then svc.ports else [], if ans.ipv6Healthy then svc.ports else [];
    h.(ready := h.ready[svc.id := Ready(svc.generation, ipv4, ipv6)])
  }

  function Served(r: Ready): Condition {
    Condition("Healthy", true, r.healthyIpv4Ports, r.healthyIpv6Ports)
  }

  /** What a call leaves; `probed` when it cached what a probe it made just said. */
  datatype Outcome = Outcome(host: Host, condition: Condition, probed: bool)

  function Finishing(h: Host, svc: Service, ans: Answers, created: bool): Outcome {
    var f := if created then Forgotten(h, svc.id) else h;
    if !svc.healthCheck then Outcome(h, Condition("Healthy", true, svc.ports, svc.ports), false)
    else if ReadyFor(f, svc) then Outcome(f, Served(f.ready[svc.id]), false)
    else if ans.ipv4Healthy || ans.ipv6Healthy then
      Outcome(Cached(f, svc, ans), Served(Cached(f, svc, ans).ready[svc.id]), true)
    else Outcome(f, Unhealthy("Starting"), false)
  }

  /** The container as a reconciliation has found or made it so far. */
  datatype Status = Status(host: Host, failed: bool, running: bool, created: bool, livenessFailed: bool)

  function Observing(h: Host, svc: Service, ans: Answers): Status {
    if !ans.preserve then
      var e := EnsureService(h, svc, ans.ensuring);
      var h' := if e.created then Forgotten(e.host, svc.id) else e.host;
      Status(h', e.failed, ans.running || e.created, e.created, false)
    else if !ans.inspected then Status(h, true, false, false, false)
    else if Current(h, svc) then Status(h, false, ans.running, false, false)
    else Status(Removing(h, svc.id, ans.preservedRemoval), ans.preservedRemoval.failed, false, false, false)
  }

  function Reclaimed(s: Status, svc: Service, ans: Answers): Status {
    if s.failed || !ans.exhausted then s
    else
      s.(host := TakenDown(s.host, svc.id, ans.exhaustedRemoval), failed := ans.exhaustedRemoval.failed,
         running := false)
  }

  /** Liveness is judged once readiness of this generation was earned, when there is a readiness check. */
  predicate Dead(h: Host, svc: Service, ans: Answers) {
    svc.livenessCheck && !ans.livenessHealthy && !ans.interrupted && (svc.healthCheck ==> ReadyFor(h, svc))
  }

  function Enforced(s: Status, svc: Service, ans: Answers): Status {
    if s.failed || !s.running || !Dead(s.host, svc, ans) then s
    else
      s.(host := TakenDown(s.host, svc.id, ans.livenessRemoval), failed := ans.livenessRemoval.failed,
         running := false, livenessFailed := true)
  }

  /** What the restart policy is asked about. */
  function Judged(h: Host, svc: Service, ans: Answers): Status {
    var h' := h.(forceStart := h.forceStart - {svc.id});
    Enforced(Reclaimed(Observing(h', svc, ans), svc, ans), svc, ans)
  }

  function Restarting(h: Host, svc: Service, ans: Answers): Ensured {
    var down := TakenDown(h, svc.id, ans.restartRemoval);
    if ans.restartRemoval.failed then Ensured(down, false, true)
    else
      var e := EnsureService(down, svc, ans.restarting);
      e.(failed := e.failed || (!ans.restartRunning && !e.created && !ans.resaved))
  }

  function Deciding(s: Status, svc: Service, ans: Answers): Outcome {
    if s.failed || !ans.saved then Outcome(s.host, Unhealthy("Error"), false)
    else if ans.action in {Wait, Stop, CrashLoop} then Outcome(s.host, Unhealthy(ans.phase), false)
    else if ans.action == Keep || (s.running && !s.livenessFailed) then Finishing(s.host, svc, ans, s.created)
    else
      var e := Restarting(s.host, svc, ans);
      if e.failed then Outcome(e.host, Unhealthy("Error"), false) else Finishing(e.host, svc, ans, e.created)
  }

  /** A stop for a drain keeps the entry; a stop for sleep forgets it. */
  function Stopping(h: Host, svc: Service, ans: Answers): Outcome {
    var d := if ans.deadlineValid && ans.drained.gone then WithoutContainer(h, svc.id) else h;
    if !ans.deadlineValid || ans.drained.failed then Outcome(d, Unhealthy("Error"), false)
    else if svc.intent.Drain? then Outcome(d, Unhealthy(if ans.drained.gone then "Drained" else "Draining"), false)
    else Outcome(Forgotten(d, svc.id), Unhealthy("Sleeping"), false)
  }

  function Reconciling(h: Host, svc: Service, ans: Answers): Outcome {
    if !ans.accepted || (svc.intent.Run? && !ans.volumeAvailable) then Outcome(h, Unhealthy("Error"), false)
    else if !svc.intent.Run? then Stopping(h, svc, ans)
    else Deciding(Judged(h, svc, ans), svc, ans)
  }

  // ---------------------------------------------------------------- what one reconciliation may do to an entry

  /** The entry of the allocation is the one it was, or there is none. */
  predicate EntryKept(a: Host, b: Host, id: string) {
    id in b.ready ==> id in a.ready && b.ready[id] == a.ready[id]
  }

  /** A new entry says what a successful probe of the present container just said; any other entry was there. */
  predicate Gains(a: Host, b: Host, svc: Service, ans: Answers) {
    EntryKept(a, b, svc.id) || ProbedNow(b, svc, ans)
  }

  predicate ProbedNow(b: Host, svc: Service, ans: Answers) {
    && svc.healthCheck && (ans.ipv4Healthy || ans.ipv6Healthy)
    && ReadyFor(b, svc)
    && b.ready[svc.id].healthyIpv4Ports == (if ans.ipv4Healthy then svc.ports else [])
    && b.ready[svc.id].healthyIpv6Ports == (if ans.ipv6Healthy then svc.ports else [])
    && (svc.id in b.containers ==> Current(b, svc))
  }

  /** A step on one allocation leaves every other one alone. */
  ghost predicate OthersKept(a: Host, b: Host, id: string) {
    forall x :: x != id ==>
      && (x in a.ready <==> x in b.ready) && (x in a.ready ==> a.ready[x] == b.ready[x])
      && (x in a.containers <==> x in b.containers) && (x in a.containers ==> a.containers[x] == b.containers[x])
  }

  /** The service is to run, and its container is ensured rather than inspected. */
  predicate Reaches(svc: Service, ans: Answers) {
    ans.accepted && svc.intent.Run? && ans.volumeAvailable && !ans.preserve
  }

  /** A start fails after creating its container, and the cleanup leaves that container behind. */
  predicate LeavesContainer(h: Host, svc: Service, ans: Answers) {
    Reaches(svc, ans) && ans.ensuring == FailsAfterCreate(true) && !Current(h, svc)
  }

  /** Containers are numbered as they are created, and one that is kept is kept whole. */
  predicate Numbered(a: Host, b: Host, id: string) {
    && a.next <= b.next
    && (id in b.containers ==>
          || (id in a.containers && b.containers[id] == a.containers[id])
          || a.next <= b.containers[id].incarnation < b.next)
  }

  /** An entry not just probed was there, and so was its container, unless a failed start left a new one. */
  predicate Carried(a: Host, b: Host, id: string, left: bool) {
    id in b.ready ==>
      && id in a.ready && b.ready[id] == a.ready[id]
      && (id in b.containers ==>
            if left then a.next <= b.containers[id].incarnation
            else id in a.containers && b.containers[id] == a.containers[id])
  }

  /** A step on an allocation that left a container behind keeps its entry, for a container it never probed. */
  predicate Leaves(a: Host, b: Host, id: string) {
    b.ready == a.ready && id in b.containers && a.next <= b.containers[id].incarnation
  }

  /** One step seen from one allocation: whether it was a probe of it, and whether it left a container of it. */
  predicate EntryStep(a: Host, b: Host, id: string, probed: bool, left: bool) {
    && Numbered(a, b, id)
    && (if probed then id in b.ready else Carried(a, b, id, left))
    && (left ==> !probed && Leaves(a, b, id))
  }

  // ---------------------------------------------------------------- one reconciliation

  /** What a verdict of health on an HTTP-checked service rests on. */
  predicate Backed(o: Outcome, svc: Service) {
    svc.healthCheck && o.condition.healthy ==> ReadyFor(o.host, svc) && o.condition == Served(o.host.ready[svc.id])
  }

  /** What holds of a container as found or made: current unless the call has failed, with its entry accounted for. */
  ghost predicate StatusFits(h: Host, s: Status, svc: Service, left: bool) {
    && EntryStep(h, s.host, svc.id, false, left) && OthersKept(h, s.host, svc.id)
    && (left ==> s.failed)
    && (!s.failed && svc.id in s.host.containers ==> Current(s.host, svc))
    && (!s.failed && s.running ==> Current(s.host, svc))
    && (s.created ==> svc.id !in s.host.ready)
  }

  predicate Leaving(h: Host, svc: Service, ans: Answers) {
    !ans.preserve && ans.ensuring == FailsAfterCreate(true) && !Current(h, svc)
  }

  lemma EnsuringStep(h: Host, svc: Service, ans: Answers)
    requires !ans.preserve
    ensures StatusFits(h, Observing(h, svc, ans), svc, Leaving(h, svc, ans))
  {
    var e := EnsureService(h, svc, ans.ensuring);
    assert e.host in {h, WithoutContainer(h, svc.id), Creating(h, svc)};
  }

  lemma InspectingStep(h: Host, svc: Service, ans: Answers)
    requires ans.preserve
    ensures StatusFits(h, Observing(h, svc, ans), svc, false)
  {
    assert Observing(h, svc, ans).host in {h, WithoutContainer(h, svc.id)};
  }

  lemma ObservingStep(h: Host, svc: Service, ans: Answers)
    ensures StatusFits(h, Observing(h, svc, ans), svc, Leaving(h, svc, ans))
  {
    if ans.preserve {
      InspectingStep(h, svc, ans);
    } else {
      EnsuringStep(h, svc, ans);
    }
  }

  lemma ReclaimedStep(h: Host, s: Status, svc: Service, ans: Answers, left: bool)
    requires StatusFits(h, s, svc, left)
    ensures StatusFits(h, Reclaimed(s, svc, ans), svc, left)
  {
  }

  lemma EnforcedStep(h: Host, s: Status, svc: Service, ans: Answers, left: bool)
    requires StatusFits(h, s, svc, left)
    ensures StatusFits(h, Enforced(s, svc, ans), svc, left)
  {
  }

  /** After the checks of its own the agent makes, the container is current or gone. */
  lemma JudgedStep(h: Host, svc: Service, ans: Answers)
    ensures StatusFits(h, Judged(h, svc, ans), svc, Leaving(h, svc, ans))
  {
    var h' := h.(forceStart := h.forceStart - {svc.id});
    var s := Observing(h', svc, ans);
    ObservingStep(h', svc, ans);
    assert StatusFits(h, s, svc, Leaving(h, svc, ans));
    ReclaimedStep(h, s, svc, ans, Leaving(h, svc, ans));
    EnforcedStep(h, Reclaimed(s, svc, ans), svc, ans, Leaving(h, svc, ans));
  }

  lemma RestartingStep(h: Host, svc: Service, ans: Answers)
    ensures var e := Restarting(h, svc, ans);
      && EntryStep(h, e.host, svc.id, false, false) && OthersKept(h, e.host, svc.id)
      && (!e.failed ==> Current(e.host, svc) && svc.id !in e.host.ready)
  {
  }

  lemma FinishingStep(h: Host, svc: Service, ans: Answers, created: bool)
    requires svc.id in h.containers ==> Current(h, svc)
    ensures var o := Finishing(h, svc, ans, created);
      && EntryStep(h, o.host, svc.id, o.probed, false) && OthersKept(h, o.host, svc.id)
      && o.host.containers == h.containers
      && (o.probed ==> ProbedNow(o.host, svc, ans))
      && Backed(o, svc)
  {
  }

  lemma Composed(a: Host, b: Host, o: Outcome, id: string)
    requires EntryStep(a, b, id, false, false) && EntryStep(b, o.host, id, o.probed, false)
    requires OthersKept(a, b, id) && OthersKept(b, o.host, id)
    ensures EntryStep(a, o.host, id, o.probed, false) && OthersKept(a, o.host, id)
  {
  }

  lemma DecidingStep(s: Status, svc: Service, ans: Answers)
    requires !s.failed && (svc.id in s.host.containers ==> Current(s.host, svc))
    ensures var o := Deciding(s, svc, ans);
      && EntryStep(s.host, o.host, svc.id, o.probed, false) && OthersKept(s.host, o.host, svc.id)
      && (o.probed ==> ProbedNow(o.host, svc, ans)) && Backed(o, svc)
  {
    if ans.saved && ans.action !in {Wait, Stop, CrashLoop} {
      if ans.action == Keep || (s.running && !s.livenessFailed) {
        FinishingStep(s.host, svc, ans, s.created);
      } else {
        var e := Restarting(s.host, svc, ans);
        RestartingStep(s.host, svc, ans);
        if !e.failed {
          FinishingStep(e.host, svc, ans, e.created);
          Composed(s.host, e.host, Finishing(e.host, svc, ans, e.created), svc.id);
        }
      }
    }
  }

  /** What a reconciliation leaves: entries, containers and the verdict. */
  ghost predicate OutcomeFits(h: Host, o: Outcome, svc: Service, ans: Answers, left: bool) {
    && EntryStep(h, o.host, svc.id, o.probed, left) && OthersKept(h, o.host, svc.id)
    && (o.probed ==> ProbedNow(o.host, svc, ans)) && Backed(o, svc)
  }

  lemma StoppingStep(h: Host, svc: Service, ans: Answers)
    ensures OutcomeFits(h, Stopping(h, svc, ans), svc, ans, false)
  {
  }

  lemma RunningStep(h: Host, svc: Service, ans: Answers)
    ensures OutcomeFits(h, Deciding(Judged(h, svc, ans), svc, ans), svc, ans, Leaving(h, svc, ans))
  {
    var s := Judged(h, svc, ans);
    JudgedStep(h, svc, ans);
    if !s.failed {
      DecidingStep(s, svc, ans);
      Composed(h, s.host, Deciding(s, svc, ans), svc.id);
    }
  }

  /** One reconciliation: entries, containers and the verdict, whatever is answered. */
  lemma ReconcilingStep(h: Host, svc: Service, ans: Answers)
    ensures OutcomeFits(h, Reconciling(h, svc, ans), svc, ans, LeavesContainer(h, svc, ans))
  {
    StoppingStep(h, svc, ans);
    RunningStep(h, svc, ans);
  }

  /** If the policy keeps only what runs, a service said to be healthy has its container. */
  lemma HealthyHasContainer(h: Host, svc: Service, ans: Answers)
    requires ans.action == Keep ==> Judged(h, svc, ans).running
    ensures Reconciling(h, svc, ans).condition.healthy ==> Current(Reconciling(h, svc, ans).host, svc)
  {
    if ans.accepted && svc.intent.Run? && ans.volumeAvailable && !Judged(h, svc, ans).failed {
      var s := Judged(h, svc, ans);
      JudgedStep(h, svc, ans);
      RestartingStep(s.host, svc, ans);
    }
  }

  /** A pass in which nothing fails, nothing is exhausted and the policy keeps what runs. */
  predicate Ordinary(svc: Service, ans: Answers) {
    && Reaches(svc, ans) && ans.ensuring == Succeeds && !ans.exhausted && ans.saved && ans.action == Keep
    && (svc.livenessCheck ==> ans.livenessHealthy || ans.interrupted)
  }

  /**
   * An ordinary pass keeps a current container and makes one otherwise. It calls the service healthy exactly when the
   * service has no readiness check, the kept container has cached readiness of its generation, or a probe succeeds;
   * a fresh verdict names the ports of the families that answered.
   */
  lemma OrdinaryVerdict(h: Host, svc: Service, ans: Answers)
    requires Ordinary(svc, ans)
    ensures var o := Reconciling(h, svc, ans); var served := Current(h, svc) && ReadyFor(h, svc);
      && Current(o.host, svc)
      && (Current(h, svc) ==> o.host.containers == h.containers)
      && (!Current(h, svc) ==> o.host.containers[svc.id].incarnation == h.next)
      && (o.condition.healthy <==> !svc.healthCheck || served || ans.ipv4Healthy || ans.ipv6Healthy)
      && (svc.healthCheck && served ==> o.host.ready == h.ready)
      && (svc.healthCheck && !served && o.condition.healthy ==>
            && o.condition.ipv4Ports == (if ans.ipv4Healthy then svc.ports else [])
            && o.condition.ipv6Ports == (if ans.ipv6Healthy then svc.ports else []))
  {
  }

  /** What stops or waits is not healthy, says the policy's phase and keeps the container it was judged with. */
  lemma HeldVerdict(h: Host, svc: Service, ans: Answers)
    requires ans.accepted && svc.intent.Run? && ans.volumeAvailable && ans.saved
    requires ans.action in {Wait, Stop, CrashLoop}
    requires !Judged(h, svc, ans).failed
    ensures var o := Reconciling(h, svc, ans);
      !o.condition.healthy && o.condition.phase == ans.phase && o.host == Judged(h, svc, ans).host
  {
  }

  /** A restart that nothing stops replaces the container by a new one, which no older readiness speaks for. */
  lemma RestartVerdict(h: Host, svc: Service, ans: Answers)
    requires ans.accepted && svc.intent.Run? && ans.volumeAvailable && ans.saved && ans.action == Start
    requires !Judged(h, svc, ans).failed && !Judged(h, svc, ans).running
    requires !ans.restartRemoval.failed && ans.restarting == Succeeds
    ensures var o := Reconciling(h, svc, ans);
      && Current(o.host, svc) && o.host.containers[svc.id].incarnation >= h.next
      && (o.condition.healthy <==> !svc.healthCheck || ans.ipv4Healthy || ans.ipv6Healthy)
      && (svc.id in o.host.ready ==> o.probed)
  {
    JudgedStep(h, svc, ans);
  }

  /** An exhausted or dead container is gone before the policy is asked, with its readiness. */
  lemma TakenDownIsGone(h: Host, svc: Service, ans: Answers)
    requires !Judged(h, svc, ans).failed
    requires ans.exhausted || Judged(h, svc, ans).livenessFailed
    ensures svc.id !in Judged(h, svc, ans).host.containers && svc.id !in Judged(h, svc, ans).host.ready
    ensures !Judged(h, svc, ans).running
  {
  }

  // ---------------------------------------------------------------- the runtime

  class ContainerdRuntime {
    var containers: map<string, Container>
    var next: nat
    var ready: map<string, Ready>
    var forceStart: set<string>

    ghost function State(): Host
      reads this
    {
      Host(containers, next, ready, forceStart)
    }

    constructor ()
      ensures State() == NEW_HOST
    {
      containers, next, ready, forceStart := map[], 0, map[], {};
    }

    method ForgetReadiness(id: string)
      modifies this`ready
      ensures State() == Forgotten(old(State()), id)
    {
      ready := ready - {id};
    }

    method RemoveService(id: string, r: Removal) returns (failed: bool)
      modifies this`containers
      ensures State() == Removing(old(State()), id, r) && failed == r.failed
    {
      failed := r.failed;
      if r.gone || !r.failed {
        containers := containers - {id};
      }
    }

    method Ensure(svc: Service, e: Ensuring) returns (created: bool, failed: bool)
      modifies this`containers, this`next
      ensures EnsureService(old(State()), svc, e) == Ensured(State(), created, failed)
      ensures !failed ==> Current(State(), svc)
      ensures OthersKept(old(State()), State(), svc.id)
    {
      created, failed := false, !e.Succeeds?;
      if svc.id in containers {
        var found := containers[svc.id];
        if found.generation == svc.generation && found.networkIdentity == svc.networkIdentity {
          return;
        }
      }
      if e.FailsEarly? {
        return;
      }
      var _ := RemoveService(svc.id, Removal(true, false));
      if e.FailsAfterRemoval? || (e.FailsAfterCreate? && !e.left) {
        return;
      }
      containers := containers[svc.id := Container(next, svc.generation, svc.networkIdentity)];
      next := next + 1;
      created := e.Succeeds?;
      assert containers == Creating(old(State()), svc).containers;
    }

    /** Every managed dashboard is marked and removed, up to the first removal that fails; the cache is left alone. */
    method RestartManagedDashboard(services: seq<Service>, managed: Service -> bool, removals: seq<Removal>)
      returns (failed: bool)
      requires |removals| == |services|
      modifies this`containers, this`forceStart
      ensures State() == AfterAll(old(State()), RestartCalls(services, managed, removals))
      ensures ready == old(ready)
      ensures failed <==> exists i :: 0 <= i < |services| && managed(services[i]) && removals[i].failed
      ensures !failed ==> forall i :: 0 <= i < |services| && managed(services[i]) ==>
        services[i].id in forceStart && services[i].id !in containers
    {
      for i := 0 to |services|
        invariant forall j :: 0 <= j < i && managed(services[j]) ==>
          !removals[j].failed && services[j].id in forceStart && services[j].id !in containers
        invariant AfterAll(State(), RestartCalls(services[i..], managed, removals[i..]))
               == AfterAll(old(State()), RestartCalls(services, managed, removals))
      {
        assert services[i..][1..] == services[i + 1..] && removals[i..][1..] == removals[i + 1..];
        if !managed(services[i]) {
          continue;
        }
        forceStart := forceStart + {services[i].id};
        failed := RemoveService(services[i].id, removals[i]);
        if failed {
          return;
        }
      }
      failed := false;
    }

    method PruneService(id: string, r: Removal) returns (failed: bool)
      modifies this
      ensures State() == After(old(State()), Prunes(id, r)) && failed == r.failed
      ensures !failed ==> id !in containers && id !in ready
      ensures OthersKept(old(State()), State(), id)
    {
      failed := TakeDown(id, r);
    }

    /** Takes a container down for a reason of the agent's own; its readiness goes with it. */
    method TakeDown(id: string, r: Removal) returns (failed: bool)
      modifies this`containers, this`ready
      ensures State() == TakenDown(old(State()), id, r) && failed == r.failed
      ensures OthersKept(old(State()), State(), id) && EntryKept(old(State()), State(), id)
    {
      failed := RemoveService(id, r);
      if !failed {
        ForgetReadiness(id);
      }
    }

    method LivenessFailed(svc: Service, ans: Answers) returns (failed: bool)
      ensures failed <==>
        && svc.livenessCheck && !ans.livenessHealthy && !ans.interrupted
        && (svc.healthCheck ==> svc.id in ready && ready[svc.id].generation == svc.generation)
    {
      if !svc.livenessCheck {
        return false;
      }
      if svc.id !in ready || ready[svc.id].generation != svc.generation {
        if svc.healthCheck {
          return false;
        }
      }
      if ans.interrupted {
        return false;
      }
      failed := !ans.livenessHealthy;
    }

    /** Healthy is said from the cache only for the desired generation; otherwise a probe must say so now. */
    method FinishRunningCondition(svc: Service, ans: Answers, created: bool) returns (cond: Condition)
      requires svc.id in containers ==> Current(State(), svc)
      modifies this`ready
      ensures var o := Finishing(old(State()), svc, ans, created); State() == o.host && cond == o.condition
      ensures Gains(old(State()), State(), svc, ans)
      ensures svc.healthCheck && cond.healthy ==> ReadyFor(State(), svc) && cond == Served(ready[svc.id])
      ensures svc.healthCheck && cond.healthy && (created || !ReadyFor(old(State()), svc)) ==>
        ans.ipv4Healthy || ans.ipv6Healthy
    {
      FinishingStep(State(), svc, ans, created);
      if !svc.healthCheck {
        return Condition("Healthy", true, svc.ports, svc.ports);
      }
      if created {
        ForgetReadiness(svc.id);
      }
      if svc.id in ready && ready[svc.id].generation == svc.generation {
        return Condition("Healthy", true, ready[svc.id].healthyIpv4Ports, ready[svc.id].healthyIpv6Ports);
      }
      if ans.ipv4Healthy || ans.ipv6Healthy {
        var ipv4, ipv6 := if ans.ipv4Healthy then svc.ports else [], if ans.ipv6Healthy then svc.ports else [];
        ready := ready[svc.id := Ready(svc.generation, ipv4, ipv6)];
        return Condition("Healthy", true, ipv4, ipv6);
      }
      cond := Unhealthy("Starting");
    }

    method StopService(svc: Service, ans: Answers) returns (cond: Condition)
      requires !svc.intent.Run?
      modifies this`containers, this`ready
      ensures var o := Stopping(old(State()), svc, ans); State() == o.host && cond == o.condition
      ensures !cond.healthy && EntryKept(old(State()), State(), svc.id)
      ensures svc.intent.Drain? ==> ready == old(ready)
      ensures svc.intent.Sleep? && ans.deadlineValid && !ans.drained.failed ==> svc.id !in ready
    {
      if !ans.deadlineValid {
        return Unhealthy("Error");
      }
      if ans.drained.gone {
        containers := containers - {svc.id};
      }
      if ans.drained.failed {
        return Unhealthy("Error");
      }
      if svc.intent.Drain? {
        return Unhealthy(if ans.drained.gone then "Drained" else "Draining");
      }
      ForgetReadiness(svc.id);
      cond := Unhealthy("Sleeping");
    }

    /** A preserved allocation never gets a container; one that is not current is removed. */
    method InspectPreserved(svc: Service, ans: Answers) returns (failed: bool, running: bool)
      modifies this`containers
      ensures ans.preserve ==> Observing(old(State()), svc, ans) == Status(State(), failed, running, false, false)
      ensures containers.Keys <= old(containers).Keys
      ensures !failed && svc.id in containers ==> Current(State(), svc)
    {
      if !ans.inspected {
        return true, false;
      }
      if svc.id in containers {
        var found := containers[svc.id];
        if found.generation == svc.generation && found.networkIdentity == svc.networkIdentity {
          return false, ans.running;
        }
      }
      failed := RemoveService(svc.id, ans.preservedRemoval);
      running := false;
    }

    /** The status a reconciliation starts from: a preserved allocation is inspected, any other gets its container. */
    method Observe(svc: Service, ans: Answers) returns (failed: bool, running: bool, created: bool)
      modifies this
      ensures Observing(old(State()), svc, ans) == Status(State(), failed, running, created, false)
      ensures EntryKept(old(State()), State(), svc.id) && (created ==> svc.id !in ready)
    {
      ObservingStep(State(), svc, ans);
      if ans.preserve {
        failed, running := InspectPreserved(svc, ans);
        created := false;
        return;
      }
      created, failed := Ensure(svc, ans.ensuring);
      running := ans.running || created;
      if created {
        ForgetReadiness(svc.id);
      }
    }

    /** A restart takes the old container and its readiness away before it makes a new one. */
    method Restart(svc: Service, ans: Answers) returns (failed: bool, created: bool)
      modifies this
      ensures Restarting(old(State()), svc, ans) == Ensured(State(), created, failed)
      ensures EntryKept(old(State()), State(), svc.id) && (!failed ==> Current(State(), svc) && svc.id !in ready)
    {
      RestartingStep(State(), svc, ans);
      failed := TakeDown(svc.id, ans.restartRemoval);
      if failed {
        return true, false;
      }
      created, failed := Ensure(svc, ans.restarting);
      if !(ans.restartRunning || created) && !ans.resaved {
        failed := true;
      }
    }

    method Decide(svc: Service, ans: Answers, running: bool, livenessFailed: bool, created: bool)
      returns (cond: Condition)
      requires svc.id in containers ==> Current(State(), svc)
      modifies this
      ensures var o := Deciding(Status(old(State()), false, running, created, livenessFailed), svc, ans);
        State() == o.host && cond == o.condition
      ensures Gains(old(State()), State(), svc, ans)
    {
      DecidingStep(Status(State(), false, running, created, livenessFailed), svc, ans);
      if !ans.saved {
        return Unhealthy("Error");
      }
      var renewed := created;
      match ans.action {
        case Wait => return Unhealthy(ans.phase);
        case Stop => return Unhealthy(ans.phase);
        case CrashLoop => return Unhealthy(ans.phase);
        case Keep =>
        case Start =>
          if !running || livenessFailed {
            var failed;
            failed, renewed := Restart(svc, ans);
            if failed {
              return Unhealthy("Error");
            }
          }
      }
      cond := FinishRunningCondition(svc, ans, renewed);
    }

    /** The agent's own reasons to take a container down: an exhausted disk, a failed liveness check. */
    method Enforce(svc: Service, ans: Answers, running: bool, created: bool)
      returns (failed: bool, live: bool, livenessFailed: bool)
      modifies this`containers, this`ready
      ensures Enforced(Reclaimed(Status(old(State()), false, running, created, false), svc, ans), svc, ans)
           == Status(State(), failed, live, created, livenessFailed)
      ensures EntryKept(old(State()), State(), svc.id)
    {
      failed, live, livenessFailed := false, running, false;
      if ans.exhausted {
        failed := TakeDown(svc.id, ans.exhaustedRemoval);
        live := false;
      }
      if live {
        livenessFailed := LivenessFailed(svc, ans);
        if livenessFailed {
          failed := TakeDown(svc.id, ans.livenessRemoval);
          live := false;
        }
      }
    }

    /** A service that is to run: its container is found or made, judged, and decided upon. */
    method RunService(svc: Service, ans: Answers) returns (cond: Condition)
      modifies this
      ensures var o := Deciding(Judged(old(State()), svc, ans), svc, ans); State() == o.host && cond == o.condition
    {
      JudgedStep(State(), svc, ans);
      forceStart := forceStart - {svc.id};
      var failed, running, created := Observe(svc, ans);
      if failed {
        return Unhealthy("Error");
      }
      var livenessFailed;
      failed, running, livenessFailed := Enforce(svc, ans, running, created);
      if failed {
        return Unhealthy("Error");
      }
      cond := Decide(svc, ans, running, livenessFailed, created);
    }

    /**
     * One reconciliation of a service, whatever the engine, the policy and the probes answer. An entry is new only
     * if a probe of the present container just succeeded; a healthy verdict on an HTTP-checked service is the cached
     * one, of its own generation.
     */
    method ReconcileService(svc: Service, ans: Answers) returns (cond: Condition)
      modifies this
      ensures var o := Reconciling(old(State()), svc, ans); State() == o.host && cond == o.condition
      ensures Gains(old(State()), State(), svc, ans) && OthersKept(old(State()), State(), svc.id)
      ensures svc.healthCheck && cond.healthy ==> ReadyFor(State(), svc) && cond == Served(ready[svc.id])
      ensures svc.id in old(ready) && LeavesContainer(old(State()), svc, ans) ==>
        && svc.id in ready && ready[svc.id] == old(ready)[svc.id]
        && svc.id in containers && containers[svc.id].incarnation >= old(next)
    {
      ReconcilingStep(State(), svc, ans);
      if !ans.accepted {
        return Unhealthy("Error");
      }
      if !svc.intent.Run? {
        cond := StopService(svc, ans);
        return;
      }
      if !ans.volumeAvailable {
        return Unhealthy("Error");
      }
      cond := RunService(svc, ans);
    }
  }

  // ---------------------------------------------------------------- whole sequences of calls

  datatype Call =
    | Reconciles(svc: Service, ans: Answers)
    | Restarts(id: string, removal: Removal)
    | Prunes(id: string, removal: Removal)

  function Target(c: Call): string {
    if c.Reconciles? then c.svc.id else c.id
  }

  function Done(h: Host, c: Call): Outcome {
    match c
    case Reconciles(svc, ans) => Reconciling(h, svc, ans)
    case Restarts(id, r) => Outcome(Removing(h.(forceStart := h.forceStart + {id}), id, r), Unhealthy(""), false)
    case Prunes(id, r) => Outcome(TakenDown(h, id, r), Unhealthy(""), false)
  }

  function After(h: Host, c: Call): Host { Done(h, c).host }

  function AfterAll(h: Host, calls: seq<Call>): Host
    decreases calls
  {
    if calls == [] then h else AfterAll(After(h, calls[0]), calls[1..])
  }

  /** The restarts one pass over the services makes: one for each managed dashboard, up to the first that fails. */
  function RestartCalls(services: seq<Service>, managed: Service -> bool, removals: seq<Removal>): seq<Call>
    requires |removals| == |services|
  {
    if services == [] then []
    else if !managed(services[0]) then RestartCalls(services[1..], managed, removals[1..])
    else if removals[0].failed then [Restarts(services[0].id, removals[0])]
    else [Restarts(services[0].id, removals[0])] + RestartCalls(services[1..], managed, removals[1..])
  }

  /** The call reconciles this allocation and leaves a container behind it failed to start. */
  predicate LeftBehind(h: Host, c: Call, id: string) {
    c.Reconciles? && c.svc.id == id && LeavesContainer(h, c.svc, c.ans)
  }

  /** The call probed this allocation with success and cached the result. */
  predicate Probes(h: Host, c: Call, id: string) {
    Target(c) == id && Done(h, c).probed
  }

  /** One call, seen from any allocation. */
  lemma CallStep(h: Host, c: Call, id: string)
    ensures EntryStep(h, After(h, c), id, Probes(h, c, id), LeftBehind(h, c, id))
    ensures Probes(h, c, id) ==> c.Reconciles? && c.svc.id == id && ProbedNow(After(h, c), c.svc, c.ans)
  {
    if c.Reconciles? {
      ReconcilingStep(h, c.svc, c.ans);
    }
  }

  ghost predicate IsRun(hosts: seq<Host>, calls: seq<Call>) {
    && |hosts| == |calls| + 1
    && hosts[0] == NEW_HOST
    && forall i :: 0 <= i < |calls| ==> hosts[i + 1] == After(hosts[i], calls[i])
  }

  /** A run as one allocation sees it: which calls probed it with success, and which left a container of it behind. */
  datatype View = View(hosts: seq<Host>, probed: seq<bool>, left: seq<bool>)

  ghost predicate IsView(v: View, id: string) {
    && |v.hosts| == |v.probed| + 1 && |v.left| == |v.probed|
    && id !in v.hosts[0].ready && id !in v.hosts[0].containers
    && forall i :: 0 <= i < |v.probed| ==> EntryStep(v.hosts[i], v.hosts[i + 1], id, v.probed[i], v.left[i])
  }

  ghost function ViewOf(hosts: seq<Host>, calls: seq<Call>, id: string): View
    requires |hosts| == |calls| + 1
  {
    View(hosts, seq(|calls|, i requires 0 <= i < |calls| => Probes(hosts[i], calls[i], id)),
         seq(|calls|, i requires 0 <= i < |calls| => LeftBehind(hosts[i], calls[i], id)))
  }

  lemma RunsAreViews(hosts: seq<Host>, calls: seq<Call>, id: string)
    requires IsRun(hosts, calls)
    ensures IsView(ViewOf(hosts, calls, id), id)
  {
    forall i | 0 <= i < |calls|
      ensures EntryStep(hosts[i], hosts[i + 1], id, Probes(hosts[i], calls[i], id), LeftBehind(hosts[i], calls[i], id))
    {
      CallStep(hosts[i], calls[i], id);
    }
  }

  /** The entry at i was cached by the probe of call k, and has been in the cache since. */
  ghost predicate Origin(v: View, k: nat, i: nat, id: string) {
    && k < i <= |v.probed| == |v.hosts| - 1
    && v.probed[k] && id in v.hosts[k + 1].ready
    && (forall j :: k < j <= i ==> id in v.hosts[j].ready && v.hosts[j].ready[id] == v.hosts[k + 1].ready[id])
    && (forall j :: k < j < i ==> !v.probed[j])
  }

  lemma {:induction false} EveryEntryHasOrigin(v: View, i: nat, id: string) returns (k: nat)
    requires IsView(v, id) && i < |v.hosts| && id in v.hosts[i].ready
    ensures Origin(v, k, i, id)
  {
    assert i > 0;
    assert EntryStep(v.hosts[i - 1], v.hosts[i], id, v.probed[i - 1], v.left[i - 1]);
    if v.probed[i - 1] {
      k := i - 1;
    } else {
      k := EveryEntryHasOrigin(v, i - 1, id);
    }
  }

  /** The container probed at k is the one there at i. */
  predicate SameContainer(hosts: seq<Host>, k: nat, i: nat, id: string)
    requires k + 1 < |hosts| && i < |hosts|
  {
    id in hosts[k + 1].containers && id in hosts[i].containers && hosts[k + 1].containers[id] == hosts[i].containers[id]
  }

  /** No call after k and before i left a container of the allocation behind. */
  predicate NeverLeft(v: View, k: nat, i: nat)
    requires i <= |v.left|
  {
    forall m :: k < m < i ==> !v.left[m]
  }

  lemma {:induction false} KeptUnlessLeft(v: View, k: nat, i: nat, id: string)
    requires IsView(v, id) && Origin(v, k, i, id) && NeverLeft(v, k, i)
    ensures id in v.hosts[i].containers ==> SameContainer(v.hosts, k, i, id)
  {
    if i > k + 1 {
      KeptUnlessLeft(v, k, i - 1, id);
      assert EntryStep(v.hosts[i - 1], v.hosts[i], id, v.probed[i - 1], v.left[i - 1]);
    }
  }

  lemma {:induction false} NumbersRise(v: View, m: nat, i: nat, id: string, floor: nat)
    requires IsView(v, id) && m <= i < |v.hosts| && floor <= v.hosts[m].next
    requires id in v.hosts[m].containers ==> v.hosts[m].containers[id].incarnation >= floor
    ensures id in v.hosts[i].containers ==> v.hosts[i].containers[id].incarnation >= floor
    ensures v.hosts[m].next <= v.hosts[i].next
  {
    if i > m {
      NumbersRise(v, m, i - 1, id, floor);
      assert EntryStep(v.hosts[i - 1], v.hosts[i], id, v.probed[i - 1], v.left[i - 1]);
    }
  }

  lemma {:induction false} Numbers(v: View, i: nat, id: string)
    requires IsView(v, id) && i < |v.hosts|
    ensures id in v.hosts[i].containers ==> v.hosts[i].containers[id].incarnation < v.hosts[i].next
  {
    if i > 0 {
      Numbers(v, i - 1, id);
      assert EntryStep(v.hosts[i - 1], v.hosts[i], id, v.probed[i - 1], v.left[i - 1]);
    }
  }

  lemma LeftIsAnother(v: View, k: nat, m: nat, i: nat, id: string)
    requires IsView(v, id) && Origin(v, k, i, id) && k < m < i && v.left[m]
    ensures !SameContainer(v.hosts, k, i, id)
  {
    assert EntryStep(v.hosts[m], v.hosts[m + 1], id, v.probed[m], v.left[m]);
    Numbers(v, k + 1, id);
    NumbersRise(v, k + 1, m, id, 0);
    NumbersRise(v, m + 1, i, id, v.hosts[m].next);
  }

  lemma EarnedUnlessLeft(v: View, k: nat, i: nat, id: string)
    requires IsView(v, id) && Origin(v, k, i, id) && id in v.hosts[i].containers
    ensures SameContainer(v.hosts, k, i, id) <==> NeverLeft(v, k, i)
  {
    if NeverLeft(v, k, i) {
      KeptUnlessLeft(v, k, i, id);
    } else {
      var m :| k < m < i && v.left[m];
      LeftIsAnother(v, k, m, i, id);
    }
  }

  /**
   * Over every sequence of calls: the entry of an existing container goes back to a successful probe of a service of
   * the entry's generation. That probe was of this very container, whose generation it then is, if and only if no
   * call since that probe left a container of the allocation behind after failing to start it.
   */
  lemma ReadinessIsEarned(hosts: seq<Host>, calls: seq<Call>, i: nat, id: string) returns (k: nat)
    requires IsRun(hosts, calls) && i < |hosts| && id in hosts[i].ready && id in hosts[i].containers
    ensures Origin(ViewOf(hosts, calls, id), k, i, id)
    ensures calls[k].Reconciles? && calls[k].svc.id == id && calls[k].svc.healthCheck
    ensures calls[k].ans.ipv4Healthy || calls[k].ans.ipv6Healthy
    ensures hosts[i].ready[id].generation == calls[k].svc.generation
    ensures SameContainer(hosts, k, i, id) <==> forall m :: k < m < i ==> !LeftBehind(hosts[m], calls[m], id)
    ensures SameContainer(hosts, k, i, id) ==> hosts[i].ready[id].generation == hosts[i].containers[id].generation
  {
    var v := ViewOf(hosts, calls, id);
    RunsAreViews(hosts, calls, id);
    k := EveryEntryHasOrigin(v, i, id);
    CallStep(hosts[k], calls[k], id);
    EarnedUnlessLeft(v, k, i, id);
    assert forall m :: 0 <= m < |calls| ==> v.left[m] == LeftBehind(hosts[m], calls[m], id);
    if !NeverLeft(v, k, i) {
      var m :| k < m < i && v.left[m];
      assert LeftBehind(hosts[m], calls[m], id);
    }
  }

  // ---------------------------------------------------------------- where the cache outlives its container

  const DASHBOARD := Service("dashboard", 1, 1, Run, true, false, [80])

  /** A pass over a running service in which nothing fails and the policy keeps the container. */
  function Passing(ensuring: Ensuring, healthy: bool): Answers {
    var clean := Removal(true, false);
    Answers(true, true, clean, true, false, true, clean, ensuring, true, false, clean, true, false, clean,
            Keep, "", true, clean, Succeeds, true, true, healthy, healthy)
  }

  /**
   * A start, a restart of the dashboard, a start that fails and leaves its container, and a pass that finds it: the
   * last verdict is healthy though its probes fail, and the only probe that succeeded was of the first container.
   */
  lemma LeftContainerInheritsReadiness() returns (hosts: seq<Host>, calls: seq<Call>)
    ensures IsRun(hosts, calls) && |calls| == 4
    ensures calls[3] == Reconciles(DASHBOARD, Passing(Succeeds, false))
    ensures Done(hosts[3], calls[3]).condition == Condition("Healthy", true, [80], [80])
    ensures Current(hosts[4], DASHBOARD) && LeftBehind(hosts[2], calls[2], DASHBOARD.id)
    ensures Origin(ViewOf(hosts, calls, DASHBOARD.id), 0, 4, DASHBOARD.id) && !SameContainer(hosts, 0, 4, DASHBOARD.id)
  {
    calls := [
      Reconciles(DASHBOARD, Passing(Succeeds, true)), Restarts(DASHBOARD.id, Removal(true, false)),
      Reconciles(DASHBOARD, Passing(FailsAfterCreate(true), false)), Reconciles(DASHBOARD, Passing(Succeeds, false))];
    var a := After(NEW_HOST, calls[0]);
    var b := After(a, calls[1]);
    var c := After(b, calls[2]);
    var d := After(c, calls[3]);
    hosts := [NEW_HOST, a, b, c, d];
    var entry := Ready(1, [80], [80]);
    assert a.containers == map["dashboard" := Container(0, 1, 1)] && a.ready == map["dashboard" := entry];
    assert b.containers == map[] && b.ready == a.ready && b.next == 1;
    assert c.containers == map["dashboard" := Container(1, 1, 1)] && c.ready == a.ready;
    assert d.containers == c.containers && d.ready == a.ready;
  }
}
