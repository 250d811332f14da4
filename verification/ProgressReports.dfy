/** Progress reports: partial observations merged over the last ones into a complete desired inventory. */
module ProgressReports {
  import opened Keyed
  import opened Messages
  import opened Configuration

  predicate Matches(svc: DesiredService, c: ServiceCondition) {
    c.phase != "" && c.desiredSpecRevision == svc.specRevision && c.desiredGeneration == svc.rolloutGeneration
  }

  function Pending(svc: DesiredService): ServiceCondition {
    ServiceCondition(svc.allocationId, svc.serviceId, svc.specRevision, 0, svc.rolloutGeneration, 0, svc.ipv4,
      svc.ipv6, false, "Pending", "")
  }

  /** The observation kept for a service: the known one if it is about this revision and generation. */
  function Kept(known: map<string, ServiceCondition>, svc: DesiredService): ServiceCondition {
    if svc.allocationId in known && Matches(svc, known[svc.allocationId]) then known[svc.allocationId] else Pending(svc)
  }

  function Observed(conditions: seq<ServiceCondition>): map<string, ServiceCondition> {
    Index(conditions, ConditionKey)
  }

  function Merged(desired: DesiredState, previous: seq<ServiceCondition>, partial: StatusReport): (r: StatusReport) {
    StatusReport(
      desired.env.agentId,
      seq(|desired.services|, i requires 0 <= i < |desired.services| => Kept(Observed(previous)
        + Observed(partial.services), desired.services[i])),
      partial.volumes, [], false, "", "", "", 0, 0, 0)
  }

  method MergeProgressReport(desired: DesiredState, previous: seq<ServiceCondition>, partial: StatusReport)
    returns (report: StatusReport)
    ensures report == Merged(desired, previous, partial)
    ensures |report.services| == |desired.services|
    ensures forall i :: 0 <= i < |desired.services| ==>
      SaysLatest(desired.services[i], previous, partial.services, report.services[i])
  {
    forall i | 0 <= i < |desired.services|
      ensures SaysLatest(
        desired.services[i], previous, partial.services, Merged(desired, previous, partial).services[i])
    {
      MergedSaysLatest(desired, previous, partial, i);
    }
    var conditions := IndexList(map[], previous, ConditionKey);
    conditions := IndexList(conditions, partial.services, ConditionKey);
    assert conditions == Observed(previous) + Observed(partial.services);
    var services: seq<ServiceCondition> := [];
    for i := 0 to |desired.services|
      invariant |services| == i
      invariant forall k :: 0 <= k < i ==> services[k] == Kept(conditions, desired.services[k])
    {
      var svc := desired.services[i];
      var condition := Pending(svc);
      if svc.allocationId in conditions && conditions[svc.allocationId].phase != ""
         && conditions[svc.allocationId].desiredSpecRevision == svc.specRevision
         && conditions[svc.allocationId].desiredGeneration == svc.rolloutGeneration
      {
        condition := conditions[svc.allocationId];
      }
      services := services + [condition];
    }
    report := StatusReport(desired.env.agentId, services, partial.volumes, [], false, "", "", "", 0, 0, 0);
  }

  lemma ObservedNames(previous: seq<ServiceCondition>, partial: seq<ServiceCondition>)
    ensures forall k :: k in Observed(previous) + Observed(partial) ==>
      (Observed(previous) + Observed(partial))[k].allocationId == k
  {
    IndexDomain(previous, ConditionKey);
    IndexDomain(partial, ConditionKey);
    forall k | k in Observed(previous) + Observed(partial)
      ensures (Observed(previous) + Observed(partial))[k].allocationId == k
    {
      if k in Observed(partial) {
        assert ConditionKey(Observed(partial)[k]) == k;
      } else {
        assert ConditionKey(Observed(previous)[k]) == k;
      }
    }
  }

  /** A merged report is complete: one condition per desired service, in order, about the desired revision. */
  lemma MergedIsComplete(desired: DesiredState, previous: seq<ServiceCondition>, partial: StatusReport)
    ensures var r := Merged(desired, previous, partial);
      && |r.services| == |desired.services|
      && forall i :: 0 <= i < |desired.services| ==>
           r.services[i].allocationId == desired.services[i].allocationId && Matches(desired.services[i], r.services[i])
  {
    ObservedNames(previous, partial.services);
  }

  /** The last condition a list holds of an allocation. */
  ghost predicate LastOf(conditions: seq<ServiceCondition>, id: string, c: ServiceCondition) {
    exists i :: 0 <= i < |conditions| && conditions[i] == c && c.allocationId == id
      && forall j :: i < j < |conditions| ==> conditions[j].allocationId != id
  }

  lemma LastGrows(front: seq<ServiceCondition>, last: ServiceCondition, id: string, c: ServiceCondition)
    ensures LastOf(front + [last], id, c) <==> if last.allocationId == id then c == last else LastOf(front, id, c)
  {
    var all := front + [last];
    if last.allocationId == id {
      assert all[|front|] == last;
    } else {
      if LastOf(front, id, c) {
        var i :| 0 <= i < |front| && front[i] == c && forall j :: i < j < |front| ==> front[j].allocationId != id;
        assert all[i] == c;
      }
      if LastOf(all, id, c) {
        var i :| 0 <= i < |all| && all[i] == c && forall j :: i < j < |all| ==> all[j].allocationId != id;
        assert front[i] == c && forall j :: i < j < |front| ==> front[j] == all[j];
      }
    }
  }

  /** The index holds of an allocation what the list said of it last. */
  lemma {:induction false} ObservedIsLast(conditions: seq<ServiceCondition>, id: string)
    ensures id in Observed(conditions) <==> Mentions(conditions, id)
    ensures forall c :: LastOf(conditions, id, c) <==> id in Observed(conditions) && Observed(conditions)[id] == c
  {
    if conditions != [] {
      var front, last := conditions[..|conditions| - 1], conditions[|conditions| - 1];
      ObservedIsLast(front, id);
      assert conditions == front + [last];
      forall c { LastGrows(front, last, id, c); }
      MentionsGrows(front, last, id);
    }
  }

  lemma MentionsGrows(front: seq<ServiceCondition>, last: ServiceCondition, id: string)
    ensures Mentions(front + [last], id) <==> Mentions(front, id) || last.allocationId == id
  {
    var all := front + [last];
    assert all[|front|] == last;
    if i :| 0 <= i < |front| && front[i].allocationId == id {
      assert all[i] == front[i];
    }
  }

  predicate Mentions(conditions: seq<ServiceCondition>, id: string) {
    exists i :: 0 <= i < |conditions| && conditions[i].allocationId == id
  }

  /** The latest word on an allocation: the last partial condition, or without one the last previous condition. */
  ghost predicate Latest(
      previous: seq<ServiceCondition>, partial: seq<ServiceCondition>, id: string, c: ServiceCondition)
  {
    LastOf(partial, id, c) || (!Mentions(partial, id) && LastOf(previous, id, c))
  }

  /** Not running yet: nothing applied, not healthy, with the service's own ids and addresses. */
  predicate NotYet(c: ServiceCondition, svc: DesiredService) {
    && !c.healthy && c.phase == "Pending" && c.appliedSpecRevision == 0 && c.appliedGeneration == 0 && c.detail == ""
    && c.allocationId == svc.allocationId && c.serviceId == svc.serviceId && c.ipv4 == svc.ipv4 && c.ipv6 == svc.ipv6
    && c.desiredSpecRevision == svc.specRevision && c.desiredGeneration == svc.rolloutGeneration
  }

  /** The latest word on the service if that is about this revision and generation, and otherwise not running yet. */
  ghost predicate SaysLatest(
      svc: DesiredService, previous: seq<ServiceCondition>, partial: seq<ServiceCondition>, entry: ServiceCondition)
  {
    && (forall c :: Latest(previous, partial, svc.allocationId, c) && Matches(svc, c) ==> entry == c)
    && ((forall c :: Latest(previous, partial, svc.allocationId, c) ==> !Matches(svc, c)) ==> NotYet(entry, svc))
  }

  lemma MergedSaysLatest(desired: DesiredState, previous: seq<ServiceCondition>, partial: StatusReport, i: nat)
    requires i < |desired.services|
    ensures SaysLatest(
      desired.services[i], previous, partial.services, Merged(desired, previous, partial).services[i])
  {
    var id := desired.services[i].allocationId;
    ObservedIsLast(previous, id);
    ObservedIsLast(partial.services, id);
    var known := Observed(previous) + Observed(partial.services);
    if id in known {
      assert Latest(previous, partial.services, id, known[id]);
    }
  }

  /** An observation of the desired revision stays until a later report speaks of the same allocation. */
  lemma SilenceKeepsReadiness(
      desired: DesiredState, previous: seq<ServiceCondition>, partial: StatusReport, i: nat, j: nat)
    requires i < |desired.services| && j < |previous| && DistinctKeys(previous, ConditionKey)
    requires previous[j].allocationId == desired.services[i].allocationId && Matches(desired.services[i], previous[j])
    requires desired.services[i].allocationId !in Keys(partial.services, ConditionKey)
    ensures Merged(desired, previous, partial).services[i] == previous[j]
  {
    IndexAt(previous, ConditionKey, j);
    IndexDomain(partial.services, ConditionKey);
  }

  lemma MergedAt(desired: DesiredState, previous: seq<ServiceCondition>, partial: StatusReport, i: nat)
    requires i < |desired.services| && DistinctKeys(desired.services, ServiceKey)
    ensures var id := desired.services[i].allocationId; var r := Merged(desired, previous, partial);
      id in Observed(r.services) && Observed(r.services)[id] == r.services[i]
  {
    MergedIsComplete(desired, previous, partial);
    var r := Merged(desired, previous, partial).services;
    forall a, b | 0 <= a < b < |r| ensures ConditionKey(r[a]) != ConditionKey(r[b]) {
      assert ServiceKey(desired.services[a]) != ServiceKey(desired.services[b]);
    }
    IndexAt(r, ConditionKey, i);
  }

  lemma {:induction false} ObservedAppend(a: seq<ServiceCondition>, b: seq<ServiceCondition>)
    ensures Observed(a + b) == Observed(a) + Observed(b)
  {
    if b == [] {
      assert a + b == a;
    } else {
      ObservedAppend(a, b[..|b| - 1]);
      assert (a + b)[..|a + b| - 1] == a + b[..|b| - 1];
    }
  }

  /** Merging partial reports one after another is merging all of them at once: nothing reported so far is lost. */
  lemma MergeAccumulates(
      desired: DesiredState, previous: seq<ServiceCondition>, first: StatusReport, second: StatusReport)
    requires DistinctKeys(desired.services, ServiceKey)
    ensures Merged(desired, Merged(desired, previous, first).services, second)
         == Merged(desired, previous, second.(services := first.services + second.services))
  {
    var once := Merged(desired, previous, first);
    var twice := Merged(desired, once.services, second);
    var whole := Merged(desired, previous, second.(services := first.services + second.services));
    ObservedAppend(first.services, second.services);
    MergedIsComplete(desired, previous, first);
    forall i | 0 <= i < |desired.services| ensures twice.services[i] == whole.services[i] {
      MergedAt(desired, previous, first, i);
    }
    assert twice.services == whole.services;
  }
}
