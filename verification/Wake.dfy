/** Wake demand: packet counters of sleeping addresses, differenced between passes and reported per allocation. */
module Wake {
  import opened Strings
  import opened Messages

  const TWO_64: nat := 0x1_0000_0000_0000_0000

  /** Counters are 64 bits wide. */
  type Counter = n: nat | n < TWO_64

  /** A normalized address. */
  type Address = string

  type Counters = map<Address, Counter>

  /** The allocation that sleeps at each address. */
  type Sleepers = map<Address, string>

  // ---------------------------------------------------------------- sums over addresses

  ghost function Sum(m: map<Address, nat>): nat {
    if m == map[] then 0 else
      var k :| k in m;
      m[k] + Sum(m - {k})
  }

  /** The order of addition does not matter. */
  lemma {:induction false} SumTake(m: map<Address, nat>, k: Address)
    requires k in m
    ensures Sum(m) == m[k] + Sum(m - {k})
    decreases |m|
  {
    var first :| first in m && Sum(m) == m[first] + Sum(m - {first});
    if first != k {
      SumTake(m - {first}, k);
      SumTake(m - {k}, first);
      assert m - {first} - {k} == m - {k} - {first};
    }
  }

  lemma {:induction false} SumPointwise(a: map<Address, nat>, b: map<Address, nat>, c: map<Address, nat>)
    requires a.Keys == b.Keys == c.Keys && forall k :: k in a ==> c[k] == a[k] + b[k]
    ensures Sum(c) == Sum(a) + Sum(b)
    decreases |a|
  {
    if k :| k in a {
      SumTake(a, k);
      SumTake(b, k);
      SumTake(c, k);
      SumPointwise(a - {k}, b - {k}, c - {k});
    } else {
      assert a == map[] && b == map[] && c == map[];
    }
  }

  lemma {:induction false} SumZero(m: map<Address, nat>)
    ensures Sum(m) == 0 <==> forall k :: k in m ==> m[k] == 0
    decreases |m|
  {
    if k :| k in m {
      SumTake(m, k);
      SumZero(m - {k});
      assert forall x :: x in m && x != k ==> x in m - {k};
    }
  }

  // ---------------------------------------------------------------- one pass

  /** A missing baseline counts as zero. */
  function Base(baseline: Counters, ip: Address): Counter {
    if ip in baseline then baseline[ip] else 0
  }

  function Rise(baseline: Counters, samples: Counters, ip: Address): nat {
    if ip in samples && samples[ip] > Base(baseline, ip) then samples[ip] - Base(baseline, ip) else 0
  }

  function Rises(ips: set<Address>, baseline: Counters, samples: Counters): map<Address, nat> {
    map ip | ip in ips :: Rise(baseline, samples, ip)
  }

  function AddressesOf(sleeping: Sleepers, id: string): set<Address> {
    set ip | ip in sleeping && sleeping[ip] == id
  }

  /** The baseline after a pass; nothing is consumed when nothing sleeps or nothing was read. */
  function Consumed(baseline: Counters, sleeping: Sleepers, samples: Counters): Counters {
    if sleeping == map[] || samples == map[] then baseline else baseline + samples
  }

  /** Some address of the allocation received packets since the baseline. */
  ghost predicate Demanded(baseline: Counters, sleeping: Sleepers, samples: Counters, id: string) {
    exists ip :: ip in sleeping && sleeping[ip] == id && Rise(baseline, samples, ip) > 0
  }

  /** What one pass reports for an allocation, as 64-bit addition gives it. */
  ghost function Packets(baseline: Counters, sleeping: Sleepers, samples: Counters, id: string): nat {
    Sum(Rises(AddressesOf(sleeping, id), baseline, samples)) % TWO_64
  }

  // ---------------------------------------------------------------- sleeping addresses

  predicate Sleeps(svc: DesiredService, parse: string -> Option<Address>, ip: Address) {
    svc.intent.Sleep? && (parse(svc.ipv4) == Some(ip) || parse(svc.ipv6) == Some(ip))
  }

  /** Service i is the last of the first n that sleeps at the address. */
  predicate LastSleeper(services: seq<DesiredService>, n: nat, parse: string -> Option<Address>, ip: Address, i: nat) {
    i < n <= |services| && Sleeps(services[i], parse, ip) && forall j :: i < j < n ==> !Sleeps(services[j], parse, ip)
  }

  ghost predicate MappedTo(
      services: seq<DesiredService>, n: nat, parse: string -> Option<Address>, ip: Address, id: string)
  {
    exists i: nat :: LastSleeper(services, n, parse, ip, i) && services[i].allocationId == id
  }

  lemma MappedNext(services: seq<DesiredService>, n: nat, parse: string -> Option<Address>, ip: Address, id: string)
    requires n < |services| && if Sleeps(services[n], parse, ip) then id == services[n].allocationId
      else MappedTo(services, n, parse, ip, id)
    ensures MappedTo(services, n + 1, parse, ip, id)
  {
    if Sleeps(services[n], parse, ip) {
      assert LastSleeper(services, n + 1, parse, ip, n);
    } else {
      var i: nat :| LastSleeper(services, n, parse, ip, i) && services[i].allocationId == id;
      assert LastSleeper(services, n + 1, parse, ip, i);
    }
  }

  /** Exactly the addresses of sleeping services are mapped, each to the last of them. */
  ghost predicate MapsSleeping(services: seq<DesiredService>, n: nat, parse: string -> Option<Address>, out: Sleepers)
    requires n <= |services|
  {
    && (forall i, ip :: 0 <= i < n && Sleeps(services[i], parse, ip) ==> ip in out)
    && (forall ip :: ip in out ==> MappedTo(services, n, parse, ip, out[ip]))
  }

  lemma MapsNext(
      services: seq<DesiredService>, parse: string -> Option<Address>, before: Sleepers, out: Sleepers, n: nat)
    requires n < |services| && MapsSleeping(services, n, parse, before)
    requires forall ip :: ip in out <==> ip in before || Sleeps(services[n], parse, ip)
    requires forall ip :: ip in out ==>
      out[ip] == if Sleeps(services[n], parse, ip) then services[n].allocationId else before[ip]
    ensures MapsSleeping(services, n + 1, parse, out)
  {
    forall ip | ip in out ensures MappedTo(services, n + 1, parse, ip, out[ip]) {
      MappedNext(services, n, parse, ip, out[ip]);
    }
  }

  method SleepingAddresses(services: seq<DesiredService>, parse: string -> Option<Address>) returns (out: Sleepers)
    ensures MapsSleeping(services, |services|, parse, out)
  {
    out := map[];
    for n := 0 to |services|
      invariant MapsSleeping(services, n, parse, out)
    {
      var svc := services[n];
      ghost var before := out;
      if svc.intent.Sleep? {
        var ipv4, ipv6 := parse(svc.ipv4), parse(svc.ipv6);
        if ipv4.Some? {
          out := out[ipv4.value := svc.allocationId];
        }
        if ipv6.Some? {
          out := out[ipv6.value := svc.allocationId];
        }
      }
      MapsNext(services, parse, before, out, n);
    }
  }

  // ---------------------------------------------------------------- collecting

  ghost predicate RisesWithin(
    baseline: Counters, sleeping: Sleepers, samples: Counters, done: set<Address>, id: string)
  {
    exists ip :: ip in done && ip in sleeping && sleeping[ip] == id && Rise(baseline, samples, ip) > 0
  }

  /** The total of an allocation after the addresses in `done`: present when one of them rose. */
  ghost predicate TotalAt(
    baseline: Counters, sleeping: Sleepers, samples: Counters, done: set<Address>, totals: map<string, Counter>,
    id: string)
  {
    && (id in totals <==> RisesWithin(baseline, sleeping, samples, done, id))
    && (if id in totals then totals[id] else 0)
          == Sum(Rises(AddressesOf(sleeping, id) * done, baseline, samples)) % TWO_64
  }

  ghost predicate Totals(
    baseline: Counters, sleeping: Sleepers, samples: Counters, done: set<Address>, totals: map<string, Counter>)
  {
    forall id :: TotalAt(baseline, sleeping, samples, done, totals, id)
  }

  function Plus(a: Counter, b: nat): Counter { (a + b) % TWO_64 }

  lemma PlusWraps(n: nat, b: nat)
    ensures Plus(n % TWO_64, b) == (n + b) % TWO_64
  {
  }

  lemma SumSkips(ips: set<Address>, ip: Address, baseline: Counters, samples: Counters)
    requires ip !in ips
    ensures Sum(Rises(ips + {ip}, baseline, samples)) == Sum(Rises(ips, baseline, samples))
      + Rise(baseline, samples, ip)
  {
    SumTake(Rises(ips + {ip}, baseline, samples), ip);
    assert Rises(ips + {ip}, baseline, samples) - {ip} == Rises(ips, baseline, samples);
  }

  function Added(totals: map<string, Counter>, id: string, rise: nat): map<string, Counter> {
    totals[id := Plus(if id in totals then totals[id] else 0, rise)]
  }

  /** The next address adds its rise to its own allocation and leaves every other total alone. */
  lemma TotalOfOwner(
    baseline: Counters, sleeping: Sleepers, samples: Counters, done: set<Address>, totals: map<string, Counter>,
    ip: Address)
    requires ip !in done && ip in sleeping && TotalAt(baseline, sleeping, samples, done, totals, sleeping[ip])
    ensures var rise := Rise(baseline, samples, ip);
      TotalAt(baseline, sleeping, samples, done + {ip}, if rise > 0 then Added(totals, sleeping[ip], rise)
        else totals, sleeping[ip])
  {
    var id := sleeping[ip];
    var mine := AddressesOf(sleeping, id) * done;
    assert AddressesOf(sleeping, id) * (done + {ip}) == mine + {ip};
    SumSkips(mine, ip, baseline, samples);
    PlusWraps(Sum(Rises(mine, baseline, samples)), Rise(baseline, samples, ip));
  }

  lemma TotalOfOther(
    baseline: Counters, sleeping: Sleepers, samples: Counters, done: set<Address>, totals: map<string, Counter>,
    after: map<string, Counter>, ip: Address, id: string)
    requires TotalAt(baseline, sleeping, samples, done, totals, id) && (ip in sleeping ==> sleeping[ip] != id)
    requires (id in after <==> id in totals) && (id in after ==> after[id] == totals[id])
    ensures TotalAt(baseline, sleeping, samples, done + {ip}, after, id)
  {
    assert AddressesOf(sleeping, id) * (done + {ip}) == AddressesOf(sleeping, id) * done;
  }

  lemma TotalsNext(
    baseline: Counters, sleeping: Sleepers, samples: Counters, done: set<Address>, totals: map<string, Counter>,
    ip: Address)
    requires Totals(baseline, sleeping, samples, done, totals) && ip !in done
    ensures var rise := Rise(baseline, samples, ip);
      Totals(baseline, sleeping, samples, done + {ip}, if rise > 0 && ip in sleeping
        then Added(totals, sleeping[ip], rise) else totals)
  {
    var rise := Rise(baseline, samples, ip);
    var after := if rise > 0 && ip in sleeping then Added(totals, sleeping[ip], rise) else totals;
    forall id ensures TotalAt(baseline, sleeping, samples, done + {ip}, after, id) {
      assert TotalAt(baseline, sleeping, samples, done, totals, id);
      if ip in sleeping && sleeping[ip] == id {
        TotalOfOwner(baseline, sleeping, samples, done, totals, ip);
      } else {
        TotalOfOther(baseline, sleeping, samples, done, totals, after, ip, id);
      }
    }
  }

  /** The baseline with the sampled addresses outside `rest` moved to their samples. */
  function Moved(baseline: Counters, samples: Counters, rest: set<Address>): Counters {
    baseline + (samples - rest)
  }

  lemma MovedNext(baseline: Counters, samples: Counters, rest: set<Address>, ip: Address)
    requires ip in rest && rest <= samples.Keys
    ensures Moved(baseline, samples, rest)[ip := samples[ip]] == Moved(baseline, samples, rest - {ip})
    ensures Base(Moved(baseline, samples, rest), ip) == Base(baseline, ip)
  {
  }

  lemma NoTotals(baseline: Counters, sleeping: Sleepers, samples: Counters)
    ensures Totals(baseline, sleeping, samples, {}, map[])
  {
    forall id ensures TotalAt(baseline, sleeping, samples, {}, map[], id) {
      assert Rises(AddressesOf(sleeping, id) * {}, baseline, samples) == map[];
    }
  }

  /** The loop over samples, in whatever order they come. */
  method AddRises(baseline: Counters, sleeping: Sleepers, samples: Counters)
    returns (moved: Counters, totals: map<string, Counter>)
    ensures moved == baseline + samples
    ensures Totals(baseline, sleeping, samples, samples.Keys, totals)
  {
    moved, totals := baseline, map[];
    var rest := samples.Keys;
    NoTotals(baseline, sleeping, samples);
    assert samples.Keys - rest == {};
    while rest != {}
      invariant rest <= samples.Keys && moved == Moved(baseline, samples, rest)
      invariant Totals(baseline, sleeping, samples, samples.Keys - rest, totals)
      decreases rest
    {
      var ip :| ip in rest;
      var previous := Base(moved, ip);
      TotalsNext(baseline, sleeping, samples, samples.Keys - rest, totals, ip);
      assert samples.Keys - (rest - {ip}) == samples.Keys - rest + {ip};
      MovedNext(baseline, samples, rest, ip);
      moved := moved[ip := samples[ip]];
      rest := rest - {ip};
      if samples[ip] <= previous {
        continue;
      }
      if ip in sleeping {
        totals := totals[sleeping[ip] :=
          Plus(if sleeping[ip] in totals then totals[sleeping[ip]] else 0, samples[ip] - previous)];
      }
    }
    assert samples.Keys - {} == samples.Keys;
  }

  class WakeTracker {
    var sleepingAddrs: Sleepers
    var wakeBaseline: Counters

    constructor ()
      ensures sleepingAddrs == map[] && wakeBaseline == map[]
    {
      sleepingAddrs, wakeBaseline := map[], map[];
    }

    /** Some sleeping address is above its baseline. */
    method CheckWakeDemand(samples: Counters) returns (demand: bool)
      ensures demand <==> exists ip :: ip in sleepingAddrs && Rise(wakeBaseline, samples, ip) > 0
    {
      if samples == map[] {
        return false;
      }
      var rest := sleepingAddrs.Keys;
      while rest != {}
        invariant rest <= sleepingAddrs.Keys
        invariant forall ip :: ip in sleepingAddrs && ip !in rest ==> Rise(wakeBaseline, samples, ip) == 0
        decreases rest
      {
        var ip :| ip in rest;
        var sample := if ip in samples then samples[ip] else 0;
        if sample > Base(wakeBaseline, ip) {
          assert Rise(wakeBaseline, samples, ip) > 0;
          return true;
        }
        rest := rest - {ip};
      }
      return false;
    }

    /** One demand per sleeping allocation with new packets, in any order; the baseline moves to what was read. */
    method CollectWakeDemands(services: seq<DesiredService>, parse: string -> Option<Address>, samples: Counters)
      returns (demands: seq<WakeDemand>)
      modifies this
      ensures MapsSleeping(services, |services|, parse, sleepingAddrs)
      ensures wakeBaseline == Consumed(old(wakeBaseline), sleepingAddrs, samples)
      ensures Reports(old(wakeBaseline), sleepingAddrs, samples, demands)
    {
      sleepingAddrs := SleepingAddresses(services, parse);
      if sleepingAddrs == map[] || samples == map[] {
        return [];
      }
      var totals;
      wakeBaseline, totals := AddRises(wakeBaseline, sleepingAddrs, samples);
      demands := Listed(totals);
      TotalsReport(old(wakeBaseline), sleepingAddrs, samples, totals, demands);
    }
  }

  /** Exactly the allocations with new packets are reported, each once, with the packets of all its addresses. */
  ghost predicate Reports(baseline: Counters, sleeping: Sleepers, samples: Counters, demands: seq<WakeDemand>) {
    && (forall i, j :: 0 <= i < j < |demands| ==> demands[i].allocationId != demands[j].allocationId)
    && (forall i :: 0 <= i < |demands| ==>
          && Demanded(baseline, sleeping, samples, demands[i].allocationId)
          && demands[i].packets == Packets(baseline, sleeping, samples, demands[i].allocationId))
    && (forall id :: Demanded(baseline, sleeping, samples, id) ==>
          exists i :: 0 <= i < |demands| && demands[i].allocationId == id)
  }

  method Listed(totals: map<string, Counter>) returns (demands: seq<WakeDemand>)
    ensures forall i, j :: 0 <= i < j < |demands| ==> demands[i].allocationId != demands[j].allocationId
    ensures forall i :: 0 <= i < |demands| ==>
      demands[i].allocationId in totals && demands[i].packets == totals[demands[i].allocationId]
    ensures forall id :: id in totals ==> exists i :: 0 <= i < |demands| && demands[i].allocationId == id
  {
    demands := [];
    var rest := totals.Keys;
    while rest != {}
      invariant rest <= totals.Keys
      invariant forall i, j :: 0 <= i < j < |demands| ==> demands[i].allocationId != demands[j].allocationId
      invariant forall i :: 0 <= i < |demands| ==>
        demands[i].allocationId in totals && demands[i].allocationId !in rest
          && demands[i].packets == totals[demands[i].allocationId]
      invariant forall id :: id in totals && id !in rest ==>
        exists i :: 0 <= i < |demands| && demands[i].allocationId == id
      decreases rest
    {
      var id :| id in rest;
      ghost var before := demands;
      demands := demands + [WakeDemand(id, totals[id])];
      rest := rest - {id};
      assert demands[|before|].allocationId == id;
      forall x | x in totals && x !in rest ensures exists i :: 0 <= i < |demands| && demands[i].allocationId == x {
        if x != id {
          var i :| 0 <= i < |before| && before[i].allocationId == x;
          assert demands[i].allocationId == x;
        }
      }
    }
  }

  lemma TotalsReport(
    baseline: Counters, sleeping: Sleepers, samples: Counters, totals: map<string, Counter>, demands: seq<WakeDemand>)
    requires Totals(baseline, sleeping, samples, samples.Keys, totals)
    requires forall i, j :: 0 <= i < j < |demands| ==> demands[i].allocationId != demands[j].allocationId
    requires forall i :: 0 <= i < |demands| ==>
      demands[i].allocationId in totals && demands[i].packets == totals[demands[i].allocationId]
    requires forall id :: id in totals ==> exists i :: 0 <= i < |demands| && demands[i].allocationId == id
    ensures Reports(baseline, sleeping, samples, demands)
  {
    forall id ensures id in totals <==> Demanded(baseline, sleeping, samples, id) {
      assert TotalAt(baseline, sleeping, samples, samples.Keys, totals, id);
    }
    forall i | 0 <= i < |demands| ensures demands[i].packets
      == Packets(baseline, sleeping, samples, demands[i].allocationId) {
      assert TotalAt(baseline, sleeping, samples, samples.Keys, totals, demands[i].allocationId);
      UnsampledAddNothing(baseline, sleeping, samples, demands[i].allocationId);
    }
  }

  lemma UnsampledAddNothing(baseline: Counters, sleeping: Sleepers, samples: Counters, id: string)
    ensures var ips := AddressesOf(sleeping, id);
      Sum(Rises(ips, baseline, samples)) == Sum(Rises(ips * samples.Keys, baseline, samples))
  {
    var ips := AddressesOf(sleeping, id);
    SumDropsZeros(ips, ips * samples.Keys, baseline, samples);
  }

  lemma {:induction false} SumDropsZeros(all: set<Address>, some: set<Address>, baseline: Counters, samples: Counters)
    requires some <= all && forall ip :: ip in all - some ==> Rise(baseline, samples, ip) == 0
    ensures Sum(Rises(all, baseline, samples)) == Sum(Rises(some, baseline, samples))
    decreases all
  {
    if all - some == {} {
      assert forall ip :: ip in all && ip !in some ==> ip in all - some;
      assert all == some;
    } else {
      var ip :| ip in all - some;
      SumSkips(all - {ip}, ip, baseline, samples);
      assert all - {ip} + {ip} == all;
      SumDropsZeros(all - {ip}, some, baseline, samples);
    }
  }

  // ---------------------------------------------------------------- polling against the next pass

  /** The poll says yes exactly when the next pass on the same samples and sleepers has something to report. */
  lemma PollForetellsReport(baseline: Counters, sleeping: Sleepers, samples: Counters, demands: seq<WakeDemand>)
    requires Reports(baseline, sleeping, samples, demands)
    ensures (exists ip :: ip in sleeping && Rise(baseline, samples, ip) > 0) <==> demands != []
  {
    if ip :| ip in sleeping && Rise(baseline, samples, ip) > 0 {
      assert Demanded(baseline, sleeping, samples, sleeping[ip]);
    }
    if demands != [] {
      assert Demanded(baseline, sleeping, samples, demands[0].allocationId);
    }
  }

  /** Right after a pass nothing is above the baseline. */
  lemma QuietAfterPass(baseline: Counters, sleeping: Sleepers, samples: Counters, ip: Address)
    ensures ip in sleeping ==> Rise(Consumed(baseline, sleeping, samples), samples, ip) == 0
  {
  }

  // ---------------------------------------------------------------- many passes

  datatype Pass = Pass(sleeping: Sleepers, samples: Counters)

  function BaselineAfter(baseline: Counters, passes: seq<Pass>): Counters {
    if passes == [] then baseline
    else
      var last := passes[|passes| - 1];
      Consumed(BaselineAfter(baseline, passes[..|passes| - 1]), last.sleeping, last.samples)
  }

  /** The packets added up for an allocation over passes, before any 64-bit wrap. */
  ghost function Received(baseline: Counters, passes: seq<Pass>, id: string): nat {
    if passes == [] then 0
    else
      var last := passes[|passes| - 1];
      Received(baseline, passes[..|passes| - 1], id)
      + Sum(Rises(AddressesOf(last.sleeping, id), BaselineAfter(baseline, passes[..|passes| - 1]), last.samples))
  }

  /** The packets its demands add up to. */
  ghost function Reported(baseline: Counters, passes: seq<Pass>, id: string): nat {
    if passes == [] then 0
    else
      var last := passes[|passes| - 1];
      Reported(baseline, passes[..|passes| - 1], id)
        + Packets(BaselineAfter(baseline, passes[..|passes| - 1]), last.sleeping, last.samples, id)
  }

  /** The allocation keeps its addresses asleep, and none of their counters falls below the baseline. */
  ghost predicate StaysAsleep(baseline: Counters, passes: seq<Pass>, id: string, ips: set<Address>) {
    forall k :: 0 <= k < |passes| ==>
      && AddressesOf(passes[k].sleeping, id) == ips
      && forall ip :: ip in ips && ip in passes[k].samples ==>
          passes[k].samples[ip] >= Base(BaselineAfter(baseline, passes[..k]), ip)
  }

  lemma OnePassRises(ips: set<Address>, baseline: Counters, pass: Pass, id: string)
    requires AddressesOf(pass.sleeping, id) == ips
    requires forall ip :: ip in ips && ip in pass.samples ==> pass.samples[ip] >= Base(baseline, ip)
    ensures forall ip :: ip in ips ==>
      Base(Consumed(baseline, pass.sleeping, pass.samples), ip) == Base(baseline, ip) + Rise(baseline, pass.samples, ip)
  {
    forall ip | ip in ips ensures Base(Consumed(baseline, pass.sleeping, pass.samples), ip) == Base(baseline, ip)
      + Rise(baseline, pass.samples, ip) {
      assert ip in pass.sleeping;
    }
  }

  lemma {:induction false} RisesTelescope(baseline: Counters, passes: seq<Pass>, id: string, ips: set<Address>)
    requires StaysAsleep(baseline, passes, id, ips)
    ensures var end := BaselineAfter(baseline, passes);
      && (forall ip :: ip in ips ==> Base(end, ip) >= Base(baseline, ip))
      && Received(baseline, passes, id) == Sum(map ip | ip in ips :: Base(end, ip) - Base(baseline, ip))
  {
    if passes == [] {
      SumZero(map ip | ip in ips :: 0);
      assert (map ip | ip in ips :: Base(baseline, ip) - Base(baseline, ip)) == map ip | ip in ips :: 0;
    } else {
      var front, last := passes[..|passes| - 1], passes[|passes| - 1];
      assert forall k :: 0 <= k < |front| ==> front[..k] == passes[..k];
      RisesTelescope(baseline, front, id, ips);
      var mid, end := BaselineAfter(baseline, front), BaselineAfter(baseline, passes);
      OnePassRises(ips, mid, last, id);
      SumPointwise(map ip | ip in ips :: Base(mid, ip) - Base(baseline, ip), Rises(ips, mid, last.samples),
        map ip | ip in ips :: Base(end, ip) - Base(baseline, ip));
    }
  }

  lemma WrapOnce(a: nat, b: nat, rise: nat)
    requires a % TWO_64 == b % TWO_64
    ensures (a + rise % TWO_64) % TWO_64 == (b + rise) % TWO_64
    ensures a == b && b + rise < TWO_64 ==> a + rise % TWO_64 == b + rise
  {
    PlusWraps(a, rise % TWO_64);
    PlusWraps(rise, a % TWO_64);
    PlusWraps(b, rise);
  }

  lemma {:induction false} ReportedIsReceived(baseline: Counters, passes: seq<Pass>, id: string)
    ensures Reported(baseline, passes, id) % TWO_64 == Received(baseline, passes, id) % TWO_64
    ensures Received(baseline, passes, id) < TWO_64 ==> Reported(baseline, passes, id) == Received(baseline, passes, id)
  {
    if passes != [] {
      var front, last := passes[..|passes| - 1], passes[|passes| - 1];
      ReportedIsReceived(baseline, front, id);
      var rise := Sum(Rises(AddressesOf(last.sleeping, id), BaselineAfter(baseline, front), last.samples));
      assert Received(baseline, passes, id) == Received(baseline, front, id) + rise;
      assert Reported(baseline, passes, id) == Reported(baseline, front, id) + rise % TWO_64;
      WrapOnce(Reported(baseline, front, id), Received(baseline, front, id), rise);
    }
  }

  /**
   * While an allocation's addresses stay asleep and their counters never fall, what its demands add up to over any
   * number of passes is the rise of those counters above the starting baseline: exactly, as long as the rise fits
   * 64 bits, and modulo 2^64 in any case.
   */
  lemma DemandsAddUp(baseline: Counters, passes: seq<Pass>, id: string, ips: set<Address>)
    requires StaysAsleep(baseline, passes, id, ips)
    ensures var end := BaselineAfter(baseline, passes);
      && (forall ip :: ip in ips ==> Base(end, ip) >= Base(baseline, ip))
      && var rise := Sum(map ip | ip in ips :: Base(end, ip) - Base(baseline, ip));
         && Reported(baseline, passes, id) % TWO_64 == rise % TWO_64
         && (rise < TWO_64 ==> Reported(baseline, passes, id) == rise)
  {
    RisesTelescope(baseline, passes, id, ips);
    ReportedIsReceived(baseline, passes, id);
  }
}
