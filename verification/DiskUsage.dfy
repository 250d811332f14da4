/**
 * The disk usage cache: samples refreshed by slow scans that run without the lock, while other callers read,
 * scan and remove. A sample is an object; `serial` is the step that created it and stands for its identity.
 */
module DiskUsage {
  import opened Strings

  const DISK_USAGE_INTERVAL := 30_000_000_000

  datatype Reading = Reading(serial: nat, checkedAt: int, bytes: int, failed: bool, pending: bool)

  /** What the first half of a usage call does: answers from the sample, or goes to measure. */
  datatype Answer = Known(bytes: int, failed: bool) | Measuring(serial: nat)

  predicate FreshEnough(r: Reading, now: int) {
    r.pending || now - r.checkedAt < DISK_USAGE_INTERVAL
  }

  function Asked(live: map<string, Reading>, step: nat, id: string, now: int): Answer {
    if id !in live then Measuring(step)
    else if FreshEnough(live[id], now) then Known(live[id].bytes, live[id].failed)
    else Measuring(live[id].serial)
  }

  function Begun(live: map<string, Reading>, step: nat, id: string, now: int): map<string, Reading> {
    if id !in live then live[id := Reading(step, 0, 0, false, true)]
    else if FreshEnough(live[id], now) then live
    else live[id := live[id].(pending := true)]
  }

  /** A scan writes only the sample it was begun for; `measured` is absent when it failed. */
  function Finished(
      live: map<string, Reading>, id: string, serial: nat, now: int, measured: Option<int>): map<string, Reading>
  {
    if id in live && live[id].serial == serial then
      live[id := Reading(serial, now, if measured.Some? then measured.value else live[id].bytes, measured.None?, false)]
    else live
  }

  /**
   * A completed scan of a live sample stores what it measured, or keeps the size and the failure of a scan that failed,
   * and its answer serves every caller until thirty seconds after it began; then the next caller measures again.
   */
  lemma ScanServes(
      live: map<string, Reading>, id: string, serial: nat, now: int, measured: Option<int>, later: int, step: nat)
    requires id in live && live[id].serial == serial
    ensures var b := Finished(live, id, serial, now, measured);
      && CachedBytes(b, id) == (if measured.Some? then measured.value else CachedBytes(live, id))
      && Asked(b, step, id, later) == (if later - now < 30_000_000_000 then Known(CachedBytes(b, id), measured.None?)
                                       else Measuring(serial))
      && (later - now >= 30_000_000_000 ==> Asked(Begun(b, step, id, later), step + 1, id, later).Known?)
      && b - {id} == live - {id}
  {
  }

  function CachedBytes(live: map<string, Reading>, id: string): int {
    if id in live then live[id].bytes else 0
  }

  // ---------------------------------------------------------------- the cache object

  class Sample {
    var checkedAt: int
    var bytes: int
    var failed: bool
    var pending: bool
    ghost const serial: nat

    constructor (ghost step: nat)
      ensures serial == step && checkedAt == 0 && bytes == 0 && !failed && !pending
    {
      checkedAt, bytes, failed, pending, serial := 0, 0, false, false, step;
    }

    ghost function Value(): Reading
      reads this
    {
      Reading(serial, checkedAt, bytes, failed, pending)
    }
  }

  class DiskUsageCache {
    var samples: map<string, Sample>

    ghost predicate Valid()
      reads this
    {
      forall a, b :: a in samples && b in samples && a != b ==> samples[a] != samples[b]
    }

    ghost function Live(): map<string, Reading>
      reads this, samples.Values
    {
      map id | id in samples :: samples[id].Value()
    }

    constructor ()
      ensures Valid() && Live() == map[]
    {
      samples := map[];
    }

    /** The half of a usage call before the measurement; a caller that must measure keeps the sample it marked. */
    method BeginUsage(id: string, now: int, ghost step: nat)
      returns (known: bool, bytes: int, failed: bool, sample: Sample)
      requires Valid()
      modifies this, samples.Values
      ensures Valid() && Live() == Begun(old(Live()), step, id, now)
      ensures Asked(old(Live()), step, id, now) == if known then Known(bytes, failed) else Measuring(sample.serial)
      ensures id in samples && samples[id] == sample
    {
      if id in samples {
        sample := samples[id];
        if sample.pending || now - sample.checkedAt < DISK_USAGE_INTERVAL {
          return true, sample.bytes, sample.failed, sample;
        }
      } else {
        sample := new Sample(step);
        samples := samples[id := sample];
      }
      sample.pending := true;
      known, bytes, failed := false, 0, false;
    }

    /** The half after the measurement: a scan whose sample was removed meanwhile writes nothing. */
    method FinishUsage(id: string, sample: Sample, now: int, measured: Option<int>) returns (bytes: int, failed: bool)
      requires Valid() && (id in samples && samples[id].serial == sample.serial ==> samples[id] == sample)
      modifies samples.Values
      ensures Valid() && Live() == Finished(old(Live()), id, sample.serial, now, measured)
      ensures if id in samples && samples[id] == sample
        then bytes == CachedBytes(Live(), id) && failed == measured.None? else bytes == 0 && !failed
    {
      if id !in samples || samples[id] != sample {
        return 0, false;
      }
      if measured.Some? {
        sample.bytes := measured.value;
      }
      sample.checkedAt, sample.failed := now, measured.None?;
      sample.pending := false;
      return sample.bytes, sample.failed;
    }

    method Cached(id: string) returns (bytes: int)
      ensures bytes == CachedBytes(Live(), id)
    {
      if id in samples {
        return samples[id].bytes;
      }
      return 0;
    }

    method Remove(id: string)
      requires Valid()
      modifies this
      ensures Valid() && Live() == old(Live()) - {id} && CachedBytes(Live(), id) == 0
    {
      samples := samples - {id};
    }
  }

  // ---------------------------------------------------------------- interleavings

  datatype Scan = Scan(id: string, serial: nat, now: int, begun: nat)

  /**
   * The samples, the scans in flight by the step that began them, and the number of steps so far; `latest` is the
   * step that began the latest scan of each id.
   */
  datatype State = State(live: map<string, Reading>, scans: map<nat, Scan>, latest: map<string, nat>, step: nat)

  datatype Event = Begin(id: string, now: int) | Finish(scan: nat, measured: Option<int>) | Remove(id: string)

  predicate Can(s: State, e: Event) { e.Finish? ==> e.scan in s.scans }

  function After(s: State, e: Event): State
    requires Can(s, e)
  {
    match e
    case Begin(id, now) =>
      var answer := Asked(s.live, s.step, id, now);
      if answer.Known? then s.(step := s.step + 1)
      else State(Begun(s.live, s.step, id, now), s.scans[s.step := Scan(id, answer.serial, now, s.step)],
        s.latest[id := s.step], s.step + 1)
    case Finish(k, measured) =>
      var scan := s.scans[k];
      State(Finished(s.live, scan.id, scan.serial, scan.now, measured), s.scans - {k}, s.latest, s.step + 1)
    case Remove(id) => State(s.live - {id}, s.scans, s.latest, s.step + 1)
  }

  /** A scan that could still write. */
  predicate Effective(live: map<string, Reading>, scan: Scan) {
    scan.id in live && live[scan.id].serial == scan.serial
  }

  /**
   * The scan in flight is no younger than its step; if it can still write, it is the latest and its sample waits for
   * it.
   */
  predicate ScanSound(s: State, k: nat)
    requires k in s.scans
  {
    var scan := s.scans[k];
    && scan.serial <= scan.begun == k < s.step
    && (Effective(s.live, scan) ==> s.live[scan.id].pending && scan.id in s.latest && s.latest[scan.id] == k)
  }

  ghost predicate Sound(s: State) {
    && (forall id :: id in s.live ==> s.live[id].serial < s.step)
    && (forall k :: k in s.scans ==> ScanSound(s, k))
  }

  lemma StepSound(s: State, e: Event)
    requires Sound(s) && Can(s, e)
    ensures Sound(After(s, e))
  {
    var after := After(s, e);
    forall k | k in after.scans ensures ScanSound(after, k) {
      assert k in s.scans ==> ScanSound(s, k);
      assert e.Finish? ==> ScanSound(s, e.scan);
    }
  }

  ghost predicate IsRun(states: seq<State>, events: seq<Event>) {
    && |states| == |events| + 1
    && states[0] == State(map[], map[], map[], 0)
    && forall i :: 0 <= i < |events| ==> Can(states[i], events[i]) && states[i + 1] == After(states[i], events[i])
  }

  lemma {:induction false} RunSound(states: seq<State>, events: seq<Event>, i: nat)
    requires IsRun(states, events) && i < |states|
    ensures Sound(states[i]) && states[i].step == i
  {
    if i > 0 {
      RunSound(states, events, i - 1);
      StepSound(states[i - 1], events[i - 1]);
    }
  }

  /** At most one scan in flight can write any live sample. */
  lemma OneScanPerSample(states: seq<State>, events: seq<Event>, i: nat, j: nat, k: nat)
    requires IsRun(states, events) && i < |states| && j in states[i].scans && k in states[i].scans
    requires states[i].scans[j].id == states[i].scans[k].id && Effective(states[i].live, states[i].scans[j])
    requires Effective(states[i].live, states[i].scans[k])
    ensures j == k
  {
    RunSound(states, events, i);
    assert ScanSound(states[i], j) && ScanSound(states[i], k);
  }

  /** After a removal, whatever is cached for the id was created later. */
  lemma {:induction false} CreatedSince(states: seq<State>, events: seq<Event>, i: nat, j: nat, id: string)
    requires IsRun(states, events) && i < j < |states| && events[i] == Remove(id)
    ensures id in states[j].live ==> states[j].live[id].serial > i
  {
    assert states[i + 1] == After(states[i], events[i]);
    if j > i + 1 {
      CreatedSince(states, events, i, j - 1, id);
      RunSound(states, events, j - 1);
      assert states[j] == After(states[j - 1], events[j - 1]);
    }
  }

  /** A scan begun before a removal of its id changes nothing when it finishes after it. */
  lemma ScanBeforeRemovalIsLost(states: seq<State>, events: seq<Event>, i: nat, j: nat)
    requires IsRun(states, events) && i < j < |events| && events[i].Remove? && events[j].Finish?
    requires events[j].scan in states[j].scans && states[j].scans[events[j].scan].id == events[i].id
    requires states[j].scans[events[j].scan].begun < i
    ensures states[j + 1].live == states[j].live
  {
    RunSound(states, events, j);
    assert ScanSound(states[j], events[j].scan);
    CreatedSince(states, events, i, j, events[i].id);
  }

  /** After a removal the cached size is zero until a scan begun after it completes. */
  lemma {:induction false} ZeroUntilLaterScan(states: seq<State>, events: seq<Event>, i: nat, j: nat, id: string)
    returns (k: nat)
    requires IsRun(states, events) && i < j < |states| && events[i] == Remove(id)
    requires CachedBytes(states[j].live, id) != 0
    ensures i < k < j && events[k].Finish? && events[k].scan in states[k].scans
    ensures states[k].scans[events[k].scan].id == id && states[k].scans[events[k].scan].begun > i
  {
    assert states[i + 1] == After(states[i], events[i]);
    var s, e := states[j - 1], events[j - 1];
    assert Can(s, e) && states[j] == After(s, e);
    if CachedBytes(s.live, id) != 0 {
      k := ZeroUntilLaterScan(states, events, i, j - 1, id);
    } else {
      k := j - 1;
      RunSound(states, events, k);
      CreatedSince(states, events, i, k, id);
      assert e.Finish? && ScanSound(s, e.scan);
    }
  }
}
