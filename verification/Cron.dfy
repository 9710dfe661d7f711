/**
 Cron triggers: when a tick of the trigger loop starts a run, and which scheduled instants
 the runs it starts account for.  Clock readings are in nanoseconds, schedules in seconds.
 */
module Cron {
  import opened Wrappers

  const SECOND := 1_000_000_000
  const LOOK_BACK := 60 * SECOND

  /** What the database keeps of a clock reading: the fraction of the second is cut off. */
  function Seconds(t: int): int { t / SECOND }

  /** The instants of a cron expression, in increasing order. */
  ghost predicate Increasing(schedule: seq<int>) {
    forall i, j :: 0 <= i < j < |schedule| ==> schedule[i] < schedule[j]
  }

  /** The first scheduled instant strictly after `t`. */
  method NextAfter(schedule: seq<int>, t: int) returns (next: Option<int>)
    requires Increasing(schedule)
    ensures next.None? ==> forall s :: s in schedule ==> s * 1_000_000_000 <= t
    ensures next.Some? ==> next.value in schedule && next.value * 1_000_000_000 > t
    ensures next.Some? ==> forall s :: s in schedule && s * 1_000_000_000 > t ==> next.value <= s
  {
    for i := 0 to |schedule|
      invariant forall j :: 0 <= j < i ==> schedule[j] * SECOND <= t
    {
      if schedule[i] * SECOND > t {
        return Some(schedule[i]);
      }
    }
    return None;
  }

  /** The instant from which on the schedule is consulted. */
  function From(last: Option<int>, now: int): int {
    match last
    case Some(l) => l * SECOND
    case None => now - LOOK_BACK
  }

  /** Scheduled instant `s` lies strictly between the last trigger, or a minute ago, and now. */
  ghost predicate InWindow(last: Option<int>, now: int, s: int) {
    && s * 1_000_000_000 < now
    && if last.Some? then last.value < s else now - 60_000_000_000 < s * 1_000_000_000
  }

  ghost predicate Due(schedule: seq<int>, last: Option<int>, now: int) {
    exists s :: s in schedule && InWindow(last, now, s)
  }

  /** Looking at the first instant after the last trigger is enough to see whether any is due. */
  method ShouldTrigger(schedule: seq<int>, last: Option<int>, now: int) returns (trigger: bool)
    requires Increasing(schedule)
    ensures trigger <==> Due(schedule, last, now)
    ensures last.None? ==>
      (trigger <==> exists s :: s in schedule && now - 60_000_000_000 < s * 1_000_000_000 < now)
    ensures last.Some? ==> (trigger <==> exists s :: s in schedule && last.value < s && s * 1_000_000_000 < now)
  {
    var next := NextAfter(schedule, From(last, now));
    trigger := next.Some? && next.value * SECOND < now;
    assert trigger ==> InWindow(last, now, next.value);
  }

  // ---- One pass over the job table ----

  /** `schedule` is absent when the job has no cron expression or an invalid one. */
  datatype CronJob = CronJob(id: int, enabled: bool, schedule: Option<seq<int>>, last: Option<int>) {
    ghost predicate Valid() { schedule.Some? ==> Increasing(schedule.value) }
  }

  /** The job's definition can be loaded, it is enabled and an instant is due. */
  ghost predicate Triggers(job: CronJob, loadable: set<int>, now: int) {
    job.enabled && job.schedule.Some? && job.id in loadable && Due(job.schedule.value, job.last, now)
  }

  ghost function Triggered(jobs: seq<CronJob>, loadable: set<int>, now: int): seq<int> {
    if jobs == [] then []
    else
      var job := jobs[|jobs| - 1];
      Triggered(jobs[..|jobs| - 1], loadable, now) + (if Triggers(job, loadable, now) then [job.id] else [])
  }

  class TriggerTable {
    var jobs: seq<CronJob>
    /** The jobs for which a run was queued by a cron trigger, in order. */
    var runs: seq<int>

    constructor (jobs: seq<CronJob>)
      ensures this.jobs == jobs && runs == []
    {
      this.jobs, runs := jobs, [];
    }

    /** One tick: each job that triggers gets exactly one new run and the tick's time as its last trigger. */
    method CheckCronTriggers(loadable: set<int>, now: int)
      requires forall j :: j in jobs ==> j.Valid()
      modifies this
      ensures |jobs| == |old(jobs)|
      ensures forall i :: 0 <= i < |jobs| ==>
        jobs[i] == if Triggers(old(jobs)[i], loadable, now) then old(jobs)[i].(last := Some(now / 1_000_000_000))
          else old(jobs)[i]
      ensures runs == old(runs) + Triggered(old(jobs), loadable, now)
    {
      ghost var before := jobs;
      for i := 0 to |jobs|
        invariant |jobs| == |before|
        invariant forall m :: i <= m < |jobs| ==> jobs[m] == before[m]
        invariant forall m :: 0 <= m < i ==>
          jobs[m] == if Triggers(before[m], loadable, now) then before[m].(last := Some(Seconds(now))) else before[m]
        invariant runs == old(runs) + Triggered(before[..i], loadable, now)
      {
        var job := jobs[i];
        assert before[..i + 1][..i] == before[..i] && job in before;
        if job.enabled && job.schedule.Some? {
          var trigger := ShouldTrigger(job.schedule.value, job.last, now);
          if trigger && job.id in loadable {
            runs := runs + [job.id];
            jobs := jobs[i := job.(last := Some(Seconds(now)))];
          }
        }
      }
      assert before[..|before|] == before;
    }
  }

  // ---- One job over many ticks ----

  /** When the loop looked, and whether the job's definition could be loaded then. */
  datatype Tick = Tick(now: int, loads: bool)

  ghost predicate Fires(schedule: seq<int>, last: Option<int>, tick: Tick) {
    tick.loads && Due(schedule, last, tick.now)
  }

  /** The job's last trigger after `n` ticks. */
  ghost function LastAt(schedule: seq<int>, last: Option<int>, ticks: seq<Tick>, n: nat): Option<int>
    requires n <= |ticks|
  {
    if n == 0 then last
    else if Fires(schedule, LastAt(schedule, last, ticks, n - 1), ticks[n - 1]) then Some(Seconds(ticks[n - 1].now))
    else LastAt(schedule, last, ticks, n - 1)
  }

  ghost predicate FiresAt(schedule: seq<int>, last: Option<int>, ticks: seq<Tick>, n: nat)
    requires n < |ticks|
  {
    Fires(schedule, LastAt(schedule, last, ticks, n), ticks[n])
  }

  /** The run started at tick `n` accounts for instant `s`. */
  ghost predicate Covers(schedule: seq<int>, last: Option<int>, ticks: seq<Tick>, n: nat, s: int)
    requires n < |ticks|
  {
    FiresAt(schedule, last, ticks, n) && InWindow(LastAt(schedule, last, ticks, n), ticks[n].now, s)
  }

  ghost predicate Covered(schedule: seq<int>, last: Option<int>, ticks: seq<Tick>, n: nat, s: int)
    requires n <= |ticks|
  {
    exists m :: 0 <= m < n && Covers(schedule, last, ticks, m, s)
  }

  /** A tick that started a run fell on instant `s` to the nanosecond. */
  ghost predicate Hit(schedule: seq<int>, last: Option<int>, ticks: seq<Tick>, n: nat, s: int)
    requires n <= |ticks|
  {
    exists m :: 0 <= m < n && FiresAt(schedule, last, ticks, m) && ticks[m].now == s * SECOND
  }

  /** The clock does not go back. */
  ghost predicate Clock(ticks: seq<Tick>) {
    forall i, j :: 0 <= i <= j < |ticks| ==> ticks[i].now <= ticks[j].now
  }

  /** After a run was started at tick `m`, the last trigger is at least that tick's second. */
  lemma {:induction false} LastGrows(schedule: seq<int>, last: Option<int>, ticks: seq<Tick>, m: nat, n: nat)
    requires Clock(ticks) && m < n <= |ticks| && FiresAt(schedule, last, ticks, m)
    ensures var l := LastAt(schedule, last, ticks, n); l.Some? && l.value >= Seconds(ticks[m].now)
  {
    if n > m + 1 {
      LastGrows(schedule, last, ticks, m, n - 1);
      assert ticks[m].now <= ticks[n - 1].now;
      SecondsMonotone(ticks[m].now, ticks[n - 1].now);
    }
  }

  lemma SecondsMonotone(a: int, b: int)
    requires a <= b
    ensures Seconds(a) <= Seconds(b)
  {}

  lemma SecondsBound(t: int, s: int)
    ensures s <= Seconds(t) <==> s * SECOND <= t
  {}

  /** An instant before a tick that starts a run is out of the window of every later tick. */
  lemma NotAgain(schedule: seq<int>, last: Option<int>, ticks: seq<Tick>, m: nat, n: nat, s: int)
    requires Clock(ticks) && m < n < |ticks| && FiresAt(schedule, last, ticks, m) && s * SECOND <= ticks[m].now
    ensures !Covers(schedule, last, ticks, n, s)
  {
    LastGrows(schedule, last, ticks, m, n);
    SecondsBound(ticks[m].now, s);
    hide FiresAt, LastAt;
  }

  /** No instant is accounted for twice, although the recorded trigger times are cut to seconds. */
  lemma CoveredOnce(schedule: seq<int>, last: Option<int>, ticks: seq<Tick>, m: nat, n: nat, s: int)
    requires Clock(ticks) && m < |ticks| && n < |ticks|
    requires Covers(schedule, last, ticks, m, s) && Covers(schedule, last, ticks, n, s)
    ensures m == n
  {
    hide FiresAt, LastAt;
    if m < n { NotAgain(schedule, last, ticks, m, n, s); }
    if n < m { NotAgain(schedule, last, ticks, n, m, s); }
  }

  /** An instant hit exactly by a tick that starts a run is never accounted for. */
  lemma HitIsMissed(schedule: seq<int>, last: Option<int>, ticks: seq<Tick>, n: nat, s: int)
    requires Clock(ticks) && n <= |ticks| && Hit(schedule, last, ticks, n, s)
    ensures !Covered(schedule, last, ticks, n, s)
  {
    var h :| 0 <= h < n && FiresAt(schedule, last, ticks, h) && ticks[h].now == s * SECOND;
    forall m | 0 <= m < n ensures !Covers(schedule, last, ticks, m, s) {
      assert m <= h ==> ticks[m].now <= ticks[h].now;
      hide FiresAt, LastAt;
      if h < m { NotAgain(schedule, last, ticks, h, m, s); }
    }
  }

  /** Ticks come less than a minute apart. */
  ghost predicate Frequent(ticks: seq<Tick>) {
    forall i, j :: 0 <= i && j == i + 1 && j < |ticks| ==> ticks[j].now - ticks[i].now < 60_000_000_000
  }

  /** The instants of the schedule up to the last trigger are accounted for or hit, and none is due. */
  ghost predicate UpToDate(schedule: seq<int>, last: Option<int>, ticks: seq<Tick>, n: nat, start: int)
    requires n <= |ticks|
  {
    var l := LastAt(schedule, last, ticks, n);
    && (forall s :: s in schedule && start < s * SECOND && l.Some? && s <= l.value ==>
          Covered(schedule, last, ticks, n, s) || Hit(schedule, last, ticks, n, s))
    && (forall s :: s in schedule && start < s * SECOND && n > 0 && s * SECOND < ticks[n - 1].now ==>
          l.Some? && s <= l.value)
  }

  lemma CoveredGrows(schedule: seq<int>, last: Option<int>, ticks: seq<Tick>, n: nat, s: int)
    requires n < |ticks|
    ensures Covered(schedule, last, ticks, n, s) ==> Covered(schedule, last, ticks, n + 1, s)
    ensures Hit(schedule, last, ticks, n, s) ==> Hit(schedule, last, ticks, n + 1, s)
    ensures Covers(schedule, last, ticks, n, s) ==> Covered(schedule, last, ticks, n + 1, s)
    ensures FiresAt(schedule, last, ticks, n) && ticks[n].now == s * SECOND ==> Hit(schedule, last, ticks, n + 1, s)
  {
    hide Covers, FiresAt;
  }

  /** An instant before the next tick is either behind the last trigger or in the window the tick looks at. */
  lemma OldOrInWindow(schedule: seq<int>, last: Option<int>, ticks: seq<Tick>, n: nat, s: int)
    requires Frequent(ticks) && n < |ticks| && s in schedule
    requires UpToDate(schedule, last, ticks, n, From(last, ticks[0].now))
    requires From(last, ticks[0].now) < s * SECOND < ticks[n].now
    ensures var l := LastAt(schedule, last, ticks, n);
      (l.Some? && s <= l.value) || InWindow(l, ticks[n].now, s)
  {
    hide Covered, Hit;
    assert n > 0 ==> ticks[n].now - ticks[n - 1].now < 60_000_000_000;
  }

  lemma UpToDateStep(schedule: seq<int>, last: Option<int>, ticks: seq<Tick>, n: nat)
    requires Frequent(ticks) && n < |ticks| && ticks[n].loads
    requires UpToDate(schedule, last, ticks, n, From(last, ticks[0].now))
    ensures UpToDate(schedule, last, ticks, n + 1, From(last, ticks[0].now))
  {
    var start, now := From(last, ticks[0].now), ticks[n].now;
    var l, l' := LastAt(schedule, last, ticks, n), LastAt(schedule, last, ticks, n + 1);
    forall s | s in schedule && start < s * SECOND
      ensures s * SECOND < now ==> l'.Some? && s <= l'.value
      ensures l'.Some? && s <= l'.value ==>
        Covered(schedule, last, ticks, n + 1, s) || Hit(schedule, last, ticks, n + 1, s)
    {
      CoveredGrows(schedule, last, ticks, n, s);
      SecondsBound(now, s);
      if s * SECOND < now { OldOrInWindow(schedule, last, ticks, n, s); }
      hide Covered, Hit;
    }
  }

  lemma {:induction false} StaysUpToDate(schedule: seq<int>, last: Option<int>, ticks: seq<Tick>, n: nat)
    requires Frequent(ticks) && n <= |ticks| && ticks != []
    requires forall t :: t in ticks ==> t.loads
    ensures UpToDate(schedule, last, ticks, n, From(last, ticks[0].now))
  {
    if n > 0 {
      hide UpToDate, Frequent;
      StaysUpToDate(schedule, last, ticks, n - 1);
      UpToDateStep(schedule, last, ticks, n - 1);
    }
  }

  /**
   Cron coverage: with ticks less than a minute apart and a loadable definition, a scheduled instant
   between the start (a minute before the first tick, or the last trigger) and the latest tick is
   accounted for by exactly one run, unless a tick that started a run hit it to the nanosecond; then
   it is lost.
   */
  lemma Coverage(schedule: seq<int>, last: Option<int>, ticks: seq<Tick>, s: int)
    requires Clock(ticks) && Frequent(ticks) && ticks != [] && forall t :: t in ticks ==> t.loads
    requires s in schedule && s * 1_000_000_000 < ticks[|ticks| - 1].now
    requires if last.Some? then last.value < s else ticks[0].now - 60_000_000_000 < s * 1_000_000_000
    ensures Covered(schedule, last, ticks, |ticks|, s) <==> !Hit(schedule, last, ticks, |ticks|, s)
    ensures forall m, n | 0 <= m < |ticks| && 0 <= n < |ticks| ::
      Covers(schedule, last, ticks, m, s) && Covers(schedule, last, ticks, n, s) ==> m == n
  {
    hide Covers, Hit, Covered, Frequent, Clock;
    StaysUpToDate(schedule, last, ticks, |ticks|);
    if Hit(schedule, last, ticks, |ticks|, s) {
      HitIsMissed(schedule, last, ticks, |ticks|, s);
    }
    forall m, n | 0 <= m < |ticks| && 0 <= n < |ticks|
      && Covers(schedule, last, ticks, m, s) && Covers(schedule, last, ticks, n, s)
      ensures m == n
    {
      CoveredOnce(schedule, last, ticks, m, n, s);
    }
  }

  /** With no recorded trigger at the start, a recorded one is at least the first tick's second. */
  lemma {:induction false} LastFromFirst(schedule: seq<int>, ticks: seq<Tick>, n: nat)
    requires Clock(ticks) && n <= |ticks| && ticks != [] && LastAt(schedule, None, ticks, n).Some?
    ensures LastAt(schedule, None, ticks, n).value >= Seconds(ticks[0].now)
  {
    hide Fires;
    if n > 0 {
      SecondsMonotone(ticks[0].now, ticks[n - 1].now);
      if LastAt(schedule, None, ticks, n - 1).Some? { LastFromFirst(schedule, ticks, n - 1); }
    }
  }

  /** A job that was never triggered gets no run for an instant a minute or more before the first tick. */
  lemma TooOld(schedule: seq<int>, ticks: seq<Tick>, s: int)
    requires Clock(ticks) && ticks != [] && s * 1_000_000_000 <= ticks[0].now - 60_000_000_000
    ensures !Covered(schedule, None, ticks, |ticks|, s)
  {
    SecondsBound(ticks[0].now, s);
    forall n | 0 <= n < |ticks| ensures !Covers(schedule, None, ticks, n, s) {
      assert ticks[0].now <= ticks[n].now;
      if LastAt(schedule, None, ticks, n).Some? { LastFromFirst(schedule, ticks, n); }
      hide FiresAt, LastAt;
    }
    hide Covers;
  }

  /** One tick of the trigger loop is a tick of each of its jobs. */
  lemma TriggersIsFires(job: CronJob, loadable: set<int>, now: int)
    requires job.enabled && job.schedule.Some?
    ensures Triggers(job, loadable, now) <==> Fires(job.schedule.value, job.last, Tick(now, job.id in loadable))
  {}

  /**
   Once a trigger time is recorded, neither a slow tick nor a definition that does not load loses an
   instant: everything up to the last trigger has been accounted for, or was hit.
   */
  lemma {:induction false} NothingLostOnceTriggered(schedule: seq<int>, last: Option<int>, ticks: seq<Tick>,
                                           n: nat, s: int)
    requires n <= |ticks| && last.Some? && s in schedule && last.value < s
    requires var l := LastAt(schedule, last, ticks, n); l.Some? && s <= l.value
    ensures Covered(schedule, last, ticks, n, s) || Hit(schedule, last, ticks, n, s)
  {
    if n > 0 {
      hide Covered, Hit;
      StaysSome(schedule, last, ticks, n - 1);
      CoveredGrows(schedule, last, ticks, n - 1, s);
      SecondsBound(ticks[n - 1].now, s);
      var l := LastAt(schedule, last, ticks, n - 1);
      if s <= l.value {
        NothingLostOnceTriggered(schedule, last, ticks, n - 1, s);
      }
    }
  }

  lemma {:induction false} StaysSome(schedule: seq<int>, last: Option<int>, ticks: seq<Tick>, n: nat)
    requires n <= |ticks| && last.Some?
    ensures LastAt(schedule, last, ticks, n).Some?
  {
    if n > 0 { StaysSome(schedule, last, ticks, n - 1); }
  }

  /** A lost instant: a run due since 25 s is started by a tick at exactly 30 s, and the instant at 30 s never fires. */
  lemma LostInstant()
    ensures var schedule, ticks := [25, 30],
      [Tick(10 * SECOND, true), Tick(30 * SECOND, true), Tick(60 * SECOND, true)];
      && Increasing(schedule) && Clock(ticks) && Frequent(ticks)
      && Covered(schedule, Some(0), ticks, 3, 25) && !Covered(schedule, Some(0), ticks, 3, 30)
  {
    var schedule, ticks := [25, 30], [Tick(10 * SECOND, true), Tick(30 * SECOND, true), Tick(60 * SECOND, true)];
    assert !Due(schedule, Some(0), 10 * SECOND);
    assert LastAt(schedule, Some(0), ticks, 0) == Some(0);
    assert LastAt(schedule, Some(0), ticks, 1) == Some(0);
    assert InWindow(Some(0), 30 * SECOND, 25);
    assert FiresAt(schedule, Some(0), ticks, 1) && Covers(schedule, Some(0), ticks, 1, 25);
    HitIsMissed(schedule, Some(0), ticks, 3, 30);
  }
}
