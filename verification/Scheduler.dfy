/** The scheduler manager as the worker runs it, with adaptive pause disabled: collection
    jobs, the intervals they were added with, and the multipliers that health drives.
    The job id "collect_{source}" is represented by the source id. Multipliers are dyadic
    fractions, which floating point holds exactly. */
module Scheduler {
  import opened Wrappers

  const REFRESH_OVERRIDE_MIN_SECONDS := 10
  const REFRESH_OVERRIDE_MAX_SECONDS := 86400

  const SOURCE_TYPE_DEFAULT_INTERVALS: map<string, int> := map[
    "finance_quote" := 30, "finance_cn_stock" := 30, "finance_market_indices" := 30,
    "finance_commodities" := 60, "finance_nav" := 120, "rss" := 300, "hackernews" := 120,
    "arxiv" := 1800, "web_scrape" := 1800, "api" := 60, "social" := 600]

  datatype Status = Healthy | Degraded | Down

  datatype HealthRow = HealthRow(status: Status, consecutiveFailures: nat)

  /** The status that a number of failures in a row asks for. */
  function StatusAfter(failures: nat): Status {
    if failures >= 10 then Down else if failures >= 3 then Degraded else Healthy
  }

  /** A job, the interval it was first added with, and its multiplier. */
  datatype Job = Job(interval: int, original: int, multiplier: real)

  /** A value found in the tenant's refresh_overrides. */
  datatype Setting = Integer(seconds: int) | Malformed

  /** The part of a source that scheduling reads. An empty slug stands for no category. */
  datatype Source = Source(id: string, tenantId: string, isActive: bool, categorySlug: string,
                           sourceType: string, refreshInterval: Option<int>)

  type Overrides = map<string, Setting>

  function DefaultInterval(sourceType: string): (seconds: int)
    ensures seconds >= REFRESH_OVERRIDE_MIN_SECONDS
  {
    if sourceType in SOURCE_TYPE_DEFAULT_INTERVALS then SOURCE_TYPE_DEFAULT_INTERVALS[sourceType] else 300
  }

  predicate ValidOverride(s: Setting) {
    s.Integer? && REFRESH_OVERRIDE_MIN_SECONDS <= s.seconds <= REFRESH_OVERRIDE_MAX_SECONDS
  }

  /** Bad settings data never stops scheduling: whatever is stored, the interval is usable. */
  function ResolveEffectiveInterval(source: Source, overrides: Overrides): (seconds: int)
    ensures seconds >= 10
  {
    if source.categorySlug != "" && source.categorySlug in overrides && ValidOverride(overrides[source.categorySlug])
    then overrides[source.categorySlug].seconds
    else if source.refreshInterval.Some? && source.refreshInterval.value >= REFRESH_OVERRIDE_MIN_SECONDS
    then source.refreshInterval.value
    else DefaultInterval(source.sourceType)
  }

  /** A usable override decides alone, failing that a usable interval of the source's own,
      and failing both the default of its type. */
  lemma FirstUsableDecides(source: Source, overrides: Overrides)
    ensures var r, slug := ResolveEffectiveInterval(source, overrides), source.categorySlug;
      var overridden := slug != "" && slug in overrides && overrides[slug].Integer? && 10 <= overrides[slug].seconds <= 86400;
      var own := source.refreshInterval.Some? && source.refreshInterval.value >= 10;
      && (overridden ==> r == overrides[slug].seconds)
      && (!overridden && own ==> r == source.refreshInterval.value)
      && (!overridden && !own ==>
            r == if source.sourceType in SOURCE_TYPE_DEFAULT_INTERVALS then SOURCE_TYPE_DEFAULT_INTERVALS[source.sourceType] else 300)
  {
  }

  function Max(x: real, y: real): real {
    if x >= y then x else y
  }

  function Target(status: Status): real {
    match status
    case Healthy => 1.0
    case Degraded => 2.0
    case Down => 10.0
  }

  /** Up in one jump, down by at most a factor of two at a time. */
  function NextMultiplier(current: real, status: Status): real {
    if current > Target(status) then Max(Target(status), current / 2.0) else Target(status)
  }

  /** int(original * multiplier) for non-negative operands. */
  function Scaled(original: int, multiplier: real): int {
    (original as real * multiplier).Floor
  }

  function Adapted(job: Job, status: Status): Job {
    var multiplier := NextMultiplier(job.multiplier, status);
    Job(Scaled(job.original, multiplier), job.original, multiplier)
  }

  function AddedJob(job: Option<Job>, interval: int): Job {
    if job.Some? then job.value.(interval := interval) else Job(interval, interval, 1.0)
  }

  function OverridesOf(settings: map<string, Overrides>, source: Source): Overrides {
    if source.tenantId in settings then settings[source.tenantId] else map[]
  }

  /** The interval of a source under its tenant's settings. */
  function IntervalUnder(settings: map<string, Overrides>, source: Source): int {
    ResolveEffectiveInterval(source, OverridesOf(settings, source))
  }

  function Scheduled(jobs: map<string, Job>, sources: seq<Source>, settings: map<string, Overrides>): map<string, Job> {
    if sources == [] then jobs
    else
      var before, source := Scheduled(jobs, sources[..|sources| - 1], settings), sources[|sources| - 1];
      if !source.isActive then before
      else
        before[source.id := AddedJob(Get(before, source.id), IntervalUnder(settings, source))]
  }

  function AfterCollection(row: Option<HealthRow>, success: bool): HealthRow {
    match row
    case None => if success then HealthRow(Healthy, 0) else HealthRow(Degraded, 1)
    case Some(HealthRow(status, failures)) =>
      if success then
        HealthRow(match status case Degraded => Healthy case Down => Degraded case Healthy => Healthy, 0)
      else
        HealthRow(if failures + 1 >= 10 then Down else if failures + 1 >= 3 then Degraded else status, failures + 1)
  }

  function Get<K, V>(m: map<K, V>, k: K): Option<V> {
    if k in m then Some(m[k]) else None
  }

  datatype StatusChange = StatusChange(id: string, previous: Status, row: HealthRow)

  /** A status is announced exactly when it differs from the one before; a missing row counts
      as healthy. */
  function Announcements(id: string, row: Option<HealthRow>, row': HealthRow): seq<StatusChange> {
    var previous := if row.Some? then row.value.status else Healthy;
    if row'.status != previous then [StatusChange(id, previous, row')] else []
  }

  class AsyncSchedulerManager {
    var intervals: map<string, int>              // the APScheduler jobs
    var originalIntervals: map<string, int>
    var adaptiveMultipliers: map<string, real>
    var healthRows: map<string, HealthRow>       // the source_health table
    var announced: seq<StatusChange>             // what the dashboards were told

    ghost predicate Valid()
      reads this
    {
      intervals.Keys == originalIntervals.Keys == adaptiveMultipliers.Keys
    }

    ghost function Jobs(): map<string, Job>
      requires Valid()
      reads this
    {
      map id | id in intervals :: Job(intervals[id], originalIntervals[id], adaptiveMultipliers[id])
    }

    constructor ()
      ensures Valid() && Jobs() == map[] && healthRows == map[] && announced == []
    {
      intervals, originalIntervals, adaptiveMultipliers, healthRows, announced := map[], map[], map[], map[], [];
    }

    method RescheduleJob(id: string, interval: int)
      requires Valid()
      modifies this`intervals
      ensures Valid()
      ensures intervals == if id in old(intervals) then old(intervals)[id := interval] else old(intervals)
    {
      if id in intervals {
        intervals := intervals[id := interval];
      }
    }

    /** An existing job is rescheduled; its recorded original interval stays what it was. */
    method AddJob(id: string, interval: int)
      requires Valid()
      modifies this`intervals, this`originalIntervals, this`adaptiveMultipliers
      ensures Valid() && Jobs() == old(Jobs())[id := AddedJob(Get(old(Jobs()), id), interval)]
    {
      if id in intervals {
        RescheduleJob(id, interval);
        return;
      }
      originalIntervals := originalIntervals[id := interval];
      adaptiveMultipliers := adaptiveMultipliers[id := 1.0];
      intervals := intervals[id := interval];
    }

    method RemoveJob(id: string)
      requires Valid()
      modifies this`intervals, this`originalIntervals, this`adaptiveMultipliers
      ensures Valid() && Jobs() == old(Jobs()) - {id}
    {
      if id in intervals {
        intervals := intervals - {id};
        originalIntervals := originalIntervals - {id};
        adaptiveMultipliers := adaptiveMultipliers - {id};
      }
    }

    method AddCollectionJob(id: string, interval: int, sourceType: string)
      requires Valid()
      modifies this`intervals, this`originalIntervals, this`adaptiveMultipliers
      ensures Valid()
      ensures var seconds := if interval < 10 then DefaultInterval(sourceType) else interval;
        Jobs() == old(Jobs())[id := AddedJob(Get(old(Jobs()), id), seconds)]
    {
      var seconds := interval;
      if seconds < 10 {
        seconds := DefaultInterval(sourceType);
      }
      AddJob(id, seconds);
    }

    /** A resolved interval is always usable, so the fallback above never replaces it. */
    method AddSourceJob(source: Source, overrides: Overrides)
      requires Valid()
      modifies this`intervals, this`originalIntervals, this`adaptiveMultipliers
      ensures Valid()
      ensures Jobs() == if source.id == "" then old(Jobs())
        else old(Jobs())[source.id := AddedJob(Get(old(Jobs()), source.id), ResolveEffectiveInterval(source, overrides))]
    {
      if source.id == "" {
        return;
      }
      AddCollectionJob(source.id, ResolveEffectiveInterval(source, overrides), source.sourceType);
    }

    method RemoveSourceJob(id: string)
      requires Valid()
      modifies this`intervals, this`originalIntervals, this`adaptiveMultipliers
      ensures Valid() && Jobs() == if id == "" then old(Jobs()) else old(Jobs()) - {id}
    {
      if id != "" {
        RemoveJob(id);
      }
    }

    /** The rebuild at startup: every active source gets a job with its resolved interval. */
    method ScheduleAllActiveSources(sources: seq<Source>, settings: map<string, Overrides>)
      requires Valid()
      modifies this`intervals, this`originalIntervals, this`adaptiveMultipliers
      ensures Valid() && Jobs() == Scheduled(old(Jobs()), sources, settings)
    {
      for i := 0 to |sources|
        invariant Valid() && Jobs() == Scheduled(old(Jobs()), sources[..i], settings)
      {
        var source := sources[i];
        assert sources[..i + 1][..i] == sources[..i];
        if source.isActive {
          var overrides := if source.tenantId in settings then settings[source.tenantId] else map[];
          AddJob(source.id, ResolveEffectiveInterval(source, overrides));
        }
      }
      assert sources[..|sources|] == sources;
    }

    /** A source the manager has no original interval for is left alone. */
    method AdaptiveReschedule(id: string, status: Status)
      requires Valid()
      modifies this`intervals, this`adaptiveMultipliers
      ensures Valid()
      ensures Jobs() == if id in old(Jobs()) then old(Jobs())[id := Adapted(old(Jobs())[id], status)] else old(Jobs())
    {
      if id !in originalIntervals {
        return;
      }
      var original := originalIntervals[id];
      var current := if id in adaptiveMultipliers then adaptiveMultipliers[id] else 1.0;
      var target := Target(status);
      if current > target {
        target := Max(target, current / 2.0);
      }
      var interval := Scaled(original, target);
      adaptiveMultipliers := adaptiveMultipliers[id := target];
      RescheduleJob(id, interval);
      assert Job(interval, original, target) == Adapted(old(Jobs())[id], status);
    }

    method UpdateHealthAfterCollection(id: string, success: bool)
      requires Valid()
      modifies this
      ensures Valid()
      ensures healthRows == old(healthRows)[id := AfterCollection(Get(old(healthRows), id), success)]
      ensures Jobs() == if id in old(Jobs()) then old(Jobs())[id := Adapted(old(Jobs())[id], healthRows[id].status)]
                        else old(Jobs())
      ensures announced == old(announced) + Announcements(id, Get(old(healthRows), id), healthRows[id])
    {
      var row: HealthRow;
      var previous := Healthy;
      if id in healthRows {
        row := healthRows[id];
        previous := row.status;
        if success {
          row := row.(consecutiveFailures := 0);
          if row.status == Degraded {
            row := row.(status := Healthy);
          } else if row.status == Down {
            row := row.(status := Degraded);
          }
        } else {
          row := row.(consecutiveFailures := row.consecutiveFailures + 1);
          if row.consecutiveFailures >= 10 {
            row := row.(status := Down);
          } else if row.consecutiveFailures >= 3 {
            row := row.(status := Degraded);
          }
        }
      } else {
        row := HealthRow(if success then Healthy else Degraded, if success then 0 else 1);
      }
      healthRows := healthRows[id := row];
      if row.status != previous {
        announced := announced + [StatusChange(id, previous, row)];
      }
      AdaptiveReschedule(id, row.status);
    }
  }

  // Runs as one source sees them

  datatype Event = JobAdded(interval: int) | JobRemoved | Recorded(success: bool)

  datatype View = View(row: Option<HealthRow>, job: Option<Job>)

  function Next(v: View, e: Event): View {
    match e
    case JobAdded(interval) => v.(job := Some(AddedJob(v.job, interval)))
    case JobRemoved => v.(job := None)
    case Recorded(success) =>
      var row := AfterCollection(v.row, success);
      View(Some(row), if v.job.Some? then Some(Adapted(v.job.value, row.status)) else None)
  }

  function After(run: seq<Event>): View {
    if run == [] then View(None, None) else Next(After(run[..|run| - 1]), run[|run| - 1])
  }

  /** Resolved intervals are never negative. */
  predicate IsRun(run: seq<Event>) {
    forall i :: 0 <= i < |run| && run[i].JobAdded? ==> run[i].interval >= 0
  }

  const MULTIPLIERS: set<real> := {1.0, 1.25, 2.0, 2.5, 5.0, 10.0}

  lemma {:induction false} ReachableMultipliers(run: seq<Event>)
    requires IsRun(run) && After(run).job.Some?
    ensures After(run).job.value.multiplier in MULTIPLIERS && After(run).job.value.original >= 0
  {
    var before := run[..|run| - 1];
    if After(before).job.Some? {
      ReachableMultipliers(before);
    }
    assert run[|run| - 1].JobAdded? ==> run[|run| - 1].interval >= 0;
  }

  function Repeat(e: Event, n: nat): seq<Event> {
    seq(n, _ => e)
  }

  lemma AfterExtends(run: seq<Event>, e: Event)
    ensures After(run + [e]) == Next(After(run), e)
  {
    assert (run + [e])[..|run|] == run;
  }

  /** A source that has just been added and collected once. */
  function NewSource(seconds: int): seq<Event> {
    [JobAdded(seconds), Recorded(true)]
  }

  lemma NewSourceIsHealthy(seconds: int)
    ensures var v := After(NewSource(seconds) + Repeat(Recorded(false), 0));
      v.row == Some(HealthRow(Healthy, 0)) && v.job == Some(Job(seconds, seconds, 1.0))
  {
    assert NewSource(seconds) + Repeat(Recorded(false), 0) == [] + [JobAdded(seconds)] + [Recorded(true)];
    AfterExtends([], JobAdded(seconds));
    AfterExtends([] + [JobAdded(seconds)], Recorded(true));
    NeutralAtLast(Job(seconds, seconds, 1.0), Healthy);
  }

  /** The interval is the recorded original times the multiplier, truncated. */
  predicate InProportion(job: Job) {
    job.interval as real <= job.original as real * job.multiplier < job.interval as real + 1.0
  }

  lemma FloorBetween(x: real)
    ensures x.Floor as real <= x < x.Floor as real + 1.0
  {
  }

  lemma AdaptedIsInProportion(job: Job, status: Status)
    ensures InProportion(Adapted(job, status))
  {
    FloorBetween(job.original as real * NextMultiplier(job.multiplier, status));
  }

  /** In every run, what a recorded outcome leaves is in proportion. */
  lemma IntervalFollowsTheMultiplier(run: seq<Event>, success: bool)
    requires After(run).job.Some?
    ensures var job := After(run + [Recorded(success)]).job;
      job.Some? && job.value.interval as real <= job.value.original as real * job.value.multiplier < job.value.interval as real + 1.0
  {
    AfterExtends(run, Recorded(success));
    AdaptedIsInProportion(After(run).job.value, AfterCollection(After(run).row, success).status);
  }

  lemma {:induction false} FailuresFromScratch(seconds: int, n: nat)
    ensures var v := After(NewSource(seconds) + Repeat(Recorded(false), n));
      v.row == Some(HealthRow(StatusAfter(n), n)) && v.job.Some?
      && v.job.value.original == seconds && v.job.value.multiplier == Target(StatusAfter(n)) && InProportion(v.job.value)
  {
    if n == 0 {
      NewSourceIsHealthy(seconds);
    } else {
      var before := NewSource(seconds) + Repeat(Recorded(false), n - 1);
      FailuresFromScratch(seconds, n - 1);
      assert NewSource(seconds) + Repeat(Recorded(false), n) == before + [Recorded(false)];
      AfterExtends(before, Recorded(false));
      AdaptedIsInProportion(After(before).job.value, StatusAfter(n));
    }
  }

  lemma WholeMultiple(job: Job, multiplier: int)
    requires InProportion(job) && job.multiplier == multiplier as real
    ensures job.interval == job.original * multiplier
  {
    assert job.original as real * multiplier as real == (job.original * multiplier) as real;
  }

  /** A new source that keeps failing is collected at half the pace from the third failure on,
      and at a tenth of it from the tenth on. */
  lemma FailuresStretchTheInterval(seconds: int, n: nat)
    ensures var job := After(NewSource(seconds) + Repeat(Recorded(false), n)).job;
      job.Some? && job.value.interval == if n >= 10 then 10 * seconds else if n >= 3 then 2 * seconds else seconds
  {
    FailuresFromScratch(seconds, n);
    var job := After(NewSource(seconds) + Repeat(Recorded(false), n)).job.value;
    WholeMultiple(job, if n >= 10 then 10 else if n >= 3 then 2 else 1);
  }

  /** Every listed multiplier occurs, so the list is exactly the set of reachable ones. */
  lemma EveryMultiplierIsReached(multiplier: real) returns (run: seq<Event>)
    requires multiplier in MULTIPLIERS
    ensures IsRun(run) && After(run).job.Some? && After(run).job.value.multiplier == multiplier
  {
    if multiplier == 1.0 {
      run := [JobAdded(60)];
    } else if multiplier == 2.0 {
      FailuresFromScratch(60, 3);
      run := NewSource(60) + Repeat(Recorded(false), 3);
    } else {
      FailuresFromScratch(60, 10);
      run := NewSource(60) + Repeat(Recorded(false), 10);
      ghost var steps := [10.0, 5.0, 2.5, 1.25];
      var i := 0;
      while After(run).job.value.multiplier != multiplier
        invariant i < 4 && IsRun(run) && After(run).job.Some?
        invariant After(run).job.value.multiplier == steps[i]
        invariant multiplier in steps[i..]
        invariant After(run).row.Some? && After(run).row.value.status == [Down, Degraded, Healthy, Healthy][i]
        decreases 4 - i
      {
        AfterExtends(run, Recorded(true));
        run := run + [Recorded(true)];
        i := i + 1;
      }
    }
  }

  /** Adapting never polls faster than the recorded original interval. */
  lemma NeverFasterThanOriginal(run: seq<Event>, success: bool)
    requires IsRun(run) && After(run).job.Some?
    ensures var job := After(run + [Recorded(success)]).job;
      job.Some? && job.value.original == After(run).job.value.original <= job.value.interval
  {
    AfterExtends(run, Recorded(success));
    ReachableMultipliers(run);
    var job := Next(After(run), Recorded(success)).job.value;
    assert job.multiplier >= 1.0;
    assert job.original as real * job.multiplier >= job.original as real;
  }

  function Recovered(status: Status): Status {
    if status == Down then Degraded else Healthy
  }

  lemma FourStepsSuffice(status: Status, multiplier: real)
    requires multiplier in MULTIPLIERS && status != Down
    ensures var s1, s2, s3, s4 := status, Recovered(status), Recovered(Recovered(status)), Recovered(Recovered(Recovered(status)));
      Recovered(s2) == Healthy &&
      NextMultiplier(NextMultiplier(NextMultiplier(NextMultiplier(multiplier, s1), s2), s3), s4) == 1.0
  {
  }

  lemma NeutralAtLast(job: Job, status: Status)
    requires NextMultiplier(job.multiplier, status) == 1.0
    ensures Adapted(job, status) == Job(job.original, job.original, 1.0)
  {
    assert (job.original as real * 1.0).Floor == job.original;
  }

  lemma AfterFour(run: seq<Event>, e: Event)
    ensures After(run + [e] + [e] + [e] + [e]) == Next(Next(Next(Next(After(run), e), e), e), e)
  {
    AfterExtends(run, e);
    AfterExtends(run + [e], e);
    AfterExtends(run + [e] + [e], e);
    AfterExtends(run + [e] + [e] + [e], e);
  }

  /** From every reachable state, four successes in a row restore a healthy status, the
      neutral multiplier and the recorded original interval. */
  lemma FourSuccessesRecover(run: seq<Event>)
    requires IsRun(run) && After(run).job.Some?
    ensures var v := After(run + [Recorded(true)] + [Recorded(true)] + [Recorded(true)] + [Recorded(true)]);
      var original := After(run).job.value.original;
      v.row == Some(HealthRow(Healthy, 0)) && v.job == Some(Job(original, original, 1.0))
  {
    ReachableMultipliers(run);
    var v0, e := After(run), Recorded(true);
    AfterFour(run, e);
    var s1 := AfterCollection(v0.row, true).status;
    var s2, s3 := Recovered(s1), Recovered(Recovered(s1));
    FourStepsSuffice(s1, v0.job.value.multiplier);
    NeutralAtLast(Adapted(Adapted(Adapted(v0.job.value, s1), s2), s3), Recovered(s3));
  }

  /** Three are not enough for a source that is down. */
  lemma ThreeSuccessesMayNotRecover(run: seq<Event>)
    requires IsRun(run) && After(run).job.Some? && After(run).row.Some? && After(run).row.value.status == Down
    requires After(run).job.value.multiplier == 10.0
    ensures var job := After(run + [Recorded(true)] + [Recorded(true)] + [Recorded(true)]).job;
      job.Some? && job.value.multiplier == 1.25
  {
    AfterExtends(run, Recorded(true));
    AfterExtends(run + [Recorded(true)], Recorded(true));
    AfterExtends(run + [Recorded(true)] + [Recorded(true)], Recorded(true));
  }

  /** Adding a job reschedules it; a job that is there keeps its multiplier and its recorded
      original, a new one starts neutral. */
  lemma AddingReschedules(run: seq<Event>, seconds: int)
    ensures After(run + [JobAdded(seconds)]).job == Some(
              if After(run).job.Some? then Job(seconds, After(run).job.value.original, After(run).job.value.multiplier)
              else Job(seconds, seconds, 1.0))
    ensures After(run + [JobAdded(seconds)]).row == After(run).row
  {
    AfterExtends(run, JobAdded(seconds));
  }

  /** Whatever happens to a job until it is removed, its recorded original stays the interval
      it was first added with. */
  lemma {:induction false} OriginalIsTheFirst(before: seq<Event>, seconds: int, since: seq<Event>)
    requires After(before).job.None? && JobRemoved !in since
    ensures var job := After(before + [JobAdded(seconds)] + since).job; job.Some? && job.value.original == seconds
  {
    var start := before + [JobAdded(seconds)];
    if since == [] {
      assert start + since == start;
      AddingReschedules(before, seconds);
    } else {
      var rest, last := since[..|since| - 1], since[|since| - 1];
      OriginalIsTheFirst(before, seconds, rest);
      assert last in since && start + since == (start + rest) + [last];
      AfterExtends(start + rest, last);
    }
  }

  // Announcements

  /** The announcements about a source that records these outcomes, and its row. */
  function AnnouncedFor(id: string, outcomes: seq<bool>): (seq<StatusChange>, Option<HealthRow>) {
    if outcomes == [] then ([], None)
    else
      var (told, row) := AnnouncedFor(id, outcomes[..|outcomes| - 1]);
      var next := AfterCollection(row, outcomes[|outcomes| - 1]);
      (told + Announcements(id, row, next), Some(next))
  }

  function StatusOf(row: Option<HealthRow>): Status {
    if row.Some? then row.value.status else Healthy
  }

  /** What somebody believes who starts from healthy and applies the announcements. */
  function Believed(told: seq<StatusChange>): Status {
    if told == [] then Healthy else told[|told| - 1].row.status
  }

  /** Whoever follows the announcements always knows the status; each one says what it was
      before, and none repeats it. */
  lemma {:induction false} AnnouncementsTellTheStatus(id: string, outcomes: seq<bool>)
    ensures var (told, row) := AnnouncedFor(id, outcomes);
      && Believed(told) == StatusOf(row)
      && forall k :: 0 <= k < |told| ==>
           told[k].id == id && told[k].previous == Believed(told[..k]) && told[k].row.status != told[k].previous
  {
    if outcomes != [] {
      var (told, row) := AnnouncedFor(id, outcomes[..|outcomes| - 1]);
      AnnouncementsTellTheStatus(id, outcomes[..|outcomes| - 1]);
      var next := AfterCollection(row, outcomes[|outcomes| - 1]);
      var all := told + Announcements(id, row, next);
      forall k | 0 <= k < |all|
        ensures all[k].id == id && all[k].previous == Believed(all[..k]) && all[k].row.status != all[k].previous
      {
        if k < |told| {
          assert all[..k] == told[..k];
        } else {
          assert all[..k] == told;
        }
      }
    }
  }

  /** A source without a row counts as healthy, and its first failure already degrades it. */
  lemma FirstFailureDegrades(id: string, success: bool)
    ensures var (told, row) := AnnouncedFor(id, [] + [success]);
      if success then told == [] && row == Some(HealthRow(Healthy, 0))
      else told == [StatusChange(id, Healthy, HealthRow(Degraded, 1))] && row == Some(HealthRow(Degraded, 1))
  {
    var outcomes: seq<bool> := [] + [success];
    assert outcomes[..|outcomes| - 1] == [];
  }
}
