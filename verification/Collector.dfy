/** The base collector: admission by a per-source rate counter, the retry loop, and the
    health record it keeps in Redis. */
module Collector {
  import opened Wrappers
  import opened RedisStore
  import opened Scheduler
  import opened Arithmetic

  const RATE_TTL := 60
  const HEALTH_TTL := 300

  datatype HealthRecord = HealthRecord(status: Status, consecutiveFailures: nat, totalFetches: nat,
                                       successCount: nat, avgResponseMs: nat)

  const NEW_RECORD := HealthRecord(Healthy, 0, 0, 0, 0)

  /** One call of fetch_data: it raises, or returns data or nothing. */
  datatype Fetch<+T> = Raised | Returned(data: Option<T>)

  /** The k-th call is the first that does not raise. */
  predicate Answers<T>(fetch: nat -> Fetch<T>, k: nat) {
    fetch(k).Returned? && forall j :: 1 <= j < k ==> fetch(j).Raised?
  }

  function Allows(count: Option<int>, limit: int): bool {
    limit <= 0 || count.None? || count.value < limit
  }

  function Admitted(rates: map<string, Cell<int>>, id: string, limit: int, now: int): map<string, Cell<int>> {
    var count := Lookup(rates, id, now);
    if limit <= 0 || !Allows(count, limit) then rates
    else Written(rates, id, if count.Some? then count.value + 1 else 1, Some(RATE_TTL), now)
  }

  function Updated(record: HealthRecord, success: bool, responseMs: nat): HealthRecord {
    var total := record.totalFetches + 1;
    var failures := if success then 0 else record.consecutiveFailures + 1;
    HealthRecord(if success then Healthy else if failures >= 10 then Down else if failures >= 3 then Degraded else record.status,
                 failures, total, record.successCount + (if success then 1 else 0),
                 Averaged(record.avgResponseMs, total, responseMs))
  }

  /** The truncated running average, weighted by the count including the new sample. */
  function Averaged(average: nat, total: nat, sample: nat): nat
    requires total > 0
  {
    ProductIsNatural(average, total - 1);
    QuotientIsNatural(average * (total - 1) + sample, total);
    (average * (total - 1) + sample) / total
  }

  function RecordAt(health: map<string, Cell<HealthRecord>>, id: string, now: int): HealthRecord {
    var record := Lookup(health, id, now);
    if record.Some? then record.value else NEW_RECORD
  }

  function Noted(health: map<string, Cell<HealthRecord>>, id: string, success: bool, responseMs: nat, now: int)
    : map<string, Cell<HealthRecord>>
  {
    Written(health, id, Updated(RecordAt(health, id, now), success, responseMs), Some(HEALTH_TTL), now)
  }

  class BaseCollector {
    const maxRetries: nat
    const retryBaseDelay: real
    const rateLimitPerMinute: int
    const rates: Store<string, int>
    const health: Store<string, HealthRecord>

    constructor (maxRetries: nat, retryBaseDelay: real, rateLimitPerMinute: int,
                 rates: Store<string, int>, health: Store<string, HealthRecord>)
      ensures this.maxRetries == maxRetries && this.retryBaseDelay == retryBaseDelay
      ensures this.rateLimitPerMinute == rateLimitPerMinute && this.rates == rates && this.health == health
    {
      this.maxRetries, this.retryBaseDelay, this.rateLimitPerMinute := maxRetries, retryBaseDelay, rateLimitPerMinute;
      this.rates, this.health := rates, health;
    }

    method RateLimitCheck(id: string, now: int) returns (ok: bool)
      modifies rates
      ensures ok == Allows(Lookup(old(rates.cells), id, now), rateLimitPerMinute)
      ensures rates.cells == Admitted(old(rates.cells), id, rateLimitPerMinute, now)
    {
      if rateLimitPerMinute <= 0 {
        return true;
      }
      var current := rates.Get(id, now);
      if current.None? {
        rates.Set(id, 1, Some(RATE_TTL), now);
        return true;
      }
      if current.value >= rateLimitPerMinute {
        return false;
      }
      rates.Set(id, current.value + 1, Some(RATE_TTL), now);
      return true;
    }

    /** The k-th call of fetch_data behaves like fetch(k). The loop stops at the first call
        that does not raise; each earlier failure but the last doubles the delay. */
    method CollectWithRetry<T>(fetch: nat -> Fetch<T>) returns (data: Option<T>, fetches: nat, slept: real)
      ensures fetches <= maxRetries
      ensures forall k :: 1 <= k < fetches ==> fetch(k).Raised?
      ensures fetches >= 1 && fetch(fetches).Returned? ==>
                data == fetch(fetches).data && slept == retryBaseDelay * (Pow2(fetches - 1) - 1) as real
      ensures fetches >= 1 && fetch(fetches).Raised? ==>
                data == None && fetches == maxRetries && slept == retryBaseDelay * (Pow2(maxRetries - 1) - 1) as real
      ensures fetches == 0 <==> maxRetries == 0
      ensures fetches == 0 ==> data == None && slept == 0.0
    {
      fetches, slept := 0, 0.0;
      var factor := 1;
      for attempt := 1 to maxRetries + 1
        invariant fetches == attempt - 1
        invariant forall k :: 1 <= k < attempt ==> fetch(k).Raised?
        invariant attempt <= maxRetries ==> factor == Pow2(attempt - 1) && slept == retryBaseDelay * (factor - 1) as real
        invariant attempt == maxRetries + 1 && maxRetries > 0 ==> slept == retryBaseDelay * (Pow2(maxRetries - 1) - 1) as real
        invariant attempt == 1 ==> slept == 0.0
      {
        fetches := attempt;
        var outcome := fetch(attempt);
        if outcome.Returned? {
          return outcome.data, fetches, slept;
        }
        if attempt < maxRetries {
          var delay := retryBaseDelay * factor as real;
          assert delay + retryBaseDelay * (factor - 1) as real == retryBaseDelay * (2 * factor - 1) as real;
          slept := slept + delay;
          factor := 2 * factor;
        }
      }
      data := None;
    }

    method RecordHealth(id: string, success: bool, responseMs: nat, now: int)
      modifies health
      ensures health.cells == Noted(old(health.cells), id, success, responseMs, now)
    {
      var existing := health.Get(id, now);
      var record := NEW_RECORD;
      if existing.Some? {
        record := existing.value;
      }
      record := record.(totalFetches := record.totalFetches + 1);
      if success {
        record := record.(successCount := record.successCount + 1, consecutiveFailures := 0, status := Healthy);
      } else {
        record := record.(consecutiveFailures := record.consecutiveFailures + 1);
        if record.consecutiveFailures >= 10 {
          record := record.(status := Down);
        } else if record.consecutiveFailures >= 3 {
          record := record.(status := Degraded);
        }
      }
      var average := Averaged(record.avgResponseMs, record.totalFetches, responseMs);
      health.Set(id, record.(avgResponseMs := average), Some(HEALTH_TTL), now);
    }

    /** `usable` says whether parsing and validating the fetched data succeed. A rejected
        collection is a failure that leaves no trace in the health record. */
    method Collect<T>(id: string, started: int, fetch: nat -> Fetch<T>, usable: T -> bool, ended: int, elapsedMs: nat)
      returns (success: bool, rateLimited: bool)
      requires rates as object != health
      modifies rates, health
      ensures rateLimited == !Allows(Lookup(old(rates.cells), id, started), rateLimitPerMinute)
      ensures rates.cells == Admitted(old(rates.cells), id, rateLimitPerMinute, started)
      ensures rateLimited ==> !success
      ensures !rateLimited ==>
        (success <==> exists k :: 1 <= k <= maxRetries && Answers(fetch, k) && fetch(k).data.Some? && usable(fetch(k).data.value))
      ensures health.cells == if rateLimited then old(health.cells) else Noted(old(health.cells), id, success, elapsedMs, ended)
    {
      var ok := RateLimitCheck(id, started);
      if !ok {
        return false, true;
      }
      var raw, fetches, _ := CollectWithRetry(fetch);
      success := raw.Some? && usable(raw.value);
      assert raw.Some? ==> Answers(fetch, fetches);
      rateLimited := false;
      RecordHealth(id, success, elapsedMs, ended);
    }
  }

  // Rate limit over runs: the times at which one source asks to be collected

  predicate Chronological(calls: seq<int>, now: int)
    decreases |calls|
  {
    calls == [] || (now <= calls[0] && Chronological(calls[1..], calls[0]))
  }

  function Admissions(rates: map<string, Cell<int>>, id: string, limit: int, calls: seq<int>, from: int, to: int): nat
    decreases |calls|
  {
    if calls == [] then 0
    else
      (if Allows(Lookup(rates, id, calls[0]), limit) && from <= calls[0] < to then 1 else 0)
      + Admissions(Admitted(rates, id, limit, calls[0]), id, limit, calls[1..], from, to)
  }

  predicate Counted(rates: map<string, Cell<int>>, id: string, limit: int) {
    id in rates ==> rates[id].expiry.Some? && 1 <= rates[id].value <= limit
  }

  /** Once the counter outlives the span, only what is left of the limit can be admitted. */
  lemma {:induction false} LeftInSpan(rates: map<string, Cell<int>>, id: string, limit: int, calls: seq<int>, now: int, from: int)
    requires 0 < limit && Counted(rates, id, limit) && Chronological(calls, now) && from <= now
    ensures Admissions(rates, id, limit, calls, from, from + RATE_TTL)
         <= if from + RATE_TTL <= now then 0
            else if id in rates && from + RATE_TTL <= rates[id].expiry.value then limit - rates[id].value
            else limit
    decreases |calls|
  {
    if calls != [] {
      LeftInSpan(Admitted(rates, id, limit, calls[0]), id, limit, calls[1..], calls[0], from);
    }
  }

  /** Every 60-second span of every run admits at most the configured number of collections. */
  lemma {:induction false} RateLimitHolds(rates: map<string, Cell<int>>, id: string, limit: int, calls: seq<int>, now: int, from: int)
    requires 0 < limit && Counted(rates, id, limit) && Chronological(calls, now)
    ensures Admissions(rates, id, limit, calls, from, from + 60) <= limit
    decreases |calls|
  {
    if calls != [] {
      if from <= calls[0] {
        assert Chronological(calls, calls[0]);
        LeftInSpan(rates, id, limit, calls, calls[0], from);
      } else {
        RateLimitHolds(Admitted(rates, id, limit, calls[0]), id, limit, calls[1..], calls[0], from);
      }
    }
  }

  function AdmittedNow(rates: map<string, Cell<int>>, id: string, limit: int, now: int): seq<int> {
    if Allows(Lookup(rates, id, now), limit) then [now] else []
  }

  function AdmittedTimes(rates: map<string, Cell<int>>, id: string, limit: int, calls: seq<int>): seq<int>
    decreases |calls|
  {
    if calls == [] then []
    else AdmittedNow(rates, id, limit, calls[0])
         + AdmittedTimes(Admitted(rates, id, limit, calls[0]), id, limit, calls[1..])
  }

  /** Each comes less than the TTL after the one before. */
  predicate NoLongGap(last: int, times: seq<int>)
    decreases |times|
  {
    times == [] || (times[0] < last + RATE_TTL && NoLongGap(times[0], times[1..]))
  }

  lemma {:induction false} LeftInStretch(rates: map<string, Cell<int>>, id: string, limit: int, calls: seq<int>, last: int, times: seq<int>)
    requires 0 < limit && Counted(rates, id, limit) && id in rates && rates[id].expiry == Some(last + RATE_TTL)
    requires times == AdmittedTimes(rates, id, limit, calls) && NoLongGap(last, times)
    ensures |times| <= limit - rates[id].value
    decreases |calls|
  {
    if calls != [] {
      var next := Admitted(rates, id, limit, calls[0]);
      if Allows(Lookup(rates, id, calls[0]), limit) {
        LeftInStretch(next, id, limit, calls[1..], calls[0], times[1..]);
      } else {
        LeftInStretch(next, id, limit, calls[1..], last, times);
      }
    }
  }

  /** The counter starts over only when no collection has been admitted for 60 seconds: a
      stretch of any length in which none of the gaps between admissions is that long holds
      at most the configured number of them. */
  lemma {:induction false} StretchIsCapped(rates: map<string, Cell<int>>, id: string, limit: int, calls: seq<int>, times: seq<int>)
    requires 0 < limit && Counted(rates, id, limit) && times == AdmittedTimes(rates, id, limit, calls)
    requires times != [] ==> NoLongGap(times[0], times[1..])
    ensures |times| <= limit
    decreases |calls|
  {
    if calls != [] {
      var next := Admitted(rates, id, limit, calls[0]);
      if Allows(Lookup(rates, id, calls[0]), limit) {
        LeftInStretch(next, id, limit, calls[1..], calls[0], times[1..]);
      } else {
        StretchIsCapped(next, id, limit, calls[1..], times);
      }
    }
  }

  /** The counters after these calls. */
  function RatesAfter(rates: map<string, Cell<int>>, id: string, limit: int, calls: seq<int>): map<string, Cell<int>>
    decreases |calls|
  {
    if calls == [] then rates else RatesAfter(Admitted(rates, id, limit, calls[0]), id, limit, calls[1..])
  }

  /** The last of these admissions up to the first gap of a minute, counted back from now. */
  function Stretch(times: seq<int>, now: int): nat
    decreases |times|
  {
    if times == [] || times[|times| - 1] + 60 <= now then 0
    else 1 + Stretch(times[..|times| - 1], times[|times| - 1])
  }

  ghost predicate CountsTheStretch(rates: map<string, Cell<int>>, id: string, times: seq<int>) {
    if times == [] then id !in rates
    else
      var last := times[|times| - 1];
      id in rates && rates[id] == Cell(1 + Stretch(times[..|times| - 1], last), Some(last + RATE_TTL))
  }

  lemma CounterShowsTheStretch(rates: map<string, Cell<int>>, id: string, times: seq<int>, now: int)
    requires CountsTheStretch(rates, id, times)
    ensures Lookup(rates, id, now) == if Stretch(times, now) == 0 then None else Some(Stretch(times, now))
  {
  }

  lemma AdmissionJoinsTheStretch(rates: map<string, Cell<int>>, id: string, limit: int, times: seq<int>, now: int)
    requires 0 < limit && CountsTheStretch(rates, id, times)
    ensures CountsTheStretch(Admitted(rates, id, limit, now), id, times + AdmittedNow(rates, id, limit, now))
  {
    CounterShowsTheStretch(rates, id, times, now);
    if Allows(Lookup(rates, id, now), limit) {
      assert (times + [now])[..|times|] == times;
    } else {
      assert times + [] == times;
    }
  }

  lemma AdmittedStep(rates: map<string, Cell<int>>, id: string, limit: int, calls: seq<int>)
    requires calls != []
    ensures AdmittedTimes(rates, id, limit, calls) ==
            AdmittedNow(rates, id, limit, calls[0]) + AdmittedTimes(Admitted(rates, id, limit, calls[0]), id, limit, calls[1..])
  {
  }

  lemma Associates<T>(a: seq<T>, b: seq<T>, c: seq<T>)
    ensures a + (b + c) == (a + b) + c
  {
  }

  lemma {:induction false} CounterIsTheStretch(rates: map<string, Cell<int>>, id: string, limit: int, times: seq<int>, calls: seq<int>,
                                               all: seq<int>, end: map<string, Cell<int>>)
    requires 0 < limit && CountsTheStretch(rates, id, times)
    requires all == times + AdmittedTimes(rates, id, limit, calls) && end == RatesAfter(rates, id, limit, calls)
    ensures CountsTheStretch(end, id, all)
    decreases |calls|
  {
    if calls == [] {
      assert all == times;
    } else {
      AdmissionJoinsTheStretch(rates, id, limit, times, calls[0]);
      var next, first := Admitted(rates, id, limit, calls[0]), AdmittedNow(rates, id, limit, calls[0]);
      AdmittedStep(rates, id, limit, calls);
      Associates(times, first, AdmittedTimes(next, id, limit, calls[1..]));
      CounterIsTheStretch(next, id, limit, times + first, calls[1..], all, end);
    }
  }

  /** After every run, a call is refused exactly when the stretch of admissions it would
      continue already holds the configured number. */
  lemma RefusedExactlyWhenFull(id: string, limit: int, calls: seq<int>, now: int)
    ensures Allows(Lookup(RatesAfter(map[], id, limit, calls), id, now), limit) <==>
              limit <= 0 || Stretch(AdmittedTimes(map[], id, limit, calls), now) < limit
  {
    if 0 < limit {
      var times := AdmittedTimes(map[], id, limit, calls);
      CounterIsTheStretch(map[], id, limit, [], calls, times, RatesAfter(map[], id, limit, calls));
      CounterShowsTheStretch(RatesAfter(map[], id, limit, calls), id, times, now);
    }
  }

  /** A limit of zero or less admits everything. */
  lemma {:induction false} NoLimitAdmitsAll(rates: map<string, Cell<int>>, id: string, limit: int, calls: seq<int>, now: int, from: int, to: int)
    requires limit <= 0 && Chronological(calls, now) && from <= now && forall i :: 0 <= i < |calls| ==> calls[i] < to
    ensures Admissions(rates, id, limit, calls, from, to) == |calls|
    decreases |calls|
  {
    if calls != [] {
      NoLimitAdmitsAll(rates, id, limit, calls[1..], calls[0], from, to);
    }
  }

  // The running average of one record

  function Sum(samples: seq<nat>): nat {
    if samples == [] then 0 else Sum(samples[..|samples| - 1]) + samples[|samples| - 1]
  }

  /** The record after these (outcome, response time) pairs, starting from a new one. */
  function Folded(samples: seq<(bool, nat)>): HealthRecord {
    if samples == [] then NEW_RECORD
    else
      var i := |samples| - 1;
      Updated(Folded(samples[..i]), samples[i].0, samples[i].1)
  }

  function Successes(samples: seq<(bool, nat)>): nat {
    if samples == [] then 0
    else Successes(samples[..|samples| - 1]) + if samples[|samples| - 1].0 then 1 else 0
  }

  function FailuresInARow(samples: seq<(bool, nat)>): nat {
    if samples == [] || samples[|samples| - 1].0 then 0 else 1 + FailuresInARow(samples[..|samples| - 1])
  }

  /** What the record says apart from the average: how many fetches and successes there were,
      how many failures there have been in a row, and the status that these ask for. */
  lemma {:induction false} RecordCountsTheOutcomes(samples: seq<(bool, nat)>)
    ensures var r, failures := Folded(samples), FailuresInARow(samples);
      && r.totalFetches == |samples| && r.successCount == Successes(samples) && r.consecutiveFailures == failures
      && r.status == if failures >= 10 then Down else if failures >= 3 then Degraded else Healthy
  {
    if samples != [] {
      RecordCountsTheOutcomes(samples[..|samples| - 1]);
    }
  }

  function Times(samples: seq<(bool, nat)>): seq<nat> {
    seq(|samples|, i requires 0 <= i < |samples| => samples[i].1)
  }

  /** One truncated division: what it loses, and where it lands. */
  lemma AverageStep(avg: nat, x: nat, i: nat, sum: int)
    requires i * avg <= sum && 2 * (sum - i * avg) <= i * (i - 1)
    ensures var next := (avg * i + x) / (i + 1);
      (i + 1) * next <= sum + x && 2 * (sum + x - (i + 1) * next) <= (i + 1) * i
  {
    var total := avg * i + x;
    var next, lost := total / (i + 1), total % (i + 1);
    assert total == (i + 1) * next + lost;
    assert (i + 1) * i == i * (i - 1) + 2 * i;
  }

  lemma {:induction false} AverageLags(samples: seq<(bool, nat)>)
    ensures var r, n := Folded(samples), |samples|;
      && r.totalFetches == n
      && n * r.avgResponseMs <= Sum(Times(samples))
      && 2 * (Sum(Times(samples)) - n * r.avgResponseMs) <= n * (n - 1)
  {
    if samples != [] {
      var i := |samples| - 1;
      AverageLags(samples[..i]);
      assert Times(samples)[..i] == Times(samples[..i]);
      AverageStep(Folded(samples[..i]).avgResponseMs, samples[i].1, i, Sum(Times(samples[..i])));
    }
  }

  lemma QuotientBetween(total: nat, n: nat, low: nat, high: nat)
    requires 0 < n && n * low <= total <= n * high
    ensures low <= total / n <= high
  {
    var q := total / n;
    assert total == n * q + total % n;
    assert n * (q + 1) == n * q + n && n * (high + 1) == n * high + n;
    Cancel(n, low, q + 1);
    Cancel(n, q, high + 1);
  }

  lemma QuotientInRange(avg: nat, x: nat, i: nat, low: nat, high: nat)
    requires (i > 0 ==> low <= avg <= high) && low <= x <= high
    ensures low <= (avg * i + x) / (i + 1) <= high
  {
    assert i * low <= avg * i <= i * high;
    assert (i + 1) * low == i * low + low && (i + 1) * high == i * high + high;
    QuotientBetween(avg * i + x, i + 1, low, high);
  }

  lemma {:induction false} AverageStaysInRange(samples: seq<(bool, nat)>, low: nat, high: nat)
    requires samples != [] && forall i :: 0 <= i < |samples| ==> low <= samples[i].1 <= high
    ensures low <= Folded(samples).avgResponseMs <= high
  {
    var i := |samples| - 1;
    AverageLags(samples[..i]);
    if i > 0 {
      AverageStaysInRange(samples[..i], low, high);
    }
    QuotientInRange(Folded(samples[..i]).avgResponseMs, samples[i].1, i, low, high);
  }

  lemma DivideOut(sum: nat, avg: nat, n: nat)
    requires 0 < n && n * avg <= sum && 2 * (sum - n * avg) <= n * (n - 1)
    ensures 0.0 <= sum as real / n as real - avg as real <= (n - 1) as real / 2.0
  {
    DivideReal(sum as real, avg as real, (n - 1) as real / 2.0, n as real);
  }

  lemma DivideReal(sum: real, avg: real, b: real, y: real)
    requires 0.0 < y && y * avg <= sum && sum - y * avg <= y * b
    ensures 0.0 <= sum / y - avg <= b
  {
    var q := sum / y;
    assert sum == y * q;
    CancelReal(y, avg, q);
    assert y * (avg + b) == y * avg + y * b;
    CancelReal(y, q, avg + b);
  }

  lemma CancelReal(y: real, a: real, b: real)
    requires 0.0 < y && y * a <= y * b
    ensures a <= b
  {
  }

  /** The truncated average never exceeds the true mean and stays within (n - 1) / 2 of it. */
  lemma AverageNearTheMean(samples: seq<(bool, nat)>)
    requires samples != []
    ensures var mean := Sum(Times(samples)) as real / |samples| as real;
      0.0 <= mean - Folded(samples).avgResponseMs as real <= (|samples| - 1) as real / 2.0
  {
    AverageLags(samples);
    DivideOut(Sum(Times(samples)), Folded(samples).avgResponseMs, |samples|);
  }

  // The record in Redis over runs

  datatype Note = Note(time: int, success: bool, responseMs: nat)

  function After(run: seq<Note>, id: string): map<string, Cell<HealthRecord>> {
    if run == [] then map[]
    else
      var e := run[|run| - 1];
      Noted(After(run[..|run| - 1], id), id, e.success, e.responseMs, e.time)
  }

  /** The notes since the record was last silent for five minutes. */
  function LiveNotes(run: seq<Note>, now: int): seq<(bool, nat)> {
    if run == [] then []
    else
      var e := run[|run| - 1];
      if e.time + 300 <= now then [] else LiveNotes(run[..|run| - 1], e.time) + [(e.success, e.responseMs)]
  }

  /** Whatever Redis shows is the fold of exactly those notes. */
  lemma {:induction false} RecordIsTheLiveFold(run: seq<Note>, id: string, now: int)
    ensures RecordAt(After(run, id), id, now) == Folded(LiveNotes(run, now))
  {
    if run != [] {
      var e := run[|run| - 1];
      RecordIsTheLiveFold(run[..|run| - 1], id, e.time);
      var live := LiveNotes(run[..|run| - 1], e.time);
      assert (live + [(e.success, e.responseMs)])[..|live|] == live;
    }
  }
}
