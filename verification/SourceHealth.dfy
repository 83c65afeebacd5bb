/** The two health records of one source side by side: the database row that drives the
    scheduler, and the expiring record in Redis that the dashboard reads. */
module SourceHealth {
  import opened Wrappers
  import opened RedisStore
  import opened Scheduler
  import opened Collector

  function RowAfter(row: HealthRow, outcomes: seq<bool>): HealthRow {
    if outcomes == [] then row
    else AfterCollection(Some(RowAfter(row, outcomes[..|outcomes| - 1])), outcomes[|outcomes| - 1])
  }

  function TrailingFailures(outcomes: seq<bool>): nat {
    if outcomes == [] || outcomes[|outcomes| - 1] then 0 else 1 + TrailingFailures(outcomes[..|outcomes| - 1])
  }

  const CREATED := HealthRow(Healthy, 0)

  /** How many failures in a row the last success ended. */
  function FailuresTheLastSuccessEnded(outcomes: seq<bool>): nat {
    if outcomes == [] then 0
    else if outcomes[|outcomes| - 1] then TrailingFailures(outcomes[..|outcomes| - 1])
    else FailuresTheLastSuccessEnded(outcomes[..|outcomes| - 1])
  }

  /** The status of a row that was created healthy, read off the outcomes alone: down exactly
      from the tenth failure in a row on, degraded from the third to the ninth, and below
      that degraded exactly while the last success was the one that ended a down period. */
  lemma {:induction false} StatusFollowsTheFailures(outcomes: seq<bool>)
    ensures var row, failures := RowAfter(CREATED, outcomes), TrailingFailures(outcomes);
      && row.consecutiveFailures == failures
      && (row.status == Down <==> failures >= 10)
      && (row.status == Degraded <==> 3 <= failures < 10 || (failures < 3 && FailuresTheLastSuccessEnded(outcomes) >= 10))
  {
    if outcomes != [] {
      StatusFollowsTheFailures(outcomes[..|outcomes| - 1]);
    }
  }

  lemma DownNeverJumpsToHealthy(outcomes: seq<bool>, next: bool)
    requires RowAfter(CREATED, outcomes).status == Down
    ensures RowAfter(CREATED, outcomes + [next]).status == (if next then Degraded else Down)
  {
    assert (outcomes + [next])[..|outcomes|] == outcomes;
    StatusFollowsTheFailures(outcomes);
  }

  // Both records over one run. A collection that the rate limit rejects reaches only the
  // database; one whose items fail to be processed reaches only Redis.

  datatype Kind = Succeeded | Failed | RateLimited | PipelineError

  datatype Event = Event(time: int, kind: Kind, responseMs: nat)

  datatype Both = Both(row: HealthRow, health: map<string, Cell<HealthRecord>>)

  function Next(b: Both, id: string, e: Event): Both {
    match e.kind
    case Succeeded => Both(AfterCollection(Some(b.row), true), Noted(b.health, id, true, e.responseMs, e.time))
    case Failed => Both(AfterCollection(Some(b.row), false), Noted(b.health, id, false, e.responseMs, e.time))
    case RateLimited => b.(row := AfterCollection(Some(b.row), false))
    case PipelineError => b.(health := Noted(b.health, id, true, e.responseMs, e.time))
  }

  /** create_source writes both records. */
  function Created(id: string, now: int): Both {
    Both(CREATED, Written(map[], id, NEW_RECORD, Some(HEALTH_TTL), now))
  }

  function After(id: string, created: int, run: seq<Event>): Both {
    if run == [] then Created(id, created) else Next(After(id, created, run[..|run| - 1]), id, run[|run| - 1])
  }

  function Severity(status: Status): nat {
    match status
    case Healthy => 0
    case Degraded => 1
    case Down => 2
  }

  ghost predicate Inv(b: Both, id: string) {
    && (id in b.health ==>
          && b.health[id].value.status == StatusAfter(b.health[id].value.consecutiveFailures)
          && b.health[id].value.consecutiveFailures <= b.row.consecutiveFailures)
    && Severity(StatusAfter(b.row.consecutiveFailures)) <= Severity(b.row.status)
  }

  lemma {:induction false} InvAlong(id: string, created: int, run: seq<Event>)
    ensures Inv(After(id, created, run), id)
  {
    if run != [] {
      InvAlong(id, created, run[..|run| - 1]);
    }
  }

  /** The database is never more optimistic than Redis, whenever the Redis record is read
      and whether or not it has expired in between. */
  lemma DatabaseDominatesRedis(id: string, created: int, run: seq<Event>, now: int)
    ensures var b := After(id, created, run);
      Severity(RecordAt(b.health, id, now).status) <= Severity(b.row.status)
  {
    InvAlong(id, created, run);
  }

  /** What the row hears of a run: every collection but the ones whose items fail later. */
  function RowOutcomes(run: seq<Event>): seq<bool> {
    if run == [] then []
    else
      var before, last := RowOutcomes(run[..|run| - 1]), run[|run| - 1];
      if last.kind == PipelineError then before else before + [last.kind == Succeeded]
  }

  /** What the record in Redis hears: every collection that is not rejected. */
  function RecordNotes(run: seq<Event>): seq<Note> {
    if run == [] then []
    else
      var before, last := RecordNotes(run[..|run| - 1]), run[|run| - 1];
      if last.kind == RateLimited then before else before + [Note(last.time, last.kind != Failed, last.responseMs)]
  }

  function NotedAll(health: map<string, Cell<HealthRecord>>, id: string, notes: seq<Note>): map<string, Cell<HealthRecord>> {
    if notes == [] then health
    else
      var last := notes[|notes| - 1];
      Noted(NotedAll(health, id, notes[..|notes| - 1]), id, last.success, last.responseMs, last.time)
  }

  lemma RowAppends(row: HealthRow, outcomes: seq<bool>, last: bool)
    ensures RowAfter(row, outcomes + [last]) == AfterCollection(Some(RowAfter(row, outcomes)), last)
  {
    assert (outcomes + [last])[..|outcomes|] == outcomes;
  }

  lemma NoteAppends(health: map<string, Cell<HealthRecord>>, id: string, notes: seq<Note>, last: Note)
    ensures NotedAll(health, id, notes + [last]) == Noted(NotedAll(health, id, notes), id, last.success, last.responseMs, last.time)
  {
    assert (notes + [last])[..|notes|] == notes;
  }

  lemma {:induction false} RowHearsItsPart(id: string, created: int, run: seq<Event>)
    ensures After(id, created, run).row == RowAfter(CREATED, RowOutcomes(run))
  {
    if run != [] {
      var before, last := run[..|run| - 1], run[|run| - 1];
      RowHearsItsPart(id, created, before);
      RowAppends(CREATED, RowOutcomes(before), last.kind == Succeeded);
    }
  }

  lemma {:induction false} RecordHearsItsPart(id: string, created: int, run: seq<Event>)
    ensures After(id, created, run).health == NotedAll(Created(id, created).health, id, RecordNotes(run))
  {
    if run != [] {
      var before, last := run[..|run| - 1], run[|run| - 1];
      RecordHearsItsPart(id, created, before);
      NoteAppends(Created(id, created).health, id, RecordNotes(before), Note(last.time, last.kind != Failed, last.responseMs));
    }
  }
}
