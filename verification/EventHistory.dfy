/** The capped per-category history behind Last-Event-ID replay: publishing appends to a
    newest-first Redis list, replaying reads it back in order from the anchor event. */
module EventHistory {
  import opened Wrappers
  import opened RedisStore
  import opened EventRouter

  const STREAM_HISTORY_LIMIT := 500
  const STREAM_HISTORY_TTL := 1800

  /** "{time}-{counter}" as text; the two parts can be read back from it. */
  datatype EventId = EventId(time: int, counter: nat)

  datatype Record = Record(id: EventId, tenantId: string, payload: Payload)

  function Reversed<T>(s: seq<T>): (r: seq<T>)
    ensures |r| == |s|
    ensures forall i :: 0 <= i < |s| ==> r[i] == s[|s| - 1 - i]
  {
    seq(|s|, i requires 0 <= i < |s| => s[|s| - 1 - i])
  }

  function Newest<T>(s: seq<T>, n: nat): seq<T> {
    if |s| <= n then s else s[|s| - n..]
  }

  function Oldest<T>(s: seq<T>, n: nat): seq<T> {
    if |s| <= n then s else s[..n]
  }

  function ListAt<K, T>(cells: map<K, Cell<seq<T>>>, key: K, now: int): seq<T> {
    var list := Lookup(cells, key, now);
    if list.Some? then list.value else []
  }

  function Pushed<K, T>(cells: map<K, Cell<seq<T>>>, key: K, value: T, maxLen: nat, ttl: int, now: int): map<K, Cell<seq<T>>> {
    cells[key := Cell(Oldest([value] + ListAt(cells, key, now), maxLen), Some(now + ttl))]
  }

  /** LPUSH, LTRIM, EXPIRE. */
  method RedisPushHistory<K(==), T>(redis: Store<K, seq<T>>, key: K, value: T, maxLen: nat, ttl: int, now: int)
    modifies redis
    ensures redis.cells == Pushed(old(redis.cells), key, value, maxLen, ttl, now)
  {
    Lpush(redis, key, value, now);
    Ltrim(redis, key, maxLen, now);
    redis.Expire(key, ttl, now);
  }

  method Lpush<K(==), T>(redis: Store<K, seq<T>>, key: K, value: T, now: int)
    modifies redis
    ensures key in redis.cells && Live(redis.cells[key], now)
    ensures redis.cells == old(redis.cells)[key := redis.cells[key]]
    ensures redis.cells[key].value == [value] + ListAt(old(redis.cells), key, now)
  {
    var list := redis.Get(key, now);
    var cell := if list.Some? then redis.cells[key].(value := [value] + list.value) else Cell([value], None);
    redis.cells := redis.cells[key := cell];
  }

  method Ltrim<K(==), T>(redis: Store<K, seq<T>>, key: K, maxLen: nat, now: int)
    requires key in redis.cells && Live(redis.cells[key], now)
    modifies redis
    ensures key in redis.cells && Live(redis.cells[key], now)
    ensures redis.cells == old(redis.cells)[key := redis.cells[key]]
    ensures redis.cells[key].value == Oldest(old(redis.cells)[key].value, maxLen)
  {
    var list := redis.cells[key].value;
    if maxLen < |list| {
      redis.cells := redis.cells[key := redis.cells[key].(value := list[..maxLen])];
    }
  }

  predicate SameTenant(e: Record, tenantId: string) {
    tenantId == "" || e.tenantId == "" || e.tenantId == tenantId
  }

  function ForTenant(events: seq<Record>, tenantId: string): seq<Record> {
    if events == [] then []
    else (if SameTenant(events[0], tenantId) then [events[0]] else []) + ForTenant(events[1..], tenantId)
  }

  function Anchor(events: seq<Record>, id: EventId): (i: nat)
    ensures i <= |events|
    ensures i < |events| ==> events[i].id == id
    ensures forall k :: 0 <= k < i ==> events[k].id != id
  {
    if events == [] || events[0].id == id then 0 else 1 + Anchor(events[1..], id)
  }

  /** The replay of a chronological list. */
  function Missed(events: seq<Record>, lastEventId: EventId, tenantId: string): seq<Record> {
    var i := Anchor(events, lastEventId);
    if i == |events| then [] else ForTenant(events[i + 1..], tenantId)
  }

  /** The push numbered `index` by the process, from 0 on. */
  datatype Push = Push(time: int, message: Message)

  function RecordOf(p: Push, index: nat): Record {
    Record(EventId(p.time, index + 1), p.message.tenantId, p.message.payload)
  }

  class EventLog {
    const redis: Store<string, seq<Record>>
    var eventCounter: nat
    var published: seq<(string, Record)>         // what went out on the Redis channels

    constructor (redis: Store<string, seq<Record>>)
      ensures this.redis == redis && eventCounter == 0 && published == []
    {
      this.redis, eventCounter, published := redis, 0, [];
    }

    method GenerateEventId(now: int) returns (id: EventId)
      modifies this`eventCounter
      ensures eventCounter == old(eventCounter) + 1 && id == EventId(now, eventCounter)
    {
      eventCounter := eventCounter + 1;
      id := EventId(now, eventCounter);
    }

    method Publish(m: Message, now: int)
      modifies this, redis
      ensures eventCounter == old(eventCounter) + 1
      ensures published == old(published) + [(m.category, RecordOf(Push(now, m), old(eventCounter)))]
      ensures redis.cells == Pushed(old(redis.cells), m.category, RecordOf(Push(now, m), old(eventCounter)),
                                    STREAM_HISTORY_LIMIT, STREAM_HISTORY_TTL, now)
    {
      var id := GenerateEventId(now);
      var record := Record(id, m.tenantId, m.payload);
      RedisPushHistory(redis, m.category, record, STREAM_HISTORY_LIMIT, STREAM_HISTORY_TTL, now);
      published := published + [(m.category, record)];
    }

    /** Persists the event before it is published and dispatched to the local connections. */
    method PushEvent(router: SSEEventRouter, m: Message, now: int)
      requires router.Valid()
      modifies this, redis, router.Objects()
      ensures router.Valid() && router.View() == Scan(old(router.View()), m)
      ensures eventCounter == old(eventCounter) + 1
      ensures published == old(published) + [(m.category, RecordOf(Push(now, m), old(eventCounter)))]
      ensures redis.cells == Pushed(old(redis.cells), m.category, RecordOf(Push(now, m), old(eventCounter)),
                                    STREAM_HISTORY_LIMIT, STREAM_HISTORY_TTL, now)
    {
      Publish(m, now);
      assert router.Valid() && router.View() == old(router.View());
      router.OnRedisMessage(m);
    }

    method GetMissedEvents(category: string, lastEventId: EventId, tenantId: string, now: int) returns (missed: seq<Record>)
      ensures missed == Missed(Reversed(ListAt(redis.cells, category, now)), lastEventId, tenantId)
    {
      var raw := redis.Get(category, now);
      if raw.None? || raw.value == [] {
        return [];
      }
      var events := InOrder(raw.value);
      var anchor := 0;
      while anchor < |events| && events[anchor].id != lastEventId
        invariant anchor <= Anchor(events, lastEventId)
      {
        anchor := anchor + 1;
      }
      if anchor == |events| {
        return [];
      }
      missed := Visible(events[anchor + 1..], tenantId);
    }

    method InOrder(newestFirst: seq<Record>) returns (events: seq<Record>)
      ensures events == Reversed(newestFirst)
    {
      events := [];
      for i := 0 to |newestFirst|
        invariant events == Reversed(newestFirst)[..i]
      {
        events := events + [newestFirst[|newestFirst| - 1 - i]];
      }
    }

    method Visible(events: seq<Record>, tenantId: string) returns (visible: seq<Record>)
      ensures visible == ForTenant(events, tenantId)
    {
      visible := [];
      for i := 0 to |events|
        invariant ForTenant(events, tenantId) == visible + ForTenant(events[i..], tenantId)
      {
        ForTenantStep(events[i..], tenantId);
        assert events[i..][1..] == events[i + 1..];
        if tenantId != "" && events[i].tenantId != "" && events[i].tenantId != tenantId {
          continue;
        }
        Associates(visible, [events[i]], ForTenant(events[i + 1..], tenantId));
        visible := visible + [events[i]];
      }
    }
  }

  lemma Associates<T>(a: seq<T>, b: seq<T>, c: seq<T>)
    ensures a + (b + c) == (a + b) + c
  {
  }

  // Runs of pushes

  function After(run: seq<Push>): map<string, Cell<seq<Record>>> {
    if run == [] then map[]
    else
      var i := |run| - 1;
      Pushed(After(run[..i]), run[i].message.category, RecordOf(run[i], i), STREAM_HISTORY_LIMIT, STREAM_HISTORY_TTL, run[i].time)
  }

  /** The unbounded log of a category since it was last silent for half an hour. */
  function LiveLog(run: seq<Push>, category: string, now: int): seq<Record> {
    if run == [] then []
    else
      var i := |run| - 1;
      if run[i].message.category != category then LiveLog(run[..i], category, now)
      else if run[i].time + 1800 <= now then []
      else LiveLog(run[..i], category, run[i].time) + [RecordOf(run[i], i)]
  }

  lemma PushKeepsTheTail<T>(log: seq<T>, e: T, limit: nat)
    ensures Oldest([e] + Reversed(Newest(log, limit)), limit) == Reversed(Newest(log + [e], limit))
  {
    var before, after := Newest(log, limit), Newest(log + [e], limit);
    var pushed := Oldest([e] + Reversed(before), limit);
    assert |pushed| == |after|;
    forall i | 0 <= i < |after| ensures pushed[i] == Reversed(after)[i] {
      if i > 0 {
        assert pushed[i] == before[|before| - i] == log[|log| - i];
      }
    }
  }

  /** The list in Redis is the reversed tail of that log. */
  lemma {:induction false} HistoryIsTheCappedLog(run: seq<Push>, category: string, now: int)
    ensures ListAt(After(run), category, now) == Reversed(Newest(LiveLog(run, category, now), 500))
  {
    if run != [] {
      var i := |run| - 1;
      if run[i].message.category != category {
        HistoryIsTheCappedLog(run[..i], category, now);
      } else {
        HistoryIsTheCappedLog(run[..i], category, run[i].time);
        PushKeepsTheTail(LiveLog(run[..i], category, run[i].time), RecordOf(run[i], i), STREAM_HISTORY_LIMIT);
      }
    }
  }

  predicate Increasing(log: seq<Record>, bound: nat) {
    && (forall k :: 0 <= k < |log| ==> log[k].id.counter <= bound)
    && (forall j, k :: 0 <= j < k < |log| ==> log[j].id.counter < log[k].id.counter)
  }

  lemma {:induction false} CountersIncrease(run: seq<Push>, category: string, now: int)
    ensures Increasing(LiveLog(run, category, now), |run|)
  {
    if run != [] {
      var i := |run| - 1;
      if run[i].message.category != category {
        CountersIncrease(run[..i], category, now);
      } else {
        CountersIncrease(run[..i], category, run[i].time);
        assert Increasing(LiveLog(run[..i], category, run[i].time), i);
      }
    }
  }

  lemma NewestIncreases(log: seq<Record>, bound: nat, limit: nat)
    requires Increasing(log, bound)
    ensures Increasing(Newest(log, limit), bound)
  {
  }

  function Replay(run: seq<Push>, category: string, lastEventId: EventId, tenantId: string, now: int): seq<Record> {
    Missed(Reversed(ListAt(After(run), category, now)), lastEventId, tenantId)
  }

  lemma MissedInTheTail(log: seq<Record>, bound: nat, limit: nat, i: nat, tenantId: string)
    requires Increasing(log, bound) && i < |log| <= i + limit
    ensures Missed(Newest(log, limit), log[i].id, tenantId) == ForTenant(log[i + 1..], tenantId)
  {
    var window := Newest(log, limit);
    var at := i - (|log| - |window|);
    assert window[at] == log[i];
    assert Anchor(window, log[i].id) == at;
    assert window[at + 1..] == log[i + 1..];
  }

  lemma ReadBack(run: seq<Push>, category: string, now: int)
    ensures Reversed(ListAt(After(run), category, now)) == Newest(LiveLog(run, category, now), STREAM_HISTORY_LIMIT)
  {
    HistoryIsTheCappedLog(run, category, now);
  }

  /** An anchor among the last 500 events of the log replays exactly what the tenant may see
      of the log after it. */
  lemma ReplayIsTheLogSuffix(run: seq<Push>, category: string, tenantId: string, now: int, i: nat)
    requires i < |LiveLog(run, category, now)| <= i + 500
    ensures var log := LiveLog(run, category, now);
      Replay(run, category, log[i].id, tenantId, now) == ForTenant(log[i + 1..], tenantId)
  {
    ReadBack(run, category, now);
    CountersIncrease(run, category, now);
    MissedInTheTail(LiveLog(run, category, now), |run|, STREAM_HISTORY_LIMIT, i, tenantId);
  }

  /** Any other anchor replays nothing: an unknown one as much as one that has been rotated
      or has expired. */
  lemma OtherAnchorsReplayNothing(run: seq<Push>, category: string, id: EventId, tenantId: string, now: int)
    requires var log := LiveLog(run, category, now);
      forall i :: 0 <= i < |log| <= i + 500 ==> log[i].id != id
    ensures Replay(run, category, id, tenantId, now) == []
  {
    ReadBack(run, category, now);
    var log := LiveLog(run, category, now);
    var window := Newest(log, STREAM_HISTORY_LIMIT);
    forall k | 0 <= k < |window| ensures window[k].id != id {
      assert window[k] == log[|log| - |window| + k];
    }
  }

  lemma ForTenantStep(events: seq<Record>, tenantId: string)
    requires events != []
    ensures ForTenant(events, tenantId) ==
      if SameTenant(events[0], tenantId) then [events[0]] + ForTenant(events[1..], tenantId) else ForTenant(events[1..], tenantId)
  {
  }

  /** The k-th visible event sits at some place j, and what is visible after it is what is
      visible of the events after j. */
  lemma {:induction false} ForTenantSplits(events: seq<Record>, tenantId: string, visible: seq<Record>, k: nat) returns (j: nat)
    requires visible == ForTenant(events, tenantId) && k < |visible|
    ensures j < |events| && events[j] == visible[k]
    ensures visible[k + 1..] == ForTenant(events[j + 1..], tenantId)
    decreases |events|
  {
    ForTenantStep(events, tenantId);
    var rest := ForTenant(events[1..], tenantId);
    if !SameTenant(events[0], tenantId) {
      j := ForTenantSplits(events[1..], tenantId, rest, k);
      DropDrop(events, 1, j + 1);
      j := j + 1;
    } else if k == 0 {
      j := 0;
      assert visible[1..] == rest;
    } else {
      j := ForTenantSplits(events[1..], tenantId, rest, k - 1);
      DropDrop(events, 1, j + 1);
      j := j + 1;
      assert visible[1..] == rest;
      DropDrop(visible, 1, k);
    }
  }

  lemma MissedAfter(window: seq<Record>, bound: nat, i: nat, rest: seq<Record>, tenantId: string)
    requires Increasing(window, bound) && i < |window| && rest == window[i + 1..]
    ensures Missed(window, window[i].id, tenantId) == ForTenant(rest, tenantId)
  {
    assert Anchor(window, window[i].id) == i;
  }

  lemma DropDrop<T>(s: seq<T>, a: nat, b: nat)
    requires a + b <= |s|
    ensures s[a..][b..] == s[a + b..]
  {
  }

  lemma SuffixComposes(window: seq<Record>, bound: nat, after: seq<Record>, i: nat, tenantId: string, missed: seq<Record>, k: nat)
    requires Increasing(window, bound) && i <= |window| && after == window[i..]
    requires missed == ForTenant(after, tenantId) && k < |missed|
    ensures Missed(window, missed[k].id, tenantId) == missed[k + 1..]
  {
    var j := ForTenantSplits(after, tenantId, missed, k);
    DropDrop(window, i, j + 1);
    assert missed[k] == after[j] == window[i + j];
    var rest := window[i + j + 1..];
    MissedAfter(window, bound, i + j, rest, tenantId);
  }

  lemma MissedComposes(window: seq<Record>, bound: nat, id: EventId, tenantId: string, missed: seq<Record>, k: nat)
    requires Increasing(window, bound) && missed == Missed(window, id, tenantId) && k < |missed|
    ensures Missed(window, missed[k].id, tenantId) == missed[k + 1..]
  {
    var i := Anchor(window, id) + 1;
    SuffixComposes(window, bound, window[i..], i, tenantId, missed, k);
  }

  /** The stored window in order, whose counters increase. */
  function Window(run: seq<Push>, category: string, now: int): (window: seq<Record>)
    ensures Increasing(window, |run|)
  {
    ReadBack(run, category, now);
    CountersIncrease(run, category, now);
    NewestIncreases(LiveLog(run, category, now), |run|, STREAM_HISTORY_LIMIT);
    Reversed(ListAt(After(run), category, now))
  }

  /** Replays compose: stopping at any replayed event and resuming from it yields the same
      events, none twice and none lost. */
  lemma ReplayComposes(run: seq<Push>, category: string, lastEventId: EventId, tenantId: string, now: int, k: nat)
    requires k < |Replay(run, category, lastEventId, tenantId, now)|
    ensures var missed := Replay(run, category, lastEventId, tenantId, now);
      missed == missed[..k + 1] + Replay(run, category, missed[k].id, tenantId, now)
  {
    var missed, window := Replay(run, category, lastEventId, tenantId, now), Window(run, category, now);
    MissedComposes(window, |run|, lastEventId, tenantId, missed, k);
    assert missed == missed[..k + 1] + missed[k + 1..];
  }

  // Tenants

  lemma {:induction false} ForTenantIsExact(events: seq<Record>, tenantId: string, e: Record)
    ensures e in ForTenant(events, tenantId) <==>
              e in events && (tenantId == "" || e.tenantId == "" || e.tenantId == tenantId)
  {
    if events != [] {
      ForTenantIsExact(events[1..], tenantId, e);
      assert events == [events[0]] + events[1..];
    }
  }

  lemma {:induction false} ForTenantIncreases(events: seq<Record>, tenantId: string, bound: nat, visible: seq<Record>)
    requires Increasing(events, bound) && visible == ForTenant(events, tenantId)
    ensures Increasing(visible, bound)
  {
    if events != [] {
      var rest := ForTenant(events[1..], tenantId);
      ForTenantStep(events, tenantId);
      ForTenantIncreases(events[1..], tenantId, bound, rest);
      forall k | 0 <= k < |rest| ensures rest[k] in events[1..] {
        ForTenantIsExact(events[1..], tenantId, rest[k]);
      }
      FirstIsLeast(events, bound, rest);
    }
  }

  lemma FirstIsLeast(events: seq<Record>, bound: nat, rest: seq<Record>)
    requires events != [] && Increasing(events, bound) && Increasing(rest, bound)
    requires forall k :: 0 <= k < |rest| ==> rest[k] in events[1..]
    ensures Increasing([events[0]] + rest, bound)
  {
    forall k | 0 <= k < |rest| ensures events[0].id.counter < rest[k].id.counter {
      var n :| 0 <= n < |events[1..]| && events[1..][n] == rest[k];
      assert events[n + 1] == rest[k];
    }
  }

  /** Which push a log record comes from. */
  predicate IsRecordOf(e: Record, run: seq<Push>, category: string, p: nat) {
    && p < |run| && run[p].message.category == category && e.payload == run[p].message.payload
    && e.tenantId == run[p].message.tenantId && e.id == EventId(run[p].time, p + 1)
  }

  lemma {:induction false} LogComesFromPushes(run: seq<Push>, category: string, now: int, k: nat) returns (p: nat)
    requires k < |LiveLog(run, category, now)|
    ensures IsRecordOf(LiveLog(run, category, now)[k], run, category, p)
  {
    var i := |run| - 1;
    if run[i].message.category != category {
      p := LogComesFromPushes(run[..i], category, now, k);
    } else if k < |LiveLog(run[..i], category, run[i].time)| {
      p := LogComesFromPushes(run[..i], category, run[i].time, k);
    } else {
      p := i;
    }
  }

  /** Where in the log a replayed record stands. */
  lemma PlaceInTheLog(log: seq<Record>, window: seq<Record>, limit: nat, i: nat, e: Record) returns (k: nat)
    requires window == Newest(log, limit) && i < |window| && e in window[i + 1..]
    ensures k < |log| && log[k] == e
  {
    var n :| 0 <= n < |window[i + 1..]| && window[i + 1..][n] == e;
    k := |log| - |window| + i + 1 + n;
  }

  lemma ReplayIsVisible(run: seq<Push>, category: string, lastEventId: EventId, tenantId: string, now: int, e: Record) returns (p: nat)
    requires e in Replay(run, category, lastEventId, tenantId, now)
    ensures IsRecordOf(e, run, category, p)
    ensures tenantId == "" || run[p].message.tenantId == "" || run[p].message.tenantId == tenantId
  {
    var log := LiveLog(run, category, now);
    var window := Newest(log, STREAM_HISTORY_LIMIT);
    ReadBack(run, category, now);
    var i := Anchor(window, lastEventId);
    ForTenantIsExact(window[i + 1..], tenantId, e);
    var k := PlaceInTheLog(log, window, STREAM_HISTORY_LIMIT, i, e);
    p := LogComesFromPushes(run, category, now, k);
  }

  /** Whatever the anchor, a replay to a tenant holds only events that were pushed to the
      category with no tenant or with that one, each once, in the order of the pushes. */
  lemma ReplaysAreIsolated(run: seq<Push>, category: string, lastEventId: EventId, tenantId: string, now: int)
    ensures var replay := Replay(run, category, lastEventId, tenantId, now);
      && Increasing(replay, |run|)
      && forall e :: e in replay ==>
           exists p: nat :: IsRecordOf(e, run, category, p)
             && (tenantId == "" || run[p].message.tenantId == "" || run[p].message.tenantId == tenantId)
  {
    var window, replay := Window(run, category, now), Replay(run, category, lastEventId, tenantId, now);
    var i := Anchor(window, lastEventId);
    if i < |window| {
      assert Increasing(window[i + 1..], |run|);
      ForTenantIncreases(window[i + 1..], tenantId, |run|, replay);
    }
    forall e | e in replay
      ensures exists p: nat :: IsRecordOf(e, run, category, p)
                && (tenantId == "" || run[p].message.tenantId == "" || run[p].message.tenantId == tenantId)
    {
      var p := ReplayIsVisible(run, category, lastEventId, tenantId, now, e);
    }
  }

  /** And all of them: of the log after an anchor that is still stored, the replay holds
      exactly what carries no tenant or the asker's; an asker without tenant gets everything. */
  lemma ReplayIsComplete(run: seq<Push>, category: string, tenantId: string, now: int, i: nat, e: Record)
    requires i < |LiveLog(run, category, now)| <= i + 500
    ensures var log := LiveLog(run, category, now);
      e in Replay(run, category, log[i].id, tenantId, now) <==>
        && (exists k :: i < k < |log| && log[k] == e)
        && (tenantId == "" || e.tenantId == "" || e.tenantId == tenantId)
  {
    var log := LiveLog(run, category, now);
    ReplayIsTheLogSuffix(run, category, tenantId, now, i);
    ForTenantIsExact(log[i + 1..], tenantId, e);
    if k :| i < k < |log| && log[k] == e {
      assert log[i + 1..][k - i - 1] == e;
    }
    if e in log[i + 1..] {
      var n :| 0 <= n < |log[i + 1..]| && log[i + 1..][n] == e;
      assert log[i + 1 + n] == e;
    }
  }
}
