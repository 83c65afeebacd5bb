/** The worker keeps its jobs in step with the sources table: it subscribes to lifecycle
    events, rebuilds its jobs from a snapshot, then applies the events in order. */
module Worker {
  import opened Wrappers
  import opened Constants
  import opened Scheduler

  datatype Name = SourceCreated | SourceEnabled | SourceDisabled | SourceDeleted | Other

  datatype Event = Event(name: Name, sourceId: string, source: Option<Source>)

  datatype Result = Ok | NotFound | Forbidden | Rejected

  datatype Changes = Changes(isActive: Option<bool>, sourceType: Option<string>, refreshInterval: Option<int>)

  /** One call of the source service. `accepted` is the verdict of its validation (tenant,
      limits, category, configuration, collector). Ids are uuids: new, and never empty. */
  datatype Call =
    | Create(source: Source, accepted: bool)
    | Update(id: string, tenantId: string, changes: Changes, accepted: bool)
    | Delete(id: string, tenantId: string)

  type Rows = map<string, Source>

  function ResultOf(rows: Rows, call: Call): Result {
    match call
    case Create(source, accepted) => if accepted && source.id != "" && source.id !in rows then Ok else Rejected
    case Update(id, tenantId, _, accepted) =>
      if id !in rows then NotFound else if rows[id].tenantId != tenantId then Forbidden else if accepted then Ok else Rejected
    case Delete(id, tenantId) =>
      if id !in rows then NotFound
      else if rows[id].tenantId != tenantId || tenantId == SYSTEM_TENANT_ID then Forbidden
      else Ok
  }

  function Changed(source: Source, c: Changes): Source {
    source.(isActive := if c.isActive.Some? then c.isActive.value else source.isActive,
            sourceType := if c.sourceType.Some? then c.sourceType.value else source.sourceType,
            refreshInterval := if c.refreshInterval.Some? then c.refreshInterval else source.refreshInterval)
  }

  function RowsAfter(rows: Rows, call: Call): Rows {
    if ResultOf(rows, call) != Ok then rows
    else match call
         case Create(source, _) => rows[source.id := source]
         case Update(id, _, changes, _) => rows[id := Changed(rows[id], changes)]
         case Delete(id, _) => rows - {id}
  }

  function PublishedBy(rows: Rows, call: Call): seq<Event> {
    if ResultOf(rows, call) != Ok then []
    else match call
         case Create(source, _) => [Event(SourceCreated, source.id, Some(source))]
         case Update(id, _, changes, _) =>
           var source := Changed(rows[id], changes);
           if source.isActive == rows[id].isActive then []
           else [Event(if source.isActive then SourceEnabled else SourceDisabled, id, Some(source))]
         case Delete(id, _) => [Event(SourceDeleted, id, None)]
  }

  class SourceService {
    var rows: map<string, Source>
    var published: seq<Event>

    constructor ()
      ensures rows == map[] && published == []
    {
      rows, published := map[], [];
    }

    method CreateSource(source: Source, accepted: bool) returns (r: Result)
      modifies this
      ensures r == ResultOf(old(rows), Create(source, accepted))
      ensures rows == RowsAfter(old(rows), Create(source, accepted))
      ensures published == old(published) + PublishedBy(old(rows), Create(source, accepted))
    {
      if !accepted || source.id == "" || source.id in rows {
        return Rejected;
      }
      rows := rows[source.id := source];
      published := published + [Event(SourceCreated, source.id, Some(source))];
      r := Ok;
    }

    method UpdateSource(id: string, tenantId: string, changes: Changes, accepted: bool) returns (r: Result)
      modifies this
      ensures r == ResultOf(old(rows), Update(id, tenantId, changes, accepted))
      ensures rows == RowsAfter(old(rows), Update(id, tenantId, changes, accepted))
      ensures published == old(published) + PublishedBy(old(rows), Update(id, tenantId, changes, accepted))
    {
      if id !in rows {
        return NotFound;
      }
      var source := rows[id];
      if source.tenantId != tenantId {
        return Forbidden;
      }
      if !accepted {
        return Rejected;
      }
      var oldIsActive := source.isActive;
      if changes.isActive.Some? {
        source := source.(isActive := changes.isActive.value);
      }
      if changes.sourceType.Some? {
        source := source.(sourceType := changes.sourceType.value);
      }
      if changes.refreshInterval.Some? {
        source := source.(refreshInterval := changes.refreshInterval);
      }
      rows := rows[id := source];
      if source.isActive != oldIsActive {
        published := published + [Event(if source.isActive then SourceEnabled else SourceDisabled, id, Some(source))];
      }
      r := Ok;
    }

    /** The event goes out before the row is deleted. */
    method DeleteSource(id: string, tenantId: string) returns (r: Result)
      modifies this
      ensures r == ResultOf(old(rows), Delete(id, tenantId))
      ensures rows == RowsAfter(old(rows), Delete(id, tenantId))
      ensures published == old(published) + PublishedBy(old(rows), Delete(id, tenantId))
    {
      if id !in rows {
        return NotFound;
      }
      if rows[id].tenantId != tenantId || rows[id].tenantId == SYSTEM_TENANT_ID {
        return Forbidden;
      }
      published := published + [Event(SourceDeleted, id, None)];
      rows := rows - {id};
      r := Ok;
    }
  }

  /** An event as it is handled: `fallback` is the row that the database lookup would find,
      `overrides` are the tenant's settings at that moment. */
  datatype Delivery = Delivery(event: Event, fallback: Option<Source>, overrides: Overrides)

  function Handled(jobs: map<string, Job>, d: Delivery): map<string, Job> {
    var embedded := d.event.source.Some? && d.event.source.value.id != "";
    match d.event.name
    case SourceCreated | SourceEnabled =>
      if !embedded && d.event.sourceId == "" then jobs
      else
        var source := if embedded then d.event.source else d.fallback;
        if source.None? || !source.value.isActive || source.value.id == "" then jobs
        else jobs[source.value.id := AddedJob(Get(jobs, source.value.id), ResolveEffectiveInterval(source.value, d.overrides))]
    case SourceDisabled | SourceDeleted =>
      if d.event.sourceId == "" then jobs else jobs - {d.event.sourceId}
    case Other => jobs
  }

  method HandleSourceStatusEvent(manager: AsyncSchedulerManager, d: Delivery)
    requires manager.Valid()
    modifies manager
    ensures manager.Valid() && manager.Jobs() == Handled(old(manager.Jobs()), d)
  {
    var e := d.event;
    if e.name == SourceCreated || e.name == SourceEnabled {
      var embedded := e.source.Some? && e.source.value.id != "";
      if !embedded && e.sourceId == "" {
        return;
      }
      var source := e.source;
      if !embedded {
        if d.fallback.None? || !d.fallback.value.isActive {
          return;
        }
        source := d.fallback;
      } else if !source.value.isActive {
        return;
      }
      manager.AddSourceJob(source.value, d.overrides);
    } else if e.name == SourceDisabled || e.name == SourceDeleted {
      if e.sourceId == "" {
        return;
      }
      manager.RemoveSourceJob(e.sourceId);
    }
  }

  /** Startup: rebuild from the snapshot, then apply what arrived since the subscription. */
  method Start(snapshot: seq<Source>, settings: map<string, Overrides>, deliveries: seq<Delivery>)
    returns (manager: AsyncSchedulerManager)
    ensures fresh(manager) && manager.Valid()
    ensures manager.Jobs() == AfterDeliveries(Scheduled(map[], snapshot, settings), deliveries)
  {
    manager := new AsyncSchedulerManager();
    manager.ScheduleAllActiveSources(snapshot, settings);
    for i := 0 to |deliveries|
      invariant fresh(manager) && manager.Valid()
      invariant manager.Jobs() == AfterDeliveries(Scheduled(map[], snapshot, settings), deliveries[..i])
    {
      assert deliveries[..i + 1][..i] == deliveries[..i];
      HandleSourceStatusEvent(manager, deliveries[i]);
    }
    assert deliveries[..|deliveries|] == deliveries;
  }

  function AfterDeliveries(jobs: map<string, Job>, deliveries: seq<Delivery>): map<string, Job> {
    if deliveries == [] then jobs
    else Handled(AfterDeliveries(jobs, deliveries[..|deliveries| - 1]), deliveries[|deliveries| - 1])
  }

  // The service's call log since the worker subscribed

  function RowsAfterAll(rows: Rows, calls: seq<Call>): Rows {
    if calls == [] then rows else RowsAfter(RowsAfterAll(rows, calls[..|calls| - 1]), calls[|calls| - 1])
  }

  function PublishedByAll(rows: Rows, calls: seq<Call>): seq<Event> {
    if calls == [] then []
    else
      var before := calls[..|calls| - 1];
      PublishedByAll(rows, before) + PublishedBy(RowsAfterAll(rows, before), calls[|calls| - 1])
  }

  predicate Active(rows: Rows, id: string) {
    id in rows && rows[id].isActive
  }

  /** Every row is stored under its own, non-empty id. */
  predicate WellKeyed(rows: Rows) {
    forall id :: id in rows ==> id != "" && rows[id].id == id
  }

  predicate Delivers(deliveries: seq<Delivery>, events: seq<Event>) {
    |deliveries| == |events| && forall i :: 0 <= i < |events| ==> deliveries[i].event == events[i]
  }

  predicate Decides(e: Event, id: string) {
    match e.name
    case SourceCreated | SourceEnabled => e.source.Some? && e.source.value.id == id && e.source.value.isActive
    case SourceDisabled | SourceDeleted => e.sourceId == id
    case Other => false
  }

  predicate Touched(events: seq<Event>, id: string) {
    exists i :: 0 <= i < |events| && Decides(events[i], id)
  }

  lemma {:induction false} RowsStayWellKeyed(rows: Rows, calls: seq<Call>)
    requires WellKeyed(rows)
    ensures WellKeyed(RowsAfterAll(rows, calls))
  {
    if calls != [] {
      RowsStayWellKeyed(rows, calls[..|calls| - 1]);
    }
  }

  /** A call without an event changes no source's activity. */
  lemma SilentCall(rows: Rows, call: Call, id: string)
    requires PublishedBy(rows, call) == []
    ensures Active(RowsAfter(rows, call), id) <==> Active(rows, id)
  {
  }

  lemma AnnouncedCall(rows: Rows, call: Call, jobs: map<string, Job>, d: Delivery, id: string)
    requires WellKeyed(rows) && PublishedBy(rows, call) == [d.event] && id != ""
    ensures if Decides(d.event, id) then id in Handled(jobs, d) <==> Active(RowsAfter(rows, call), id)
            else (id in Handled(jobs, d) <==> id in jobs) && (Active(RowsAfter(rows, call), id) <==> Active(rows, id))
  {
  }

  lemma TouchedByLast(events: seq<Event>, last: Event, id: string)
    ensures Touched(events + [last], id) <==> Touched(events, id) || Decides(last, id)
  {
    if Touched(events, id) {
      var i :| 0 <= i < |events| && Decides(events[i], id);
      assert (events + [last])[i] == events[i];
    }
    assert (events + [last])[|events|] == last;
  }

  /** A source some event decides about has a job exactly when it is active in the end, any
      other one keeps both its job and its activity. */
  ghost predicate Tracks(rows: Rows, rows': Rows, events: seq<Event>, jobs: map<string, Job>, jobs': map<string, Job>, id: string) {
    if Touched(events, id) then id in jobs' <==> Active(rows', id)
    else (id in jobs' <==> id in jobs) && (Active(rows', id) <==> Active(rows, id))
  }

  lemma TracksFurther(rows: Rows, rows': Rows, events: seq<Event>, jobs: map<string, Job>, jobs': map<string, Job>, id: string,
                      call: Call, d: Delivery)
    requires Tracks(rows, rows', events, jobs, jobs', id) && WellKeyed(rows') && id != ""
    requires PublishedBy(rows', call) == [d.event]
    ensures Tracks(rows, RowsAfter(rows', call), events + [d.event], jobs, Handled(jobs', d), id)
  {
    TouchedByLast(events, d.event, id);
    AnnouncedCall(rows', call, jobs', d, id);
  }

  lemma TracksSilently(rows: Rows, rows': Rows, events: seq<Event>, jobs: map<string, Job>, jobs': map<string, Job>, id: string, call: Call)
    requires Tracks(rows, rows', events, jobs, jobs', id) && PublishedBy(rows', call) == []
    ensures Tracks(rows, RowsAfter(rows', call), events, jobs, jobs', id)
  {
    SilentCall(rows', call, id);
  }

  /** Whatever jobs the worker starts from, the delivered events keep track of the rows. */
  lemma {:induction false} EventsTrackTheRows(rows: Rows, calls: seq<Call>, jobs: map<string, Job>, events: seq<Event>,
                                              deliveries: seq<Delivery>, id: string, after: Rows, end: map<string, Job>)
    requires WellKeyed(rows) && events == PublishedByAll(rows, calls) && Delivers(deliveries, events) && id != ""
    requires after == RowsAfterAll(rows, calls) && end == AfterDeliveries(jobs, deliveries)
    ensures Tracks(rows, after, events, jobs, end, id)
    decreases |calls|
  {
    if calls != [] {
      var before, call := calls[..|calls| - 1], calls[|calls| - 1];
      var events', after' := PublishedByAll(rows, before), RowsAfterAll(rows, before);
      var deliveries' := deliveries[..|events'|];
      var end' := AfterDeliveries(jobs, deliveries');
      RowsStayWellKeyed(rows, before);
      EventsTrackTheRows(rows, before, jobs, events', deliveries', id, after', end');
      OneCallMore(rows, after', events', jobs, end', id, call, PublishedBy(after', call), events, deliveries, end);
    }
  }

  lemma OneCallMore(rows: Rows, after: Rows, events: seq<Event>, jobs: map<string, Job>, end: map<string, Job>, id: string,
                    call: Call, published: seq<Event>, events': seq<Event>, deliveries: seq<Delivery>, end': map<string, Job>)
    requires Tracks(rows, after, events, jobs, end, id) && WellKeyed(after) && id != ""
    requires published == PublishedBy(after, call) && |published| <= 1 && events' == events + published
    requires Delivers(deliveries, events')
    requires end == AfterDeliveries(jobs, deliveries[..|events|]) && end' == AfterDeliveries(jobs, deliveries)
    ensures Tracks(rows, RowsAfter(after, call), events', jobs, end', id)
  {
    if published == [] {
      SameEnd(events, events', jobs, deliveries, end, end');
      TracksSilently(rows, after, events, jobs, end, id, call);
    } else {
      LastDelivery(events, published, events', jobs, deliveries, end, end');
      TracksFurther(rows, after, events, jobs, end, id, call, deliveries[|events|]);
    }
  }

  lemma SameEnd(events: seq<Event>, events': seq<Event>, jobs: map<string, Job>, deliveries: seq<Delivery>,
                end: map<string, Job>, end': map<string, Job>)
    requires events' == events + [] && Delivers(deliveries, events')
    requires end == AfterDeliveries(jobs, deliveries[..|events|]) && end' == AfterDeliveries(jobs, deliveries)
    ensures events' == events && end' == end
  {
    assert deliveries[..|events|] == deliveries;
  }

  lemma LastDelivery(events: seq<Event>, published: seq<Event>, events': seq<Event>, jobs: map<string, Job>,
                     deliveries: seq<Delivery>, end: map<string, Job>, end': map<string, Job>)
    requires |published| == 1 && events' == events + published && Delivers(deliveries, events')
    requires end == AfterDeliveries(jobs, deliveries[..|events|]) && end' == AfterDeliveries(jobs, deliveries)
    ensures var d := deliveries[|events|];
      published == [d.event] && events' == events + [d.event] && end' == Handled(end, d)
  {
    assert deliveries[..|deliveries| - 1] == deliveries[..|events|];
    assert events'[|events|] == published[0];
  }

  /** The snapshot query returns the active rows, in any order. */
  ghost predicate IsSnapshot(snapshot: seq<Source>, rows: Rows) {
    && (forall i :: 0 <= i < |snapshot| ==> Active(rows, snapshot[i].id) && snapshot[i] == rows[snapshot[i].id])
    && (forall id :: Active(rows, id) ==> id in rows && rows[id] in snapshot)
  }

  lemma {:induction false} RebuildKeys(snapshot: seq<Source>, settings: map<string, Overrides>)
    ensures forall id :: id in Scheduled(map[], snapshot, settings) <==>
              exists i :: 0 <= i < |snapshot| && snapshot[i].isActive && snapshot[i].id == id
  {
    if snapshot != [] {
      RebuildKeys(snapshot[..|snapshot| - 1], settings);
      var last := snapshot[|snapshot| - 1];
      forall id | exists i :: 0 <= i < |snapshot| && snapshot[i].isActive && snapshot[i].id == id
        ensures id in Scheduled(map[], snapshot, settings)
      {
        var i :| 0 <= i < |snapshot| && snapshot[i].isActive && snapshot[i].id == id;
        if i < |snapshot| - 1 {
          assert snapshot[..|snapshot| - 1][i] == snapshot[i];
        }
      }
    }
  }

  lemma AllSplits(rows: Rows, calls: seq<Call>, k: nat)
    requires k <= |calls|
    ensures PublishedByAll(rows, calls[..k]) <= PublishedByAll(rows, calls)
    decreases |calls| - k
  {
    if k == |calls| {
      assert calls[..k] == calls;
    } else {
      AllSplits(rows, calls, k + 1);
      assert calls[..k + 1][..k] == calls[..k];
    }
  }

  /** However many of the calls the snapshot already reflects, applying all their events on
      top of it leaves exactly the active sources scheduled. */
  lemma WorkerConverges(rows: Rows, calls: seq<Call>, k: nat, snapshot: seq<Source>, settings: map<string, Overrides>,
                        deliveries: seq<Delivery>)
    requires WellKeyed(rows) && k <= |calls|
    requires IsSnapshot(snapshot, RowsAfterAll(rows, calls[..k]))
    requires Delivers(deliveries, PublishedByAll(rows, calls))
    ensures forall id :: id in AfterDeliveries(Scheduled(map[], snapshot, settings), deliveries)
                    <==> Active(RowsAfterAll(rows, calls), id)
  {
    var jobs := Scheduled(map[], snapshot, settings);
    var seen := PublishedByAll(rows, calls[..k]);
    RebuildKeys(snapshot, settings);
    RowsStayWellKeyed(rows, calls);
    RowsStayWellKeyed(rows, calls[..k]);
    AllSplits(rows, calls, k);
    forall id ensures id in AfterDeliveries(jobs, deliveries) <==> Active(RowsAfterAll(rows, calls), id) {
      if id == "" {
        NoJobWithoutId(jobs, deliveries);
      } else {
        EventsTrackTheRows(rows, calls, jobs, PublishedByAll(rows, calls), deliveries, id,
                           RowsAfterAll(rows, calls), AfterDeliveries(jobs, deliveries));
        EventsTrackTheRows(rows, calls[..k], jobs, seen, deliveries[..|seen|], id,
                           RowsAfterAll(rows, calls[..k]), AfterDeliveries(jobs, deliveries[..|seen|]));
        if Touched(seen, id) {
          TouchedByMore(seen, PublishedByAll(rows, calls), id);
        }
      }
    }
  }

  lemma TouchedByMore(events: seq<Event>, more: seq<Event>, id: string)
    requires events <= more && Touched(events, id)
    ensures Touched(more, id)
  {
    var i :| 0 <= i < |events| && Decides(events[i], id);
    assert more[i] == events[i];
  }

  lemma {:induction false} NoJobWithoutId(jobs: map<string, Job>, deliveries: seq<Delivery>)
    requires "" !in jobs
    ensures "" !in AfterDeliveries(jobs, deliveries)
  {
    if deliveries != [] {
      NoJobWithoutId(jobs, deliveries[..|deliveries| - 1]);
    }
  }

  // What a call does to the table

  /** When each call succeeds, and why it does not: only the owner updates or deletes, and
      nobody deletes a source of the system tenant. */
  lemma ResultsAreExact(rows: Rows, call: Call)
    ensures call.Create? ==> (ResultOf(rows, call) == Ok <==> call.accepted && call.source.id != "" && call.source.id !in rows)
    ensures call.Update? ==>
              (ResultOf(rows, call) == Ok <==> call.id in rows && rows[call.id].tenantId == call.tenantId && call.accepted)
    ensures call.Delete? ==>
              (ResultOf(rows, call) == Ok <==> call.id in rows && rows[call.id].tenantId == call.tenantId != SYSTEM_TENANT_ID)
    ensures ResultOf(rows, call) == NotFound <==> !call.Create? && call.id !in rows
    ensures ResultOf(rows, call) == Forbidden <==>
              && !call.Create? && call.id in rows
              && (rows[call.id].tenantId != call.tenantId || (call.Delete? && call.tenantId == SYSTEM_TENANT_ID))
  {
  }

  function TargetOf(call: Call): string {
    if call.Create? then call.source.id else call.id
  }

  /** What a call that succeeds leaves: a created row as given, an updated one with the given
      fields and no other changed, no deleted one, and every other row as it was. */
  lemma CallChangesOneRow(rows: Rows, call: Call, id: string)
    ensures id != TargetOf(call) || ResultOf(rows, call) != Ok ==>
              (id in RowsAfter(rows, call) <==> id in rows) && (id in rows ==> RowsAfter(rows, call)[id] == rows[id])
    ensures ResultOf(rows, call) == Ok && call.Create? ==>
              call.source.id in RowsAfter(rows, call) && RowsAfter(rows, call)[call.source.id] == call.source
    ensures ResultOf(rows, call) == Ok && call.Delete? ==> call.id !in RowsAfter(rows, call)
    ensures ResultOf(rows, call) == Ok && call.Update? ==>
              call.id in RowsAfter(rows, call) && Updates(rows[call.id], RowsAfter(rows, call)[call.id], call.changes)
  {
  }

  predicate Updates(row: Source, row': Source, c: Changes) {
    && row' == row.(isActive := row'.isActive, sourceType := row'.sourceType, refreshInterval := row'.refreshInterval)
    && row'.isActive == (if c.isActive.Some? then c.isActive.value else row.isActive)
    && row'.sourceType == (if c.sourceType.Some? then c.sourceType.value else row.sourceType)
    && row'.refreshInterval == (if c.refreshInterval.Some? then c.refreshInterval else row.refreshInterval)
  }

  predicate ByTheOwner(call: Call, id: string, tenantId: string) {
    !call.Create? && call.id == id && call.tenantId == tenantId
  }

  /** Whatever other tenants call, a source stays as it is. */
  lemma {:induction false} OnlyTheOwnerChangesASource(rows: Rows, calls: seq<Call>, id: string)
    requires id in rows && forall call :: call in calls ==> !ByTheOwner(call, id, rows[id].tenantId)
    ensures id in RowsAfterAll(rows, calls) && RowsAfterAll(rows, calls)[id] == rows[id]
  {
    if calls != [] {
      var last := calls[|calls| - 1];
      assert last in calls;
      OnlyTheOwnerChangesASource(rows, calls[..|calls| - 1], id);
      CallChangesOneRow(RowsAfterAll(rows, calls[..|calls| - 1]), last, id);
    }
  }

  /** A source of the system tenant is there for good. */
  lemma {:induction false} SystemSourcesStay(rows: Rows, calls: seq<Call>, id: string)
    requires id in rows && rows[id].tenantId == SYSTEM_TENANT_ID
    ensures id in RowsAfterAll(rows, calls) && RowsAfterAll(rows, calls)[id].tenantId == SYSTEM_TENANT_ID
  {
    if calls != [] {
      SystemSourcesStay(rows, calls[..|calls| - 1], id);
      CallChangesOneRow(RowsAfterAll(rows, calls[..|calls| - 1]), calls[|calls| - 1], id);
    }
  }

  // What a delivery does to the jobs

  /** Of any delivery, whatever it carries: a source that is announced, embedded or looked up,
      is scheduled at its resolved interval exactly if it is active, a withdrawn one is not,
      and no other job changes. */
  lemma DeliveryIsExact(jobs: map<string, Job>, d: Delivery, id: string)
    ensures var e, jobs' := d.event, Handled(jobs, d);
      var announced := if e.source.Some? && e.source.value.id != "" then e.source else if e.sourceId != "" then d.fallback else None;
      if e.name in {SourceCreated, SourceEnabled} then
        if announced.Some? && announced.value.id == id != "" && announced.value.isActive then
          && id in jobs' && jobs'[id].interval == ResolveEffectiveInterval(announced.value, d.overrides)
          && (id !in jobs ==> jobs'[id].original == jobs'[id].interval && jobs'[id].multiplier == 1.0)
        else Get(jobs', id) == Get(jobs, id)
      else if e.name in {SourceDisabled, SourceDeleted} && e.sourceId == id != "" then id !in jobs'
      else Get(jobs', id) == Get(jobs, id)
  {
  }

  // Intervals

  /** Settings do not change while the events are delivered. */
  predicate UnderSettings(deliveries: seq<Delivery>, settings: map<string, Overrides>) {
    forall i :: 0 <= i < |deliveries| && deliveries[i].event.source.Some? ==>
      deliveries[i].overrides == OverridesOf(settings, deliveries[i].event.source.value)
  }

  /** An update that succeeds and changes the interval of a source that stays active. */
  predicate Repaces(rows: Rows, call: Call, settings: map<string, Overrides>) {
    && call.Update? && ResultOf(rows, call) == Ok && rows[call.id].isActive && call.changes.isActive != Some(false)
    && IntervalUnder(settings, Changed(rows[call.id], call.changes)) != IntervalUnder(settings, rows[call.id])
  }

  ghost predicate InStep(rows: Rows, jobs: map<string, Job>, settings: map<string, Overrides>) {
    forall id :: Active(rows, id) ==> id in jobs && jobs[id].interval == IntervalUnder(settings, rows[id])
  }

  /** A call keeps the jobs in step with the rows exactly if it is not such an update: those
      are published to nobody. */
  lemma CallKeepsStepIff(rows: Rows, call: Call, jobs: map<string, Job>, deliveries: seq<Delivery>, settings: map<string, Overrides>)
    requires WellKeyed(rows) && InStep(rows, jobs, settings)
    requires Delivers(deliveries, PublishedBy(rows, call)) && UnderSettings(deliveries, settings)
    ensures InStep(RowsAfter(rows, call), AfterDeliveries(jobs, deliveries), settings) <==> !Repaces(rows, call, settings)
  {
    if deliveries != [] {
      assert deliveries[..|deliveries| - 1] == [] && deliveries[0].event == PublishedBy(rows, call)[0];
      assert AfterDeliveries(jobs, deliveries) == Handled(jobs, deliveries[0]);
    }
    if Repaces(rows, call, settings) {
      assert Active(RowsAfter(rows, call), call.id);
    }
  }

  /** None of the calls is such an update. */
  predicate NoneRepaces(rows: Rows, calls: seq<Call>, settings: map<string, Overrides>) {
    forall i :: 0 <= i < |calls| ==> !Repaces(RowsAfterAll(rows, calls[..i]), calls[i], settings)
  }

  lemma NoneRepacesBefore(rows: Rows, calls: seq<Call>, settings: map<string, Overrides>, k: nat)
    requires NoneRepaces(rows, calls, settings) && k <= |calls|
    ensures NoneRepaces(rows, calls[..k], settings)
  {
    forall i | 0 <= i < k ensures !Repaces(RowsAfterAll(rows, calls[..k][..i]), calls[..k][i], settings) {
      assert calls[..k][..i] == calls[..i];
    }
  }

  /** What a stretch of calls and their events do to one source's interval: if some event
      decides about it the job follows the row, and otherwise neither of them changes. */
  ghost predicate KeepsPace(rows: Rows, rows': Rows, events: seq<Event>, jobs: map<string, Job>, jobs': map<string, Job>, id: string,
                            settings: map<string, Overrides>) {
    Active(rows', id) ==>
      if Touched(events, id) then id in jobs' ==> jobs'[id].interval == IntervalUnder(settings, rows'[id])
      else
        && Active(rows, id) && IntervalUnder(settings, rows'[id]) == IntervalUnder(settings, rows[id])
        && (id in jobs' ==> id in jobs && jobs'[id].interval == jobs[id].interval)
  }

  lemma SilentCallKeepsPace(rows: Rows, call: Call, id: string, settings: map<string, Overrides>)
    requires PublishedBy(rows, call) == [] && !Repaces(rows, call, settings) && Active(RowsAfter(rows, call), id)
    ensures Active(rows, id) && IntervalUnder(settings, RowsAfter(rows, call)[id]) == IntervalUnder(settings, rows[id])
  {
  }

  lemma AnnouncedCallKeepsPace(rows: Rows, call: Call, jobs: map<string, Job>, d: Delivery, id: string, settings: map<string, Overrides>)
    requires WellKeyed(rows) && PublishedBy(rows, call) == [d.event] && id != "" && Active(RowsAfter(rows, call), id)
    requires d.event.source.Some? ==> d.overrides == OverridesOf(settings, d.event.source.value)
    ensures if Decides(d.event, id) then
              id in Handled(jobs, d) && Handled(jobs, d)[id].interval == IntervalUnder(settings, RowsAfter(rows, call)[id])
            else
              Active(rows, id) && RowsAfter(rows, call)[id] == rows[id] && Get(Handled(jobs, d), id) == Get(jobs, id)
  {
  }

  lemma PaceGoesOn(rows: Rows, after: Rows, events: seq<Event>, jobs: map<string, Job>, end: map<string, Job>, id: string,
                   settings: map<string, Overrides>, call: Call, published: seq<Event>, events': seq<Event>, deliveries: seq<Delivery>,
                   end': map<string, Job>)
    requires KeepsPace(rows, after, events, jobs, end, id, settings) && WellKeyed(after) && id != ""
    requires !Repaces(after, call, settings) && UnderSettings(deliveries, settings)
    requires published == PublishedBy(after, call) && |published| <= 1 && events' == events + published
    requires Delivers(deliveries, events')
    requires end == AfterDeliveries(jobs, deliveries[..|events|]) && end' == AfterDeliveries(jobs, deliveries)
    ensures KeepsPace(rows, RowsAfter(after, call), events', jobs, end', id, settings)
  {
    if Active(RowsAfter(after, call), id) {
      if published == [] {
        SameEnd(events, events', jobs, deliveries, end, end');
        SilentCallKeepsPace(after, call, id, settings);
      } else {
        var d := deliveries[|events|];
        LastDelivery(events, published, events', jobs, deliveries, end, end');
        TouchedByLast(events, d.event, id);
        AnnouncedCallKeepsPace(after, call, end, d, id, settings);
      }
    }
  }

  lemma {:induction false} EventsKeepPace(rows: Rows, calls: seq<Call>, jobs: map<string, Job>, events: seq<Event>, deliveries: seq<Delivery>,
                                          id: string, settings: map<string, Overrides>, after: Rows, end: map<string, Job>)
    requires WellKeyed(rows) && events == PublishedByAll(rows, calls) && Delivers(deliveries, events) && id != ""
    requires NoneRepaces(rows, calls, settings) && UnderSettings(deliveries, settings)
    requires after == RowsAfterAll(rows, calls) && end == AfterDeliveries(jobs, deliveries)
    ensures KeepsPace(rows, after, events, jobs, end, id, settings)
    decreases |calls|
  {
    if calls != [] {
      var before, call := calls[..|calls| - 1], calls[|calls| - 1];
      var events', after' := PublishedByAll(rows, before), RowsAfterAll(rows, before);
      var deliveries' := deliveries[..|events'|];
      var end' := AfterDeliveries(jobs, deliveries');
      RowsStayWellKeyed(rows, before);
      NoneRepacesBefore(rows, calls, settings, |calls| - 1);
      EventsKeepPace(rows, before, jobs, events', deliveries', id, settings, after', end');
      PaceGoesOn(rows, after', events', jobs, end', id, settings, call, PublishedBy(after', call), events, deliveries, end);
    }
  }

  lemma {:induction false} RebuildIntervals(snapshot: seq<Source>, settings: map<string, Overrides>, id: string)
    requires id in Scheduled(map[], snapshot, settings)
    ensures exists i :: 0 <= i < |snapshot| && snapshot[i].id == id
                        && Scheduled(map[], snapshot, settings)[id].interval == IntervalUnder(settings, snapshot[i])
  {
    var init, last := snapshot[..|snapshot| - 1], snapshot[|snapshot| - 1];
    if last.isActive && last.id == id {
      assert snapshot[|snapshot| - 1].id == id;
    } else {
      RebuildIntervals(init, settings, id);
      var i :| 0 <= i < |init| && init[i].id == id
               && Scheduled(map[], init, settings)[id].interval == IntervalUnder(settings, init[i]);
      assert snapshot[i] == init[i];
    }
  }

  /** However many calls the snapshot already reflects: as long as no update changes the
      interval of a source that stays active, every active source ends up scheduled at the
      interval that its row asks for. */
  lemma IntervalsConverge(rows: Rows, calls: seq<Call>, k: nat, snapshot: seq<Source>, settings: map<string, Overrides>,
                          deliveries: seq<Delivery>, id: string)
    requires WellKeyed(rows) && k <= |calls|
    requires IsSnapshot(snapshot, RowsAfterAll(rows, calls[..k]))
    requires Delivers(deliveries, PublishedByAll(rows, calls)) && UnderSettings(deliveries, settings)
    requires NoneRepaces(rows, calls, settings) && Active(RowsAfterAll(rows, calls), id)
    ensures var jobs := AfterDeliveries(Scheduled(map[], snapshot, settings), deliveries);
      id in jobs && jobs[id].interval == IntervalUnder(settings, RowsAfterAll(rows, calls)[id])
  {
    var first, end := Scheduled(map[], snapshot, settings), RowsAfterAll(rows, calls);
    var events, jobs := PublishedByAll(rows, calls), AfterDeliveries(first, deliveries);
    RowsStayWellKeyed(rows, calls);
    WorkerConverges(rows, calls, k, snapshot, settings, deliveries);
    EventsKeepPace(rows, calls, first, events, deliveries, id, settings, end, jobs);
    if !Touched(events, id) {
      UntouchedSinceTheSnapshot(rows, calls, k, settings, first, deliveries, id);
      RebuildIntervals(snapshot, settings, id);
    }
  }

  lemma UntouchedSinceTheSnapshot(rows: Rows, calls: seq<Call>, k: nat, settings: map<string, Overrides>, jobs: map<string, Job>,
                                  deliveries: seq<Delivery>, id: string)
    requires WellKeyed(rows) && k <= |calls| && id != "" && Active(rows, id)
    requires Delivers(deliveries, PublishedByAll(rows, calls)) && UnderSettings(deliveries, settings)
    requires NoneRepaces(rows, calls, settings) && !Touched(PublishedByAll(rows, calls), id)
    ensures var mid := RowsAfterAll(rows, calls[..k]);
      Active(mid, id) && IntervalUnder(settings, mid[id]) == IntervalUnder(settings, rows[id])
  {
    var before, mid := calls[..k], RowsAfterAll(rows, calls[..k]);
    var events := PublishedByAll(rows, before);
    AllSplits(rows, calls, k);
    if Touched(events, id) {
      TouchedByMore(events, PublishedByAll(rows, calls), id);
    }
    NoneRepacesBefore(rows, calls, settings, k);
    var some := deliveries[..|events|];
    EventsTrackTheRows(rows, before, jobs, events, some, id, mid, AfterDeliveries(jobs, some));
    EventsKeepPace(rows, before, jobs, events, some, id, settings, mid, AfterDeliveries(jobs, some));
  }
}
