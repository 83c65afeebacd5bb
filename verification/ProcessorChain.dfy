/** The processing chain behind a collection, and its first stage: a set of content hashes
    per source, kept in Redis, that lets every item through once. */
module ProcessorChain {
  import opened Wrappers
  import opened RedisStore

  const DEDUP_TTL := 86400

  /** The set of one source of one tenant. */
  datatype DedupKey = DedupKey(tenantId: string, sourceId: string)

  datatype Item = Item(title: string, url: string, body: string, dedupHash: Option<string>)

  /** A processor returns the item to go on with, returns none, or raises. */
  datatype Outcome = Kept(item: Item) | Dropped | Failed(error: string)

  datatype Processor = Dedup | Stage(name: string, process: Item -> Outcome)

  const DEDUP_NAME := "DedupProcessor"

  datatype ProcessResult = ProcessResult(item: Option<Item>, filteredBy: Option<string>, errors: seq<string>)

  type Seen = map<DedupKey, Cell<set<string>>>

  /** MD5 of the content, taken to be injective: the content itself. */
  function ContentHash(item: Item): string {
    item.title + ":" + item.url
  }

  predicate IsSeen(seen: Seen, key: DedupKey, hash: string, now: int) {
    var members := Lookup(seen, key, now);
    members.Some? && hash in members.value
  }

  function Added(seen: Seen, key: DedupKey, hash: string, now: int): Seen {
    var members := Lookup(seen, key, now);
    Written(seen, key, (if members.Some? then members.value else {}) + {hash}, Some(DEDUP_TTL), now)
  }

  /** One item through the rest of a chain; `current` is what the earlier stages made of it. */
  function Handled(processors: seq<Processor>, current: Item, errors: seq<string>, key: DedupKey, now: int, seen: Seen)
    : (ProcessResult, Seen)
    decreases processors
  {
    if processors == [] then (ProcessResult(Some(current), None, errors), seen)
    else match processors[0]
      case Dedup =>
        var hash := ContentHash(current);
        if IsSeen(seen, key, hash, now) then (ProcessResult(None, Some(DEDUP_NAME), errors), seen)
        else Handled(processors[1..], current.(dedupHash := Some(hash)), errors, key, now, Added(seen, key, hash, now))
      case Stage(name, process) =>
        match process(current)
        case Kept(item) => Handled(processors[1..], item, errors, key, now, seen)
        case Dropped => (ProcessResult(None, Some(name), errors), seen)
        case Failed(error) => Handled(processors[1..], current, errors + [name + ": " + error], key, now, seen)
  }

  /** An item reaching the chain: its source's set, and when. */
  datatype Arrival = Arrival(key: DedupKey, item: Item, now: int)

  function SeenAfter(processors: seq<Processor>, arrivals: seq<Arrival>, start: Seen): Seen {
    if arrivals == [] then start
    else
      var last := arrivals[|arrivals| - 1];
      Handled(processors, last.item, [], last.key, last.now, SeenAfter(processors, arrivals[..|arrivals| - 1], start)).1
  }

  /** What the chain makes of the i-th arrival. */
  function ResultAt(processors: seq<Processor>, arrivals: seq<Arrival>, start: Seen, i: nat): ProcessResult
    requires i < |arrivals|
  {
    Handled(processors, arrivals[i].item, [], arrivals[i].key, arrivals[i].now, SeenAfter(processors, arrivals[..i], start)).0
  }

  function Batch(items: seq<Item>, key: DedupKey, times: seq<int>): seq<Arrival>
    requires |times| == |items|
  {
    seq(|items|, i requires 0 <= i < |items| => Arrival(key, items[i], times[i]))
  }

  class ProcessorChain {
    var processors: seq<Processor>
    const store: Store<DedupKey, set<string>>

    constructor (store: Store<DedupKey, set<string>>)
      ensures this.store == store && processors == []
    {
      this.store, this.processors := store, [];
    }

    method Add(processor: Processor)
      modifies this
      ensures processors == old(processors) + [processor]
    {
      processors := processors + [processor];
    }

    /** SADD keeps a live set's expiry, and EXPIRE then renews it. */
    method Sadd(key: DedupKey, member: string, now: int)
      modifies store
      ensures store.cells == Added(old(store.cells), key, member, now)
    {
      if key in store.cells && Live(store.cells[key], now) {
        store.cells := store.cells[key := store.cells[key].(value := store.cells[key].value + {member})];
      } else {
        store.cells := store.cells[key := Cell({member}, None)];
      }
      ghost var added := store.cells;
      assert LiveCell(added, key, now).Some?;
      store.Expire(key, DEDUP_TTL, now);
      assert {} + {member} == {member};
      assert store.cells == added[key := added[key].(expiry := Some(now + DEDUP_TTL))];
    }

    method Deduplicate(item: Item, key: DedupKey, now: int) returns (outcome: Outcome)
      modifies store
      ensures IsSeen(old(store.cells), key, ContentHash(item), now) ==>
                outcome == Dropped && store.cells == old(store.cells)
      ensures !IsSeen(old(store.cells), key, ContentHash(item), now) ==>
                && outcome == Kept(item.(dedupHash := Some(ContentHash(item))))
                && store.cells == Added(old(store.cells), key, ContentHash(item), now)
    {
      var hash := ContentHash(item);
      var members := store.Get(key, now);
      if members.Some? && hash in members.value {
        return Dropped;
      }
      Sadd(key, hash, now);
      return Kept(item.(dedupHash := Some(hash)));
    }

    method Process(processor: Processor, item: Item, key: DedupKey, now: int) returns (outcome: Outcome)
      modifies store
      ensures forall rest, errors ::
                Handled([processor] + rest, item, errors, key, now, old(store.cells)) ==
                Continued(outcome, NameOf(processor), rest, item, errors, key, now, store.cells)
    {
      match processor {
        case Dedup => outcome := Deduplicate(item, key, now);
        case Stage(_, process) => outcome := process(item);
      }
      forall rest, errors ensures Handled([processor] + rest, item, errors, key, now, old(store.cells)) ==
        Continued(outcome, NameOf(processor), rest, item, errors, key, now, store.cells)
      {
        assert ([processor] + rest)[1..] == rest;
      }
    }

    method Handle(rawItem: Item, key: DedupKey, now: int) returns (result: ProcessResult)
      modifies store
      ensures (result, store.cells) == Handled(processors, rawItem, [], key, now, old(store.cells))
    {
      result := ProcessResult(Some(rawItem), None, []);
      var current := rawItem;
      for n := 0 to |processors|
        invariant result == ProcessResult(Some(current), None, result.errors)
        invariant Handled(processors, rawItem, [], key, now, old(store.cells)) ==
          Handled(processors[n..], current, result.errors, key, now, store.cells)
      {
        assert processors[n..] == [processors[n]] + processors[n + 1..];
        var outcome := Process(processors[n], current, key, now);
        match outcome {
          case Kept(item) =>
            current := item;
            result := result.(item := Some(current));
          case Dropped =>
            return result.(item := None, filteredBy := Some(NameOf(processors[n])));
          case Failed(error) =>
            result := result.(errors := result.errors + [NameOf(processors[n]) + ": " + error]);
        }
      }
    }

    /** One result per raw item, in order; item i is handled at times[i]. */
    method Execute(rawItems: seq<Item>, key: DedupKey, times: seq<int>) returns (results: seq<ProcessResult>)
      requires |times| == |rawItems|
      modifies store
      ensures |results| == |rawItems|
      ensures forall i :: 0 <= i < |results| ==> results[i] == ResultAt(processors, Batch(rawItems, key, times), old(store.cells), i)
      ensures store.cells == SeenAfter(processors, Batch(rawItems, key, times), old(store.cells))
    {
      results := [];
      ghost var arrivals := Batch(rawItems, key, times);
      for n := 0 to |rawItems|
        invariant |results| == n
        invariant forall i :: 0 <= i < n ==> results[i] == ResultAt(processors, arrivals, old(store.cells), i)
        invariant store.cells == SeenAfter(processors, arrivals[..n], old(store.cells))
      {
        var result := Handle(rawItems[n], key, times[n]);
        results := results + [result];
        assert arrivals[..n + 1][..n] == arrivals[..n];
      }
      assert arrivals[..|rawItems|] == arrivals;
    }
  }

  function NameOf(processor: Processor): string {
    if processor.Dedup? then DEDUP_NAME else processor.name
  }

  /** How the chain goes on after one processor. */
  function Continued(outcome: Outcome, name: string, rest: seq<Processor>, current: Item, errors: seq<string>,
                     key: DedupKey, now: int, seen: Seen): (ProcessResult, Seen)
  {
    match outcome
    case Kept(item) => Handled(rest, item, errors, key, now, seen)
    case Dropped => (ProcessResult(None, Some(name), errors), seen)
    case Failed(error) => Handled(rest, current, errors + [name + ": " + error], key, now, seen)
  }

  /** Batch after batch is one run of arrivals. */
  lemma {:induction false} BatchesCompose(processors: seq<Processor>, first: seq<Arrival>, second: seq<Arrival>, start: Seen)
    ensures SeenAfter(processors, first + second, start) == SeenAfter(processors, second, SeenAfter(processors, first, start))
  {
    if second == [] {
      assert first + second == first;
    } else {
      assert (first + second)[..|first + second| - 1] == first + second[..|second| - 1];
      BatchesCompose(processors, first, second[..|second| - 1], start);
    }
  }

  lemma ResultsCompose(processors: seq<Processor>, first: seq<Arrival>, second: seq<Arrival>, start: Seen, i: nat)
    requires i < |second|
    ensures ResultAt(processors, first + second, start, |first| + i) ==
            ResultAt(processors, second, SeenAfter(processors, first, start), i)
  {
    assert (first + second)[..|first| + i] == first + second[..i];
    BatchesCompose(processors, first, second[..i], start);
  }

  /** Deduplication comes first and only there, as in the default chain. */
  predicate DedupFirst(processors: seq<Processor>) {
    processors != [] && processors[0].Dedup? && forall n :: 1 <= n < |processors| ==> processors[n].Stage?
  }

  lemma {:induction false} StagesKeepSeen(processors: seq<Processor>, current: Item, errors: seq<string>, key: DedupKey, now: int, seen: Seen)
    requires forall n :: 0 <= n < |processors| ==> processors[n].Stage?
    ensures Handled(processors, current, errors, key, now, seen).1 == seen
    decreases processors
  {
    if processors != [] {
      match processors[0].process(current) {
        case Kept(item) => StagesKeepSeen(processors[1..], item, errors, key, now, seen);
        case Dropped =>
        case Failed(error) =>
          StagesKeepSeen(processors[1..], current, errors + [processors[0].name + ": " + error], key, now, seen);
      }
    }
  }

  const DUPLICATE := ProcessResult(None, Some(DEDUP_NAME), [])

  ghost predicate Ordered(arrivals: seq<Arrival>) {
    forall i, j :: 0 <= i <= j < |arrivals| ==> arrivals[i].now <= arrivals[j].now
  }

  /** The i-th arrival finds its hash in a live set. */
  ghost predicate Repeated(processors: seq<Processor>, arrivals: seq<Arrival>, i: nat)
    requires i < |arrivals|
  {
    IsSeen(SeenAfter(processors, arrivals[..i], map[]), arrivals[i].key, ContentHash(arrivals[i].item), arrivals[i].now)
  }

  predicate SameContent(a: Arrival, b: Arrival) {
    a.key == b.key && ContentHash(a.item) == ContentHash(b.item)
  }

  lemma SeenStep(processors: seq<Processor>, arrivals: seq<Arrival>, i: nat, next: nat)
    requires DedupFirst(processors) && i < |arrivals| && next == i + 1
    ensures var seen, a := SeenAfter(processors, arrivals[..i], map[]), arrivals[i];
      SeenAfter(processors, arrivals[..next], map[]) ==
        if Repeated(processors, arrivals, i) then seen else Added(seen, a.key, ContentHash(a.item), a.now)
  {
    var seen, a := SeenAfter(processors, arrivals[..i], map[]), arrivals[i];
    assert arrivals[..next][..i] == arrivals[..i];
    var hash := ContentHash(a.item);
    StagesKeepSeen(processors[1..], a.item.(dedupHash := Some(hash)), [], a.key, a.now, Added(seen, a.key, hash, a.now));
  }

  lemma RepeatIsDropped(processors: seq<Processor>, arrivals: seq<Arrival>, i: nat)
    requires DedupFirst(processors) && i < |arrivals|
    ensures Repeated(processors, arrivals, i) ==> ResultAt(processors, arrivals, map[], i) == DUPLICATE
  {
  }

  /** A hash added at `since` stays in its set at least DEDUP_TTL seconds: later additions
      only renew the set. */
  ghost predicate Remembers(seen: Seen, key: DedupKey, hash: string, since: int) {
    key in seen && hash in seen[key].value && seen[key].expiry.Some? && since + DEDUP_TTL <= seen[key].expiry.value
  }

  lemma AdditionRemembers(seen: Seen, key: DedupKey, hash: string, now: int)
    ensures Remembers(Added(seen, key, hash, now), key, hash, now)
  {
  }

  lemma MemoryStep(before: Seen, seen: Seen, repeated: bool, a: Arrival, key: DedupKey, hash: string, since: int)
    requires Remembers(before, key, hash, since) && since <= a.now < since + DEDUP_TTL
    requires seen == if repeated then before else Added(before, a.key, ContentHash(a.item), a.now)
    ensures Remembers(seen, key, hash, since)
  {
  }

  lemma {:induction false} RemembersFor(processors: seq<Processor>, arrivals: seq<Arrival>, j: nat, n: nat, hash: string, since: int, seen: Seen)
    requires DedupFirst(processors) && Ordered(arrivals) && j < n <= |arrivals|
    requires hash == ContentHash(arrivals[j].item) && since == arrivals[j].now
    requires !Repeated(processors, arrivals, j) && arrivals[n - 1].now < since + DEDUP_TTL
    requires seen == SeenAfter(processors, arrivals[..n], map[])
    ensures Remembers(seen, arrivals[j].key, hash, since)
  {
    SeenStep(processors, arrivals, n - 1, n);
    var before, last := SeenAfter(processors, arrivals[..n - 1], map[]), arrivals[n - 1];
    if j == n - 1 {
      AdditionRemembers(before, last.key, hash, since);
    } else {
      assert arrivals[n - 2].now <= last.now && since <= last.now;
      RemembersFor(processors, arrivals, j, n - 1, hash, since, before);
      MemoryStep(before, seen, Repeated(processors, arrivals, n - 1), last, arrivals[j].key, hash, since);
    }
  }

  /** Two arrivals of the same content that both get past deduplication, whatever later
      stages do with them, are at least a day apart; a repeat within the day gives exactly
      the duplicate result. */
  lemma AtMostOnceADay(processors: seq<Processor>, arrivals: seq<Arrival>, j: nat, i: nat)
    requires DedupFirst(processors) && Ordered(arrivals) && j < i < |arrivals| && SameContent(arrivals[j], arrivals[i])
    requires ResultAt(processors, arrivals, map[], j) != DUPLICATE && arrivals[i].now < arrivals[j].now + DEDUP_TTL
    ensures ResultAt(processors, arrivals, map[], i) == DUPLICATE
  {
    RepeatIsDropped(processors, arrivals, j);
    RemembersFor(processors, arrivals, j, i, ContentHash(arrivals[j].item), arrivals[j].now,
                 SeenAfter(processors, arrivals[..i], map[]));
    RepeatIsDropped(processors, arrivals, i);
  }

  /** The day is exact: a lone repeat is recognised if and only if it comes within it. */
  lemma LoneRepeatIff(processors: seq<Processor>, key: DedupKey, item: Item, first: int, second: int)
    requires DedupFirst(processors) && first <= second
    ensures Repeated(processors, [Arrival(key, item, first), Arrival(key, item, second)], 1) <==> second < first + 86400
  {
    var arrivals := [Arrival(key, item, first), Arrival(key, item, second)];
    assert arrivals[..0] == [] && arrivals[..1] == [arrivals[0]];
    SeenStep(processors, arrivals, 0, 1);
  }

  /** The set of a source has not expired at any arrival for it after the j-th, up to the i-th. */
  ghost predicate LivesFrom(processors: seq<Processor>, arrivals: seq<Arrival>, key: DedupKey, j: nat, i: nat) {
    forall k :: j < k <= i && k < |arrivals| && arrivals[k].key == key ==>
      Lookup(SeenAfter(processors, arrivals[..k], map[]), key, arrivals[k].now).Some?
  }

  lemma {:induction false} KeptWhileAlive(processors: seq<Processor>, arrivals: seq<Arrival>, j: nat, n: nat, seen: Seen)
    requires DedupFirst(processors) && j < n <= |arrivals| && !Repeated(processors, arrivals, j)
    requires LivesFrom(processors, arrivals, arrivals[j].key, j, n - 1)
    requires seen == SeenAfter(processors, arrivals[..n], map[])
    ensures arrivals[j].key in seen && ContentHash(arrivals[j].item) in seen[arrivals[j].key].value
  {
    SeenStep(processors, arrivals, n - 1, n);
    if j < n - 1 {
      KeptWhileAlive(processors, arrivals, j, n - 1, SeenAfter(processors, arrivals[..n - 1], map[]));
    }
  }

  /** While the set lives, however long, the same content is let through at most once. */
  lemma AtMostOnceWhileAlive(processors: seq<Processor>, arrivals: seq<Arrival>, j: nat, i: nat)
    requires DedupFirst(processors) && j < i < |arrivals| && SameContent(arrivals[j], arrivals[i])
    requires LivesFrom(processors, arrivals, arrivals[j].key, j, i)
    ensures ResultAt(processors, arrivals, map[], j) == DUPLICATE || ResultAt(processors, arrivals, map[], i) == DUPLICATE
  {
    RepeatIsDropped(processors, arrivals, j);
    if !Repeated(processors, arrivals, j) {
      KeptWhileAlive(processors, arrivals, j, i, SeenAfter(processors, arrivals[..i], map[]));
      RepeatIsDropped(processors, arrivals, i);
    }
  }

  /** Every member of a set was let through before, by an arrival of that source. */
  lemma {:induction false} MembersCameBefore(processors: seq<Processor>, arrivals: seq<Arrival>, n: nat, key: DedupKey, hash: string)
    returns (j: nat)
    requires DedupFirst(processors) && n <= |arrivals|
    requires var seen := SeenAfter(processors, arrivals[..n], map[]); key in seen && hash in seen[key].value
    ensures j < n && arrivals[j].key == key && ContentHash(arrivals[j].item) == hash && !Repeated(processors, arrivals, j)
  {
    SeenStep(processors, arrivals, n - 1, n);
    var before, last := SeenAfter(processors, arrivals[..n - 1], map[]), arrivals[n - 1];
    if last.key == key && ContentHash(last.item) == hash && !Repeated(processors, arrivals, n - 1) {
      j := n - 1;
    } else {
      j := MembersCameBefore(processors, arrivals, n - 1, key, hash);
    }
  }

  /** Nothing new is lost: what deduplication drops has an original that it let through. */
  lemma DuplicateHasAnOriginal(processors: seq<Processor>, arrivals: seq<Arrival>, i: nat) returns (j: nat)
    requires DedupFirst(processors) && i < |arrivals| && Repeated(processors, arrivals, i)
    ensures j < i && SameContent(arrivals[j], arrivals[i]) && !Repeated(processors, arrivals, j)
  {
    j := MembersCameBefore(processors, arrivals, i, arrivals[i].key, ContentHash(arrivals[i].item));
  }

  // Sequences of batches: each call of Execute finds the sets that the calls before it left

  datatype Execution = Execution(key: DedupKey, items: seq<Item>, times: seq<int>)

  predicate WellTimed(executions: seq<Execution>) {
    forall b :: 0 <= b < |executions| ==> |executions[b].times| == |executions[b].items|
  }

  function ArrivalsOf(e: Execution): seq<Arrival>
    requires |e.times| == |e.items|
  {
    Batch(e.items, e.key, e.times)
  }

  /** What is in Redis after these calls, and what the call numbered b returns for its i-th item. */
  function SeenAfterAll(processors: seq<Processor>, executions: seq<Execution>, start: Seen): Seen
    requires WellTimed(executions)
  {
    if executions == [] then start
    else
      var b := |executions| - 1;
      SeenAfter(processors, ArrivalsOf(executions[b]), SeenAfterAll(processors, executions[..b], start))
  }

  function ResultIn(processors: seq<Processor>, executions: seq<Execution>, b: nat, i: nat): ProcessResult
    requires WellTimed(executions) && b < |executions| && i < |executions[b].items|
  {
    ResultAt(processors, ArrivalsOf(executions[b]), SeenAfterAll(processors, executions[..b], map[]), i)
  }

  /** All items of all calls, in order. */
  function AllArrivals(executions: seq<Execution>): seq<Arrival>
    requires WellTimed(executions)
  {
    if executions == [] then []
    else AllArrivals(executions[..|executions| - 1]) + ArrivalsOf(executions[|executions| - 1])
  }

  /** Where the i-th item of call b stands among them. */
  function Place(executions: seq<Execution>, b: nat, i: nat): nat
    requires WellTimed(executions) && b < |executions|
  {
    |AllArrivals(executions[..b])| + i
  }

  lemma {:induction false} CallsAreOneRun(processors: seq<Processor>, executions: seq<Execution>)
    requires WellTimed(executions)
    ensures SeenAfterAll(processors, executions, map[]) == SeenAfter(processors, AllArrivals(executions), map[])
  {
    if executions != [] {
      var b := |executions| - 1;
      CallsAreOneRun(processors, executions[..b]);
      BatchesCompose(processors, AllArrivals(executions[..b]), ArrivalsOf(executions[b]), map[]);
    }
  }

  lemma {:induction false} CallsFromTheFirst(executions: seq<Execution>, b: nat) returns (after: seq<Arrival>)
    requires WellTimed(executions) && b < |executions|
    ensures AllArrivals(executions) == AllArrivals(executions[..b]) + (ArrivalsOf(executions[b]) + after)
  {
    var last := |executions| - 1;
    var init := executions[..last];
    if b == last {
      after := [];
      assert ArrivalsOf(executions[b]) + [] == ArrivalsOf(executions[b]);
    } else {
      var between := CallsFromTheFirst(init, b);
      assert init[..b] == executions[..b];
      after := between + ArrivalsOf(executions[last]);
      Regroup(AllArrivals(executions[..b]), ArrivalsOf(executions[b]), between, ArrivalsOf(executions[last]));
    }
  }

  lemma Regroup<T>(a: seq<T>, b: seq<T>, c: seq<T>, d: seq<T>)
    ensures (a + (b + c)) + d == a + (b + (c + d))
  {
  }

  lemma ResultIgnoresTheFuture(processors: seq<Processor>, arrivals: seq<Arrival>, after: seq<Arrival>, start: Seen, i: nat)
    requires i < |arrivals|
    ensures ResultAt(processors, arrivals + after, start, i) == ResultAt(processors, arrivals, start, i)
  {
    assert (arrivals + after)[..i] == arrivals[..i];
  }

  lemma PlaceOfArrival(arrivals: seq<Arrival>, before: seq<Arrival>, own: seq<Arrival>, after: seq<Arrival>, i: nat, place: nat)
    requires arrivals == before + (own + after) && i < |own| && place == |before| + i
    ensures place < |arrivals| && arrivals[place] == own[i]
  {
  }

  lemma ResultOfPart(processors: seq<Processor>, arrivals: seq<Arrival>, before: seq<Arrival>, own: seq<Arrival>, after: seq<Arrival>,
                     seen: Seen, i: nat, place: nat)
    requires arrivals == before + (own + after) && i < |own| && place == |before| + i < |arrivals|
    requires seen == SeenAfter(processors, before, map[])
    ensures ResultAt(processors, own, seen, i) == ResultAt(processors, arrivals, map[], place)
  {
    ResultsCompose(processors, before, own + after, map[], i);
    ResultIgnoresTheFuture(processors, own, after, seen, i);
  }

  lemma CallIsInTheRun(executions: seq<Execution>, b: nat, i: nat, arrivals: seq<Arrival>, place: nat)
    requires WellTimed(executions) && b < |executions| && i < |executions[b].items|
    requires arrivals == AllArrivals(executions) && place == Place(executions, b, i)
    ensures place < |arrivals|
    ensures arrivals[place] == Arrival(executions[b].key, executions[b].items[i], executions[b].times[i])
  {
    var after := CallsFromTheFirst(executions, b);
    PlaceOfArrival(arrivals, AllArrivals(executions[..b]), ArrivalsOf(executions[b]), after, i, place);
  }

  /** The results of separate calls are those of the one run over all their items. */
  lemma CallResultIsRunResult(processors: seq<Processor>, executions: seq<Execution>, b: nat, i: nat, arrivals: seq<Arrival>, place: nat)
    requires WellTimed(executions) && b < |executions| && i < |executions[b].items|
    requires arrivals == AllArrivals(executions) && place == Place(executions, b, i)
    ensures place < |arrivals| && ResultIn(processors, executions, b, i) == ResultAt(processors, arrivals, map[], place)
  {
    var after := CallsFromTheFirst(executions, b);
    CallIsInTheRun(executions, b, i, arrivals, place);
    CallsAreOneRun(processors, executions[..b]);
    ResultOfPart(processors, arrivals, AllArrivals(executions[..b]), ArrivalsOf(executions[b]), after,
                 SeenAfterAll(processors, executions[..b], map[]), i, place);
  }

  lemma {:induction false} PlacesAreOrdered(executions: seq<Execution>, b: nat, i: nat, c: nat, k: nat)
    requires WellTimed(executions) && b <= c < |executions| && i < |executions[b].items| && (b == c ==> i < k)
    ensures Place(executions, b, i) < Place(executions, c, k)
  {
    if b < c {
      var init := executions[..c];
      var after := CallsFromTheFirst(init, b);
      assert init[..b] == executions[..b];
    }
  }

  /** Over any sequence of calls, for any sources: an item let through once gives exactly the
      duplicate result at every later place of its source, in the same batch or another, that
      comes within a day or while the set has not expired in between. So one of the two
      results is filtered. */
  lemma AtMostOnceOverBatches(processors: seq<Processor>, executions: seq<Execution>, b: nat, i: nat, c: nat, k: nat)
    requires DedupFirst(processors) && WellTimed(executions) && b <= c < |executions| && (b == c ==> i < k)
    requires i < |executions[b].items| && k < |executions[c].items| && executions[b].key == executions[c].key
    requires ContentHash(executions[b].items[i]) == ContentHash(executions[c].items[k])
    requires
      || (Ordered(AllArrivals(executions)) && executions[c].times[k] < executions[b].times[i] + DEDUP_TTL)
      || LivesFrom(processors, AllArrivals(executions), executions[b].key, Place(executions, b, i), Place(executions, c, k))
    ensures ResultIn(processors, executions, b, i) != DUPLICATE ==> ResultIn(processors, executions, c, k) == DUPLICATE
    ensures ResultIn(processors, executions, b, i).item.None? || ResultIn(processors, executions, c, k).item.None?
  {
    var arrivals, p, q := AllArrivals(executions), Place(executions, b, i), Place(executions, c, k);
    CallIsInTheRun(executions, b, i, arrivals, p);
    CallIsInTheRun(executions, c, k, arrivals, q);
    CallResultIsRunResult(processors, executions, b, i, arrivals, p);
    CallResultIsRunResult(processors, executions, c, k, arrivals, q);
    PlacesAreOrdered(executions, b, i, c, k);
    if ResultAt(processors, arrivals, map[], p) != DUPLICATE {
      if LivesFrom(processors, arrivals, executions[b].key, p, q) {
        AtMostOnceWhileAlive(processors, arrivals, p, q);
      } else {
        AtMostOnceADay(processors, arrivals, p, q);
      }
    }
  }

  // What the stages make of an item

  /** What a stage makes of the result of the chain before it: nothing more of an item that is
      gone; of any other one the item it returns, a drop under its name, or an error. */
  function StageOn(result: ProcessResult, name: string, process: Item -> Outcome): ProcessResult {
    if result.item.None? then result
    else match process(result.item.value)
      case Kept(item) => result.(item := Some(item))
      case Dropped => ProcessResult(None, Some(name), result.errors)
      case Failed(error) => result.(errors := result.errors + [name + ": " + error])
  }

  lemma {:induction false} StageAppended(processors: seq<Processor>, name: string, process: Item -> Outcome, current: Item,
                                         errors: seq<string>, key: DedupKey, now: int, seen: Seen)
    ensures var before := Handled(processors, current, errors, key, now, seen);
      && Handled(processors + [Stage(name, process)], current, errors, key, now, seen) == (StageOn(before.0, name, process), before.1)
      && (before.0.item.Some? ==> before.0.filteredBy.None?)
    decreases processors
  {
    var longer := processors + [Stage(name, process)];
    if processors == [] {
      assert longer[1..] == [];
    } else {
      assert longer[1..] == processors[1..] + [Stage(name, process)];
      match processors[0] {
        case Dedup =>
          var hash := ContentHash(current);
          StageAppended(processors[1..], name, process, current.(dedupHash := Some(hash)), errors, key, now, Added(seen, key, hash, now));
        case Stage(n, p) =>
          match p(current) {
            case Kept(item) => StageAppended(processors[1..], name, process, item, errors, key, now, seen);
            case Dropped =>
            case Failed(error) => StageAppended(processors[1..], name, process, current, errors + [n + ": " + error], key, now, seen);
          }
      }
    }
  }

  lemma {:induction false} SeenIgnoresTheStage(processors: seq<Processor>, name: string, process: Item -> Outcome, arrivals: seq<Arrival>, start: Seen)
    ensures SeenAfter(processors + [Stage(name, process)], arrivals, start) == SeenAfter(processors, arrivals, start)
  {
    if arrivals != [] {
      var last := arrivals[|arrivals| - 1];
      SeenIgnoresTheStage(processors, name, process, arrivals[..|arrivals| - 1], start);
      StageAppended(processors, name, process, last.item, [], last.key, last.now, SeenAfter(processors, arrivals[..|arrivals| - 1], start));
    }
  }

  /** Adding a stage to any chain changes the result of every item by exactly what the stage
      makes of it, and nothing else. */
  lemma AddedStageDecides(processors: seq<Processor>, name: string, process: Item -> Outcome, arrivals: seq<Arrival>, start: Seen, i: nat)
    requires i < |arrivals|
    ensures var before, after := ResultAt(processors, arrivals, start, i), ResultAt(processors + [Stage(name, process)], arrivals, start, i);
      if before.item.None? then after == before
      else
        match process(before.item.value)
        case Kept(item) => after == ProcessResult(Some(item), None, before.errors)
        case Dropped => after == ProcessResult(None, Some(name), before.errors)
        case Failed(error) => after == ProcessResult(before.item, None, before.errors + [name + ": " + error])
  {
    var a := arrivals[i];
    SeenIgnoresTheStage(processors, name, process, arrivals[..i], start);
    StageAppended(processors, name, process, a.item, [], a.key, a.now, SeenAfter(processors, arrivals[..i], start));
  }

  /** An item that deduplication lets through reaches the stages as it came, with its title and
      address as its hash; in an empty chain nothing happens to it. */
  lemma StagesStartFromTheRawItem(arrivals: seq<Arrival>, start: Seen, i: nat)
    requires i < |arrivals|
    ensures ResultAt([], arrivals, start, i) == ProcessResult(Some(arrivals[i].item), None, [])
    ensures var item, result := arrivals[i].item, ResultAt([Dedup], arrivals, start, i);
      result.item.Some? ==>
        result == ProcessResult(Some(Item(item.title, item.url, item.body, Some(item.title + ":" + item.url))), None, [])
  {
  }

  /** Deduplication keeps no item from the stages but one whose title and address it has let
      through before, for the same source. */
  lemma OnlyRepeatsAreKeptBack(arrivals: seq<Arrival>, i: nat) returns (j: nat)
    requires i < |arrivals| && ResultAt([Dedup], arrivals, map[], i).item.None?
    ensures j < i && arrivals[j].key == arrivals[i].key && ResultAt([Dedup], arrivals, map[], j).item.Some?
    ensures arrivals[j].item.title + ":" + arrivals[j].item.url == arrivals[i].item.title + ":" + arrivals[i].item.url
  {
    assert [Dedup][1..] == [];
    j := DuplicateHasAnOriginal([Dedup], arrivals, i);
  }
}
