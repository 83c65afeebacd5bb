/** Logs of requests that carry an API key, taken apart symbol by symbol, and what they say
    about keys that were rejected. */
module KeyRequests {
  import opened Wrappers
  import opened ApiKeys

  /** What one request ends in: a quote, an empty quote, an HTTP status, another exception. */
  datatype Response = Quote(price: int) | Empty | HttpError(status: int) | Failure

  datatype Request = Request(symbol: string, key: string, time: int, response: Response)

  /** How the requests for one symbol end: with an answer, with the attempt limit, or without
      a usable key. */
  datatype Ending = Answered | LimitReached | PoolDry

  const TOO_MANY_REQUESTS := HttpError(429)

  predicate Rejecting(r: Response) {
    r.HttpError? && r.status in {401, 403, 429}
  }

  function RejectedKeys(batch: seq<Request>): set<string> {
    set r | r in batch && Rejecting(r.response) :: r.key
  }

  function Rejections(batch: seq<Request>): nat {
    if batch == [] then 0
    else Rejections(batch[..|batch| - 1]) + (if Rejecting(batch[|batch| - 1].response) then 1 else 0)
  }

  /** The requests that settled their symbol. */
  function Settled(batch: seq<Request>): seq<Request> {
    if batch == [] then []
    else Settled(batch[..|batch| - 1]) + (if Rejecting(batch[|batch| - 1].response) then [] else [batch[|batch| - 1]])
  }

  function Symbols(batch: seq<Request>): (symbols: seq<string>)
    ensures |symbols| == |batch|
  {
    seq(|batch|, i requires 0 <= i < |batch| => batch[i].symbol)
  }

  function Quotes(batch: seq<Request>): seq<(string, int)> {
    if batch == [] then []
    else
      var last := batch[|batch| - 1];
      Quotes(batch[..|batch| - 1]) + (if last.response.Quote? then [(last.symbol, last.response.price)] else [])
  }

  predicate KeysIn(batch: seq<Request>, keys: seq<string>) {
    forall p :: 0 <= p < |batch| ==> batch[p].key in keys
  }

  /** No key is used again after it was rejected. */
  predicate NoReuse(batch: seq<Request>) {
    forall p, q :: 0 <= p < q < |batch| && Rejecting(batch[p].response) ==> batch[q].key != batch[p].key
  }

  /** A rejected key is used again only if it was rate limited, and only after its cooldown. */
  predicate ReuseAfterCooldown(batch: seq<Request>) {
    forall p, q :: 0 <= p < q < |batch| && Rejecting(batch[p].response) && batch[q].key == batch[p].key ==>
      batch[p].response == TOO_MANY_REQUESTS && batch[p].time + DEFAULT_RATE_LIMIT_COOLDOWN_SECONDS <= batch[q].time
  }

  /** No request comes a cooldown or more after a rate-limited one. */
  predicate Quick(batch: seq<Request>) {
    forall p, q :: 0 <= p < q < |batch| && batch[p].response == TOO_MANY_REQUESTS ==>
      batch[q].time < batch[p].time + DEFAULT_RATE_LIMIT_COOLDOWN_SECONDS
  }

  lemma QuickMeansNoReuse(batch: seq<Request>)
    requires ReuseAfterCooldown(batch) && Quick(batch)
    ensures NoReuse(batch)
  {
  }

  predicate AllRejected(requests: seq<Request>, symbol: string) {
    forall p :: 0 <= p < |requests| ==> requests[p].symbol == symbol && Rejecting(requests[p].response)
  }

  /** The requests for one symbol: rejections, and then what its ending says. */
  predicate EndsIn(requests: seq<Request>, symbol: string, ending: Ending, limit: nat) {
    match ending
    case Answered =>
      && 1 <= |requests| <= limit && AllRejected(requests[..|requests| - 1], symbol)
      && requests[|requests| - 1].symbol == symbol && !Rejecting(requests[|requests| - 1].response)
    case LimitReached => |requests| == limit && AllRejected(requests, symbol)
    case PoolDry => 1 <= |requests| <= limit && AllRejected(requests, symbol)
  }

  /** The quote that a symbol's last request brought. */
  function QuoteOf(requests: seq<Request>, ending: Ending): Option<int>
    requires ending == Answered ==> requests != []
  {
    if ending == Answered && requests[|requests| - 1].response.Quote?
    then Some(requests[|requests| - 1].response.price) else None
  }

  /** The requests of all symbols, one after the other. */
  function Flat(parts: seq<seq<Request>>): seq<Request> {
    if parts == [] then [] else parts[0] + Flat(parts[1..])
  }

  /** How the requests of each symbol end. */
  predicate Story(parts: seq<seq<Request>>, symbols: seq<string>, endings: seq<Ending>, limit: nat) {
    |parts| == |endings| <= |symbols| && forall k :: 0 <= k < |parts| ==> EndsIn(parts[k], symbols[k], endings[k], limit)
  }

  /** A batch taken apart, symbol by symbol. */
  datatype Telling = Telling(parts: seq<seq<Request>>, endings: seq<Ending>)

  /** What a whole batch comes to: a rejected key is used again only after its cooldown, every
      symbol's requests end as told, and there are no results exactly if the pool runs dry. */
  predicate Explains(batch: seq<Request>, symbols: seq<string>, keys: seq<string>, results: Option<seq<(string, int)>>, telling: Telling) {
    && KeysIn(batch, keys) && ReuseAfterCooldown(batch)
    && batch == Flat(telling.parts) && Story(telling.parts, symbols, telling.endings, |keys| + 1)
    && if results.Some? then
         |telling.endings| == |symbols| && PoolDry !in telling.endings && results.value == Quotes(batch)
       else
         && telling.endings != [] && telling.endings[|telling.endings| - 1] == PoolDry
         && PoolDry !in telling.endings[..|telling.endings| - 1]
  }

  /** No key used again, at most one rejection per key, and every symbol settled in order
      unless the pool ran dry. */
  predicate GoesWell(batch: seq<Request>, symbols: seq<string>, keys: seq<string>, results: Option<seq<(string, int)>>, telling: Telling) {
    && NoReuse(batch) && Rejections(batch) <= |keys| && LimitReached !in telling.endings
    && (results.Some? ==> Symbols(Settled(batch)) == symbols)
  }

  lemma {:induction false} RejectionsCountKeys(batch: seq<Request>)
    requires NoReuse(batch)
    ensures Rejections(batch) == |RejectedKeys(batch)|
  {
    if batch == [] {
      assert RejectedKeys(batch) == {};
    } else {
      var before, last := batch[..|batch| - 1], batch[|batch| - 1];
      RejectionsCountKeys(before);
      RejectedGrow(before, last);
      assert batch == before + [last];
      assert last.key !in RejectedKeys(before);
    }
  }

  lemma RejectedGrow(before: seq<Request>, last: Request)
    ensures RejectedKeys(before + [last]) == RejectedKeys(before) + (if Rejecting(last.response) then {last.key} else {})
  {
    var batch := before + [last];
    forall k ensures k in RejectedKeys(batch) <==> k in RejectedKeys(before) + (if Rejecting(last.response) then {last.key} else {}) {
      if k in RejectedKeys(before) {
        var r :| r in before && Rejecting(r.response) && r.key == k;
        assert r in batch;
      }
      if k == last.key && Rejecting(last.response) {
        assert last in batch;
      }
    }
  }

  lemma {:induction false} FewerThan(keys: seq<string>, some: set<string>)
    requires some <= set k | k in keys
    ensures |some| <= |keys|
  {
    if keys == [] {
      assert some == {};
    } else {
      var rest := keys[..|keys| - 1];
      assert keys == rest + [keys[|keys| - 1]];
      FewerThan(rest, some - {keys[|keys| - 1]});
      assert |some| <= |some - {keys[|keys| - 1]}| + 1;
    }
  }

  lemma FewRejections(keys: seq<string>, batch: seq<Request>)
    requires NoReuse(batch) && RejectedKeys(batch) <= set k | k in keys
    ensures Rejections(batch) <= |keys|
  {
    RejectionsCountKeys(batch);
    FewerThan(keys, RejectedKeys(batch));
  }

  lemma OneRequestMore(before: seq<Request>, last: Request)
    ensures Rejections(before + [last]) == Rejections(before) + (if Rejecting(last.response) then 1 else 0)
    ensures Settled(before + [last]) == Settled(before) + (if Rejecting(last.response) then [] else [last])
    ensures Quotes(before + [last]) == Quotes(before) + (if last.response.Quote? then [(last.symbol, last.response.price)] else [])
  {
    assert (before + [last])[..|before|] == before;
  }

  lemma {:induction false} AllRejectedCount(requests: seq<Request>, symbol: string)
    requires AllRejected(requests, symbol)
    ensures Rejections(requests) == |requests|
  {
    if requests != [] {
      AllRejectedCount(requests[..|requests| - 1], symbol);
    }
  }

  lemma PartOfABatch(batch: seq<Request>, lo: nat, hi: nat, keys: seq<string>)
    requires lo <= hi <= |batch| && ReuseAfterCooldown(batch) && KeysIn(batch, keys)
    ensures ReuseAfterCooldown(batch[lo..hi]) && KeysIn(batch[lo..hi], keys) && (Quick(batch) ==> Quick(batch[lo..hi]))
  {
  }

  lemma RejectedAreIn(batch: seq<Request>, keys: seq<string>)
    requires KeysIn(batch, keys)
    ensures RejectedKeys(batch) <= set k | k in keys
  {
    forall k | k in RejectedKeys(batch) ensures k in keys {
      var r :| r in batch && Rejecting(r.response) && r.key == k;
      var p :| 0 <= p < |batch| && batch[p] == r;
    }
  }

  /** Without a lapsed cooldown in between, the batch rejects each key at most once. */
  lemma QuickBatch(keys: seq<string>, batch: seq<Request>)
    requires KeysIn(batch, keys) && ReuseAfterCooldown(batch) && Quick(batch)
    ensures NoReuse(batch) && Rejections(batch) <= |keys|
  {
    QuickMeansNoReuse(batch);
    RejectedAreIn(batch, keys);
    FewRejections(keys, batch);
  }

  /** The attempt limit cuts a symbol off only if a cooldown ran out among its requests. */
  lemma LimitNeedsALapse(keys: seq<string>, requests: seq<Request>, symbol: string)
    requires KeysIn(requests, keys) && ReuseAfterCooldown(requests) && EndsIn(requests, symbol, LimitReached, |keys| + 1)
    ensures !Quick(requests)
  {
    if Quick(requests) {
      QuickBatch(keys, requests);
      AllRejectedCount(requests, symbol);
    }
  }

  lemma {:induction false} PartIsAStretch(parts: seq<seq<Request>>, k: nat) returns (lo: nat)
    requires k < |parts|
    ensures lo + |parts[k]| <= |Flat(parts)| && Flat(parts)[lo..lo + |parts[k]|] == parts[k]
  {
    if k == 0 {
      lo := 0;
    } else {
      var later := PartIsAStretch(parts[1..], k - 1);
      lo := |parts[0]| + later;
      assert Flat(parts)[lo..lo + |parts[k]|] == Flat(parts[1..])[later..later + |parts[k]|];
    }
  }

  /** A symbol in whose requests no cooldown runs out is never cut off, whatever happens to
      the others. */
  lemma QuickSymbolIsAnswered(keys: seq<string>, parts: seq<seq<Request>>, symbols: seq<string>, endings: seq<Ending>, k: nat)
    requires KeysIn(Flat(parts), keys) && ReuseAfterCooldown(Flat(parts)) && Story(parts, symbols, endings, |keys| + 1)
    requires k < |endings| && Quick(parts[k])
    ensures endings[k] != LimitReached
  {
    var lo := PartIsAStretch(parts, k);
    PartOfABatch(Flat(parts), lo, lo + |parts[k]|, keys);
    if endings[k] == LimitReached {
      LimitNeedsALapse(keys, parts[k], symbols[k]);
    }
  }

  lemma {:induction false} LogsConcatenate(a: seq<Request>, b: seq<Request>)
    ensures Settled(a + b) == Settled(a) + Settled(b) && Quotes(a + b) == Quotes(a) + Quotes(b)
  {
    if b == [] {
      assert a + b == a;
    } else {
      var init, last := b[..|b| - 1], b[|b| - 1];
      assert a + b == (a + init) + [last] && b == init + [last];
      LogsConcatenate(a, init);
      OneRequestMore(a + init, last);
      OneRequestMore(init, last);
    }
  }

  lemma {:induction false} RejectionsSettleNothing(own: seq<Request>, symbol: string)
    requires AllRejected(own, symbol)
    ensures Settled(own) == [] && Quotes(own) == []
  {
    if own != [] {
      RejectionsSettleNothing(own[..|own| - 1], symbol);
    }
  }

  /** What one symbol's requests settle and bring. */
  lemma SymbolSettles(own: seq<Request>, symbol: string, ending: Ending, limit: nat)
    requires EndsIn(own, symbol, ending, limit)
    ensures var quote := QuoteOf(own, ending);
      && Symbols(Settled(own)) == (if ending == Answered then [symbol] else [])
      && Quotes(own) == (if quote.Some? then [(symbol, quote.value)] else [])
  {
    if ending == Answered {
      RejectionsSettleNothing(own[..|own| - 1], symbol);
      assert own == own[..|own| - 1] + [own[|own| - 1]];
    } else {
      RejectionsSettleNothing(own, symbol);
    }
  }

  lemma SymbolsConcatenate(a: seq<Request>, b: seq<Request>)
    ensures Symbols(a + b) == Symbols(a) + Symbols(b)
  {
  }

  lemma AnsweredFirst(own: seq<Request>, symbol: string, limit: nat, rest: seq<Request>)
    requires EndsIn(own, symbol, Answered, limit)
    ensures Symbols(Settled(own + rest)) == [symbol] + Symbols(Settled(rest))
  {
    SymbolSettles(own, symbol, Answered, limit);
    LogsConcatenate(own, rest);
    SymbolsConcatenate(Settled(own), Settled(rest));
  }

  lemma {:induction false} StorySettles(parts: seq<seq<Request>>, symbols: seq<string>, endings: seq<Ending>, limit: nat, batch: seq<Request>)
    requires Story(parts, symbols, endings, limit) && (forall k :: 0 <= k < |endings| ==> endings[k] == Answered) && batch == Flat(parts)
    ensures Symbols(Settled(batch)) == symbols[..|parts|]
    decreases |parts|
  {
    if parts != [] {
      var rest := Flat(parts[1..]);
      StorySettles(parts[1..], symbols[1..], endings[1..], limit, rest);
      AnsweredFirst(parts[0], symbols[0], limit, rest);
      assert symbols[..|parts|] == [symbols[0]] + symbols[1..][..|parts| - 1];
    }
  }

  /** What a batch comes to in which no cooldown runs out. */
  lemma QuickBatchGoesWell(batch: seq<Request>, symbols: seq<string>, keys: seq<string>, results: Option<seq<(string, int)>>,
                           telling: Telling)
    requires Explains(batch, symbols, keys, results, telling) && Quick(batch)
    ensures GoesWell(batch, symbols, keys, results, telling)
  {
    var parts, endings := telling.parts, telling.endings;
    QuickBatch(keys, batch);
    forall k | 0 <= k < |endings| ensures endings[k] != LimitReached {
      var lo := PartIsAStretch(parts, k);
      PartOfABatch(batch, lo, lo + |parts[k]|, keys);
      QuickSymbolIsAnswered(keys, parts, symbols, endings, k);
    }
    if results.Some? {
      forall k | 0 <= k < |endings| ensures endings[k] == Answered {
        assert endings[k] in endings;
      }
      StorySettles(parts, symbols, endings, |keys| + 1, batch);
      assert symbols[..|parts|] == symbols;
    }
  }
  /** A marker in place: for good after a 401 or 403, for the cooldown after a 429. */
  ghost predicate Marked(cells: Cells, r: Request) {
    if r.response == TOO_MANY_REQUESTS
    then forall t :: t < r.time + DEFAULT_RATE_LIMIT_COOLDOWN_SECONDS ==> IsBlocked(cells, r.key, t)
    else forall t :: IsBlocked(cells, r.key, t)
  }

  ghost predicate AllMarked(cells: Cells, batch: seq<Request>) {
    forall p :: 0 <= p < |batch| && Rejecting(batch[p].response) ==> Marked(cells, batch[p])
  }

  /** At `now` the key may be used: if the batch rejected it, its cooldown is over. */
  predicate Ready(batch: seq<Request>, key: string, now: int) {
    forall p :: 0 <= p < |batch| && Rejecting(batch[p].response) && batch[p].key == key ==>
      batch[p].response == TOO_MANY_REQUESTS && batch[p].time + DEFAULT_RATE_LIMIT_COOLDOWN_SECONDS <= now
  }

  ghost predicate SaneBatch(keys: seq<string>, cells: Cells, batch: seq<Request>, key: string, now: int) {
    key in keys && KeysIn(batch, keys) && ReuseAfterCooldown(batch) && Ready(batch, key, now) && AllMarked(cells, batch)
  }

  lemma ReuseGrows(batch: seq<Request>, last: Request)
    requires ReuseAfterCooldown(batch) && Ready(batch, last.key, last.time)
    ensures ReuseAfterCooldown(batch + [last])
  {
  }

  lemma SettledKeepsSane(keys: seq<string>, cells: Cells, batch: seq<Request>, last: Request, later: int)
    requires SaneBatch(keys, cells, batch, last.key, last.time) && !Rejecting(last.response) && last.time <= later
    ensures SaneBatch(keys, cells, batch + [last], last.key, later)
  {
    ReuseGrows(batch, last);
  }

  /** A rejection: a marker is missing for nobody, and the next key is not one whose cooldown runs. */
  lemma RejectionKeepsSane(keys: seq<string>, cells: Cells, cells': Cells, batch: seq<Request>, last: Request, later: int, next: string)
    requires SaneBatch(keys, cells, batch, last.key, last.time) && Rejecting(last.response) && last.time <= later
    requires Marked(cells', last)
    requires forall k, t :: k != last.key ==> (IsBlocked(cells', k, t) <==> IsBlocked(cells, k, t))
    requires next in keys && !IsBlocked(cells', next, last.time)
    ensures SaneBatch(keys, cells', batch + [last], next, later)
  {
    var batch' := batch + [last];
    ReuseGrows(batch, last);
    forall p | 0 <= p < |batch'| && Rejecting(batch'[p].response) ensures Marked(cells', batch'[p]) {
      if p < |batch| {
        OtherMarkersStay(cells, cells', batch[p], last);
      }
    }
    forall p | 0 <= p < |batch'| && Rejecting(batch'[p].response) && batch'[p].key == next
      ensures batch'[p].response == TOO_MANY_REQUESTS && batch'[p].time + DEFAULT_RATE_LIMIT_COOLDOWN_SECONDS <= last.time
    {
      assert Marked(cells', batch'[p]);
    }
  }

  lemma OtherMarkersStay(cells: Cells, cells': Cells, r: Request, last: Request)
    requires Marked(cells, r) && Marked(cells', last)
    requires r.key == last.key ==> r.response == TOO_MANY_REQUESTS && r.time + DEFAULT_RATE_LIMIT_COOLDOWN_SECONDS <= last.time
    requires forall k, t :: k != last.key ==> (IsBlocked(cells', k, t) <==> IsBlocked(cells, k, t))
    ensures Marked(cells', r)
  {
  }
}
