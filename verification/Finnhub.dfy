/** The stock-quote loop of the Finnhub collector, which marks a rejected API key and rotates
    to the next usable one. Redis works throughout, and the pool is the collector's own. After
    every quote the same key asks for the company's profile, and nothing is made of a
    rejection there. */
module Finnhub {
  import opened Wrappers
  import opened RedisStore
  import opened ApiKeys
  import opened KeyRequests

  /** How one attempt ends: the symbol is settled, or the key was rejected and there is
      another one, or there is none left. */
  datatype Step = SymbolSettled | Rotated | PoolExhausted

  /** The remote service: its answer to the n-th quote request, when it comes, and its answer
      to the n-th profile request. */
  datatype Feed = Feed(quote: nat -> Response, clock: nat -> int, profile: nat -> Response)

  /** The pool's markers and counter, and the requests so far, both kinds. */
  datatype Session = Session(cells: Cells, requests: seq<Request>, profiles: seq<Request>)

  /** What the pool is after a rejection, and the key it gives next. */
  function Marking(cells: Cells, status: int, key: string, now: int): Cells {
    if status == 429 then Written(cells, Limited(key), 1, Some(DEFAULT_RATE_LIMIT_COOLDOWN_SECONDS), now)
    else Written(cells, Invalid(key), 1, None, now)
  }

  function NextKey(keys: seq<string>, cells: Cells, now: int): Option<string> {
    var outcome := Chosen(keys, cells, now);
    if outcome.Usable? then Some(outcome.key) else None
  }

  function AfterNextKey(keys: seq<string>, cells: Cells, now: int): Cells {
    if keys == [] then cells else Incremented(cells, Rotation, now)
  }

  /** A pool of keys: the key it gives next, and what asking does to it. */
  datatype Pool = Pool(next: (Cells, int) -> Option<string>, after: (Cells, int) -> Cells)

  function PoolOf(keys: seq<string>): Pool {
    Pool((cells, now) => NextKey(keys, cells, now), (cells, now) => AfterNextKey(keys, cells, now))
  }

  /** A quote request, and the profile request that follows a quote. */
  function Requested(feed: Feed, s: Session, symbol: string, key: string): Request {
    Request(symbol, key, feed.clock(|s.requests|), feed.quote(|s.requests|))
  }

  function AfterRequest(feed: Feed, s: Session, symbol: string, key: string): Session {
    var last := Requested(feed, s, symbol, key);
    s.(requests := s.requests + [last],
       profiles := s.profiles + if last.response.Quote? then [last.(response := feed.profile(|s.profiles|))] else [])
  }

  datatype Move = Move(step: Step, quote: Option<int>, key: string, session: Session)

  function Attempted(feed: Feed, pool: Pool, s: Session, symbol: string, key: string): Move {
    var last, asked := Requested(feed, s, symbol, key), AfterRequest(feed, s, symbol, key);
    if !Rejecting(last.response) then
      Move(SymbolSettled, if last.response.Quote? then Some(last.response.price) else None, key, asked)
    else
      var marked := Marking(s.cells, last.response.status, key, last.time);
      var next, after := pool.next(marked, last.time), asked.(cells := pool.after(marked, last.time));
      if next.None? || (last.response.status in {401, 403} && next.value == key) then Move(PoolExhausted, None, key, after)
      else Move(Rotated, None, next.value, after)
  }

  datatype SymbolRun = SymbolRun(ending: Ending, quote: Option<int>, key: string, session: Session)

  /** One symbol, with so many attempts left. */
  function SymbolFetched(feed: Feed, pool: Pool, s: Session, symbol: string, key: string, attempts: nat): SymbolRun
    decreases attempts
  {
    if attempts == 0 then SymbolRun(LimitReached, None, key, s)
    else
      var m := Attempted(feed, pool, s, symbol, key);
      match m.step
      case SymbolSettled => SymbolRun(Answered, m.quote, m.key, m.session)
      case PoolExhausted => SymbolRun(PoolDry, None, m.key, m.session)
      case Rotated => SymbolFetched(feed, pool, m.session, symbol, m.key, attempts - 1)
  }

  lemma SymbolStep(feed: Feed, pool: Pool, s: Session, symbol: string, key: string, attempts: nat, fewer: nat)
    requires attempts == fewer + 1
    ensures var m := Attempted(feed, pool, s, symbol, key);
      SymbolFetched(feed, pool, s, symbol, key, attempts) ==
        match m.step
        case SymbolSettled => SymbolRun(Answered, m.quote, m.key, m.session)
        case PoolExhausted => SymbolRun(PoolDry, None, m.key, m.session)
        case Rotated => SymbolFetched(feed, pool, m.session, symbol, m.key, fewer)
  {
  }

  function MaxAttempts(keys: seq<string>): nat {
    (if |keys| >= 1 then |keys| else 1) + 1
  }

  function Extended(quotes: seq<(string, int)>, symbol: string, quote: Option<int>): seq<(string, int)> {
    if quote.Some? then quotes + [(symbol, quote.value)] else quotes
  }

  datatype BatchRun = BatchRun(results: Option<seq<(string, int)>>, session: Session)

  function BatchFetched(feed: Feed, pool: Pool, limit: nat, s: Session, symbols: seq<string>, key: string, quotes: seq<(string, int)>): BatchRun
    decreases |symbols|
  {
    if symbols == [] then BatchRun(Some(quotes), s)
    else
      var r := SymbolFetched(feed, pool, s, symbols[0], key, limit);
      if r.ending == PoolDry then BatchRun(None, r.session)
      else
        BatchFetched(feed, pool, limit, r.session, symbols[1..], r.key, Extended(quotes, symbols[0], r.quote))
  }

  class Upstream {
    const feed: Feed
    var requests: seq<Request>
    var profiles: seq<Request>

    constructor (feed: Feed)
      ensures this.feed == feed && requests == [] && profiles == []
    {
      this.feed, requests, profiles := feed, [], [];
    }

    method GetQuote(symbol: string, key: string, now: int) returns (response: Response)
      modifies this`requests
      ensures response == feed.quote(|old(requests)|)
      ensures requests == old(requests) + [Request(symbol, key, now, response)]
    {
      response := feed.quote(|requests|);
      requests := requests + [Request(symbol, key, now, response)];
    }

    method GetProfile(symbol: string, key: string, now: int) returns (response: Response)
      modifies this`profiles
      ensures response == feed.profile(|old(profiles)|)
      ensures profiles == old(profiles) + [Request(symbol, key, now, response)]
    {
      response := feed.profile(|profiles|);
      profiles := profiles + [Request(symbol, key, now, response)];
    }
  }

  class FinnhubCollector {
    const manager: APIKeyManager
    const upstream: Upstream

    constructor (manager: APIKeyManager, upstream: Upstream)
      ensures this.manager == manager && this.upstream == upstream
    {
      this.manager, this.upstream := manager, upstream;
    }

    ghost function View(): Session
      reads upstream, manager.redis
    {
      Session(manager.redis.cells, upstream.requests, upstream.profiles)
    }

    method NextKeyOrNone(now: int) returns (key: Option<string>)
      modifies manager.redis
      ensures key == PoolOf(manager.keys).next(old(manager.redis.cells), now)
      ensures manager.redis.cells == PoolOf(manager.keys).after(old(manager.redis.cells), now)
    {
      var outcome := manager.GetKey(now);
      key := if outcome.Usable? then Some(outcome.key) else None;
    }

    /** The company name is only looked up for its own sake: its answer decides nothing. */
    method FetchSingleQuote(symbol: string, key: string) returns (response: Response, now: int)
      modifies upstream
      ensures Request(symbol, key, now, response) == Requested(upstream.feed, old(View()), symbol, key)
      ensures View() == AfterRequest(upstream.feed, old(View()), symbol, key)
    {
      now := upstream.feed.clock(|upstream.requests|);
      response := upstream.GetQuote(symbol, key, now);
      if response.Quote? {
        var _ := upstream.GetProfile(symbol, key, now);
      }
    }

    /** One attempt: the request, and for a rejection the marker and the rotation. */
    method Attempt(symbol: string, key: string) returns (step: Step, quote: Option<int>, nextKey: string)
      modifies upstream, manager.redis
      ensures Move(step, quote, nextKey, View()) == Attempted(upstream.feed, PoolOf(manager.keys), old(View()), symbol, key)
    {
      var response, now := FetchSingleQuote(symbol, key);
      if response.HttpError? && response.status in {401, 403, 429} {
        if response.status == 429 {
          manager.MarkRateLimited(key, now);
        } else {
          manager.MarkInvalid(key, now);
        }
        var next := NextKeyOrNone(now);
        if next.None? || (response.status in {401, 403} && next.value == key) {
          return PoolExhausted, None, key;
        }
        return Rotated, None, next.value;
      }
      return SymbolSettled, if response.Quote? then Some(response.price) else None, key;
    }

    /** One round of the inner loop: how the symbol ends, if it does, or what is left to do. */
    method AttemptOnce(symbol: string, key: string, ghost left: nat, ghost fewer: nat, ghost run: SymbolRun)
      returns (ending: Option<Ending>, quote: Option<int>, nextKey: string)
      requires left == fewer + 1 && run == SymbolFetched(upstream.feed, PoolOf(manager.keys), View(), symbol, key, left)
      modifies upstream, manager.redis
      ensures ending.Some? ==> run == SymbolRun(ending.value, quote, nextKey, View())
      ensures ending.None? ==> run == SymbolFetched(upstream.feed, PoolOf(manager.keys), View(), symbol, nextKey, fewer)
    {
      SymbolStep(upstream.feed, PoolOf(manager.keys), View(), symbol, key, left, fewer);
      var step;
      step, quote, nextKey := Attempt(symbol, key);
      match step {
        case SymbolSettled => ending := Some(Answered);
        case PoolExhausted => ending, quote := Some(PoolDry), None;
        case Rotated => ending := None;
      }
    }

    /** The inner loop: one symbol, at most len(keys) + 1 attempts. */
    method FetchSymbol(symbol: string, apiKey: string) returns (ending: Ending, quote: Option<int>, key: string)
      modifies upstream, manager.redis
      ensures SymbolRun(ending, quote, key, View()) ==
              SymbolFetched(upstream.feed, PoolOf(manager.keys), old(View()), symbol, apiKey, MaxAttempts(manager.keys))
    {
      key := apiKey;
      var maxAttempts := MaxAttempts(manager.keys);
      ghost var left: nat := maxAttempts;
      ghost var run := SymbolFetched(upstream.feed, PoolOf(manager.keys), View(), symbol, key, left);
      for attempt := 0 to maxAttempts
        invariant left == maxAttempts - attempt
        invariant run == SymbolFetched(upstream.feed, PoolOf(manager.keys), View(), symbol, key, left)
      {
        var over;
        ghost var fewer: nat := left - 1;
        over, quote, key := AttemptOnce(symbol, key, left, fewer, run);
        if over.Some? {
          return over.value, quote, key;
        }
        left := fewer;
      }
      return LimitReached, None, key;
    }

    method FetchStockQuotes(symbols: seq<string>, apiKey: string) returns (results: Option<seq<(string, int)>>)
      modifies upstream, manager.redis
      ensures BatchRun(results, View()) == BatchFetched(upstream.feed, PoolOf(manager.keys), MaxAttempts(manager.keys), old(View()), symbols, apiKey, [])
    {
      var key := apiKey;
      var quotes: seq<(string, int)> := [];
      for i := 0 to |symbols|
        invariant BatchFetched(upstream.feed, PoolOf(manager.keys), MaxAttempts(manager.keys), old(View()), symbols, apiKey, []) ==
                  BatchFetched(upstream.feed, PoolOf(manager.keys), MaxAttempts(manager.keys), View(), symbols[i..], key, quotes)
      {
        assert symbols[i..][1..] == symbols[i + 1..];
        var ending, quote, nextKey := FetchSymbol(symbols[i], key);
        if ending == PoolDry {
          return None;
        }
        key := nextKey;
        if quote.Some? {
          quotes := quotes + [(symbols[i], quote.value)];
        }
      }
      results := Some(quotes);
    }
  }

  // What a batch comes to, with no condition but a clock that never runs backwards

  ghost predicate Chronological(feed: Feed) {
    forall i: nat, j: nat :: i <= j ==> feed.clock(i) <= feed.clock(j)
  }

  /** The quote requests since the one numbered `start`, with a key that may be used next. */
  ghost predicate Sane(feed: Feed, keys: seq<string>, s: Session, start: nat, key: string) {
    start <= |s.requests| && SaneBatch(keys, s.cells, s.requests[start..], key, feed.clock(|s.requests|))
  }

  predicate SoFarSane(keys: seq<string>, s: Session, start: nat) {
    start <= |s.requests| && KeysIn(s.requests[start..], keys) && ReuseAfterCooldown(s.requests[start..])
  }

  /** Every key was blocked when the last quote request was answered. */
  predicate PoolIsDry(keys: seq<string>, s: Session) {
    s.requests != [] && forall k :: k in keys ==> IsBlocked(s.cells, k, s.requests[|s.requests| - 1].time)
  }

  /** It gives a usable key exactly if there is one, and asking changes no marker. */
  ghost predicate Fair(pool: Pool, keys: seq<string>, cells: Cells, now: int) {
    var next, after := pool.next(cells, now), pool.after(cells, now);
    && (next.None? <==> forall k :: k in keys ==> IsBlocked(cells, k, now))
    && (next.Some? ==> next.value in keys && !IsBlocked(cells, next.value, now))
    && (forall k, t :: IsBlocked(after, k, t) <==> IsBlocked(cells, k, t))
  }

  ghost predicate AlwaysFair(pool: Pool, keys: seq<string>) {
    forall cells, now :: Fair(pool, keys, cells, now)
  }

  lemma PoolOfIsFair(keys: seq<string>)
    ensures AlwaysFair(PoolOf(keys), keys)
  {
    forall cells, now ensures Fair(PoolOf(keys), keys, cells, now) {
      AnswersAreExact(keys, cells, now);
    }
  }

  lemma MarkingBlocks(cells: Cells, r: Request)
    requires Rejecting(r.response)
    ensures var marked := Marking(cells, r.response.status, r.key, r.time);
      && Marked(marked, r)
      && (forall k, t :: k != r.key ==> (IsBlocked(marked, k, t) <==> IsBlocked(cells, k, t)))
  {
  }

  lemma MarkedIsKept(cells: Cells, cells': Cells, r: Request)
    requires Marked(cells, r) && forall k, t :: IsBlocked(cells', k, t) <==> IsBlocked(cells, k, t)
    ensures Marked(cells', r)
  {
  }

  lemma MarkedIsBlockedNow(cells: Cells, r: Request)
    requires Marked(cells, r)
    ensures IsBlocked(cells, r.key, r.time)
  {
  }

  /** The pool never gives back a key that has just been rejected, so the guard against that
      stops no batch that could go on. */
  lemma RejectedKeyIsNotNext(keys: seq<string>, cells: Cells, r: Request)
    requires Rejecting(r.response)
    ensures PoolOf(keys).next(Marking(cells, r.response.status, r.key, r.time), r.time) != Some(r.key)
  {
    var marked := Marking(cells, r.response.status, r.key, r.time);
    MarkingBlocks(cells, r);
    MarkedIsBlockedNow(marked, r);
    AnswersAreExact(keys, marked, r.time);
  }

  lemma BatchGrows(requests: seq<Request>, last: Request, start: nat)
    requires start <= |requests|
    ensures (requests + [last])[start..] == requests[start..] + [last]
  {
  }

  /** One attempt leaves a key in hand that may be used, or a dry pool; the same key never
      comes next. */
  lemma AttemptKeepsSane(feed: Feed, pool: Pool, keys: seq<string>, s: Session, start: nat, symbol: string, key: string)
    requires AlwaysFair(pool, keys) && Sane(feed, keys, s, start, key) && Chronological(feed)
    ensures var m := Attempted(feed, pool, s, symbol, key);
      && SoFarSane(keys, m.session, start)
      && (m.step != PoolExhausted ==> Sane(feed, keys, m.session, start, m.key))
      && (m.step == PoolExhausted ==> PoolIsDry(keys, m.session))
  {
    var last, later := Requested(feed, s, symbol, key), feed.clock(|s.requests| + 1);
    var batch := s.requests[start..];
    BatchGrows(s.requests, last, start);
    ReuseGrows(batch, last);
    if Rejecting(last.response) {
      RejectionRotates(feed, pool, keys, s, start, symbol, key, last, later);
    } else {
      SettledKeepsSane(keys, s.cells, batch, last, later);
    }
  }

  lemma RejectionRotates(feed: Feed, pool: Pool, keys: seq<string>, s: Session, start: nat, symbol: string, key: string, last: Request, later: int)
    requires AlwaysFair(pool, keys) && Sane(feed, keys, s, start, key) && last == Requested(feed, s, symbol, key) && Rejecting(last.response)
    requires last.time <= later
    ensures var m := Attempted(feed, pool, s, symbol, key);
      && (m.step == Rotated ==> SaneBatch(keys, m.session.cells, s.requests[start..] + [last], m.key, later))
      && (m.step == PoolExhausted ==> PoolIsDry(keys, m.session))
  {
    var marked := Marking(s.cells, last.response.status, key, last.time);
    var next, after := pool.next(marked, last.time), pool.after(marked, last.time);
    MarkingBlocks(s.cells, last);
    assert Fair(pool, keys, marked, last.time);
    MarkedIsKept(marked, after, last);
    MarkedIsBlockedNow(marked, last);
    if next.Some? {
      RejectionKeepsSane(keys, s.cells, after, s.requests[start..], last, later, next.value);
    }
  }

  lemma {:induction false} SymbolKeepsSane(feed: Feed, pool: Pool, keys: seq<string>, s: Session, start: nat, symbol: string, key: string,
                                           attempts: nat, r: SymbolRun)
    requires AlwaysFair(pool, keys) && Sane(feed, keys, s, start, key) && Chronological(feed)
    requires r == SymbolFetched(feed, pool, s, symbol, key, attempts)
    ensures SoFarSane(keys, r.session, start)
    ensures if r.ending == PoolDry then PoolIsDry(keys, r.session) else Sane(feed, keys, r.session, start, r.key)
    decreases attempts
  {
    if attempts > 0 {
      var m := Attempted(feed, pool, s, symbol, key);
      AttemptKeepsSane(feed, pool, keys, s, start, symbol, key);
      SymbolStep(feed, pool, s, symbol, key, attempts, attempts - 1);
      if m.step == Rotated {
        SymbolKeepsSane(feed, pool, keys, m.session, start, symbol, m.key, attempts - 1, r);
      }
    }
  }

  /** The requests for one symbol: rejections, and then what the ending says. */
  lemma {:induction false} SymbolStory(feed: Feed, pool: Pool, s: Session, symbol: string, key: string, attempts: nat, r: SymbolRun)
    returns (own: seq<Request>)
    requires r == SymbolFetched(feed, pool, s, symbol, key, attempts)
    ensures r.session.requests == s.requests + own && EndsIn(own, symbol, r.ending, attempts) && r.quote == QuoteOf(own, r.ending)
    decreases attempts
  {
    if attempts == 0 {
      own := [];
    } else {
      var m, last := Attempted(feed, pool, s, symbol, key), Requested(feed, s, symbol, key);
      SymbolStep(feed, pool, s, symbol, key, attempts, attempts - 1);
      own := [last];
      if m.step == Rotated {
        var rest := SymbolStory(feed, pool, m.session, symbol, m.key, attempts - 1, r);
        own := [last] + rest;
        OneRejectionFirst(last, rest, symbol, r.ending, attempts - 1, attempts);
        assert (s.requests + [last]) + rest == s.requests + own;
      }
    }
  }

  lemma OneRejectionFirst(first: Request, rest: seq<Request>, symbol: string, ending: Ending, limit: nat, more: nat)
    requires first.symbol == symbol && Rejecting(first.response) && EndsIn(rest, symbol, ending, limit) && more == limit + 1
    ensures EndsIn([first] + rest, symbol, ending, more) && QuoteOf([first] + rest, ending) == QuoteOf(rest, ending)
  {
    if ending == Answered {
      assert ([first] + rest)[..|rest|] == [first] + rest[..|rest| - 1];
    }
  }

  lemma BatchStep(feed: Feed, pool: Pool, limit: nat, s: Session, symbols: seq<string>, key: string, quotes: seq<(string, int)>)
    requires symbols != []
    ensures var r := SymbolFetched(feed, pool, s, symbols[0], key, limit);
      BatchFetched(feed, pool, limit, s, symbols, key, quotes) ==
        if r.ending == PoolDry then BatchRun(None, r.session)
        else BatchFetched(feed, pool, limit, r.session, symbols[1..], r.key, Extended(quotes, symbols[0], r.quote))
  {
  }

  /** A telling of the symbols that are left, after `quotes` have been collected. */
  predicate Tells(telling: Telling, symbols: seq<string>, limit: nat, quotes: seq<(string, int)>, results: Option<seq<(string, int)>>) {
    && Story(telling.parts, symbols, telling.endings, limit)
    && if results.Some? then
         |telling.endings| == |symbols| && PoolDry !in telling.endings && results.value == quotes + Quotes(Flat(telling.parts))
       else
         && telling.endings != [] && telling.endings[|telling.endings| - 1] == PoolDry
         && PoolDry !in telling.endings[..|telling.endings| - 1]
  }

  lemma TellsDry(own: seq<Request>, symbols: seq<string>, limit: nat, quotes: seq<(string, int)>)
    requires symbols != [] && EndsIn(own, symbols[0], PoolDry, limit)
    ensures Tells(Telling([own], [PoolDry]), symbols, limit, quotes, None) && Flat([own]) == own
  {
    assert [own][1..] == [] && Flat([]) == [] && own + [] == own;
  }

  lemma StoryPrepends(own: seq<Request>, ending: Ending, symbols: seq<string>, rest: Telling, limit: nat)
    requires symbols != [] && EndsIn(own, symbols[0], ending, limit) && Story(rest.parts, symbols[1..], rest.endings, limit)
    ensures Story([own] + rest.parts, symbols, [ending] + rest.endings, limit)
  {
  }

  lemma QuotesPrepend(own: seq<Request>, ending: Ending, symbol: string, parts: seq<seq<Request>>, limit: nat, quotes: seq<(string, int)>)
    requires EndsIn(own, symbol, ending, limit)
    ensures Flat([own] + parts) == own + Flat(parts)
    ensures quotes + Quotes(own + Flat(parts)) == Extended(quotes, symbol, QuoteOf(own, ending)) + Quotes(Flat(parts))
  {
    assert ([own] + parts)[1..] == parts;
    SymbolSettles(own, symbol, ending, limit);
    LogsConcatenate(own, Flat(parts));
    Associates(quotes, Quotes(own), Quotes(Flat(parts)));
  }

  lemma Associates<T>(a: seq<T>, b: seq<T>, c: seq<T>)
    ensures a + (b + c) == (a + b) + c
  {
  }

  lemma LastStays<T>(first: T, rest: seq<T>)
    requires rest != []
    ensures ([first] + rest)[|rest|] == rest[|rest| - 1] && ([first] + rest)[..|rest|] == [first] + rest[..|rest| - 1]
  {
  }

  lemma TellsFromTheFirst(own: seq<Request>, ending: Ending, symbols: seq<string>, rest: Telling, limit: nat,
                          quotes: seq<(string, int)>, results: Option<seq<(string, int)>>)
    requires symbols != [] && EndsIn(own, symbols[0], ending, limit) && ending != PoolDry
    requires Tells(rest, symbols[1..], limit, Extended(quotes, symbols[0], QuoteOf(own, ending)), results)
    ensures Tells(Telling([own] + rest.parts, [ending] + rest.endings), symbols, limit, quotes, results)
    ensures Flat([own] + rest.parts) == own + Flat(rest.parts)
  {
    StoryPrepends(own, ending, symbols, rest, limit);
    QuotesPrepend(own, ending, symbols[0], rest.parts, limit, quotes);
    if results.None? {
      LastStays(ending, rest.endings);
    }
  }

  lemma {:induction false} BatchKeepsSane(feed: Feed, pool: Pool, limit: nat, keys: seq<string>, s: Session, start: nat, symbols: seq<string>, key: string,
                                          quotes: seq<(string, int)>, run: BatchRun)
    requires AlwaysFair(pool, keys) && Sane(feed, keys, s, start, key) && Chronological(feed)
    requires run == BatchFetched(feed, pool, limit, s, symbols, key, quotes)
    ensures SoFarSane(keys, run.session, start)
    ensures run.results.None? ==> PoolIsDry(keys, run.session)
    decreases |symbols|
  {
    if symbols != [] {
      var r := SymbolFetched(feed, pool, s, symbols[0], key, limit);
      BatchStep(feed, pool, limit, s, symbols, key, quotes);
      SymbolKeepsSane(feed, pool, keys, s, start, symbols[0], key, limit, r);
      if r.ending != PoolDry {
        BatchKeepsSane(feed, pool, limit, keys, r.session, start, symbols[1..], r.key, Extended(quotes, symbols[0], r.quote), run);
      }
    }
  }

  /** The requests of a batch, symbol by symbol. */
  lemma {:induction false} BatchStory(feed: Feed, pool: Pool, limit: nat, s: Session, symbols: seq<string>, key: string,
                                      quotes: seq<(string, int)>, run: BatchRun)
    returns (telling: Telling)
    requires run == BatchFetched(feed, pool, limit, s, symbols, key, quotes)
    ensures run.session.requests == s.requests + Flat(telling.parts)
    ensures Tells(telling, symbols, limit, quotes, run.results)
    decreases |symbols|
  {
    if symbols == [] {
      telling := Telling([], []);
    } else {
      var r := SymbolFetched(feed, pool, s, symbols[0], key, limit);
      BatchStep(feed, pool, limit, s, symbols, key, quotes);
      var own := SymbolStory(feed, pool, s, symbols[0], key, limit, r);
      if r.ending == PoolDry {
        TellsDry(own, symbols, limit, quotes);
        telling := Telling([own], [PoolDry]);
      } else {
        var rest := BatchStory(feed, pool, limit, r.session, symbols[1..], r.key, Extended(quotes, symbols[0], r.quote), run);
        TellsFromTheFirst(own, r.ending, symbols, rest, limit, quotes, run.results);
        telling := Telling([own] + rest.parts, [r.ending] + rest.endings);
        Associates(s.requests, own, Flat(rest.parts));
      }
    }
  }

  /** For every batch: a rejected key is used for another quote only after a 429 whose cooldown
      has run out, every symbol ends in one of the three ways, and there are no results exactly
      if the pool runs dry. */
  lemma BatchIsExplained(feed: Feed, keys: seq<string>, s: Session, symbols: seq<string>, key: string) returns (telling: Telling)
    requires key in keys && Chronological(feed)
    ensures var r := BatchFetched(feed, PoolOf(keys), MaxAttempts(keys), s, symbols, key, []);
      && s.requests <= r.session.requests
      && Explains(r.session.requests[|s.requests|..], symbols, keys, r.results, telling)
      && (r.results.None? ==> PoolIsDry(keys, r.session))
  {
    var run := BatchFetched(feed, PoolOf(keys), MaxAttempts(keys), s, symbols, key, []);
    PoolOfIsFair(keys);
    BatchKeepsSane(feed, PoolOf(keys), MaxAttempts(keys), keys, s, |s.requests|, symbols, key, [], run);
    telling := BatchStory(feed, PoolOf(keys), MaxAttempts(keys), s, symbols, key, [], run);
  }

  // What the markers say after a batch

  /** When the key was last rate limited. */
  function LastLimited(batch: seq<Request>, key: string): Option<int> {
    if batch == [] then None
    else
      var last := batch[|batch| - 1];
      if last.key == key && last.response == HttpError(429) then Some(last.time) else LastLimited(batch[..|batch| - 1], key)
  }

  predicate Refused(batch: seq<Request>, key: string) {
    exists p :: 0 <= p < |batch| && batch[p].key == key && batch[p].response in {HttpError(401), HttpError(403)}
  }

  /** A key is invalid for good exactly if it was, or some answer to it was a 401 or 403; it
      is limited for 60 seconds from its last 429 on; and no other answer marks anything. */
  ghost predicate MarkedBy(cells: Cells, batch: seq<Request>, cells': Cells) {
    forall k, t :: MarkedAt(cells, batch, cells', k, t)
  }

  predicate MarkedAt(cells: Cells, batch: seq<Request>, cells': Cells, k: string, t: int) {
    && (IsInvalid(cells', k, t) <==> IsInvalid(cells, k, t) || Refused(batch, k))
    && (IsLimited(cells', k, t) <==>
          match LastLimited(batch, k) case Some(at) => t < at + 60 case None => IsLimited(cells, k, t))
  }

  predicate IsLimited(cells: Cells, key: string, now: int) {
    Lookup(cells, Limited(key), now).Some?
  }

  lemma RefusedGrows(batch: seq<Request>, last: Request, key: string)
    ensures Refused(batch + [last], key) <==> Refused(batch, key) || (last.key == key && last.response in {HttpError(401), HttpError(403)})
  {
    if Refused(batch, key) {
      var p :| 0 <= p < |batch| && batch[p].key == key && batch[p].response in {HttpError(401), HttpError(403)};
      assert (batch + [last])[p] == batch[p];
    }
    assert (batch + [last])[|batch|] == last;
  }

  lemma LastLimitedGrows(batch: seq<Request>, last: Request, key: string)
    ensures LastLimited(batch + [last], key) ==
      if last.key == key && last.response == HttpError(429) then Some(last.time) else LastLimited(batch, key)
  {
    assert (batch + [last])[..|batch|] == batch;
  }

  lemma AnswerMarks(cells: Cells, batch: seq<Request>, before: Cells, last: Request, after: Cells, k: string, t: int)
    requires MarkedAt(cells, batch, before, k, t)
    requires var marked := if Rejecting(last.response) then Marking(before, last.response.status, last.key, last.time) else before;
      IsInvalid(after, k, t) == IsInvalid(marked, k, t) && IsLimited(after, k, t) == IsLimited(marked, k, t)
    ensures MarkedAt(cells, batch + [last], after, k, t)
  {
    RefusedGrows(batch, last, k);
    LastLimitedGrows(batch, last, k);
  }

  lemma AskingKeepsMarkers(keys: seq<string>, cells: Cells, now: int, k: string, t: int)
    ensures var after := PoolOf(keys).after(cells, now);
      IsInvalid(after, k, t) == IsInvalid(cells, k, t) && IsLimited(after, k, t) == IsLimited(cells, k, t)
  {
  }

  ghost predicate MarksSince(cells: Cells, start: nat, s: Session) {
    start <= |s.requests| && MarkedBy(cells, s.requests[start..], s.cells)
  }

  lemma AttemptMarks(feed: Feed, keys: seq<string>, cells: Cells, start: nat, s: Session, symbol: string, key: string)
    requires MarksSince(cells, start, s)
    ensures MarksSince(cells, start, Attempted(feed, PoolOf(keys), s, symbol, key).session)
  {
    var last, end := Requested(feed, s, symbol, key), Attempted(feed, PoolOf(keys), s, symbol, key).session.cells;
    var batch := s.requests[start..];
    BatchGrows(s.requests, last, start);
    forall k, t ensures MarkedAt(cells, batch + [last], end, k, t) {
      assert MarkedAt(cells, batch, s.cells, k, t);
      if Rejecting(last.response) {
        AskingKeepsMarkers(keys, Marking(s.cells, last.response.status, key, last.time), last.time, k, t);
      }
      AnswerMarks(cells, batch, s.cells, last, end, k, t);
    }
  }

  lemma {:induction false} SymbolMarks(feed: Feed, keys: seq<string>, cells: Cells, start: nat, s: Session, symbol: string, key: string,
                                       attempts: nat, r: SymbolRun)
    requires MarksSince(cells, start, s) && r == SymbolFetched(feed, PoolOf(keys), s, symbol, key, attempts)
    ensures MarksSince(cells, start, r.session)
    decreases attempts
  {
    if attempts > 0 {
      var m := Attempted(feed, PoolOf(keys), s, symbol, key);
      AttemptMarks(feed, keys, cells, start, s, symbol, key);
      SymbolStep(feed, PoolOf(keys), s, symbol, key, attempts, attempts - 1);
      if m.step == Rotated {
        SymbolMarks(feed, keys, cells, start, m.session, symbol, m.key, attempts - 1, r);
      }
    }
  }

  lemma {:induction false} BatchMarks(feed: Feed, keys: seq<string>, limit: nat, cells: Cells, start: nat, s: Session, symbols: seq<string>,
                                      key: string, quotes: seq<(string, int)>, run: BatchRun)
    requires MarksSince(cells, start, s) && run == BatchFetched(feed, PoolOf(keys), limit, s, symbols, key, quotes)
    ensures MarksSince(cells, start, run.session)
    decreases |symbols|
  {
    if symbols != [] {
      var r := SymbolFetched(feed, PoolOf(keys), s, symbols[0], key, limit);
      BatchStep(feed, PoolOf(keys), limit, s, symbols, key, quotes);
      SymbolMarks(feed, keys, cells, start, s, symbols[0], key, limit, r);
      if r.ending != PoolDry {
        BatchMarks(feed, keys, limit, cells, start, r.session, symbols[1..], r.key, Extended(quotes, symbols[0], r.quote), run);
      }
    }
  }

  /** Whatever is answered and whenever, the markers after a batch can be read off its quote
      requests. */
  lemma MarkersTellTheStory(feed: Feed, keys: seq<string>, s: Session, symbols: seq<string>, key: string)
    ensures var r := BatchFetched(feed, PoolOf(keys), MaxAttempts(keys), s, symbols, key, []);
      |s.requests| <= |r.session.requests| && MarkedBy(s.cells, r.session.requests[|s.requests|..], r.session.cells)
  {
    var run := BatchFetched(feed, PoolOf(keys), MaxAttempts(keys), s, symbols, key, []);
    assert s.requests[|s.requests|..] == [];
    BatchMarks(feed, keys, MaxAttempts(keys), s.cells, |s.requests|, s, symbols, key, [], run);
  }

  // Which profiles are looked up

  function Quoted(batch: seq<Request>): seq<Request> {
    if batch == [] then []
    else Quoted(batch[..|batch| - 1]) + if batch[|batch| - 1].response.Quote? then [batch[|batch| - 1]] else []
  }

  /** The same symbols, keys and times, whatever is answered. */
  predicate SameAskers(these: seq<Request>, those: seq<Request>) {
    |these| == |those| && forall k :: 0 <= k < |these| ==> these[k].(response := Empty) == those[k].(response := Empty)
  }

  predicate LookedUpSince(requests: nat, profiles: nat, s: Session) {
    && requests <= |s.requests| && profiles <= |s.profiles|
    && SameAskers(s.profiles[profiles..], Quoted(s.requests[requests..]))
  }

  lemma QuotedGrows(batch: seq<Request>, last: Request)
    ensures Quoted(batch + [last]) == if last.response.Quote? then Quoted(batch) + [last] else Quoted(batch)
  {
    assert (batch + [last])[..|batch|] == batch;
  }

  lemma AskersGrow(these: seq<Request>, those: seq<Request>, last: Request, response: Response)
    requires SameAskers(these, those)
    ensures SameAskers(these + [last.(response := response)], those + [last])
  {
  }

  lemma AttemptLooksUp(feed: Feed, pool: Pool, requests: nat, profiles: nat, s: Session, symbol: string, key: string)
    requires LookedUpSince(requests, profiles, s)
    ensures LookedUpSince(requests, profiles, Attempted(feed, pool, s, symbol, key).session)
  {
    var last, session := Requested(feed, s, symbol, key), Attempted(feed, pool, s, symbol, key).session;
    var batch, looked := s.requests[requests..], s.profiles[profiles..];
    assert session.requests == s.requests + [last];
    BatchGrows(s.requests, last, requests);
    QuotedGrows(batch, last);
    if last.response.Quote? {
      var response := feed.profile(|s.profiles|);
      BatchGrows(s.profiles, last.(response := response), profiles);
      AskersGrow(looked, Quoted(batch), last, response);
    } else {
      assert session.profiles == s.profiles;
    }
  }

  lemma {:induction false} SymbolLooksUp(feed: Feed, pool: Pool, requests: nat, profiles: nat, s: Session, symbol: string, key: string,
                                         attempts: nat, r: SymbolRun)
    requires LookedUpSince(requests, profiles, s) && r == SymbolFetched(feed, pool, s, symbol, key, attempts)
    ensures LookedUpSince(requests, profiles, r.session)
    decreases attempts
  {
    if attempts > 0 {
      var m := Attempted(feed, pool, s, symbol, key);
      AttemptLooksUp(feed, pool, requests, profiles, s, symbol, key);
      SymbolStep(feed, pool, s, symbol, key, attempts, attempts - 1);
      if m.step == Rotated {
        SymbolLooksUp(feed, pool, requests, profiles, m.session, symbol, m.key, attempts - 1, r);
      }
    }
  }

  /** In every batch a profile is looked up for exactly the quotes that come, in order and each
      with the key that brought it. */
  lemma {:induction false} ProfilesFollowQuotes(feed: Feed, pool: Pool, limit: nat, requests: nat, profiles: nat, s: Session,
                                                symbols: seq<string>, key: string, quotes: seq<(string, int)>, run: BatchRun)
    requires LookedUpSince(requests, profiles, s) && run == BatchFetched(feed, pool, limit, s, symbols, key, quotes)
    ensures LookedUpSince(requests, profiles, run.session)
    decreases |symbols|
  {
    if symbols != [] {
      var r := SymbolFetched(feed, pool, s, symbols[0], key, limit);
      BatchStep(feed, pool, limit, s, symbols, key, quotes);
      SymbolLooksUp(feed, pool, requests, profiles, s, symbols[0], key, limit, r);
      if r.ending != PoolDry {
        ProfilesFollowQuotes(feed, pool, limit, requests, profiles, r.session, symbols[1..], r.key,
                             Extended(quotes, symbols[0], r.quote), run);
      }
    }
  }

  // The condition is needed: with a cooldown between requests, two keys alternate for ever

  const SLOW_AND_LIMITED := Feed(_ => TOO_MANY_REQUESTS, n => DEFAULT_RATE_LIMIT_COOLDOWN_SECONDS * n, _ => Empty)

  ghost predicate NoneInvalid(cells: Cells) {
    forall k, t :: !IsInvalid(cells, k, t)
  }

  lemma LimitedForACooldown(cells: Cells, key: string, other: string, now: int)
    requires key != other && NoneInvalid(cells)
    ensures var marked := Marking(cells, 429, key, now);
      && NoneInvalid(marked) && IsBlocked(marked, key, now)
      && (forall t :: now + DEFAULT_RATE_LIMIT_COOLDOWN_SECONDS <= t ==> !IsBlocked(marked, key, t))
      && (forall t :: IsBlocked(marked, other, t) <==> IsBlocked(cells, other, t))
  {
    var marked := Marking(cells, 429, key, now);
    forall k, t ensures IsInvalid(marked, k, t) <==> IsInvalid(cells, k, t) {}
  }

  lemma RotatingKeepsMarkers(keys: seq<string>, cells: Cells, now: int, k: string, t: int)
    ensures var after := AfterNextKey(keys, cells, now);
      IsInvalid(after, k, t) == IsInvalid(cells, k, t) && IsBlocked(after, k, t) == IsBlocked(cells, k, t)
  {
  }

  ghost predicate FreeFrom(cells: Cells, key: string, time: int) {
    forall t :: time <= t ==> !IsBlocked(cells, key, t)
  }

  predicate AreTheTwo(keys: seq<string>, key: string, other: string) {
    key != other && (keys == [key, other] || keys == [other, key])
  }

  /** After one of two keys is rate limited, the pool gives the other, if that is free. */
  ghost predicate GivesTheOther(pool: Pool, key: string, other: string) {
    forall cells, now :: NoneInvalid(cells) && !IsBlocked(cells, other, now) ==> SwapsAt(pool, cells, key, other, now)
  }

  ghost predicate SwapsAt(pool: Pool, cells: Cells, key: string, other: string, now: int) {
    var marked := Marking(cells, 429, key, now);
    && pool.next(marked, now) == Some(other)
    && NoneInvalid(pool.after(marked, now))
    && FreeFrom(pool.after(marked, now), key, now + DEFAULT_RATE_LIMIT_COOLDOWN_SECONDS)
  }

  lemma PoolOfGivesTheOther(keys: seq<string>, key: string, other: string)
    requires AreTheTwo(keys, key, other)
    ensures GivesTheOther(PoolOf(keys), key, other)
  {
    forall cells, now | NoneInvalid(cells) && !IsBlocked(cells, other, now) ensures SwapsAt(PoolOf(keys), cells, key, other, now) {
      OtherKeyIsNext(keys, cells, key, other, now);
    }
  }

  lemma OtherKeyIsNext(keys: seq<string>, cells: Cells, key: string, other: string, now: int)
    requires AreTheTwo(keys, key, other) && NoneInvalid(cells) && !IsBlocked(cells, other, now)
    ensures SwapsAt(PoolOf(keys), cells, key, other, now)
  {
    var marked := Marking(cells, 429, key, now);
    LimitedForACooldown(cells, key, other, now);
    assert key in keys && other in keys && forall k :: k in keys ==> k == key || k == other;
    AnswersAreExact(keys, marked, now);
    forall k, t
      ensures IsInvalid(PoolOf(keys).after(marked, now), k, t) == IsInvalid(marked, k, t)
      ensures IsBlocked(PoolOf(keys).after(marked, now), k, t) == IsBlocked(marked, k, t)
    {
      RotatingKeepsMarkers(keys, marked, now, k, t);
    }
  }

  /** The other key is free by the time of the next request. */
  ghost predicate Alternating(pool: Pool, s: Session, key: string, other: string) {
    && key != other && GivesTheOther(pool, key, other) && GivesTheOther(pool, other, key)
    && NoneInvalid(s.cells) && FreeFrom(s.cells, other, DEFAULT_RATE_LIMIT_COOLDOWN_SECONDS * |s.requests|)
  }

  lemma LimitedAttempt(pool: Pool, s: Session, symbol: string, key: string, other: string, attempts: nat, fewer: nat, run: SymbolRun)
    returns (after: Session, last: Request)
    requires Alternating(pool, s, key, other) && attempts == fewer + 1
    requires run == SymbolFetched(SLOW_AND_LIMITED, pool, s, symbol, key, attempts)
    ensures after.requests == s.requests + [last]
    ensures last.key == key && last.symbol == symbol && last.response == TOO_MANY_REQUESTS
    ensures Alternating(pool, after, other, key)
    ensures run == SymbolFetched(SLOW_AND_LIMITED, pool, after, symbol, other, fewer)
  {
    assert SwapsAt(pool, s.cells, key, other, DEFAULT_RATE_LIMIT_COOLDOWN_SECONDS * |s.requests|);
    SymbolStep(SLOW_AND_LIMITED, pool, s, symbol, key, attempts, fewer);
    last := Requested(SLOW_AND_LIMITED, s, symbol, key);
    after := Attempted(SLOW_AND_LIMITED, pool, s, symbol, key).session;
  }

  /** Each of the two is rejected, and free again when the other one is. */
  lemma {:induction false} LapsesReachTheLimit(pool: Pool, s: Session, symbol: string, key: string, other: string, attempts: nat,
                                               run: SymbolRun)
    returns (own: seq<Request>)
    requires Alternating(pool, s, key, other)
    requires run == SymbolFetched(SLOW_AND_LIMITED, pool, s, symbol, key, attempts)
    ensures run.ending == LimitReached && run.session.requests == s.requests + own
    ensures |own| == attempts && AllRejected(own, symbol)
    ensures forall k :: 0 <= k < attempts ==> own[k].key == Alternate(key, other, k)
    decreases attempts
  {
    if attempts == 0 {
      own := [];
    } else {
      var after, last := LimitedAttempt(pool, s, symbol, key, other, attempts, attempts - 1, run);
      var rest := LapsesReachTheLimit(pool, after, symbol, other, key, attempts - 1, run);
      own := [last] + rest;
      assert (s.requests + [last]) + rest == s.requests + own;
    }
  }

  function Alternate(first: string, second: string, k: nat): string
    decreases k
  {
    if k == 0 then first else Alternate(second, first, k - 1)
  }

  /** Two keys, and a cooldown runs out between the requests: the first key is rejected, used
      again and rejected again, and the attempt limit cuts the symbol off. */
  lemma LapseNeedsTheCondition(a: string, b: string, symbol: string) returns (own: seq<Request>)
    requires a != b
    ensures Chronological(SLOW_AND_LIMITED)
    ensures var r := SymbolFetched(SLOW_AND_LIMITED, PoolOf([a, b]), Session(map[], [], []), symbol, a, MaxAttempts([a, b]));
      r.ending == LimitReached && r.session.requests == own
    ensures |own| == 3 && own[0].key == own[2].key == a && Rejections(own) == 3 > |[a, b]|
  {
    PoolOfGivesTheOther([a, b], a, b);
    PoolOfGivesTheOther([a, b], b, a);
    own := SlowRun(PoolOf([a, b]), a, b, symbol, MaxAttempts([a, b]));
  }

  lemma SlowRun(pool: Pool, a: string, b: string, symbol: string, attempts: nat) returns (own: seq<Request>)
    requires a != b && GivesTheOther(pool, a, b) && GivesTheOther(pool, b, a) && attempts == 3
    ensures var r := SymbolFetched(SLOW_AND_LIMITED, pool, Session(map[], [], []), symbol, a, attempts);
      r.ending == LimitReached && r.session.requests == own
    ensures |own| == 3 && own[0].key == own[2].key == a && Rejections(own) == 3
  {
    var run := SymbolFetched(SLOW_AND_LIMITED, pool, Session(map[], [], []), symbol, a, attempts);
    own := LapsesReachTheLimit(pool, Session(map[], [], []), symbol, a, b, attempts, run);
    assert [] + own == own;
    assert Alternate(a, b, 2) == Alternate(b, a, 1) == a;
    AllRejectedCount(own, symbol);
  }

  // Profile requests

  predicate SameButProfiles(s: Session, s': Session) {
    s'.cells == s.cells && s'.requests == s.requests
  }

  lemma {:induction false} SymbolIgnoresProfiles(feed: Feed, profile: nat -> Response, pool: Pool, s: Session, s': Session,
                                                 symbol: string, key: string, attempts: nat)
    requires SameButProfiles(s, s')
    ensures var r, r' := SymbolFetched(feed, pool, s, symbol, key, attempts),
                         SymbolFetched(feed.(profile := profile), pool, s', symbol, key, attempts);
      r'.ending == r.ending && r'.quote == r.quote && r'.key == r.key && SameButProfiles(r.session, r'.session)
    decreases attempts
  {
    if attempts > 0 {
      var feed' := feed.(profile := profile);
      var m, m' := Attempted(feed, pool, s, symbol, key), Attempted(feed', pool, s', symbol, key);
      SymbolStep(feed, pool, s, symbol, key, attempts, attempts - 1);
      SymbolStep(feed', pool, s', symbol, key, attempts, attempts - 1);
      if m.step == Rotated {
        SymbolIgnoresProfiles(feed, profile, pool, m.session, m'.session, symbol, m.key, attempts - 1);
      }
    }
  }

  /** Whatever the profile requests bring, results, quote requests and markers are the same. */
  lemma {:induction false} ProfilesDecideNothing(feed: Feed, profile: nat -> Response, pool: Pool, limit: nat, s: Session, s': Session,
                                                 symbols: seq<string>, key: string, quotes: seq<(string, int)>)
    requires SameButProfiles(s, s')
    ensures var r, r' := BatchFetched(feed, pool, limit, s, symbols, key, quotes),
                         BatchFetched(feed.(profile := profile), pool, limit, s', symbols, key, quotes);
      r'.results == r.results && SameButProfiles(r.session, r'.session)
    decreases |symbols|
  {
    if symbols != [] {
      var feed' := feed.(profile := profile);
      var r, r' := SymbolFetched(feed, pool, s, symbols[0], key, limit), SymbolFetched(feed', pool, s', symbols[0], key, limit);
      BatchStep(feed, pool, limit, s, symbols, key, quotes);
      BatchStep(feed', pool, limit, s', symbols, key, quotes);
      SymbolIgnoresProfiles(feed, profile, pool, s, s', symbols[0], key, limit);
      if r.ending != PoolDry {
        ProfilesDecideNothing(feed, profile, pool, limit, r.session, r'.session, symbols[1..], r.key,
                              Extended(quotes, symbols[0], r.quote));
      }
    }
  }

  /** While the quotes come, one key serves all requests of both kinds, however often it is
      rejected for a profile, and nothing is marked. */
  lemma {:induction false} ProfileRejectionsGoUnmarked(feed: Feed, pool: Pool, limit: nat, s: Session, symbols: seq<string>, key: string,
                                                       quotes: seq<(string, int)>)
    returns (asked: seq<Request>, looked: seq<Request>)
    requires limit > 0 && forall n :: feed.quote(n).Quote?
    ensures var r := BatchFetched(feed, pool, limit, s, symbols, key, quotes);
      r.results.Some? && r.session == Session(s.cells, s.requests + asked, s.profiles + looked)
    ensures |asked| == |looked| == |symbols|
    ensures forall k :: 0 <= k < |symbols| ==> asked[k].key == looked[k].key == key
    ensures forall k :: 0 <= k < |symbols| ==> looked[k].response == feed.profile(|s.profiles| + k)
    decreases |symbols|
  {
    asked, looked := [], [];
    if symbols != [] {
      var last, m := Requested(feed, s, symbols[0], key), Attempted(feed, pool, s, symbols[0], key);
      BatchStep(feed, pool, limit, s, symbols, key, quotes);
      SymbolStep(feed, pool, s, symbols[0], key, limit, limit - 1);
      assert m.session == AfterRequest(feed, s, symbols[0], key) && m.step == SymbolSettled;
      var moreAsked, moreLooked := ProfileRejectionsGoUnmarked(feed, pool, limit, m.session, symbols[1..], key,
                                                               Extended(quotes, symbols[0], m.quote));
      var profile := last.(response := feed.profile(|s.profiles|));
      asked, looked := [last] + moreAsked, [profile] + moreLooked;
      assert (s.requests + [last]) + moreAsked == s.requests + asked && (s.profiles + [profile]) + moreLooked == s.profiles + looked;
      forall k | 0 <= k < |symbols| ensures looked[k].response == feed.profile(|s.profiles| + k) {
        if k > 0 {
          assert looked[k] == moreLooked[k - 1] && |m.session.profiles| + (k - 1) == |s.profiles| + k;
        }
      }
    }
  }
}
