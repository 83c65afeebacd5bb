/** The API key pool: a rotation counter and per-key markers in Redis. Marker keys carry the
    API key itself where the source uses a prefix of its hash. */
module ApiKeys {
  import opened Wrappers
  import opened RedisStore
  import opened RoundRobin

  const DEFAULT_RATE_LIMIT_COOLDOWN_SECONDS := 60

  datatype Key = Rotation | Limited(key: string) | Invalid(key: string)

  datatype Outcome = Usable(key: string) | AllKeysRateLimited | AllKeysUnavailable

  type Cells = map<Key, Cell<int>>

  predicate IsInvalid(cells: Cells, key: string, now: int) {
    Lookup(cells, Invalid(key), now).Some?
  }

  predicate IsBlocked(cells: Cells, key: string, now: int) {
    IsInvalid(cells, key, now) || Lookup(cells, Limited(key), now).Some?
  }

  function BlockedPlaces(keys: seq<string>, cells: Cells, now: int): (blocked: seq<bool>)
    ensures |blocked| == |keys|
  {
    seq(|keys|, i requires 0 <= i < |keys| => IsBlocked(cells, keys[i], now))
  }

  /** The rotation counter before it is incremented; an absent one counts as 0. */
  function Turns(cells: Cells, now: int): int {
    var turns := Lookup(cells, Rotation, now);
    if turns.Some? then turns.value else 0
  }

  function KeyAt(keys: seq<string>, x: int): string
    requires keys != []
  {
    keys[x % |keys|]
  }

  /** The first usable key from a starting place on; without one, what is wrong with all. */
  function ProbedFrom(keys: seq<string>, cells: Cells, now: int, start: int): Outcome
    requires keys != []
  {
    var place := Probe(BlockedPlaces(keys, cells, now), start, |keys|);
    if place < start + |keys| then Usable(KeyAt(keys, place))
    else if forall k :: k in keys ==> IsInvalid(cells, k, now) then AllKeysUnavailable
    else AllKeysRateLimited
  }

  function Chosen(keys: seq<string>, cells: Cells, now: int): Outcome {
    if keys == [] then AllKeysUnavailable else ProbedFrom(keys, cells, now, Turns(cells, now) % |keys|)
  }

  lemma ChosenFrom(keys: seq<string>, cells: Cells, cells': Cells, now: int, start: int)
    requires keys != [] && start == Turns(cells, now) % |keys|
    requires forall k :: IsInvalid(cells', k, now) == IsInvalid(cells, k, now)
    requires forall k :: IsBlocked(cells', k, now) == IsBlocked(cells, k, now)
    ensures ProbedFrom(keys, cells', now, start) == Chosen(keys, cells, now)
  {
    assert BlockedPlaces(keys, cells', now) == BlockedPlaces(keys, cells, now);
  }

  lemma MarkersStay(cells: Cells, now: int)
    ensures var cells' := Incremented(cells, Rotation, now);
      forall k :: IsInvalid(cells', k, now) == IsInvalid(cells, k, now) && IsBlocked(cells', k, now) == IsBlocked(cells, k, now)
  {
  }

  class APIKeyManager {
    const keys: seq<string>
    const redis: Store<Key, int>

    constructor (keys: seq<string>, redis: Store<Key, int>)
      ensures this.keys == keys && this.redis == redis
    {
      this.keys, this.redis := keys, redis;
    }

    method GetKey(now: int) returns (outcome: Outcome)
      modifies redis
      ensures outcome == Chosen(keys, old(redis.cells), now)
      ensures redis.cells == if keys == [] then old(redis.cells) else Incremented(old(redis.cells), Rotation, now)
    {
      if keys == [] {
        return AllKeysUnavailable;
      }
      ghost var cells := redis.cells;
      var counter := Incr(redis, Rotation, now);
      var start := (counter - 1) % |keys|;
      assert start == Turns(cells, now) % |keys|;
      MarkersStay(cells, now);
      outcome := FirstUsable(start, now);
      ChosenFrom(keys, cells, redis.cells, now, start);
    }

    /** The loop over offsets, which reads markers only. */
    method FirstUsable(start: int, now: int) returns (outcome: Outcome)
      requires keys != []
      ensures outcome == ProbedFrom(keys, redis.cells, now, start)
    {
      ghost var blocked := BlockedPlaces(keys, redis.cells, now);
      var n := |keys|;
      var invalidCount := 0;
      for offset := 0 to n
        invariant start + offset <= Probe(blocked, start, n)
        invariant 0 <= invalidCount <= offset
        invariant invalidCount == offset <==> forall y :: start <= y < start + offset ==> IsInvalid(redis.cells, KeyAt(keys, y), now)
      {
        var candidate := KeyAt(keys, start + offset);
        assert BlockedAt(blocked, start + offset) <==> IsBlocked(redis.cells, candidate, now);
        var invalid := redis.Get(Invalid(candidate), now);
        if invalid.Some? {
          invalidCount := invalidCount + 1;
          continue;
        }
        var limited := redis.Get(Limited(candidate), now);
        if limited.Some? {
          continue;
        }
        return Usable(candidate);
      }
      EveryKeyMet(keys, start);
      if invalidCount == n {
        return AllKeysUnavailable;
      }
      return AllKeysRateLimited;
    }

    method MarkRateLimited(key: string, now: int)
      modifies redis
      ensures redis.cells == Written(old(redis.cells), Limited(key), 1, Some(DEFAULT_RATE_LIMIT_COOLDOWN_SECONDS), now)
    {
      redis.Set(Limited(key), 1, Some(DEFAULT_RATE_LIMIT_COOLDOWN_SECONDS), now);
    }

    method MarkInvalid(key: string, now: int)
      modifies redis
      ensures redis.cells == Written(old(redis.cells), Invalid(key), 1, None, now)
    {
      redis.Set(Invalid(key), 1, None, now);
    }

    method Clear(key: string)
      modifies redis
      ensures redis.cells == old(redis.cells) - {Limited(key), Invalid(key)}
    {
      redis.Delete(Limited(key));
      redis.Delete(Invalid(key));
    }
  }

  lemma EveryKeyMet(keys: seq<string>, start: int)
    requires keys != []
    ensures forall k :: k in keys ==> exists y :: start <= y < start + |keys| && KeyAt(keys, y) == k
  {
    forall k | k in keys ensures exists y :: start <= y < start + |keys| && KeyAt(keys, y) == k {
      var i :| 0 <= i < |keys| && keys[i] == k;
      var y := Meets(|keys|, start, i);
      assert KeyAt(keys, y) == k;
    }
  }

  /** Which answer the pool gives: never a blocked key, and an error exactly when every key
      is blocked, which is the permanent one exactly when every key is invalid. */
  lemma AnswersAreExact(keys: seq<string>, cells: Cells, now: int)
    ensures var answer := Chosen(keys, cells, now);
      && (answer.Usable? <==> exists k :: k in keys && !IsBlocked(cells, k, now))
      && (answer.Usable? ==> answer.key in keys && !IsBlocked(cells, answer.key, now))
      && (answer == AllKeysUnavailable <==> forall k :: k in keys ==> IsInvalid(cells, k, now))
  {
    if keys != [] {
      var start, blocked := Turns(cells, now) % |keys|, BlockedPlaces(keys, cells, now);
      if SomeUsable(blocked) {
        TurnIsServed(keys, cells, now, blocked, Turns(cells, now));
        ServedIsUsable(blocked, Turns(cells, now));
        var key := keys[Served(blocked, Turns(cells, now))];
        assert key in keys && !IsBlocked(cells, key, now) && !IsInvalid(cells, key, now);
      } else {
        AllBlocked(blocked, start);
        forall k | k in keys ensures IsBlocked(cells, k, now) {
          var i :| 0 <= i < |keys| && keys[i] == k;
          assert blocked[i];
        }
      }
    }
  }

  lemma TurnIsServed(keys: seq<string>, cells: Cells, now: int, blocked: seq<bool>, x: int)
    requires keys != [] && blocked == BlockedPlaces(keys, cells, now) && x == Turns(cells, now) && SomeUsable(blocked)
    ensures Chosen(keys, cells, now) == Usable(keys[Served(blocked, x)])
  {
    ServedModulo(blocked, x);
    ServedIsUsable(blocked, x % |keys|);
  }

  // Runs of get_key while no marker changes

  function Answers(keys: seq<string>, cells: Cells, times: seq<int>): (answers: seq<Outcome>)
    requires keys != []
    ensures |answers| == |times|
    decreases |times|
  {
    if times == [] then []
    else [Chosen(keys, cells, times[0])] + Answers(keys, Incremented(cells, Rotation, times[0]), times[1..])
  }

  /** At every call the same places are blocked, and the rotation counter never expires. */
  predicate Steady(keys: seq<string>, cells: Cells, times: seq<int>, blocked: seq<bool>) {
    && (Rotation in cells ==> cells[Rotation].expiry.None?)
    && forall i :: 0 <= i < |times| ==> BlockedPlaces(keys, cells, times[i]) == blocked
  }

  predicate Distinct(keys: seq<string>) {
    forall i, j :: 0 <= i < j < |keys| ==> keys[i] != keys[j]
  }

  function Occurrences<T(==)>(s: seq<T>, x: T): nat {
    if s == [] then 0 else Occurrences(s[..|s| - 1], x) + (if s[|s| - 1] == x then 1 else 0)
  }

  lemma SteadyNext(keys: seq<string>, cells: Cells, times: seq<int>, blocked: seq<bool>)
    requires times != [] && Steady(keys, cells, times, blocked)
    ensures Steady(keys, Incremented(cells, Rotation, times[0]), times[1..], blocked)
  {
    var next := Incremented(cells, Rotation, times[0]);
    forall i | 0 <= i < |times[1..]| ensures BlockedPlaces(keys, next, times[1..][i]) == blocked {
      assert BlockedPlaces(keys, cells, times[i + 1]) == blocked;
    }
  }

  function Turn(cells: Cells): int {
    if Rotation in cells then cells[Rotation].value else 0
  }

  lemma AnswersStep(keys: seq<string>, cells: Cells, times: seq<int>, k: nat)
    requires keys != [] && k < |times|
    ensures Answers(keys, cells, times)[k] ==
      if k == 0 then Chosen(keys, cells, times[0])
      else Answers(keys, Incremented(cells, Rotation, times[0]), times[1..])[k - 1]
  {
  }

  lemma SteadyTurns(cells: Cells, now: int)
    requires Rotation in cells ==> cells[Rotation].expiry.None?
    ensures Turns(cells, now) == Turn(cells) && Turn(Incremented(cells, Rotation, now)) == Turn(cells) + 1
  {
  }

  lemma {:induction false} AnswersRotate(keys: seq<string>, cells: Cells, times: seq<int>, blocked: seq<bool>, x: int, k: nat, answer: Outcome)
    requires keys != [] && k < |times| && Steady(keys, cells, times, blocked) && SomeUsable(blocked) && |blocked| == |keys|
    requires x == Turn(cells) + k && answer == Answers(keys, cells, times)[k]
    ensures answer == Usable(keys[Served(blocked, x)])
    decreases |times|
  {
    AnswersStep(keys, cells, times, k);
    SteadyTurns(cells, times[0]);
    if k == 0 {
      TurnIsServed(keys, cells, times[0], blocked, x);
    } else {
      SteadyNext(keys, cells, times, blocked);
      AnswersRotate(keys, Incremented(cells, Rotation, times[0]), times[1..], blocked, x, k - 1, answer);
    }
  }

  predicate Rotates(keys: seq<string>, blocked: seq<bool>, answers: seq<Outcome>, turn: int)
    requires keys != [] && |blocked| == |keys|
  {
    forall k :: 0 <= k < |answers| ==> answers[k] == Usable(keys[Served(blocked, turn + k)])
  }

  lemma {:induction false} OccurrencesAreShares(keys: seq<string>, blocked: seq<bool>, answers: seq<Outcome>, lo: int, hi: int, i: nat)
    requires Distinct(keys) && i < |keys| == |blocked| && hi == lo + |answers|
    requires Rotates(keys, blocked, answers, lo)
    ensures Occurrences(answers, Usable(keys[i])) == Shares(blocked, i, lo, hi)
    decreases |answers|
  {
    if lo < hi {
      var n := |answers| - 1;
      OccurrencesAreShares(keys, blocked, answers[..n], lo, hi - 1, i);
      assert answers[n] == Usable(keys[Served(blocked, lo + n)]) && lo + n == hi - 1;
    }
  }

  lemma AllRotate(keys: seq<string>, cells: Cells, times: seq<int>, blocked: seq<bool>, answers: seq<Outcome>, turn: int)
    requires keys != [] && |blocked| == |keys| && Steady(keys, cells, times, blocked) && SomeUsable(blocked)
    requires answers == Answers(keys, cells, times) && turn == Turn(cells)
    ensures Rotates(keys, blocked, answers, turn)
  {
    forall k | 0 <= k < |answers| ensures answers[k] == Usable(keys[Served(blocked, turn + k)]) {
      AnswersRotate(keys, cells, times, blocked, turn + k, k, answers[k]);
    }
  }

  lemma RotatingIsFair(keys: seq<string>, blocked: seq<bool>, answers: seq<Outcome>, lo: int, hi: int, i: nat)
    requires Distinct(keys) && i < |keys| == |blocked| == |answers| && !blocked[i] && hi == lo + |blocked|
    requires Rotates(keys, blocked, answers, lo)
    ensures Occurrences(answers, Usable(keys[i])) == 1 + RunBefore(blocked, i + |blocked|, |blocked|)
  {
    OccurrencesAreShares(keys, blocked, answers, lo, hi, i);
    FairShare(blocked, i, lo, hi);
  }

  /** Over any n consecutive calls on a pool of n distinct keys, a usable key is returned once
      for itself and once for each key of the blocked run cyclically before it. */
  lemma RotationIsFair(keys: seq<string>, cells: Cells, times: seq<int>, blocked: seq<bool>, answers: seq<Outcome>, i: nat)
    requires Distinct(keys) && i < |keys| == |blocked| == |times|
    requires Steady(keys, cells, times, blocked) && !blocked[i]
    requires answers == Answers(keys, cells, times)
    ensures Occurrences(answers, Usable(keys[i])) == 1 + RunBefore(blocked, i + |blocked|, |blocked|)
  {
    assert SomeUsable(blocked);
    AllRotate(keys, cells, times, blocked, answers, Turn(cells));
    RotatingIsFair(keys, blocked, answers, Turn(cells), Turn(cells) + |blocked|, i);
  }

  function TotalOccurrences(keys: seq<string>, answers: seq<Outcome>): nat {
    if keys == [] then 0
    else TotalOccurrences(keys[..|keys| - 1], answers) + Occurrences(answers, Usable(keys[|keys| - 1]))
  }

  lemma {:induction false} TotalGrows(keys: seq<string>, answers: seq<Outcome>, last: Outcome)
    requires Distinct(keys)
    ensures TotalOccurrences(keys, answers + [last])
         == TotalOccurrences(keys, answers) + (if last.Usable? && last.key in keys then 1 else 0)
  {
    assert (answers + [last])[..|answers|] == answers;
    if keys != [] {
      var rest, k := keys[..|keys| - 1], keys[|keys| - 1];
      TotalGrows(rest, answers, last);
      assert keys == rest + [k];
      assert k !in rest;
    }
  }

  lemma {:induction false} TotalIsEverything(keys: seq<string>, answers: seq<Outcome>)
    requires Distinct(keys) && forall k :: 0 <= k < |answers| ==> answers[k].Usable? && answers[k].key in keys
    ensures TotalOccurrences(keys, answers) == |answers|
  {
    if answers == [] {
      NothingOccurs(keys);
    } else {
      var before, last := answers[..|answers| - 1], answers[|answers| - 1];
      TotalIsEverything(keys, before);
      TotalGrows(keys, before, last);
      assert answers == before + [last];
    }
  }

  lemma {:induction false} NothingOccurs(keys: seq<string>)
    ensures TotalOccurrences(keys, []) == 0
  {
    if keys != [] {
      NothingOccurs(keys[..|keys| - 1]);
    }
  }

  /** No call is lost: over all keys the returns add up to the number of calls, and blocked
      keys have none of them. */
  lemma SharesAddUp(keys: seq<string>, cells: Cells, times: seq<int>, blocked: seq<bool>)
    requires keys != [] && Distinct(keys) && Steady(keys, cells, times, blocked) && |blocked| == |keys| && SomeUsable(blocked)
    ensures TotalOccurrences(keys, Answers(keys, cells, times)) == |times|
    ensures forall i :: 0 <= i < |keys| && blocked[i] ==> Usable(keys[i]) !in Answers(keys, cells, times)
  {
    var answers := Answers(keys, cells, times);
    forall k | 0 <= k < |answers|
      ensures answers[k].Usable? && answers[k].key in keys
      ensures forall i :: 0 <= i < |keys| && blocked[i] ==> answers[k] != Usable(keys[i])
    {
      AnswersRotate(keys, cells, times, blocked, Turn(cells) + k, k, answers[k]);
      ServedIsUsable(blocked, Turn(cells) + k);
    }
    TotalIsEverything(keys, answers);
  }
}
