/** One dimension of the brute-force protection (an e-mail address or an IP address):
    a fixed-window failure counter and a lock, both of which expire. The theorems hold for
    every policy whose lock lasts at least as long as its window. */
module LockoutPolicy {
  import opened Wrappers
  import opened RedisStore
  import opened Arithmetic

  datatype Policy = Policy(threshold: int, window: int, lock: int)

  predicate Sound(p: Policy) {
    2 <= p.threshold && 0 < p.window <= p.lock
  }

  datatype Dimension = Dimension(counter: Option<Cell<int>>, lock: Option<Cell<int>>)

  /** What one login attempt does to one dimension. */
  datatype Effect = Fail | Clear | Idle

  datatype Event = Event(time: int, effect: Effect)

  predicate Counting(d: Dimension, now: int) {
    d.counter.Some? && Live(d.counter.value, now)
  }

  predicate Locked(d: Dimension, now: int) {
    d.lock.Some? && Live(d.lock.value, now)
  }

  /** INCR, EXPIRE on the first failure of a window, SET of the lock at the threshold. */
  function FailAt(d: Dimension, p: Policy, now: int): Dimension {
    var isNew := !Counting(d, now);
    var count := if isNew then 1 else d.counter.value.value + 1;
    var expiry := if count == 1 then Some(now + p.window) else if isNew then None else d.counter.value.expiry;
    Dimension(Some(Cell(count, expiry)),
              if count >= p.threshold then Some(Cell(1, Some(now + p.lock))) else d.lock)
  }

  function Next(d: Dimension, p: Policy, e: Event): Dimension {
    match e.effect
    case Fail => FailAt(d, p, e.time)
    case Clear => d.(counter := None)
    case Idle => d
  }

  /** The clock never runs backwards, and a locked dimension neither fails nor succeeds. */
  predicate Possible(d: Dimension, p: Policy, now: int, run: seq<Event>)
    decreases |run|
  {
    run == [] ||
    (&& now <= run[0].time
     && (Locked(d, run[0].time) ==> run[0].effect == Idle)
     && Possible(Next(d, p, run[0]), p, run[0].time, run[1..]))
  }

  function FailuresIn(run: seq<Event>, from: int, to: int): nat {
    if run == [] then 0
    else (if run[0].effect == Fail && from <= run[0].time < to then 1 else 0) + FailuresIn(run[1..], from, to)
  }

  function ClearsIn(run: seq<Event>, from: int, to: int): nat {
    if run == [] then 0
    else (if run[0].effect == Clear && from <= run[0].time < to then 1 else 0) + ClearsIn(run[1..], from, to)
  }

  /** The most failures that a window-long span with so many successes can hold. */
  function Bound(p: Policy, clears: nat): int {
    2 * p.threshold - 2 + clears * (p.threshold - 1)
  }

  /** A live counter stays within its threshold and expires within one window; a live lock
      outlasts it, and there is a live lock as soon as the threshold is reached. */
  predicate Inv(d: Dimension, p: Policy, now: int) {
    && (Locked(d, now) ==> d.lock.value.expiry.Some?)
    && (Counting(d, now) ==>
          && d.counter.value.expiry.Some?
          && d.counter.value.expiry.value <= now + p.window
          && 1 <= d.counter.value.value <= p.threshold
          && (d.counter.value.value == p.threshold ==> Locked(d, now))
          && (Locked(d, now) ==> d.counter.value.expiry.value <= d.lock.value.expiry.value))
  }

  lemma InvHolds(d: Dimension, p: Policy, now: int, e: Event)
    requires Sound(p) && Inv(d, p, now) && now <= e.time
    requires Locked(d, e.time) ==> e.effect == Idle
    ensures Inv(Next(d, p, e), p, e.time)
  {
  }

  /** How many failures can still happen before `to`, which is at most one window away. */
  function Room(d: Dimension, p: Policy, now: int, to: int): int
    requires Inv(d, p, now)
  {
    if Locked(d, now) then (if to <= d.lock.value.expiry.value then 0 else p.threshold)
    else if !Counting(d, now) then p.threshold
    else if to <= d.counter.value.expiry.value then p.threshold - d.counter.value.value
    else 2 * p.threshold - 1 - d.counter.value.value
  }

  /** A success gives back at most threshold - 1 failures. */
  lemma RoomStep(d: Dimension, p: Policy, now: int, e: Event, to: int)
    requires Sound(p) && Inv(d, p, now) && now <= e.time < to <= now + p.window
    requires Locked(d, e.time) ==> e.effect == Idle
    ensures Inv(Next(d, p, e), p, e.time)
    ensures Room(Next(d, p, e), p, e.time, to) + (if e.effect == Fail then 1 else 0)
         <= Room(d, p, now, to) + (if e.effect == Clear then p.threshold - 1 else 0)
  {
  }

  lemma MoreClears(p: Policy, clears: nat)
    ensures (clears + 1) * (p.threshold - 1) == clears * (p.threshold - 1) + (p.threshold - 1)
  {
  }

  lemma {:induction false} NothingFailsBefore(run: seq<Event>, d: Dimension, p: Policy, now: int, from: int, to: int)
    requires to <= now && Possible(d, p, now, run)
    ensures FailuresIn(run, from, to) == 0
    decreases |run|
  {
    if run != [] {
      NothingFailsBefore(run[1..], Next(d, p, run[0]), p, run[0].time, from, to);
    }
  }

  lemma {:induction false} RoomBounds(d: Dimension, p: Policy, now: int, run: seq<Event>, from: int, to: int)
    requires Sound(p) && Inv(d, p, now) && from <= now < to == from + p.window && Possible(d, p, now, run)
    ensures FailuresIn(run, from, to) <= Room(d, p, now, to) + ClearsIn(run, from, to) * (p.threshold - 1)
    decreases |run|
  {
    if run != [] {
      var e, rest := run[0], run[1..];
      if e.time < to {
        RoomStep(d, p, now, e, to);
        RoomBounds(Next(d, p, e), p, e.time, rest, from, to);
        MoreClears(p, ClearsIn(rest, from, to));
      } else {
        NothingFailsBefore(rest, Next(d, p, e), p, e.time, from, to);
        ProductIsNatural(ClearsIn(run, from, to), p.threshold - 1);
      }
    }
  }

  /** In any span of one window with n successes, at most 2 * threshold - 2 + n * (threshold - 1)
      checks fail. */
  lemma {:induction false} SpanBound(d: Dimension, p: Policy, now: int, run: seq<Event>, from: int, to: int)
    requires Sound(p) && Inv(d, p, now) && to == from + p.window && Possible(d, p, now, run)
    ensures FailuresIn(run, from, to) <= Bound(p, ClearsIn(run, from, to))
    decreases |run|
  {
    ProductIsNatural(ClearsIn(run, from, to), p.threshold - 1);
    if to <= now {
      NothingFailsBefore(run, d, p, now, from, to);
    } else if from <= now {
      RoomBounds(d, p, now, run, from, to);
    } else if run != [] {
      var e := run[0];
      InvHolds(d, p, now, e);
      if e.time < from {
        SpanBound(Next(d, p, e), p, e.time, run[1..], from, to);
      } else if e.time < to {
        RoomBounds(d, p, e.time, run, from, to);
      } else {
        NothingFailsBefore(run, d, p, e.time, from, to);
      }
    }
  }

  // The bound is exact for every number of successes. A first failure comes just before the
  // span and the rest of its window inside it; then every round stops one failure short and
  // succeeds; the last one does not stop.

  predicate Busy(run: seq<Event>) {
    forall e :: e in run ==> e.effect != Idle
  }

  predicate OnlyFailures(run: seq<Event>) {
    forall e :: e in run ==> e.effect == Fail
  }

  function Burst(count: nat, time: int): seq<Event> {
    seq(count, _ => Event(time, Fail))
  }

  lemma {:induction false} BurstRuns(d: Dimension, p: Policy, time: int, count: nat, rest: seq<Event>, from: int, to: int)
    requires !Locked(d, time) && Counting(d, time) && 1 <= d.counter.value.value
    requires d.counter.value.value + count < p.threshold && from <= time < to
    requires Possible(d.(counter := Some(Cell(d.counter.value.value + count, d.counter.value.expiry))), p, time, rest)
    ensures Possible(d, p, time, Burst(count, time) + rest)
    ensures FailuresIn(Burst(count, time) + rest, from, to) == count + FailuresIn(rest, from, to)
    ensures ClearsIn(Burst(count, time) + rest, from, to) == ClearsIn(rest, from, to)
    decreases count
  {
    var run := Burst(count, time) + rest;
    if count == 0 {
      assert run == rest;
      assert d.(counter := Some(Cell(d.counter.value.value, d.counter.value.expiry))) == d;
    } else {
      assert run[1..] == Burst(count - 1, time) + rest;
      BurstRuns(FailAt(d, p, time), p, time, count - 1, rest, from, to);
    }
  }

  /** One failure short of the threshold, all at one time, and then a last effect. */
  function Round(p: Policy, time: int, last: Effect, rest: seq<Event>): seq<Event>
    requires Sound(p)
  {
    [Event(time, Fail)] + (Burst(p.threshold - 2, time) + ([Event(time, last)] + rest))
  }

  function OneShort(d: Dimension, p: Policy, time: int): Dimension {
    Dimension(Some(Cell(p.threshold - 1, Some(time + p.window))), d.lock)
  }

  lemma RoundRuns(d: Dimension, p: Policy, time: int, last: Effect, rest: seq<Event>, from: int, to: int)
    requires Sound(p) && !Counting(d, time) && !Locked(d, time) && from <= time < to && last != Idle
    requires Possible(Next(OneShort(d, p, time), p, Event(time, last)), p, time, rest) && Busy(rest)
    ensures var run := Round(p, time, last, rest);
      && Possible(d, p, time, run) && Busy(run)
      && FailuresIn(run, from, to) == p.threshold - 1 + (if last == Fail then 1 else 0) + FailuresIn(rest, from, to)
      && ClearsIn(run, from, to) == (if last == Clear then 1 else 0) + ClearsIn(rest, from, to)
  {
    var ending := [Event(time, last)] + rest;
    assert ending[1..] == rest;
    var tail := Burst(p.threshold - 2, time) + ending;
    BurstRuns(FailAt(d, p, time), p, time, p.threshold - 2, ending, from, to);
    assert Round(p, time, last, rest)[1..] == tail;
  }

  function Rounds(p: Policy, time: int, n: nat): seq<Event>
    requires Sound(p)
  {
    if n == 0 then Round(p, time, Fail, []) else Round(p, time, Clear, Rounds(p, time, n - 1))
  }

  lemma {:induction false} RoundsRun(d: Dimension, p: Policy, time: int, n: nat, from: int, to: int)
    requires Sound(p) && !Counting(d, time) && !Locked(d, time) && from <= time < to
    ensures var run := Rounds(p, time, n);
      && Possible(d, p, time, run) && Busy(run)
      && FailuresIn(run, from, to) == p.threshold + n * (p.threshold - 1) && ClearsIn(run, from, to) == n
    decreases n
  {
    if n == 0 {
      RoundRuns(d, p, time, Fail, [], from, to);
    } else {
      RoundsRun(Next(OneShort(d, p, time), p, Event(time, Clear)), p, time, n - 1, from, to);
      RoundRuns(d, p, time, Clear, Rounds(p, time, n - 1), from, to);
      MoreClears(p, n - 1);
    }
  }

  lemma SpanBoundIsReached(p: Policy, n: nat, to: int) returns (run: seq<Event>)
    requires Sound(p) && 2 <= p.window && to == 1 + p.window
    ensures Possible(Dimension(None, None), p, 0, run) && Busy(run)
    ensures ClearsIn(run, 1, to) == n && FailuresIn(run, 1, to) == Bound(p, n)
    ensures n == 0 ==> OnlyFailures(run)
  {
    var d, w := Dimension(None, None), p.window;
    var rounds := Rounds(p, w, n);
    var d1 := FailAt(d, p, 0);
    RoundsRun(OneShort(d, p, 0), p, w, n, 1, to);
    BurstRuns(d1, p, w - 1, p.threshold - 2, rounds, 1, to);
    run := [Event(0, Fail)] + (Burst(p.threshold - 2, w - 1) + rounds);
    assert run[1..] == Burst(p.threshold - 2, w - 1) + rounds;
    assert n == 0 ==> OnlyFailures(rounds);
  }
}
