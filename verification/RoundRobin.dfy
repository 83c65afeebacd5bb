/** The rotation behind the key pool, on positions: a pool of n places of which some are
    blocked, and a probe that walks from a start to the first place that is not. Positions
    are unbounded integers read modulo n. */
module RoundRobin {
  import opened Arithmetic

  lemma ModUnique(a: int, q: int, r: int, n: int)
    requires 0 < n && a == n * q + r && 0 <= r < n
    ensures a % n == r && a / n == q
  {
    var q', r' := a / n, a % n;
    assert n * q - n * q' == r' - r;
    assert n * (q' + 1) == n * q' + n && n * (q + 1) == n * q + n;
    Cancel(n, q, q' + 1);
    Cancel(n, q', q + 1);
  }

  lemma ModPeriod(x: int, n: int)
    requires 0 < n
    ensures (x + n) % n == x % n && (x - n) % n == x % n
  {
    ModUnique(x + n, x / n + 1, x % n, n);
    ModUnique(x - n, x / n - 1, x % n, n);
  }

  lemma ModAdd(x: int, d: int, n: int)
    requires 0 < n
    ensures (x % n + d) % n == (x + d) % n
  {
    var y := x % n + d;
    ModUnique(x + d, x / n + y / n, y % n, n);
  }

  /** One lap from any start meets every place. */
  lemma Meets(n: int, x: int, i: int) returns (y: int)
    requires 0 <= i < n
    ensures x <= y < x + n && y % n == i
  {
    y := x + (i - x) % n;
    ModAdd(i - x, x, n);
    ModUnique(i, 0, i, n);
  }

  /** Within one lap after i, only the end of the lap lands on i again. */
  lemma OnceALap(i: int, p: int, n: int)
    requires 0 <= i < n && i < p <= i + n
    ensures p % n == i <==> p == i + n
  {
    ModPeriod(i, n);
    if p < n {
      ModUnique(p, 0, p, n);
    } else if p < i + n {
      ModUnique(p, 1, p - n, n);
    } else {
      ModUnique(i, 0, i, n);
    }
  }

  predicate BlockedAt(blocked: seq<bool>, x: int)
    requires blocked != []
  {
    blocked[x % |blocked|]
  }

  predicate SomeUsable(blocked: seq<bool>) {
    exists i :: 0 <= i < |blocked| && !blocked[i]
  }

  /** The first position from x on that is not blocked, or x + fuel. */
  function Probe(blocked: seq<bool>, x: int, fuel: nat): (r: int)
    requires blocked != []
    ensures x <= r <= x + fuel
    ensures r < x + fuel ==> !BlockedAt(blocked, r)
    ensures forall y :: x <= y < r ==> BlockedAt(blocked, y)
    decreases fuel
  {
    if fuel == 0 || !BlockedAt(blocked, x) then x else Probe(blocked, x + 1, fuel - 1)
  }

  /** The place that a rotation starting at x serves. */
  function Served(blocked: seq<bool>, x: int): int
    requires blocked != []
  {
    Probe(blocked, x, |blocked|) % |blocked|
  }

  lemma {:induction false} ProbePeriod(blocked: seq<bool>, x: int, fuel: nat)
    requires blocked != []
    ensures Probe(blocked, x + |blocked|, fuel) == Probe(blocked, x, fuel) + |blocked|
    decreases fuel
  {
    ModPeriod(x, |blocked|);
    if fuel > 0 && BlockedAt(blocked, x) {
      ProbePeriod(blocked, x + 1, fuel - 1);
    }
  }

  lemma ServedPeriod(blocked: seq<bool>, x: int)
    requires blocked != []
    ensures Served(blocked, x + |blocked|) == Served(blocked, x)
  {
    ProbePeriod(blocked, x, |blocked|);
    ModPeriod(Probe(blocked, x, |blocked|), |blocked|);
  }

  lemma {:induction false} ServedModulo(blocked: seq<bool>, x: int)
    requires blocked != []
    ensures Served(blocked, x % |blocked|) == Served(blocked, x)
    decreases if x < 0 then -x else x
  {
    var n := |blocked|;
    ModPeriod(x, n);
    if x < 0 {
      ServedPeriod(blocked, x);
      if x + n < -x {
        ServedModulo(blocked, x + n);
      } else {
        ModUnique(x + n, 0, x + n, n) by {
          assert x + n < n;
        }
      }
    } else if x >= n {
      ServedModulo(blocked, x - n);
      ServedPeriod(blocked, x - n);
    } else {
      ModUnique(x, 0, x, n);
    }
  }

  /** The number of blocked positions directly before y, at most fuel. */
  function RunBefore(blocked: seq<bool>, y: int, fuel: nat): (r: nat)
    requires blocked != []
    ensures r <= fuel
    decreases fuel
  {
    if fuel == 0 || !BlockedAt(blocked, y - 1) then 0 else 1 + RunBefore(blocked, y - 1, fuel - 1)
  }

  /** All of the run is blocked, and the position before it is not, unless the fuel ended it. */
  lemma {:induction false} RunIsBlocked(blocked: seq<bool>, y: int, fuel: nat, run: nat)
    requires blocked != [] && run == RunBefore(blocked, y, fuel)
    ensures forall x :: y - run <= x < y ==> BlockedAt(blocked, x)
    ensures run < fuel ==> !BlockedAt(blocked, y - run - 1)
    decreases fuel
  {
    if run > 0 {
      RunIsBlocked(blocked, y - 1, fuel - 1, run - 1);
    }
  }

  /** How often place i is served by the rotations starting at lo, ..., hi - 1. */
  function Shares(blocked: seq<bool>, i: int, lo: int, hi: int): nat
    requires blocked != [] && lo <= hi
    decreases hi - lo
  {
    if lo == hi then 0 else Shares(blocked, i, lo, hi - 1) + (if Served(blocked, hi - 1) == i then 1 else 0)
  }

  lemma {:induction false} SharesConstant(blocked: seq<bool>, i: int, lo: int, hi: int, yes: bool)
    requires blocked != [] && lo <= hi
    requires forall x :: lo <= x < hi ==> (Served(blocked, x) == i <==> yes)
    ensures Shares(blocked, i, lo, hi) == (if yes then hi - lo else 0)
    decreases hi - lo
  {
    if lo < hi {
      SharesConstant(blocked, i, lo, hi - 1, yes);
    }
  }

  lemma {:induction false} SharesSplit(blocked: seq<bool>, i: int, lo: int, mid: int, hi: int)
    requires blocked != [] && lo <= mid <= hi
    ensures Shares(blocked, i, lo, hi) == Shares(blocked, i, lo, mid) + Shares(blocked, i, mid, hi)
    decreases hi - mid
  {
    if mid < hi {
      SharesSplit(blocked, i, lo, mid, hi - 1);
    }
  }

  lemma ShareShifts(blocked: seq<bool>, i: int, x: int)
    requires blocked != []
    ensures Shares(blocked, i, x + 1, x + 1 + |blocked|) == Shares(blocked, i, x, x + |blocked|)
  {
    var n := |blocked|;
    SharesSplit(blocked, i, x, x + 1, x + n);
    ServedPeriod(blocked, x);
    assert Shares(blocked, i, x, x + 1) == (if Served(blocked, x) == i then 1 else 0) + Shares(blocked, i, x, x);
  }

  lemma {:induction false} AnyLap(blocked: seq<bool>, i: int, x: int, y: int)
    requires blocked != []
    ensures Shares(blocked, i, x, x + |blocked|) == Shares(blocked, i, y, y + |blocked|)
    decreases if x < y then y - x else x - y
  {
    if x < y {
      ShareShifts(blocked, i, x);
      AnyLap(blocked, i, x + 1, y);
    } else if y < x {
      ShareShifts(blocked, i, y);
      AnyLap(blocked, i, x, y + 1);
    }
  }

  /** On the lap that ends at i, place i is served exactly from within its blocked run. */
  lemma ServedFromTheRun(blocked: seq<bool>, i: int, x: int)
    requires 0 <= i < |blocked| && !blocked[i] && i < x <= i + |blocked|
    ensures Served(blocked, x) == i <==> i + |blocked| - RunBefore(blocked, i + |blocked|, |blocked|) <= x
  {
    var n := |blocked|;
    var end := i + n;
    var run := RunBefore(blocked, end, n);
    RunIsBlocked(blocked, end, n, run);
    ModPeriod(i, n);
    ModUnique(i, 0, i, n);
    assert !BlockedAt(blocked, end) && !BlockedAt(blocked, i);
    var p := Probe(blocked, x, n);
    assert p <= end;
    OnceALap(i, p, n);
    if end - run <= x {
      assert p == end;
    } else {
      assert run < n;
      assert p <= end - run - 1;
    }
  }

  lemma RunIsShort(blocked: seq<bool>, i: int)
    requires 0 <= i < |blocked| && !blocked[i]
    ensures RunBefore(blocked, i + |blocked|, |blocked|) < |blocked|
  {
    RunIsBlocked(blocked, i + |blocked|, |blocked|, RunBefore(blocked, i + |blocked|, |blocked|));
    ModUnique(i, 0, i, |blocked|);
    assert !BlockedAt(blocked, i);
  }

  /** From lo up to hi, place i is served by exactly the rotations from mid on. */
  ghost predicate ServedByTheTail(blocked: seq<bool>, i: int, lo: int, mid: int, hi: int)
    requires blocked != []
  {
    forall x :: lo <= x < hi ==> (Served(blocked, x) == i <==> mid <= x)
  }

  lemma SharesOfTail(blocked: seq<bool>, i: int, lo: int, mid: int, hi: int)
    requires blocked != [] && lo <= mid <= hi
    requires ServedByTheTail(blocked, i, lo, mid, hi)
    ensures Shares(blocked, i, lo, hi) == hi - mid
  {
    SharesSplit(blocked, i, lo, mid, hi);
    SharesConstant(blocked, i, lo, mid, false);
    SharesConstant(blocked, i, mid, hi, true);
  }

  lemma LapIsATail(blocked: seq<bool>, i: int, lo: int, mid: int, hi: int)
    requires 0 <= i < |blocked| && !blocked[i]
    requires lo == i + 1 && mid == i + |blocked| - RunBefore(blocked, i + |blocked|, |blocked|) && hi == i + 1 + |blocked|
    ensures lo <= mid <= hi && ServedByTheTail(blocked, i, lo, mid, hi)
  {
    RunIsShort(blocked, i);
    forall x | lo <= x < hi ensures Served(blocked, x) == i <==> mid <= x {
      ServedFromTheRun(blocked, i, x);
    }
  }

  lemma LastLap(blocked: seq<bool>, i: int, lo: int, mid: int, hi: int)
    requires 0 <= i < |blocked| && !blocked[i]
    requires lo == i + 1 && mid == i + |blocked| - RunBefore(blocked, i + |blocked|, |blocked|) && hi == i + 1 + |blocked|
    ensures mid <= hi && Shares(blocked, i, lo, hi) == hi - mid
  {
    LapIsATail(blocked, i, lo, mid, hi);
    SharesOfTail(blocked, i, lo, mid, hi);
  }

  lemma SameLaps(blocked: seq<bool>, i: int, lo: int, hi: int, lo': int, hi': int)
    requires blocked != [] && hi == lo + |blocked| && hi' == lo' + |blocked|
    ensures Shares(blocked, i, lo, hi) == Shares(blocked, i, lo', hi')
  {
    AnyLap(blocked, i, lo, lo');
  }

  /** Over any n consecutive rotations a usable place is served once for itself and once for
      each place of the blocked run cyclically before it. */
  lemma FairShare(blocked: seq<bool>, i: int, lo: int, hi: int)
    requires 0 <= i < |blocked| && !blocked[i] && hi == lo + |blocked|
    ensures Shares(blocked, i, lo, hi) == 1 + RunBefore(blocked, i + |blocked|, |blocked|)
  {
    var lo', mid, hi' := i + 1, i + |blocked| - RunBefore(blocked, i + |blocked|, |blocked|), i + 1 + |blocked|;
    LastLap(blocked, i, lo', mid, hi');
    SameLaps(blocked, i, lo, hi, lo', hi');
  }

  lemma ServedIsUsable(blocked: seq<bool>, x: int)
    requires blocked != [] && SomeUsable(blocked)
    ensures Probe(blocked, x, |blocked|) < x + |blocked| && !blocked[Served(blocked, x)]
  {
    var i :| 0 <= i < |blocked| && !blocked[i];
    var y := Meets(|blocked|, x, i);
    assert !BlockedAt(blocked, y);
  }

  lemma AllBlocked(blocked: seq<bool>, x: int)
    requires blocked != [] && !SomeUsable(blocked)
    ensures Probe(blocked, x, |blocked|) == x + |blocked|
  {
    var p := Probe(blocked, x, |blocked|);
    assert blocked[p % |blocked|];
  }
}
