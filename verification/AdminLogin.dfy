/** The local admin login of AuthService: both lockout dimensions live in one Redis store,
    and every attempt is one atomic step. */
module AdminLogin {
  import opened Wrappers
  import opened RedisStore
  import opened LockoutPolicy

  const ADMIN_LOGIN_MAX_FAILURES := 5
  const ADMIN_LOGIN_WINDOW_SECONDS := 15 * 60
  const ADMIN_LOGIN_LOCK_SECONDS := 15 * 60
  const ADMIN_LOGIN_IP_MAX_FAILURES := 20
  const ADMIN_LOGIN_IP_WINDOW_SECONDS := 60 * 60
  const ADMIN_LOGIN_IP_LOCK_SECONDS := 60 * 60

  /** The four RedisKeys builders; their prefixes differ, so they never collide. */
  datatype Key = FailKey(subject: Subject) | LockKey(subject: Subject)

  datatype Subject = Email(email: string) | Ip(ip: string)

  type Cells = map<Key, Cell<int>>

  /** adminEmail and hasPasswordHash are read from the settings; `verifies` is the answer of
      the bcrypt library, false when the configured hash is malformed. E-mails are already
      stripped and lower-cased. */
  datatype Attempt = Attempt(time: int, email: string, ip: string,
                             adminEmail: Option<string>, hasPasswordHash: bool, verifies: bool)

  /** Rejected and CheckFailed both surface as InvalidCredentials; only the latter has
      looked at the password. */
  datatype Outcome = AdminLoginDisabled | Rejected | CheckFailed | LoggedIn

  function PolicyOf(s: Subject): Policy {
    match s
    case Email(_) => Policy(ADMIN_LOGIN_MAX_FAILURES, ADMIN_LOGIN_WINDOW_SECONDS, ADMIN_LOGIN_LOCK_SECONDS)
    case Ip(_) => Policy(ADMIN_LOGIN_IP_MAX_FAILURES, ADMIN_LOGIN_IP_WINDOW_SECONDS, ADMIN_LOGIN_IP_LOCK_SECONDS)
  }

  predicate Enabled(a: Attempt) {
    a.adminEmail.Some? && a.hasPasswordHash
  }

  predicate PasswordOk(a: Attempt) {
    a.adminEmail == Some(a.email) && a.verifies
  }

  predicate LockedOut(cells: Cells, s: Subject, now: int) {
    Lookup(cells, LockKey(s), now).Some?
  }

  function Registered(cells: Cells, s: Subject, now: int): Cells {
    var p := PolicyOf(s);
    var counted := Incremented(cells, FailKey(s), now);
    var count := counted[FailKey(s)].value;
    var timed := if count == 1 then Expiring(counted, FailKey(s), p.window, now) else counted;
    if count >= p.threshold then Written(timed, LockKey(s), 1, Some(p.lock), now) else timed
  }

  function OutcomeOf(cells: Cells, a: Attempt): Outcome {
    if !Enabled(a) then AdminLoginDisabled
    else if LockedOut(cells, Email(a.email), a.time) || LockedOut(cells, Ip(a.ip), a.time) then Rejected
    else if PasswordOk(a) then LoggedIn
    else CheckFailed
  }

  function Attempted(cells: Cells, a: Attempt): Cells {
    match OutcomeOf(cells, a)
    case CheckFailed => Registered(Registered(cells, Email(a.email), a.time), Ip(a.ip), a.time)
    case LoggedIn => cells - {FailKey(Email(a.email))}
    case _ => cells
  }

  class AuthService {
    const redis: Store<Key, int>

    constructor (redis: Store<Key, int>)
      ensures this.redis == redis
    {
      this.redis := redis;
    }

    method CheckAdminLoginLocks(email: string, ip: string, now: int) returns (pass: bool)
      ensures pass <==> !LockedOut(redis.cells, Email(email), now) && !LockedOut(redis.cells, Ip(ip), now)
    {
      var emailLock := redis.Get(LockKey(Email(email)), now);
      var ipLock := redis.Get(LockKey(Ip(ip)), now);
      pass := emailLock.None? && ipLock.None?;
    }

    method RegisterAdminLoginFailure(s: Subject, now: int)
      modifies redis
      ensures redis.cells == Registered(old(redis.cells), s, now)
    {
      var p := PolicyOf(s);
      var count := Incr(redis, FailKey(s), now);
      if count == 1 {
        redis.Expire(FailKey(s), p.window, now);
      }
      if count >= p.threshold {
        redis.Set(LockKey(s), 1, Some(p.lock), now);
      }
    }

    method RecordAdminLoginFailure(email: string, ip: string, now: int)
      modifies redis
      ensures redis.cells == Registered(Registered(old(redis.cells), Email(email), now), Ip(ip), now)
    {
      RegisterAdminLoginFailure(Email(email), now);
      RegisterAdminLoginFailure(Ip(ip), now);
    }

    method ClearAdminLoginFailures(email: string)
      modifies redis
      ensures redis.cells == old(redis.cells) - {FailKey(Email(email))}
    {
      redis.Delete(FailKey(Email(email)));
    }

    method AdminLogin(a: Attempt) returns (outcome: Outcome)
      modifies redis
      ensures outcome == OutcomeOf(old(redis.cells), a)
      ensures redis.cells == Attempted(old(redis.cells), a)
    {
      if a.adminEmail.None? || !a.hasPasswordHash {
        return AdminLoginDisabled;
      }
      var pass := CheckAdminLoginLocks(a.email, a.ip, a.time);
      if !pass {
        return Rejected;
      }
      var passwordOk := false;
      if a.email == a.adminEmail.value {
        passwordOk := a.verifies;
      }
      if !passwordOk {
        RecordAdminLoginFailure(a.email, a.ip, a.time);
        return CheckFailed;
      }
      ClearAdminLoginFailures(a.email);
      return LoggedIn;
    }
  }

  // Runs of attempts against the shared store

  predicate Chronological(run: seq<Attempt>, now: int)
    decreases |run|
  {
    run == [] || (now <= run[0].time && Chronological(run[1..], run[0].time))
  }

  predicate Concerns(a: Attempt, s: Subject) {
    match s
    case Email(email) => a.email == email
    case Ip(ip) => a.ip == ip
  }

  /** The number of password checks concerning `s` that fail in the span. */
  function FailedChecks(cells: Cells, run: seq<Attempt>, s: Subject, from: int, to: int): nat
    decreases |run|
  {
    if run == [] then 0
    else
      var a := run[0];
      (if Concerns(a, s) && OutcomeOf(cells, a) == CheckFailed && from <= a.time < to then 1 else 0)
      + FailedChecks(Attempted(cells, a), run[1..], s, from, to)
  }

  /** How often somebody logs in as `email` within the span. */
  function Logins(cells: Cells, run: seq<Attempt>, email: string, from: int, to: int): nat
    decreases |run|
  {
    if run == [] then 0
    else
      (if run[0].email == email && OutcomeOf(cells, run[0]) == LoggedIn && from <= run[0].time < to then 1 else 0)
      + Logins(Attempted(cells, run[0]), run[1..], email, from, to)
  }

  /** Only a login clears a counter, and only that of its e-mail. */
  function ClearingLogins(cells: Cells, run: seq<Attempt>, s: Subject, from: int, to: int): nat {
    if s.Email? then Logins(cells, run, s.email, from, to) else 0
  }

  // Each subject sees its own dimension of the store

  function DimensionOf(cells: Cells, s: Subject): Dimension {
    Dimension(if FailKey(s) in cells then Some(cells[FailKey(s)]) else None,
              if LockKey(s) in cells then Some(cells[LockKey(s)]) else None)
  }

  function EffectOn(cells: Cells, a: Attempt, s: Subject): Effect {
    if !Concerns(a, s) then Idle
    else match OutcomeOf(cells, a)
         case CheckFailed => Fail
         case LoggedIn => if s.Email? then Clear else Idle
         case _ => Idle
  }

  function EffectsOn(cells: Cells, run: seq<Attempt>, s: Subject): seq<Event>
    decreases |run|
  {
    if run == [] then []
    else [Event(run[0].time, EffectOn(cells, run[0], s))] + EffectsOn(Attempted(cells, run[0]), run[1..], s)
  }

  lemma RegisteredProjects(cells: Cells, s: Subject, now: int, other: Subject)
    ensures DimensionOf(Registered(cells, s, now), other)
         == if other == s then FailAt(DimensionOf(cells, s), PolicyOf(s), now) else DimensionOf(cells, other)
  {
  }

  lemma StepProjects(cells: Cells, a: Attempt, s: Subject)
    ensures DimensionOf(Attempted(cells, a), s)
         == Next(DimensionOf(cells, s), PolicyOf(s), Event(a.time, EffectOn(cells, a, s)))
    ensures Locked(DimensionOf(cells, s), a.time) ==> EffectOn(cells, a, s) == Idle
  {
    if OutcomeOf(cells, a) == CheckFailed {
      var first := Registered(cells, Email(a.email), a.time);
      RegisteredProjects(cells, Email(a.email), a.time, s);
      RegisteredProjects(first, Ip(a.ip), a.time, s);
    }
  }

  lemma {:induction false} RunProjects(cells: Cells, run: seq<Attempt>, s: Subject, now: int, from: int, to: int, events: seq<Event>)
    requires Chronological(run, now) && events == EffectsOn(cells, run, s)
    ensures Possible(DimensionOf(cells, s), PolicyOf(s), now, events)
    ensures FailuresIn(events, from, to) == FailedChecks(cells, run, s, from, to)
    ensures ClearsIn(events, from, to) == ClearingLogins(cells, run, s, from, to)
    decreases |run|
  {
    if run != [] {
      var a := run[0];
      StepProjects(cells, a, s);
      assert events[0] == Event(a.time, EffectOn(cells, a, s));
      RunProjects(Attempted(cells, a), run[1..], s, a.time, from, to, events[1..]);
    }
  }

  /** Any 3600 s span of any run holds at most 38 failed password checks from one IP. */
  lemma IpLockoutBound(run: seq<Attempt>, start: int, ip: string, from: int)
    requires Chronological(run, start)
    ensures FailedChecks(map[], run, Ip(ip), from, from + 3600) <= 38
  {
    var s, to := Ip(ip), from + ADMIN_LOGIN_IP_WINDOW_SECONDS;
    var events := EffectsOn(map[], run, s);
    RunProjects(map[], run, s, start, from, to, events);
    SpanBound(DimensionOf(map[], s), PolicyOf(s), start, events, from, to);
  }

  /** Any 900 s span of any run holds at most 8 failed password checks for an e-mail, and
      four more for each login with it in the span. */
  lemma EmailLockoutBound(run: seq<Attempt>, start: int, email: string, from: int)
    requires Chronological(run, start)
    ensures var to := from + 900;
      FailedChecks(map[], run, Email(email), from, to) <= 8 + 4 * Logins(map[], run, email, from, to)
  {
    var s, to := Email(email), from + ADMIN_LOGIN_WINDOW_SECONDS;
    var events := EffectsOn(map[], run, s);
    RunProjects(map[], run, s, start, from, to, events);
    SpanBound(DimensionOf(map[], s), PolicyOf(s), start, events, from, to);
  }

  // Both bounds are exact: strangers share one subject and differ in the other one.

  /** An attempt at the subject by somebody new in the other dimension. */
  function Stranger(s: Subject, time: int, index: nat, verifies: bool): Attempt {
    var name := seq(index, _ => 'x');
    match s
    case Email(email) => Attempt(time, email, name, Some(email), true, verifies)
    case Ip(ip) => Attempt(time, name, ip, Some(name), true, verifies)
  }

  function Other(s: Subject, index: nat): Subject {
    var name := seq(index, _ => 'x');
    if s.Email? then Ip(name) else Email(name)
  }

  lemma StrangersDiffer(s: Subject, i: nat, k: nat)
    requires i != k
    ensures Other(s, k) != Other(s, i) && Other(s, k) != s
  {
    assert |seq(i, _ => 'x')| != |seq(k, _ => 'x')|;
  }

  ghost predicate NoStrangerYet(cells: Cells, s: Subject, index: nat) {
    forall k: nat :: index <= k ==> FailKey(Other(s, k)) !in cells && LockKey(Other(s, k)) !in cells
  }

  lemma StrangerIsChecked(cells: Cells, s: Subject, time: int, index: nat, verifies: bool, a: Attempt)
    requires a == Stranger(s, time, index, verifies) && !LockedOut(cells, s, time) && NoStrangerYet(cells, s, index)
    ensures OutcomeOf(cells, a) == if verifies then LoggedIn else CheckFailed
    ensures EffectOn(cells, a, s) == if !verifies then Fail else if s.Email? then Clear else Idle
  {
    assert !LockedOut(cells, Other(s, index), time);
    assert {Email(a.email), Ip(a.ip)} == {s, Other(s, index)};
  }

  lemma StrangersStayNew(cells: Cells, s: Subject, time: int, index: nat, verifies: bool, a: Attempt)
    requires a == Stranger(s, time, index, verifies) && NoStrangerYet(cells, s, index)
    ensures NoStrangerYet(Attempted(cells, a), s, index + 1)
  {
    forall k: nat | index < k
      ensures FailKey(Other(s, k)) !in Attempted(cells, a) && LockKey(Other(s, k)) !in Attempted(cells, a)
    {
      StrangersDiffer(s, index, k);
    }
  }

  /** Every possible run of failures and successes of an e-mail, and every one of failures of
      an IP, is what some run of attempts does to it. */
  lemma {:induction false} Realise(cells: Cells, events: seq<Event>, s: Subject, now: int, index: nat) returns (run: seq<Attempt>)
    requires Possible(DimensionOf(cells, s), PolicyOf(s), now, events) && Busy(events)
    requires s.Ip? ==> OnlyFailures(events)
    requires NoStrangerYet(cells, s, index)
    ensures Chronological(run, now) && EffectsOn(cells, run, s) == events
    decreases |events|
  {
    run := [];
    if events != [] {
      var time, verifies := events[0].time, events[0].effect == Clear;
      var a := Stranger(s, time, index, verifies);
      assert events[0] in events;
      StrangerIsChecked(cells, s, time, index, verifies, a);
      StrangersStayNew(cells, s, time, index, verifies, a);
      StepProjects(cells, a, s);
      var rest := Realise(Attempted(cells, a), events[1..], s, time, index + 1);
      run := [a] + rest;
      assert run[1..] == rest && events == [events[0]] + events[1..];
    }
  }

  lemma EmailBoundIsReached(email: string, n: nat) returns (run: seq<Attempt>)
    ensures Chronological(run, 0) && Logins(map[], run, email, 1, 901) == n
    ensures FailedChecks(map[], run, Email(email), 1, 901) == 8 + 4 * n
  {
    var s, to := Email(email), 1 + ADMIN_LOGIN_WINDOW_SECONDS;
    var events := SpanBoundIsReached(PolicyOf(s), n, to);
    run := Realise(map[], events, s, 0, 0);
    RunProjects(map[], run, s, 0, 1, to, events);
  }

  lemma IpBoundIsReached(ip: string) returns (run: seq<Attempt>)
    ensures Chronological(run, 0)
    ensures FailedChecks(map[], run, Ip(ip), 1, 3601) == 38
  {
    var s, to := Ip(ip), 1 + ADMIN_LOGIN_IP_WINDOW_SECONDS;
    var events := SpanBoundIsReached(PolicyOf(s), 0, to);
    run := Realise(map[], events, s, 0, 0);
    RunProjects(map[], run, s, 0, 1, to, events);
  }

  // Who gets in

  /** Each attempt's answer: disabled without a complete configuration, and otherwise, unless
      a lock of the e-mail or the IP refuses it, a login exactly for the configured e-mail with
      the password that the hash verifies. */
  lemma OutcomesAreExact(cells: Cells, a: Attempt)
    ensures var open := a.adminEmail.Some? && a.hasPasswordHash;
      var locked := Lookup(cells, LockKey(Email(a.email)), a.time).Some? || Lookup(cells, LockKey(Ip(a.ip)), a.time).Some?;
      var admin := a.adminEmail == Some(a.email) && a.verifies;
      && (OutcomeOf(cells, a) == AdminLoginDisabled <==> !open)
      && (OutcomeOf(cells, a) == Rejected <==> open && locked)
      && (OutcomeOf(cells, a) == LoggedIn <==> open && !locked && admin)
      && (OutcomeOf(cells, a) == CheckFailed <==> open && !locked && !admin)
  {
  }

  /** Over any run, nobody logs in with an e-mail that is not configured, whatever password
      is given and whatever the locks. */
  lemma {:induction false} OnlyTheAdminLogsIn(cells: Cells, run: seq<Attempt>, email: string, from: int, to: int)
    requires forall a :: a in run && a.email == email ==> a.adminEmail != Some(email) || !a.verifies
    ensures Logins(cells, run, email, from, to) == 0
    decreases |run|
  {
    if run != [] {
      assert run[0] in run;
      OnlyTheAdminLogsIn(Attempted(cells, run[0]), run[1..], email, from, to);
    }
  }
}
