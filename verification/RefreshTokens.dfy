/** Token minting, the blacklist and the refresh/logout calls of AuthService. A JWT is a
    record of its claims; a signed token decodes strictly before its `exp` (section 4.1.4 of
    RFC 7519), an unsigned one never does. uuid4 is a counter that never repeats. */
module RefreshTokens {
  import opened Wrappers
  import opened RedisStore

  const JWT_REFRESH_TOKEN_EXPIRE_SECONDS := 7 * 86400
  const JWT_ACCESS_TOKEN_EXPIRE_SECONDS := 60 * 60
  const LOCAL_SSO_PROVIDER := "local"

  datatype Kind = Access | Refresh

  datatype Claims = Claims(jti: nat, exp: int, kind: Kind, sub: nat, provider: string, refreshVersion: Option<nat>)

  datatype Token = Token(signed: bool, claims: Claims)

  datatype Outcome =
    | Undecodable
    | NotARefreshToken
    | AdminLoginDisabled
    | Revoked
    | UserNotFound
    | Refreshed(access: Token, refresh: Token)

  /** What the check in front of every request makes of a token. */
  datatype Admission = TokenRevoked | InvalidToken | CurrentUser(user: nat)

  /** The blacklist keyed by jti, the next uuid, and each user's sso_provider. */
  datatype State = State(blacklist: map<nat, Cell<int>>, nextId: nat, users: map<nat, string>)

  function Decode(token: Token, now: int): Option<Claims> {
    if token.signed && now < token.claims.exp then Some(token.claims) else None
  }

  function MintAccess(id: nat, sub: nat, provider: string, now: int): Token {
    Token(true, Claims(id, now + JWT_ACCESS_TOKEN_EXPIRE_SECONDS, Access, sub, provider, None))
  }

  function MintRefresh(id: nat, sub: nat, provider: string, now: int): Token {
    Token(true, Claims(id, now + JWT_REFRESH_TOKEN_EXPIRE_SECONDS, Refresh, sub, provider, Some(id)))
  }

  function Blacklisted(blacklist: map<nat, Cell<int>>, token: Token, ttl: Option<int>, now: int): map<nat, Cell<int>> {
    match Decode(token, now)
    case None => blacklist
    case Some(claims) =>
      var remaining := if claims.exp > now then claims.exp - now else 0;
      Written(blacklist, claims.jti, 1, Some(if ttl.Some? then ttl.value else remaining), now)
  }

  function RefreshOutcome(s: State, token: Token, adminEnabled: bool, now: int): Outcome {
    match Decode(token, now)
    case None => Undecodable
    case Some(claims) =>
      if claims.kind != Refresh then NotARefreshToken
      else if claims.provider == LOCAL_SSO_PROVIDER && !adminEnabled then AdminLoginDisabled
      else if claims.refreshVersion.Some? && Lookup(s.blacklist, claims.refreshVersion.value, now).Some? then Revoked
      else if claims.sub !in s.users then UserNotFound
      else
        var provider := if claims.provider != "" then claims.provider else s.users[claims.sub];
        Refreshed(MintAccess(s.nextId, claims.sub, provider, now), MintRefresh(s.nextId + 1, claims.sub, provider, now))
  }

  function AfterRefresh(s: State, token: Token, adminEnabled: bool, now: int): State {
    if RefreshOutcome(s, token, adminEnabled, now).Refreshed?
    then s.(blacklist := Blacklisted(s.blacklist, token, None, now), nextId := s.nextId + 2)
    else s
  }

  function AfterLogout(s: State, access: Token, refresh: Option<Token>, now: int): State {
    var claims := Decode(access, now);
    var remaining := if claims.Some? && claims.value.exp > now then claims.value.exp - now else 0;
    var b1 := if remaining > 0 then Blacklisted(s.blacklist, access, Some(remaining), now) else s.blacklist;
    var b2 := if refresh.Some? then Blacklisted(b1, refresh.value, Some(JWT_REFRESH_TOKEN_EXPIRE_SECONDS), now) else b1;
    s.(blacklist := b2)
  }

  predicate Listed(s: State, token: Token, now: int) {
    var claims := Decode(token, now);
    claims.Some? && Lookup(s.blacklist, claims.value.jti, now).Some?
  }

  function CurrentUserOf(s: State, token: Token, now: int): Admission {
    if Listed(s, token, now) then TokenRevoked
    else
      var claims := Decode(token, now);
      if claims.Some? && claims.value.kind == Access then CurrentUser(claims.value.sub) else InvalidToken
  }

  class AuthService {
    const redis: Store<nat, int>
    var nextId: nat
    var users: map<nat, string>

    ghost function View(): State
      reads this, redis
    {
      State(redis.cells, nextId, users)
    }

    constructor (redis: Store<nat, int>)
      ensures this.redis == redis && nextId == 0 && users == map[]
    {
      this.redis, nextId, users := redis, 0, map[];
    }

    method AddTokenToBlacklist(token: Token, ttl: Option<int>, now: int)
      modifies redis
      ensures redis.cells == Blacklisted(old(redis.cells), token, ttl, now)
    {
      var claims := Decode(token, now);
      if claims.Some? {
        var seconds := claims.value.exp - now;
        if ttl.Some? {
          seconds := ttl.value;
        } else if seconds < 0 {
          seconds := 0;
        }
        redis.Set(claims.value.jti, 1, Some(seconds), now);
      }
    }

    /** A successful SSO or admin login: the user exists from then on and gets a fresh pair. */
    method LogIn(user: nat, provider: string, now: int) returns (access: Token, refresh: Token)
      modifies this
      ensures access == Token(true, Claims(old(nextId), now + 3600, Access, user, provider, None))
      ensures refresh == Token(true, Claims(old(nextId) + 1, now + 604800, Refresh, user, provider, Some(old(nextId) + 1)))
      ensures View() == old(View()).(nextId := old(nextId) + 2, users := old(users)[user := provider])
    {
      users := users[user := provider];
      access := MintAccess(nextId, user, provider, now);
      refresh := MintRefresh(nextId + 1, user, provider, now);
      nextId := nextId + 2;
    }

    method RefreshToken(token: Token, adminEnabled: bool, now: int) returns (outcome: Outcome)
      modifies this, redis
      ensures outcome == RefreshOutcome(old(View()), token, adminEnabled, now)
      ensures View() == AfterRefresh(old(View()), token, adminEnabled, now)
    {
      var payload := Decode(token, now);
      if payload.None? {
        return Undecodable;
      }
      var claims := payload.value;
      if claims.kind != Refresh {
        return NotARefreshToken;
      }
      if claims.provider == LOCAL_SSO_PROVIDER && !adminEnabled {
        return AdminLoginDisabled;
      }
      if claims.refreshVersion.Some? {
        var entry := redis.Get(claims.refreshVersion.value, now);
        if entry.Some? {
          return Revoked;
        }
      }
      if claims.sub !in users {
        return UserNotFound;
      }
      AddTokenToBlacklist(token, None, now);
      var provider := if claims.provider != "" then claims.provider else users[claims.sub];
      var access := MintAccess(nextId, claims.sub, provider, now);
      var refresh := MintRefresh(nextId + 1, claims.sub, provider, now);
      nextId := nextId + 2;
      return Refreshed(access, refresh);
    }

    method IsTokenBlacklisted(token: Token, now: int) returns (listed: bool)
      ensures listed == Listed(View(), token, now)
    {
      var claims := Decode(token, now);
      if claims.None? {
        return false;
      }
      var entry := redis.Get(claims.value.jti, now);
      listed := entry.Some?;
    }

    method GetCurrentUser(token: Token, now: int) returns (admission: Admission)
      ensures admission == CurrentUserOf(View(), token, now)
    {
      var listed := IsTokenBlacklisted(token, now);
      if listed {
        return TokenRevoked;
      }
      var claims := Decode(token, now);
      if claims.None? || claims.value.kind != Access {
        return InvalidToken;
      }
      return CurrentUser(claims.value.sub);
    }

    method Logout(access: Token, refresh: Option<Token>, now: int)
      modifies redis
      ensures View() == AfterLogout(old(View()), access, refresh, now)
    {
      var claims := Decode(access, now);
      if claims.Some? && claims.value.exp - now > 0 {
        AddTokenToBlacklist(access, Some(claims.value.exp - now), now);
      }
      if refresh.Some? {
        AddTokenToBlacklist(refresh.value, Some(JWT_REFRESH_TOKEN_EXPIRE_SECONDS), now);
      }
    }
  }

  // Runs of the service, and the chain of rotations each login starts

  datatype Event =
    | Login(time: int, user: nat, provider: string)
    | RefreshCall(time: int, token: Token, adminEnabled: bool)
    | LogoutCall(time: int, access: Token, refresh: Option<Token>)
    | UserRemoved(time: int, user: nat)

  datatype Issue = Issue(token: Token, lineage: nat)

  /** The service state together with the refresh and access tokens issued so far. */
  datatype World = World(state: State, issued: map<nat, Issue>)

  const INITIAL := World(State(map[], 0, map[]), map[])

  /** The next two ids become an access and a refresh token of the lineage. */
  function Minted(w: World, sub: nat, provider: string, lineage: nat, now: int): World {
    var id := w.state.nextId;
    World(w.state.(nextId := id + 2),
          w.issued[id := Issue(MintAccess(id, sub, provider, now), lineage)]
                  [id + 1 := Issue(MintRefresh(id + 1, sub, provider, now), lineage)])
  }

  function Next(w: World, e: Event): World {
    var s := w.state;
    match e
    case Login(now, user, provider) =>
      Minted(w.(state := s.(users := s.users[user := provider])), user, provider, s.nextId, now)
    case RefreshCall(now, token, adminEnabled) =>
      var outcome := RefreshOutcome(s, token, adminEnabled, now);
      if outcome.Refreshed? && token.claims.jti in w.issued then
        var spent := w.(state := s.(blacklist := Blacklisted(s.blacklist, token, None, now)));
        Minted(spent, token.claims.sub, outcome.refresh.claims.provider, w.issued[token.claims.jti].lineage, now)
      else w.(state := AfterRefresh(s, token, adminEnabled, now))
    case LogoutCall(now, access, refresh) => w.(state := AfterLogout(s, access, refresh, now))
    case UserRemoved(_, user) => w.(state := s.(users := s.users - {user}))
  }

  /** The trace of a step carries the service's own state. */
  lemma NextFollowsTheService(w: World, e: Event)
    ensures e.Login? ==>
              Next(w, e).state == w.state.(nextId := w.state.nextId + 2, users := w.state.users[e.user := e.provider])
    ensures e.RefreshCall? ==> Next(w, e).state == AfterRefresh(w.state, e.token, e.adminEnabled, e.time)
    ensures e.LogoutCall? ==> Next(w, e).state == AfterLogout(w.state, e.access, e.refresh, e.time)
  {
  }

  /** Signatures cannot be forged: a signed token is one the service has issued. */
  predicate Genuine(w: World, token: Token) {
    token.signed ==> token.claims.jti in w.issued && w.issued[token.claims.jti].token == token
  }

  predicate Possible(w: World, e: Event) {
    match e
    case RefreshCall(_, token, _) => Genuine(w, token)
    case LogoutCall(_, access, refresh) => Genuine(w, access) && (refresh.Some? ==> Genuine(w, refresh.value))
    case _ => true
  }

  predicate IsRun(w: World, now: int, run: seq<Event>)
    decreases |run|
  {
    run == [] || (now <= run[0].time && Possible(w, run[0]) && IsRun(Next(w, run[0]), run[0].time, run[1..]))
  }

  function After(w: World, run: seq<Event>): World
    decreases |run|
  {
    if run == [] then w else After(Next(w, run[0]), run[1..])
  }

  function Clock(now: int, run: seq<Event>): int {
    if run == [] then now else run[|run| - 1].time
  }

  predicate Acceptable(w: World, token: Token, adminEnabled: bool, now: int) {
    RefreshOutcome(w.state, token, adminEnabled, now).Refreshed?
  }

  predicate Spent(w: World, token: Token) {
    token.claims.jti in w.state.blacklist
  }

  predicate IssuedRefresh(w: World, jti: nat) {
    jti in w.issued && w.issued[jti].token.claims.kind == Refresh
  }

  /** Whatever blacklists a token outlives it, and each lineage has at most one token
      that is not spent. */
  ghost predicate Inv(w: World, now: int) {
    && (forall j :: j in w.issued ==>
          && j < w.state.nextId
          && w.issued[j].token.signed && w.issued[j].token.claims.jti == j
          && w.issued[j].token.claims.exp <= now + JWT_REFRESH_TOKEN_EXPIRE_SECONDS
          && w.issued[j].lineage < w.state.nextId)
    && (forall j :: IssuedRefresh(w, j) ==> w.issued[j].token.claims.refreshVersion == Some(j))
    && (forall j :: j in w.state.blacklist ==> j < w.state.nextId)
    && (forall j :: j in w.issued && j in w.state.blacklist ==>
          && w.state.blacklist[j].expiry.Some?
          && w.issued[j].token.claims.exp <= w.state.blacklist[j].expiry.value)
    && OneUnspent(w)
  }

  ghost predicate OneUnspent(w: World) {
    forall i, j :: IssuedRefresh(w, i) && IssuedRefresh(w, j) && w.issued[i].lineage == w.issued[j].lineage ==>
      i == j || i in w.state.blacklist || j in w.state.blacklist
  }

  lemma TimePasses(w: World, now: int, later: int)
    requires Inv(w, now) && now <= later
    ensures Inv(w, later)
  {
  }

  function WithBlacklist(w: World, blacklist: map<nat, Cell<int>>): World {
    w.(state := w.state.(blacklist := blacklist))
  }

  lemma BlacklistingHolds(w: World, now: int, token: Token, ttl: Option<int>)
    requires Inv(w, now) && Genuine(w, token)
    requires ttl.Some? ==> token.claims.exp <= now + ttl.value
    ensures Inv(WithBlacklist(w, Blacklisted(w.state.blacklist, token, ttl, now)), now)
  {
  }

  lemma MintingKeepsOneUnspent(w: World, now: int, sub: nat, provider: string, lineage: nat)
    requires Inv(w, now) && (LineageSpent(w, lineage) || lineage == w.state.nextId)
    ensures OneUnspent(Minted(w, sub, provider, lineage, now))
  {
    var w' := Minted(w, sub, provider, lineage, now);
    forall j | IssuedRefresh(w', j) ensures j == w.state.nextId + 1 || (IssuedRefresh(w, j) && w'.issued[j] == w.issued[j]) {}
  }

  lemma MintingHolds(w: World, now: int, sub: nat, provider: string, lineage: nat)
    requires Inv(w, now) && (LineageSpent(w, lineage) || lineage == w.state.nextId)
    ensures Inv(Minted(w, sub, provider, lineage, now), now)
  {
    MintingKeepsOneUnspent(w, now, sub, provider, lineage);
  }

  /** The blacklist entry of a genuine refresh token refuses it for as long as it decodes. */
  lemma SpentIsRefused(w: World, now: int, token: Token, adminEnabled: bool)
    requires Inv(w, now) && Genuine(w, token) && Spent(w, token)
    ensures !Acceptable(w, token, adminEnabled, now)
  {
    if token.signed && token.claims.kind == Refresh {
      assert IssuedRefresh(w, token.claims.jti);
    }
  }

  lemma AcceptanceSpendsTheLineage(w: World, now: int, token: Token, adminEnabled: bool)
    requires Inv(w, now) && Genuine(w, token) && Acceptable(w, token, adminEnabled, now)
    ensures var spent := WithBlacklist(w, Blacklisted(w.state.blacklist, token, None, now));
      LineageSpent(spent, w.issued[token.claims.jti].lineage)
  {
    var jti := token.claims.jti;
    assert IssuedRefresh(w, jti) && jti !in w.state.blacklist by {
      if Spent(w, token) {
        SpentIsRefused(w, now, token, adminEnabled);
      }
    }
  }

  ghost predicate Grows(w: World, w': World) {
    && w.issued.Keys <= w'.issued.Keys
    && (forall j :: j in w.issued ==> w'.issued[j] == w.issued[j])
    && w.state.blacklist.Keys <= w'.state.blacklist.Keys
  }

  lemma InvHolds(w: World, now: int, e: Event)
    requires Inv(w, now) && now <= e.time && Possible(w, e)
    ensures Inv(Next(w, e), e.time) && Grows(w, Next(w, e))
  {
    TimePasses(w, now, e.time);
    StepGrows(w, now, e);
    match e
    case Login(t, user, provider) =>
      MintingHolds(w.(state := w.state.(users := w.state.users[user := provider])), t, user, provider, w.state.nextId);
    case RefreshCall(t, token, adminEnabled) =>
      RefreshHolds(w, t, token, adminEnabled);
    case LogoutCall(t, access, refresh) =>
      LogoutHolds(w, t, access, refresh);
    case UserRemoved(_, _) =>
  }

  lemma StepGrows(w: World, now: int, e: Event)
    requires Inv(w, now)
    ensures Grows(w, Next(w, e))
  {
  }

  lemma RefreshHolds(w: World, now: int, token: Token, adminEnabled: bool)
    requires Inv(w, now) && Genuine(w, token)
    ensures Inv(Next(w, RefreshCall(now, token, adminEnabled)), now)
  {
    if Acceptable(w, token, adminEnabled, now) {
      AcceptanceSpendsTheLineage(w, now, token, adminEnabled);
      BlacklistingHolds(w, now, token, None);
      var spent := WithBlacklist(w, Blacklisted(w.state.blacklist, token, None, now));
      var provider := RefreshOutcome(w.state, token, adminEnabled, now).refresh.claims.provider;
      MintingHolds(spent, now, token.claims.sub, provider, w.issued[token.claims.jti].lineage);
    }
  }

  lemma LogoutHolds(w: World, now: int, access: Token, refresh: Option<Token>)
    requires Inv(w, now) && Genuine(w, access) && (refresh.Some? ==> Genuine(w, refresh.value))
    ensures Inv(w.(state := AfterLogout(w.state, access, refresh, now)), now)
  {
    var end := w.(state := AfterLogout(w.state, access, refresh, now));
    var w1 := w.(state := AfterLogout(w.state, access, None, now));
    AccessLogoutHolds(w, now, access, w1);
    if refresh.Some? {
      LongestHolds(w1, now, refresh.value, end);
    }
  }

  lemma AccessLogoutHolds(w: World, now: int, access: Token, w1: World)
    requires Inv(w, now) && Genuine(w, access) && w1 == w.(state := AfterLogout(w.state, access, None, now))
    ensures Inv(w1, now) && w1.issued == w.issued
  {
    if Decode(access, now).Some? {
      BlacklistingHolds(w, now, access, Some(access.claims.exp - now));
    }
  }

  /** No token outlives the time that logout gives its refresh token. */
  lemma LongestHolds(w: World, now: int, token: Token, end: World)
    requires Inv(w, now) && Genuine(w, token)
    requires end == WithBlacklist(w, Blacklisted(w.state.blacklist, token, Some(JWT_REFRESH_TOKEN_EXPIRE_SECONDS), now))
    ensures Inv(end, now)
  {
    if token.signed {
      BlacklistingHolds(w, now, token, Some(JWT_REFRESH_TOKEN_EXPIRE_SECONDS));
    }
  }

  lemma GrowthComposes(w: World, w1: World, w2: World)
    requires Grows(w, w1) && Grows(w1, w2)
    ensures Grows(w, w2)
  {
  }

  lemma {:induction false} InvHoldsAlong(w: World, now: int, run: seq<Event>, end: World, clock: int)
    requires Inv(w, now) && IsRun(w, now, run)
    requires end == After(w, run) && clock == Clock(now, run)
    ensures Inv(end, clock) && now <= clock && Grows(w, end)
    decreases |run|
  {
    if run != [] {
      var next := Next(w, run[0]);
      InvHolds(w, now, run[0]);
      assert clock == Clock(run[0].time, run[1..]);
      InvHoldsAlong(next, run[0].time, run[1..], end, clock);
      GrowthComposes(w, next, end);
    }
  }

  /** Two tokens of one login are never acceptable at the same time. */
  lemma AtMostOneAcceptable(run: seq<Event>, start: int, now: int, i: nat, j: nat, iEnabled: bool, jEnabled: bool)
    requires IsRun(INITIAL, start, run) && Clock(start, run) <= now
    requires var w := After(INITIAL, run);
      && i in w.issued && j in w.issued && w.issued[i].lineage == w.issued[j].lineage
      && Acceptable(w, w.issued[i].token, iEnabled, now) && Acceptable(w, w.issued[j].token, jEnabled, now)
    ensures i == j
  {
    var w := After(INITIAL, run);
    InvHoldsAlong(INITIAL, start, run, w, Clock(start, run));
    assert IssuedRefresh(w, i) && IssuedRefresh(w, j);
  }

  /** The call accepts the token, or is a logout that gets it in either argument. */
  predicate Spends(w: World, e: Event, token: Token) {
    || (e.RefreshCall? && e.token == token && Acceptable(w, token, e.adminEnabled, e.time))
    || (e.LogoutCall? && (e.access == token || e.refresh == Some(token)))
  }

  predicate SpentIn(w: World, run: seq<Event>, token: Token)
    decreases |run|
  {
    run != [] && (Spends(w, run[0], token) || SpentIn(Next(w, run[0]), run[1..], token))
  }

  lemma SpendingBlacklists(w: World, now: int, e: Event, token: Token)
    requires Inv(w, now) && now <= e.time && Possible(w, e) && Spends(w, e, token)
    requires token.signed && e.time < token.claims.exp
    ensures token.claims.jti in Next(w, e).state.blacklist
  {
  }

  lemma {:induction false} AfterSplits(w: World, now: int, before: seq<Event>, after: seq<Event>)
    requires IsRun(w, now, before + after)
    ensures IsRun(w, now, before) && IsRun(After(w, before), Clock(now, before), after)
    ensures After(w, before + after) == After(After(w, before), after)
    decreases |before|
  {
    if before == [] {
      assert before + after == after;
    } else {
      assert (before + after)[1..] == before[1..] + after;
      AfterSplits(Next(w, before[0]), before[0].time, before[1..], after);
      assert Clock(now, before) == Clock(before[0].time, before[1..]);
    }
  }

  /** A token that was accepted once, or passed to logout, is refused ever after. */
  lemma SpentForGood(before: seq<Event>, e: Event, after: seq<Event>, start: int, token: Token, adminEnabled: bool, now: int)
    requires IsRun(INITIAL, start, before + ([e] + after)) && Clock(start, before + ([e] + after)) <= now
    requires Spends(After(INITIAL, before), e, token)
    ensures !Acceptable(After(INITIAL, before + ([e] + after)), token, adminEnabled, now)
  {
    var w := Split(before, e, after, start);
    var end := After(Next(w, e), after);
    if Decode(token, now).Some? {
      SpendingBlacklists(w, e.time, e, token);
      assert Genuine(end, token) && Spent(end, token);
      TimePasses(end, Clock(e.time, after), now);
      SpentIsRefused(end, now, token, adminEnabled);
    }
  }

  /** The world in which `e` happens, and what the rest of the run keeps of it. */
  lemma Split(before: seq<Event>, e: Event, after: seq<Event>, start: int) returns (w: World)
    requires IsRun(INITIAL, start, before + ([e] + after))
    ensures w == After(INITIAL, before) && After(INITIAL, before + ([e] + after)) == After(Next(w, e), after)
    ensures Inv(w, e.time) && Possible(w, e) && Inv(Next(w, e), e.time) && IsRun(Next(w, e), e.time, after)
    ensures Inv(After(Next(w, e), after), Clock(e.time, after))
    ensures Grows(w, Next(w, e)) && Grows(Next(w, e), After(Next(w, e), after))
    ensures e.time <= Clock(e.time, after) == Clock(start, before + ([e] + after))
  {
    AfterSplits(INITIAL, start, before, [e] + after);
    w := After(INITIAL, before);
    InvHoldsAlong(INITIAL, start, before, w, Clock(start, before));
    assert ([e] + after)[1..] == after;
    TimePasses(w, Clock(start, before), e.time);
    InvHolds(w, Clock(start, before), e);
    InvHoldsAlong(Next(w, e), e.time, after, After(Next(w, e), after), Clock(e.time, after));
  }

  ghost predicate LineageSpent(w: World, lineage: nat) {
    lineage < w.state.nextId
    && forall j :: IssuedRefresh(w, j) && w.issued[j].lineage == lineage ==> j in w.state.blacklist
  }

  lemma {:induction false} LineageStaysSpent(w: World, now: int, run: seq<Event>, lineage: nat)
    requires Inv(w, now) && IsRun(w, now, run) && LineageSpent(w, lineage)
    ensures LineageSpent(After(w, run), lineage)
    decreases |run|
  {
    if run != [] {
      var e := run[0];
      InvHolds(w, now, e);
      LineageStaysSpentNow(w, now, e, lineage);
      LineageStaysSpent(Next(w, e), e.time, run[1..], lineage);
    }
  }

  lemma LineageStaysSpentNow(w: World, now: int, e: Event, lineage: nat)
    requires Inv(w, now) && now <= e.time && Possible(w, e) && Grows(w, Next(w, e)) && LineageSpent(w, lineage)
    ensures LineageSpent(Next(w, e), lineage)
  {
    if e.RefreshCall? && Acceptable(w, e.token, e.adminEnabled, e.time) {
      var jti := e.token.claims.jti;
      assert IssuedRefresh(w, jti);
      assert w.issued[jti].lineage != lineage by {
        if jti in w.state.blacklist {
          TimePasses(w, now, e.time);
          SpentIsRefused(w, e.time, e.token, e.adminEnabled);
        }
      }
    }
    var w' := Next(w, e);
    forall j | IssuedRefresh(w', j) && w'.issued[j].lineage == lineage ensures j in w'.state.blacklist {
      assert j in w.issued;
      assert IssuedRefresh(w, j);
    }
  }

  /** Logging out with the acceptable token of a login ends that login for good: none of its
      tokens, present or future, is ever accepted again. */
  lemma LogoutEndsTheLogin(before: seq<Event>, e: Event, after: seq<Event>, start: int, token: Token, other: nat,
                           wasEnabled: bool, adminEnabled: bool, now: int)
    requires IsRun(INITIAL, start, before + ([e] + after)) && Clock(start, before + ([e] + after)) <= now
    requires e.LogoutCall? && e.refresh == Some(token) && Acceptable(After(INITIAL, before), token, wasEnabled, e.time)
    requires var w := After(INITIAL, before + ([e] + after));
      other in w.issued && token.claims.jti in w.issued && w.issued[other].lineage == w.issued[token.claims.jti].lineage
    ensures var w := After(INITIAL, before + ([e] + after)); !Acceptable(w, w.issued[other].token, adminEnabled, now)
  {
    var w := Split(before, e, after, start);
    var lineage := w.issued[token.claims.jti].lineage;
    LogoutSpendsTheLineage(w, e, token, lineage, wasEnabled);
    LineageStaysSpent(Next(w, e), e.time, after, lineage);
    var end := After(Next(w, e), after);
    TimePasses(end, Clock(e.time, after), now);
    SpentLineageIsRefused(end, now, lineage, other, adminEnabled);
  }

  lemma LogoutSpendsTheLineage(w: World, e: Event, token: Token, lineage: nat, wasEnabled: bool)
    requires Inv(w, e.time) && Possible(w, e) && e.LogoutCall? && e.refresh == Some(token)
    requires Acceptable(w, token, wasEnabled, e.time) && lineage == w.issued[token.claims.jti].lineage
    ensures LineageSpent(Next(w, e), lineage)
  {
    AcceptanceSpendsTheLineage(w, e.time, token, wasEnabled);
  }

  lemma SpentLineageIsRefused(w: World, now: int, lineage: nat, other: nat, adminEnabled: bool)
    requires Inv(w, now) && LineageSpent(w, lineage) && other in w.issued && w.issued[other].lineage == lineage
    ensures !Acceptable(w, w.issued[other].token, adminEnabled, now)
  {
    if Acceptable(w, w.issued[other].token, adminEnabled, now) {
      assert IssuedRefresh(w, other);
      SpentIsRefused(w, now, w.issued[other].token, adminEnabled);
    }
  }

  /** The kill-switch consumes nothing: after it has rejected a token, that token is accepted
      later exactly when it would have been accepted without the rejected call. */
  lemma KillSwitchKeepsTheToken(w: World, token: Token, now: int, adminEnabled: bool, later: int)
    requires now <= later && RefreshOutcome(w.state, token, adminEnabled, now) == AdminLoginDisabled
    ensures Next(w, RefreshCall(now, token, adminEnabled)) == w
    ensures var w' := Next(w, RefreshCall(now, token, adminEnabled));
      Acceptable(w', token, true, later) <==>
        && later < token.claims.exp && token.claims.sub in w.state.users
        && (token.claims.refreshVersion.Some? ==> Lookup(w.state.blacklist, token.claims.refreshVersion.value, later).None?)
  {
  }

  lemma OnlySpendingBlacklists(w: World, now: int, e: Event, j: nat)
    requires Inv(w, now) && now <= e.time && Possible(w, e) && j in Next(w, e).issued
    requires j in Next(w, e).state.blacklist && j !in w.state.blacklist
    ensures j in w.issued && Spends(w, e, w.issued[j].token)
  {
  }

  /** Along a run a token lands on the blacklist exactly when something spends it,
      as long as it has not expired. */
  lemma {:induction false} BlacklistKeepsTheLedger(w: World, now: int, run: seq<Event>, end: World, clock: int, j: nat)
    requires Inv(w, now) && IsRun(w, now, run) && end == After(w, run) && clock == Clock(now, run)
    requires j in end.issued
    ensures j in end.state.blacklist ==> j in w.state.blacklist || SpentIn(w, run, end.issued[j].token)
    ensures SpentIn(w, run, end.issued[j].token) && clock < end.issued[j].token.claims.exp ==> j in end.state.blacklist
    decreases |run|
  {
    if run != [] {
      var e, next := run[0], Next(w, run[0]);
      InvHolds(w, now, e);
      assert clock == Clock(e.time, run[1..]);
      InvHoldsAlong(next, e.time, run[1..], end, clock);
      BlacklistKeepsTheLedger(next, e.time, run[1..], end, clock, j);
      LedgerStep(w, now, e, end, clock, j);
    }
  }

  lemma LedgerStep(w: World, now: int, e: Event, end: World, clock: int, j: nat)
    requires Inv(w, now) && now <= e.time <= clock && Possible(w, e) && Inv(end, clock) && j in end.issued
    requires Inv(Next(w, e), e.time) && Grows(Next(w, e), end)
    ensures j in Next(w, e).state.blacklist ==> j in w.state.blacklist || Spends(w, e, end.issued[j].token)
    ensures Spends(w, e, end.issued[j].token) && clock < end.issued[j].token.claims.exp ==> j in end.state.blacklist
  {
    var next, token := Next(w, e), end.issued[j].token;
    if j in next.state.blacklist && j !in w.state.blacklist {
      BlacklistedWasIssued(w, now, e, j);
      OnlySpendingBlacklists(w, now, e, j);
      StepGrows(w, now, e);
    }
    if Spends(w, e, token) && clock < token.claims.exp {
      SpendingBlacklists(w, now, e, token);
    }
  }

  lemma BlacklistedWasIssued(w: World, now: int, e: Event, j: nat)
    requires Inv(w, now) && Possible(w, e) && j in Next(w, e).state.blacklist && j !in w.state.blacklist
    ensures j in w.issued
  {
  }

  /** A refresh token the service has issued is acceptable exactly when it has not expired,
      its user exists, the kill-switch does not concern it, and no call so far has accepted
      it or logged it out. */
  lemma AcceptableIff(run: seq<Event>, start: int, now: int, j: nat, adminEnabled: bool)
    requires IsRun(INITIAL, start, run) && Clock(start, run) <= now && IssuedRefresh(After(INITIAL, run), j)
    ensures var w, token := After(INITIAL, run), After(INITIAL, run).issued[j].token;
      Acceptable(w, token, adminEnabled, now) <==>
        && now < token.claims.exp && token.claims.sub in w.state.users
        && (token.claims.provider == LOCAL_SSO_PROVIDER ==> adminEnabled)
        && !SpentIn(INITIAL, run, token)
  {
    var w, clock := After(INITIAL, run), Clock(start, run);
    InvHoldsAlong(INITIAL, start, run, w, clock);
    BlacklistKeepsTheLedger(INITIAL, start, run, w, clock, j);
    TimePasses(w, clock, now);
    if j in w.state.blacklist {
      SpentIsRefused(w, now, w.issued[j].token, adminEnabled);
    }
  }

  // What a login and a refresh hand out

  /** Two tokens under ids that nobody had, added to the issued ones as one lineage. The access
      token lives for an hour and the refresh token for seven days. */
  ghost predicate IssuesPair(w: World, w': World, access: Token, refresh: Token, sub: nat, provider: string, lineage: nat, now: int) {
    var a, r := access.claims.jti, refresh.claims.jti;
    && a != r && a !in w.issued && r !in w.issued && a !in w.state.blacklist && r !in w.state.blacklist
    && w'.issued == w.issued[a := Issue(access, lineage)][r := Issue(refresh, lineage)]
    && access == Token(true, Claims(a, now + 3600, Access, sub, provider, None))
    && refresh == Token(true, Claims(r, now + 604800, Refresh, sub, provider, Some(r)))
  }

  /** It is accepted for seven days, unless the kill-switch concerns it. */
  ghost predicate WorksForAWeek(w: World, refresh: Token, now: int) {
    forall enabled, later :: now <= later ==>
      (Acceptable(w, refresh, enabled, later) <==> later < now + 604800 && (refresh.claims.provider == "local" ==> enabled))
  }

  lemma MintedPair(w: World, now: int, sub: nat, provider: string, lineage: nat, w': World)
    requires Inv(w, now) && sub in w.state.users && w' == Minted(w, sub, provider, lineage, now)
    ensures var id := w.state.nextId;
      var access, refresh := MintAccess(id, sub, provider, now), MintRefresh(id + 1, sub, provider, now);
      && IssuesPair(w, w', access, refresh, sub, provider, lineage, now)
      && WorksForAWeek(w', refresh, now)
  {
    var refresh := MintRefresh(w.state.nextId + 1, sub, provider, now);
    forall enabled, later | now <= later
      ensures Acceptable(w', refresh, enabled, later) <==> later < now + 604800 && (provider == "local" ==> enabled)
    {
      assert Lookup(w'.state.blacklist, refresh.claims.jti, later).None?;
    }
  }

  lemma LoginAnswers(w: World, now: int, user: nat, provider: string, w': World, access: Token, refresh: Token)
    requires Inv(w, now) && w' == Next(w, Login(now, user, provider))
    requires access == MintAccess(w.state.nextId, user, provider, now) && refresh == MintRefresh(w.state.nextId + 1, user, provider, now)
    ensures IssuesPair(w, w', access, refresh, user, provider, w.state.nextId, now) && WorksForAWeek(w', refresh, now)
  {
    var known := w.(state := w.state.(users := w.state.users[user := provider]));
    MintedPair(known, now, user, provider, w.state.nextId, w');
  }

  /** In every run, a login starts a lineage of its own with a pair for its user. */
  lemma LoginIssuesItsPair(run: seq<Event>, start: int, user: nat, provider: string, now: int)
    returns (access: Token, refresh: Token, lineage: nat)
    requires IsRun(INITIAL, start, run) && Clock(start, run) <= now
    ensures var w := After(INITIAL, run);
      && IssuesPair(w, Next(w, Login(now, user, provider)), access, refresh, user, provider, lineage, now)
      && (forall j :: j in w.issued ==> w.issued[j].lineage != lineage)
      && WorksForAWeek(Next(w, Login(now, user, provider)), refresh, now)
  {
    var w, e := After(INITIAL, run), Login(now, user, provider);
    InvHoldsAlong(INITIAL, start, run, w, Clock(start, run));
    TimePasses(w, Clock(start, run), now);
    lineage := w.state.nextId;
    access, refresh := MintAccess(lineage, user, provider, now), MintRefresh(lineage + 1, user, provider, now);
    LoginAnswers(w, now, user, provider, Next(w, e), access, refresh);
  }

  /** In every run, an accepted refresh hands back exactly the pair that it issues: for the
      user and in the lineage of the spent token, which is refused from then on, while the
      new one is accepted. */
  lemma RefreshIssuesItsAnswer(run: seq<Event>, start: int, token: Token, adminEnabled: bool, now: int)
    requires IsRun(INITIAL, start, run) && Clock(start, run) <= now
    requires var w := After(INITIAL, run); Genuine(w, token) && Acceptable(w, token, adminEnabled, now)
    ensures var w, spent := After(INITIAL, run), token.claims;
      var w', answer := Next(w, RefreshCall(now, token, adminEnabled)), RefreshOutcome(w.state, token, adminEnabled, now);
      && IssuesPair(w, w', answer.access, answer.refresh, spent.sub,
                    if spent.provider != "" then spent.provider else w.state.users[spent.sub], w.issued[spent.jti].lineage, now)
      && answer.refresh != token && WorksForAWeek(w', answer.refresh, now)
      && w'.state.blacklist == w.state.blacklist[spent.jti := Cell(1, Some(spent.exp))]
      && forall enabled, later :: now <= later ==> !Acceptable(w', token, enabled, later)
  {
    var w, clock := After(INITIAL, run), Clock(start, run);
    InvHoldsAlong(INITIAL, start, run, w, clock);
    TimePasses(w, clock, now);
    RefreshAnswers(w, now, token, adminEnabled);
    SpentFromNowOn(w, now, token, adminEnabled);
  }

  lemma RefreshAnswers(w: World, now: int, token: Token, adminEnabled: bool)
    requires Inv(w, now) && Genuine(w, token) && Acceptable(w, token, adminEnabled, now)
    ensures var w', answer := Next(w, RefreshCall(now, token, adminEnabled)), RefreshOutcome(w.state, token, adminEnabled, now);
      var spent := token.claims;
      && IssuesPair(w, w', answer.access, answer.refresh, spent.sub,
                    if spent.provider != "" then spent.provider else w.state.users[spent.sub], w.issued[spent.jti].lineage, now)
      && answer.refresh != token && WorksForAWeek(w', answer.refresh, now)
      && w'.state.blacklist == w.state.blacklist[spent.jti := Cell(1, Some(spent.exp))]
  {
    var answer := RefreshOutcome(w.state, token, adminEnabled, now);
    var spent := WithBlacklist(w, Blacklisted(w.state.blacklist, token, None, now));
    BlacklistingHolds(w, now, token, None);
    MintedPair(spent, now, token.claims.sub, answer.refresh.claims.provider, w.issued[token.claims.jti].lineage,
               Next(w, RefreshCall(now, token, adminEnabled)));
  }

  lemma SpentFromNowOn(w: World, now: int, token: Token, adminEnabled: bool)
    requires Inv(w, now) && Genuine(w, token) && Acceptable(w, token, adminEnabled, now)
    ensures var w' := Next(w, RefreshCall(now, token, adminEnabled));
      forall enabled, later :: now <= later ==> !Acceptable(w', token, enabled, later)
  {
    var e := RefreshCall(now, token, adminEnabled);
    var w' := Next(w, e);
    InvHolds(w, now, e);
    forall enabled, later | now <= later ensures !Acceptable(w', token, enabled, later) {
      TimePasses(w', now, later);
      SpentIsRefused(w', later, token, enabled);
    }
  }

  /** All tokens of a lineage are for one user, once one of them names its provider all later
      ones name the same, and the one that is not spent is the last. */
  ghost predicate OneLogin(w: World) {
    forall i, j :: i in w.issued && j in w.issued && w.issued[i].lineage == w.issued[j].lineage ==>
      && w.issued[i].token.claims.sub == w.issued[j].token.claims.sub
      && (i <= j && w.issued[i].token.claims.provider != "" ==>
            w.issued[j].token.claims.provider == w.issued[i].token.claims.provider)
      && (IssuedRefresh(w, j) && j !in w.state.blacklist ==> i <= j)
  }

  /** A pair may join a lineage whose tokens are all spent, as long as it names their user and
      provider, or start one. */
  ghost predicate Continues(w: World, sub: nat, provider: string, lineage: nat) {
    LineageSpent(w, lineage) &&
    forall i :: i in w.issued && w.issued[i].lineage == lineage ==>
      w.issued[i].token.claims.sub == sub && w.issued[i].token.claims.provider in {"", provider}
  }

  lemma MintingKeepsOneLogin(w: World, now: int, sub: nat, provider: string, lineage: nat)
    requires Inv(w, now) && OneLogin(w) && (lineage == w.state.nextId || Continues(w, sub, provider, lineage))
    ensures OneLogin(Minted(w, sub, provider, lineage, now))
  {
    var w' := Minted(w, sub, provider, lineage, now);
    forall j | j in w'.issued ensures j in {w.state.nextId, w.state.nextId + 1} || (j in w.issued && w'.issued[j] == w.issued[j]) {}
  }

  lemma SpendingKeepsOneLogin(w: World, w': World)
    requires OneLogin(w) && Grows(w, w') && w'.issued == w.issued
    ensures OneLogin(w')
  {
  }

  lemma AcceptedIsTheLast(w: World, now: int, token: Token, adminEnabled: bool)
    requires Inv(w, now) && OneLogin(w) && Genuine(w, token) && Acceptable(w, token, adminEnabled, now)
    ensures var spent := WithBlacklist(w, Blacklisted(w.state.blacklist, token, None, now));
      Continues(spent, token.claims.sub, RefreshOutcome(w.state, token, adminEnabled, now).refresh.claims.provider,
                w.issued[token.claims.jti].lineage)
  {
    AcceptanceSpendsTheLineage(w, now, token, adminEnabled);
    assert IssuedRefresh(w, token.claims.jti) && token.claims.jti !in w.state.blacklist by {
      if Spent(w, token) {
        SpentIsRefused(w, now, token, adminEnabled);
      }
    }
  }

  lemma OneLoginStays(w: World, now: int, e: Event)
    requires Inv(w, now) && now <= e.time && Possible(w, e) && OneLogin(w)
    ensures OneLogin(Next(w, e))
  {
    StepGrows(w, now, e);
    if e.Login? {
      var known := w.(state := w.state.(users := w.state.users[e.user := e.provider]));
      TimePasses(w, now, e.time);
      MintingKeepsOneLogin(known, e.time, e.user, e.provider, w.state.nextId);
    } else if e.RefreshCall? && Acceptable(w, e.token, e.adminEnabled, e.time) {
      TimePasses(w, now, e.time);
      RefreshKeepsOneLogin(w, e.time, e.token, e.adminEnabled);
    } else {
      SpendingKeepsOneLogin(w, Next(w, e));
    }
  }

  lemma RefreshKeepsOneLogin(w: World, now: int, token: Token, adminEnabled: bool)
    requires Inv(w, now) && OneLogin(w) && Genuine(w, token) && Acceptable(w, token, adminEnabled, now)
    ensures OneLogin(Next(w, RefreshCall(now, token, adminEnabled)))
  {
    var spent := WithBlacklist(w, Blacklisted(w.state.blacklist, token, None, now));
    AcceptedIsTheLast(w, now, token, adminEnabled);
    BlacklistingHolds(w, now, token, None);
    SpendingKeepsOneLogin(w, spent);
    MintingKeepsOneLogin(spent, now, token.claims.sub, RefreshOutcome(w.state, token, adminEnabled, now).refresh.claims.provider,
                         w.issued[token.claims.jti].lineage);
  }

  lemma {:induction false} OneLoginAlong(w: World, now: int, run: seq<Event>)
    requires Inv(w, now) && IsRun(w, now, run) && OneLogin(w)
    ensures OneLogin(After(w, run))
    decreases |run|
  {
    if run != [] {
      InvHolds(w, now, run[0]);
      OneLoginStays(w, now, run[0]);
      OneLoginAlong(Next(w, run[0]), run[0].time, run[1..]);
    }
  }

  /** Over every run the tokens of a login stay those of its user and provider: so the
      kill-switch stops every later token of a local one. */
  lemma LoginKeepsItsUser(run: seq<Event>, start: int, i: nat, j: nat, now: int)
    requires IsRun(INITIAL, start, run)
    requires var w := After(INITIAL, run); i in w.issued && j in w.issued && w.issued[i].lineage == w.issued[j].lineage && i <= j
    ensures var w := After(INITIAL, run);
      var first, later := w.issued[i].token, w.issued[j].token;
      && first.claims.sub == later.claims.sub
      && (first.claims.provider != "" ==> later.claims.provider == first.claims.provider)
      && (first.claims.provider == "local" ==> !Acceptable(w, later, false, now))
  {
    OneLoginAlong(INITIAL, start, run);
  }

  /** Which way every token the service has issued is refused, after every run. */
  lemma RefusalsAreExact(run: seq<Event>, start: int, now: int, j: nat, adminEnabled: bool)
    requires IsRun(INITIAL, start, run) && Clock(start, run) <= now && j in After(INITIAL, run).issued
    ensures var w, token := After(INITIAL, run), After(INITIAL, run).issued[j].token;
      var outcome, disabled := RefreshOutcome(w.state, token, adminEnabled, now), token.claims.provider == "local" && !adminEnabled;
      && (outcome == Undecodable <==> token.claims.exp <= now)
      && (outcome == NotARefreshToken <==> now < token.claims.exp && token.claims.kind == Access)
      && (outcome == AdminLoginDisabled <==> now < token.claims.exp && token.claims.kind == Refresh && disabled)
      && (outcome == Revoked <==>
            now < token.claims.exp && token.claims.kind == Refresh && !disabled && SpentIn(INITIAL, run, token))
      && (outcome == UserNotFound <==>
            && now < token.claims.exp && token.claims.kind == Refresh && !disabled && !SpentIn(INITIAL, run, token)
            && token.claims.sub !in w.state.users)
  {
    var w, clock := After(INITIAL, run), Clock(start, run);
    InvHoldsAlong(INITIAL, start, run, w, clock);
    if IssuedRefresh(w, j) {
      BlacklistKeepsTheLedger(INITIAL, start, run, w, clock, j);
    }
  }

  /** After every run, the check that each request makes lets exactly the issued access tokens
      through that have not expired and that no logout has been given, each as its user. */
  lemma AdmittedIff(run: seq<Event>, start: int, now: int, j: nat)
    requires IsRun(INITIAL, start, run) && Clock(start, run) <= now && j in After(INITIAL, run).issued
    ensures var w, token := After(INITIAL, run), After(INITIAL, run).issued[j].token;
      var admission := CurrentUserOf(w.state, token, now);
      && (admission.CurrentUser? <==> token.claims.kind == Access && now < token.claims.exp && !SpentIn(INITIAL, run, token))
      && (admission.CurrentUser? ==> admission.user == token.claims.sub)
      && (admission == TokenRevoked <==> now < token.claims.exp && SpentIn(INITIAL, run, token))
  {
    var w, clock := After(INITIAL, run), Clock(start, run);
    InvHoldsAlong(INITIAL, start, run, w, clock);
    BlacklistKeepsTheLedger(INITIAL, start, run, w, clock, j);
  }

  /** Of an access token, only a logout that gets it does that. */
  lemma {:induction false} OnlyLogoutSpendsAccess(w: World, run: seq<Event>, token: Token)
    requires token.claims.kind == Access
    ensures SpentIn(w, run, token) <==> exists e :: e in run && e.LogoutCall? && (e.access == token || e.refresh == Some(token))
    decreases |run|
  {
    if run != [] {
      OnlyLogoutSpendsAccess(Next(w, run[0]), run[1..], token);
      assert run == [run[0]] + run[1..];
    }
  }

  /** A logout blacklists the access token for what is left of its life, and the refresh token
      for seven days, whatever is left of it. */
  lemma LogoutWritesBoth(w: World, now: int, access: Token, refresh: Token)
    requires access.signed && refresh.signed && now < access.claims.exp && now < refresh.claims.exp
    ensures Next(w, LogoutCall(now, access, Some(refresh))).state.blacklist ==
              w.state.blacklist[access.claims.jti := Cell(1, Some(access.claims.exp))]
                               [refresh.claims.jti := Cell(1, Some(now + 604800))]
  {
  }
}
