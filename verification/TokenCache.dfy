/** The OAuth token cache in memory and the token stored in the keychain. */
module TokenCache {
  import opened Prelude

  const MAX: nat := 0xFFFF_FFFF_FFFF_FFFF
  const SKEW: nat := 30
  const FALLBACK_TTL: nat := 3600

  /** Seconds since the epoch, and durations in seconds. */
  type U64 = n: nat | n <= MAX

  datatype Grant = ClientCredentials | Password | AuthorizationCode

  datatype Cached = Cached(access: string, refresh: Option<string>, expiresAt: int)

  datatype Stored = Stored(
    access: string, refresh: Option<string>, tokenType: Option<string>, expiresAt: Option<U64>, scope: Option<string>)

  datatype Response = Response(
    access: string, refresh: Option<string>, tokenType: Option<string>, expiresIn: U64, scope: Option<string>)

  /** What the surroundings do during one call: the time, whether the keychain can be read
    * and written, and what the token endpoint answers (None for a failed request). */
  datatype Env = Env(now: U64, readable: bool, writable: bool, refreshed: Option<Response>, fetched: Option<Response>)

  datatype Error = KeychainError | NoToken | Expired | RequestFailed | StoreFailed | BadHeader | NoRefreshToken

  datatype State = State(grant: Grant, cached: Option<Cached>, stored: Option<Stored>)

  function Saturated(n: nat): U64 {
    if n <= MAX then n else MAX
  }

  predicate CachedExpired(t: Cached, now: int) {
    now >= t.expiresAt - SKEW
  }

  predicate StoredExpired(t: Stored, now: nat) {
    t.expiresAt.Some? && Saturated(now + SKEW) >= t.expiresAt.value
  }

  function ToCached(r: Response, now: nat): Cached {
    Cached(r.access, r.refresh, now + r.expiresIn)
  }

  function ToStored(r: Response, now: nat): Stored {
    Stored(r.access, r.refresh, r.tokenType, Some(Saturated(now + r.expiresIn)), r.scope)
  }

  function StoredToCached(t: Stored, now: nat): Cached {
    var expiresAt :=
      match t.expiresAt
      case None => now + FALLBACK_TTL
      case Some(e) => if e > now then now + (e - now) else now - 1;
    Cached(t.access, t.refresh, expiresAt)
  }

  predicate ValidHeader(text: string) {
    forall i :: 0 <= i < |text| ==> text[i] == '\t' || (text[i] >= ' ' && text[i] != '\U{7F}')
  }

  function Bearer(access: string): Result<string, Error> {
    if ValidHeader(access) then Ok("Bearer " + access) else Err(BadHeader)
  }

  /** The header of a live cached token. */
  function Live(s: State, now: nat): Option<Result<string, Error>> {
    if s.cached.Some? && !CachedExpired(s.cached.value, now) then Some(Bearer(s.cached.value.access)) else None
  }

  /** A token is cached only once its header could be built. */
  function Install(s: State, token: Cached): (State, Result<string, Error>) {
    match Bearer(token.access)
    case Err(e) => (s, Err(e))
    case Ok(header) => (s.(cached := Some(token)), Ok(header))
  }

  function AuthenticateCodeStep(s: State, env: Env): (State, Result<string, Error>) {
    if Live(s, env.now).Some? then (s, Live(s, env.now).value)
    else if !env.readable then (s, Err(KeychainError))
    else if s.stored.None? then (s, Err(NoToken))
    else if !StoredExpired(s.stored.value, env.now) then Install(s, StoredToCached(s.stored.value, env.now))
    else if s.stored.value.refresh.None? then (s, Err(Expired))
    else if env.refreshed.None? then (s, Err(RequestFailed))
    else if !env.writable then (s, Err(StoreFailed))
    else
      Install(s.(stored := Some(ToStored(env.refreshed.value, env.now))), ToCached(env.refreshed.value, env.now))
  }

  function AuthenticateStep(s: State, env: Env): (State, Result<string, Error>) {
    if s.grant.AuthorizationCode? then AuthenticateCodeStep(s, env)
    else if Live(s, env.now).Some? then (s, Live(s, env.now).value)
    else if env.fetched.None? then (s, Err(RequestFailed))
    else Install(s, ToCached(env.fetched.value, env.now))
  }

  /** The refresh token to use: the cached one, or else the stored one. */
  function RefreshToken(s: State, env: Env): Option<string> {
    if s.cached.Some? && s.cached.value.refresh.Some? then s.cached.value.refresh
    else if s.grant.AuthorizationCode? && env.readable && s.stored.Some? then s.stored.value.refresh
    else None
  }

  function FetchAndCache(s: State, env: Env): (State, Result<bool, Error>) {
    match env.fetched
    case None => (s, Err(RequestFailed))
    case Some(r) => (s.(cached := Some(ToCached(r, env.now))), Ok(true))
  }

  function RefreshStep(s: State, env: Env): (State, Result<bool, Error>) {
    if RefreshToken(s, env).Some? then
      match env.refreshed
      case Some(r) =>
        if !s.grant.AuthorizationCode? then (s.(cached := Some(ToCached(r, env.now))), Ok(true))
        else if !env.writable then (s, Err(StoreFailed))
        else (s.(cached := Some(ToCached(r, env.now)), stored := Some(ToStored(r, env.now))), Ok(true))
      case None => if s.grant.AuthorizationCode? then (s, Err(RequestFailed)) else FetchAndCache(s, env)
    else if s.grant.AuthorizationCode? then (s, Err(NoRefreshToken))
    else FetchAndCache(s, env)
  }

  // --- The authenticator -----------------------------------------------------------------

  /** The keychain entry of one profile. */
  class Keychain {
    var token: Option<Stored>

    constructor (token: Option<Stored>)
      ensures this.token == token
    {
      this.token := token;
    }

    method Store(stored: Stored, writable: bool) returns (ok: bool)
      modifies this
      ensures ok == writable && token == if writable then Some(stored) else old(token)
    {
      if writable {
        token := Some(stored);
      }
      ok := writable;
    }
  }

  class OAuth2Auth {
    const grant: Grant
    const keychain: Keychain
    var cached: Option<Cached>

    ghost function View(): State
      reads this, keychain
    {
      State(grant, cached, keychain.token)
    }

    constructor (grant: Grant, keychain: Keychain)
      ensures this.keychain == keychain && View() == State(grant, None, keychain.token)
    {
      this.grant, this.keychain, cached := grant, keychain, None;
    }

    method AuthenticateAuthorizationCode(env: Env) returns (r: Result<string, Error>)
      requires grant.AuthorizationCode?
      modifies this, keychain
      ensures (View(), r) == AuthenticateCodeStep(old(View()), env)
    {
      if cached.Some? && !CachedExpired(cached.value, env.now) {
        return Bearer(cached.value.access);
      }
      if !env.readable {
        return Err(KeychainError);
      }
      if keychain.token.None? {
        return Err(NoToken);
      }
      var stored := keychain.token.value;
      var token: Cached;
      if !StoredExpired(stored, env.now) {
        token := StoredToCached(stored, env.now);
      } else if stored.refresh.Some? {
        if env.refreshed.None? {
          return Err(RequestFailed);
        }
        var saved := keychain.Store(ToStored(env.refreshed.value, env.now), env.writable);
        if !saved {
          return Err(StoreFailed);
        }
        token := ToCached(env.refreshed.value, env.now);
      } else {
        return Err(Expired);
      }
      r := Bearer(token.access);
      if r.Ok? {
        cached := Some(token);
      }
    }

    method Authenticate(env: Env) returns (r: Result<string, Error>)
      modifies this, keychain
      ensures (View(), r) == AuthenticateStep(old(View()), env)
    {
      if grant.AuthorizationCode? {
        r := AuthenticateAuthorizationCode(env);
        return;
      }
      if cached.Some? && !CachedExpired(cached.value, env.now) {
        return Bearer(cached.value.access);
      }
      if env.fetched.None? {
        return Err(RequestFailed);
      }
      var token := ToCached(env.fetched.value, env.now);
      r := Bearer(token.access);
      if r.Ok? {
        cached := Some(token);
      }
    }

    method Refresh(env: Env) returns (r: Result<bool, Error>)
      modifies this, keychain
      ensures (View(), r) == RefreshStep(old(View()), env)
    {
      var refreshToken := if cached.Some? then cached.value.refresh else None;
      if refreshToken.None? && grant.AuthorizationCode? && env.readable && keychain.token.Some? {
        refreshToken := keychain.token.value.refresh;
      }
      var token: Cached;
      if refreshToken.Some? && env.refreshed.Some? {
        if grant.AuthorizationCode? {
          var saved := keychain.Store(ToStored(env.refreshed.value, env.now), env.writable);
          if !saved {
            return Err(StoreFailed);
          }
        }
        token := ToCached(env.refreshed.value, env.now);
      } else if grant.AuthorizationCode? {
        return Err(if refreshToken.Some? then RequestFailed else NoRefreshToken);
      } else if env.fetched.None? {
        return Err(RequestFailed);
      } else {
        token := ToCached(env.fetched.value, env.now);
      }
      cached := Some(token);
      r := Ok(true);
    }
  }

  // --- Cache and keychain ---------------------------------------------------------------------

  /** A cached token is the stored one, with its expiry when one was recorded. */
  predicate Synced(s: State) {
    s.cached.Some? ==>
      && s.stored.Some?
      && s.cached.value.access == s.stored.value.access
      && s.cached.value.refresh == s.stored.value.refresh
      && (s.stored.value.expiresAt.Some? ==> s.cached.value.expiresAt == s.stored.value.expiresAt.value)
  }

  /** Times of expiry stay within the clock's range. */
  predicate Representable(env: Env) {
    env.refreshed.Some? ==> env.now + env.refreshed.value.expiresIn <= MAX
  }

  predicate ValidReply(env: Env) {
    env.refreshed.Some? ==> ValidHeader(env.refreshed.value.access)
  }

  predicate CachedIsValid(s: State) {
    s.cached.Some? ==> ValidHeader(s.cached.value.access)
  }

  /** The branch of authenticate that stores a refreshed token. */
  predicate StoresRefreshed(s: State, env: Env) {
    && Live(s, env.now).None? && env.readable && s.stored.Some? && StoredExpired(s.stored.value, env.now)
    && s.stored.value.refresh.Some? && env.refreshed.Some? && env.writable
  }

  /** Authenticate keeps the cache in step with the keychain, except exactly when it stores
    * a refreshed token that makes no header while an older one is cached. */
  lemma AuthenticateKeepsSync(s: State, env: Env)
    requires s.grant.AuthorizationCode? && Synced(s) && CachedIsValid(s) && Representable(env)
    ensures Synced(AuthenticateStep(s, env).0)
        <==> !(StoresRefreshed(s, env) && s.cached.Some? && !ValidHeader(env.refreshed.value.access))
    ensures CachedIsValid(AuthenticateStep(s, env).0)
  {
    hide ValidHeader;
  }

  /** Refresh keeps them in step whatever the reply. */
  lemma RefreshKeepsSync(s: State, env: Env)
    requires s.grant.AuthorizationCode? && Synced(s) && Representable(env)
    ensures Synced(RefreshStep(s, env).0)
  {
  }

  datatype Call = Authenticating(env: Env) | Refreshing(env: Env)

  function After(s: State, call: Call): State {
    match call
    case Authenticating(env) => AuthenticateStep(s, env).0
    case Refreshing(env) => RefreshStep(s, env).0
  }

  function AfterAll(s: State, calls: seq<Call>): State {
    if calls == [] then s else After(AfterAll(s, calls[..|calls| - 1]), calls[|calls| - 1])
  }

  predicate Proper(call: Call) {
    Representable(call.env) && ValidReply(call.env)
  }

  /** After every run from an empty cache, whatever requests, reads and writes fail, a
    * cached token is the stored token. */
  lemma {:induction false} CacheFollowsKeychain(s: State, calls: seq<Call>)
    requires s.grant.AuthorizationCode? && s.cached.None?
    requires forall i :: 0 <= i < |calls| ==> Proper(calls[i])
    ensures var end := AfterAll(s, calls); end.grant == s.grant && Synced(end) && CachedIsValid(end)
  {
    hide ValidHeader;
    if calls == [] {
    } else {
      var n := |calls| - 1;
      var before, call := AfterAll(s, calls[..n]), calls[n];
      CacheFollowsKeychain(s, calls[..n]);
      match call
      case Authenticating(env) => AuthenticateKeepsSync(before, env);
      case Refreshing(env) => RefreshKeepsSync(before, env);
    }
  }

  /** With a recorded expiry, the memory test and the keychain test agree at every time. */
  lemma ExpiryTestsAgree(s: State, calls: seq<Call>, now: nat)
    requires s.grant.AuthorizationCode? && s.cached.None?
    requires forall i :: 0 <= i < |calls| ==> Proper(calls[i])
    ensures var end := AfterAll(s, calls);
            end.cached.Some? && end.stored.Some? && end.stored.value.expiresAt.Some? ==>
              (CachedExpired(end.cached.value, now) <==> StoredExpired(end.stored.value, now))
  {
    CacheFollowsKeychain(s, calls);
  }

  /** The header authenticate returns is always that of the token in the keychain. */
  lemma HeaderIsOfStoredToken(s: State, calls: seq<Call>, env: Env)
    requires s.grant.AuthorizationCode? && s.cached.None?
    requires forall i :: 0 <= i < |calls| ==> Proper(calls[i])
    requires Proper(Authenticating(env))
    ensures var (end, r) := AuthenticateStep(AfterAll(s, calls), env);
            r.Ok? ==> end.stored.Some? && r.value == "Bearer " + end.stored.value.access
  {
    hide ValidHeader;
    CacheFollowsKeychain(s, calls);
  }

  /** Grants other than authorization code never touch the keychain token. */
  lemma {:induction false} OtherGrantsLeaveTheKeychain(s: State, calls: seq<Call>)
    requires !s.grant.AuthorizationCode?
    ensures AfterAll(s, calls).stored == s.stored && AfterAll(s, calls).grant == s.grant
  {
    if calls == [] {
    } else {
      OtherGrantsLeaveTheKeychain(s, calls[..|calls| - 1]);
    }
  }

  /** A reply that makes no header can leave an old token in memory and a new one stored. */
  lemma InvalidReplyDesynchronizes()
    ensures exists s: State, calls: seq<Call> ::
      s.grant.AuthorizationCode? && s.cached.None? && (forall i :: 0 <= i < |calls| ==> Representable(calls[i].env))
      && !Synced(AfterAll(s, calls))
  {
    var old_ := Stored("a", Some("r"), None, Some(100), None);
    var s := State(AuthorizationCode, None, Some(old_));
    var first := Authenticating(Env(0, true, true, None, None));
    var reply := Response("\n", Some("r"), None, 100, None);
    var second := Authenticating(Env(90, true, true, Some(reply), None));
    var calls := [first, second];
    assert calls[..1] == [first] && [first][..0] == [];
    var middle := AfterAll(s, [first]);
    assert AfterAll(s, []) == s;
    assert middle == After(s, first);
    assert middle.cached == Some(Cached("a", Some("r"), 100));
    assert !ValidHeader("\n") by {
      assert "\n"[0] == '\n';
    }
    var end := AfterAll(s, calls);
    assert end == After(middle, second);
    assert end.stored.value.access == "\n" && end.cached.value.access == "a";
    assert "\n"[0] != "a"[0];
    assert !Synced(end);
  }

  // --- What is cached ------------------------------------------------------------------------

  /** For every grant: a header that is returned is that of the cached token, which was either
    * cached before and is not about to expire, or is the one now obtained. */
  lemma HeaderIsOfCachedToken(s: State, env: Env)
    ensures var (end, r) := AuthenticateStep(s, env);
            && (r.Ok? ==>
                  && end.cached.Some? && r.value == "Bearer " + end.cached.value.access && ValidHeader(end.cached.value.access)
                  && (end.cached == s.cached ==> env.now < end.cached.value.expiresAt - SKEW || Obtained(s, env, end.cached.value))
                  && (end.cached != s.cached ==> Obtained(s, env, end.cached.value)))
            && (r.Err? ==> end.cached == s.cached)
  {
    hide ValidHeader;
  }

  /** The token comes from the endpoint, or from a keychain entry that has not expired. */
  predicate Obtained(s: State, env: Env, t: Cached) {
    || (env.fetched.Some? && !s.grant.AuthorizationCode?
        && t == Cached(env.fetched.value.access, env.fetched.value.refresh, env.now + env.fetched.value.expiresIn))
    || (s.grant.AuthorizationCode? && env.refreshed.Some?
        && t == Cached(env.refreshed.value.access, env.refreshed.value.refresh, env.now + env.refreshed.value.expiresIn))
    || (s.grant.AuthorizationCode? && s.stored.Some? && !StoredExpired(s.stored.value, env.now)
        && t.access == s.stored.value.access && t.refresh == s.stored.value.refresh)
  }

  /** A refresh succeeds exactly when the endpoint gives a token: for a refresh token, which is
    * the cached one or else the keychain's; or, without one or when that fails, for the grants
    * that can ask anew. The new token is then cached, whatever the grant, and stored by the
    * authorization code grant; a refresh that fails changes nothing. */
  lemma RefreshCachesTheNewToken(s: State, env: Env)
    ensures var (end, r) := RefreshStep(s, env);
            var code := s.grant.AuthorizationCode?;
            var has := (s.cached.Some? && s.cached.value.refresh.Some?)
                       || (code && env.readable && s.stored.Some? && s.stored.value.refresh.Some?);
            var renewed := has && env.refreshed.Some?;
            && (r.Ok? <==> if code then renewed && env.writable else renewed || env.fetched.Some?)
            && (r.Ok? ==>
                  var reply := if renewed then env.refreshed.value else env.fetched.value;
                  && end.cached == Some(Cached(reply.access, reply.refresh, env.now + reply.expiresIn))
                  && (code ==> end.stored.Some? && end.stored.value.access == reply.access && end.stored.value.refresh == reply.refresh)
                  && (!code ==> end.stored == s.stored))
            && (r.Err? ==> end == s)
            && (r == Err(NoRefreshToken) <==> code && !has)
  {
  }

  /** Behind a refresh, until shortly before the new token expires, authenticate answers with
    * it and asks nobody. */
  lemma RefreshedTokenIsUsed(s: State, env: Env, later: Env)
    requires RefreshStep(s, env).1.Ok? && ValidHeader(RefreshStep(s, env).0.cached.value.access)
    requires later.now < RefreshStep(s, env).0.cached.value.expiresAt - SKEW
    ensures var end := RefreshStep(s, env).0;
            AuthenticateStep(end, later) == (end, Ok("Bearer " + end.cached.value.access))
  {
    hide ValidHeader;
  }
}
