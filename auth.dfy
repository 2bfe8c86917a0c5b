/**
  The token decision logic (src/auth.ts): the cached credential
  `_authData` with the time it was obtained, the expiry test, the two
  authorization calls and the provider that chooses between the cache, the
  refresh token and anonymous login.

  The HTTP calls become their outcome (a LoginResponse), the clock becomes
  a time in milliseconds passed in, and the refresh-token storage handler
  becomes the value it returns plus a log of the calls made to it. The
  mutex-guarded block of authDataProvider runs as one step.
 */
module Auth {
  import opened OrderTypes

  /** The module variables `_authData` and `tokenRetrieveTimeMs`. */
  datatype AuthState = AuthState(authData: Option<AuthData>, tokenRetrieveTimeMs: int)

  /** The fields of `ctx` the decisions read; BASE_URL and BASIC_AUTH only
      go into the HTTP requests. */
  datatype Ctx = Ctx(tenant: string, anonymousAuth: bool)

  /** `{ token, UUID }` */
  datatype Credential = Credential(token: string, uuid: string)

  /** The outcome of a token request: an error response (the catch
      branch), or a success whose body is `data` (None when the body is
      empty, which makes `_authData` falsy). */
  datatype LoginResponse = Rejected | Accepted(data: Option<AuthData>)

  datatype StorageCall =
    | GetRefreshToken(tenant: string)
    | SetRefreshToken(tenant: string, refreshToken: string)
    | ClearRefreshToken(tenant: string)

  datatype NetworkCall =
    | RefreshGrant(tenant: string, refreshToken: string)
    | PasswordGrant(tenant: string, username: string, password: string)

  /** What authDataProvider meets from the outside: the stored refresh
      token ("" when there is none), the clock at the cache check, at the
      check inside the lock and when each request returns, and each
      request's outcome. */
  datatype ProviderInputs = ProviderInputs(
    storedRefreshToken: string,
    checkTimeMs: int,
    lockTimeMs: int,
    refreshResponse: LoginResponse,
    refreshTimeMs: int,
    anonymousResponse: LoginResponse,
    anonymousTimeMs: int)

  datatype ProviderOutcome = ProviderOutcome(
    state: AuthState,
    credential: Credential,
    storage: seq<StorageCall>,
    network: seq<NetworkCall>)

  const EmptyCredential := Credential("", "")
  const AnonymousUser := "anonymous"

  /** isTokenExpired, evaluated at time `nowMs`. The source compares the
      elapsed milliseconds with `parseInt(expires_in) * 1000 * 0.95`; that
      is the elapsed time against 950 ms per second of lifetime, and a
      lifetime that does not parse (NaN) never compares true. */
  function IsTokenExpired(authData: Option<AuthData>, retrievedMs: int, nowMs: int): (r: bool)
    ensures authData.None? || authData.value.accessToken == "" ==> r
    ensures authData.Some? && authData.value.accessToken != "" ==>
      (r <==> authData.value.expiresIn.Some? && nowMs - retrievedMs >= 950 * authData.value.expiresIn.value)
  {
    if authData.None? || authData.value.accessToken == "" then true
    else match authData.value.expiresIn {
      case None => false
      case Some(expiresIn) => (nowMs - retrievedMs) * 100 >= expiresIn * 1000 * 95
    }
  }

  /** Once expired, a token stays expired as the clock advances. */
  lemma ExpiredStaysExpired(authData: Option<AuthData>, retrievedMs: int, nowMs: int, laterMs: int)
    requires nowMs <= laterMs && IsTokenExpired(authData, retrievedMs, nowMs)
    ensures IsTokenExpired(authData, retrievedMs, laterMs)
  {
  }

  /** The cases of src/__tests__/authTest.ts: with expires_in 3600 a token
      one minute old is valid and one an hour and a minute old is expired. */
  lemma ExpiryExamples(d: AuthData, retrievedMs: int)
    requires d.expiresIn == Some(3600) && d.accessToken != ""
    ensures !IsTokenExpired(Some(d), retrievedMs, retrievedMs + 60 * 1000)
    ensures IsTokenExpired(Some(d), retrievedMs, retrievedMs + 3660 * 1000)
  {
  }

  /** The effect shared by authorizeWithUserPass and
      authorizeWithRefreshToken: on success the response body replaces
      `_authData` wholesale and the time is stamped; on failure nothing
      changes. */
  function Authorize(s: AuthState, response: LoginResponse, nowMs: int): (r: (bool, AuthState))
    ensures r.0 <==> response.Accepted?
    ensures r.0 ==> r.1 == AuthState(response.data, nowMs)
    ensures !r.0 ==> r.1 == s
  {
    match response
    case Rejected => (false, s)
    case Accepted(data) => (true, AuthState(data, nowMs))
  }

  /** The first test of authDataProvider: the cached token is returned
      without further work. */
  predicate CacheHit(s: AuthState, forceRefresh: bool, nowMs: int) {
    !forceRefresh && s.authData.Some? && s.authData.value.accessToken != ""
    && !IsTokenExpired(s.authData, s.tokenRetrieveTimeMs, nowMs)
  }

  /** The block run under the mutex: whether the refresh path succeeded,
      the state after it and the requests it made. */
  function RefreshPath(s: AuthState, ctx: Ctx, inputs: ProviderInputs): (r: (bool, AuthState, seq<NetworkCall>))
    ensures inputs.storedRefreshToken == "" ==> r == (false, s, [])
    ensures inputs.storedRefreshToken != "" && !IsTokenExpired(s.authData, s.tokenRetrieveTimeMs, inputs.lockTimeMs) ==>
      r == (true, s, [])
    ensures inputs.storedRefreshToken != "" && IsTokenExpired(s.authData, s.tokenRetrieveTimeMs, inputs.lockTimeMs) ==>
      && r.2 == [RefreshGrant(ctx.tenant, inputs.storedRefreshToken)]
      && (r.0, r.1) == Authorize(s, inputs.refreshResponse, inputs.refreshTimeMs)
  {
    if inputs.storedRefreshToken == "" then (false, s, [])
    else if s.authData.Some? && !IsTokenExpired(s.authData, s.tokenRetrieveTimeMs, inputs.lockTimeMs) then (true, s, [])
    else
      var (ok, s') := Authorize(s, inputs.refreshResponse, inputs.refreshTimeMs);
      (ok, s', [RefreshGrant(ctx.tenant, inputs.storedRefreshToken)])
  }

  /** authDataProvider as a whole. */
  function ProviderRun(s: AuthState, ctx: Ctx, forceRefresh: bool, inputs: ProviderInputs): (o: ProviderOutcome)
    // a valid cached token is returned with no storage read and no request
    ensures CacheHit(s, forceRefresh, inputs.checkTimeMs) ==>
      o == ProviderOutcome(s, Credential(s.authData.value.accessToken, s.authData.value.uuid), [], [])
    // otherwise the stored refresh token is read first
    ensures !CacheHit(s, forceRefresh, inputs.checkTimeMs) ==>
      |o.storage| > 0 && o.storage[0] == GetRefreshToken(ctx.tenant)
    // with a refresh token and a cache valid at lock time, even under
    // forceRefresh: success with no request
    ensures (!CacheHit(s, forceRefresh, inputs.checkTimeMs) && inputs.storedRefreshToken != ""
      && !IsTokenExpired(s.authData, s.tokenRetrieveTimeMs, inputs.lockTimeMs)) ==>
      && o.network == [] && o.state == s
      && o.credential == Credential(s.authData.value.accessToken, s.authData.value.uuid)
    // the refresh request is made only with a refresh token and a cache
    // expired at lock time
    ensures RefreshGrant(ctx.tenant, inputs.storedRefreshToken) in o.network <==>
      !CacheHit(s, forceRefresh, inputs.checkTimeMs) && inputs.storedRefreshToken != ""
      && IsTokenExpired(s.authData, s.tokenRetrieveTimeMs, inputs.lockTimeMs)
    // anonymous login is tried exactly when the refresh path did not
    // succeed and the context allows it
    ensures PasswordGrant(ctx.tenant, AnonymousUser, "") in o.network <==>
      !CacheHit(s, forceRefresh, inputs.checkTimeMs) && !RefreshPath(s, ctx, inputs).0 && ctx.anonymousAuth
    ensures |o.network| <= 2
    // the requests are exactly those of the refresh path, then the
    // anonymous login when it is tried
    ensures !CacheHit(s, forceRefresh, inputs.checkTimeMs) ==>
      o.network == RefreshPath(s, ctx, inputs).2 +
        (if !RefreshPath(s, ctx, inputs).0 && ctx.anonymousAuth then [PasswordGrant(ctx.tenant, AnonymousUser, "")] else [])
    // the refresh token is stored exactly when a route succeeded and left
    // a credential
    ensures !CacheHit(s, forceRefresh, inputs.checkTimeMs) ==>
      var success := RefreshPath(s, ctx, inputs).0 || (ctx.anonymousAuth && inputs.anonymousResponse.Accepted?);
      (success && o.state.authData.Some?) <==> o.storage != [GetRefreshToken(ctx.tenant)]
    // failure of both routes: the empty credential, no state change and
    // the refresh token is not stored
    ensures (!CacheHit(s, forceRefresh, inputs.checkTimeMs) && !RefreshPath(s, ctx, inputs).0
      && !(ctx.anonymousAuth && inputs.anonymousResponse.Accepted?)) ==>
      && o.credential == EmptyCredential && o.state == s
      && o.storage == [GetRefreshToken(ctx.tenant)]
    // whenever the refresh token is stored, it is that of the new cached
    // credential, whose token and UUID are returned
    ensures !CacheHit(s, forceRefresh, inputs.checkTimeMs) && o.storage != [GetRefreshToken(ctx.tenant)] ==>
      && o.state.authData.Some?
      && o.storage == [GetRefreshToken(ctx.tenant), SetRefreshToken(ctx.tenant, o.state.authData.value.refreshToken)]
      && o.credential == Credential(o.state.authData.value.accessToken, o.state.authData.value.uuid)
    // and when it is not stored, the empty credential comes back
    ensures !CacheHit(s, forceRefresh, inputs.checkTimeMs) && o.storage == [GetRefreshToken(ctx.tenant)] ==>
      o.credential == EmptyCredential
    // with no refresh token and no anonymous access nothing is requested
    // and the empty credential comes back
    ensures !CacheHit(s, forceRefresh, inputs.checkTimeMs) && inputs.storedRefreshToken == "" && !ctx.anonymousAuth ==>
      o == ProviderOutcome(s, EmptyCredential, [GetRefreshToken(ctx.tenant)], [])
    // after a successful or skipped refresh the state is the refresh
    // path's; otherwise it is that of the anonymous login when tried, and
    // the old one when not
    ensures !CacheHit(s, forceRefresh, inputs.checkTimeMs) && RefreshPath(s, ctx, inputs).0 ==>
      o.state == RefreshPath(s, ctx, inputs).1
    ensures !CacheHit(s, forceRefresh, inputs.checkTimeMs) && !RefreshPath(s, ctx, inputs).0 && ctx.anonymousAuth ==>
      o.state == Authorize(s, inputs.anonymousResponse, inputs.anonymousTimeMs).1
    ensures !CacheHit(s, forceRefresh, inputs.checkTimeMs) && !RefreshPath(s, ctx, inputs).0 && !ctx.anonymousAuth ==>
      o.state == s
    // the state changes only through an accepted response
    ensures || o.state == s
            || (inputs.refreshResponse.Accepted? && o.state == AuthState(inputs.refreshResponse.data, inputs.refreshTimeMs))
            || (inputs.anonymousResponse.Accepted? && o.state == AuthState(inputs.anonymousResponse.data, inputs.anonymousTimeMs))
  {
    if CacheHit(s, forceRefresh, inputs.checkTimeMs) then
      ProviderOutcome(s, Credential(s.authData.value.accessToken, s.authData.value.uuid), [], [])
    else
      var (refreshed, s1, calls1) := RefreshPath(s, ctx, inputs);
      var (loginSuccess, s2, calls2) :=
        if !refreshed && ctx.anonymousAuth then
          var (ok, s') := Authorize(s1, inputs.anonymousResponse, inputs.anonymousTimeMs);
          (ok, s', [PasswordGrant(ctx.tenant, AnonymousUser, "")])
        else (refreshed, s1, []);
      if !loginSuccess || s2.authData.None? then
        ProviderOutcome(s2, EmptyCredential, [GetRefreshToken(ctx.tenant)], calls1 + calls2)
      else
        ProviderOutcome(
          s2,
          Credential(s2.authData.value.accessToken, s2.authData.value.uuid),
          [GetRefreshToken(ctx.tenant), SetRefreshToken(ctx.tenant, s2.authData.value.refreshToken)],
          calls1 + calls2)
  }

  /** The case of src/__tests__/authTest.ts "use refresh token to retrieve
      new token if existing token expired": a cached token an hour and a
      minute old is replaced through the refresh grant, and the new token,
      UUID and refresh token are what the provider returns and stores. */
  lemma ExpiredCacheIsRefreshed(d: AuthData, setMs: int, ctx: Ctx, inputs: ProviderInputs, renewed: AuthData)
    requires d.expiresIn == Some(3600) && d.accessToken != ""
    requires inputs.checkTimeMs == setMs + 3660 * 1000 && inputs.lockTimeMs == inputs.checkTimeMs
    requires inputs.storedRefreshToken != "" && inputs.refreshResponse == Accepted(Some(renewed))
    ensures var o := ProviderRun(AuthState(Some(d), setMs), ctx, false, inputs);
      && o.credential == Credential(renewed.accessToken, renewed.uuid)
      && o.state == AuthState(Some(renewed), inputs.refreshTimeMs)
      && o.network == [RefreshGrant(ctx.tenant, inputs.storedRefreshToken)]
      && o.storage == [GetRefreshToken(ctx.tenant), SetRefreshToken(ctx.tenant, renewed.refreshToken)]
  {
    ExpiryExamples(d, setMs);
  }

  // ----- the module state -----

  class AuthModule {
    /** `_authData` (null is None) */
    var authData: Option<AuthData>
    var tokenRetrieveTimeMs: int
    /** calls made to the refresh-token storage handler, oldest first */
    var storageCalls: seq<StorageCall>
    /** token requests sent, oldest first */
    var networkCalls: seq<NetworkCall>

    function State(): AuthState
      reads this
    {
      AuthState(authData, tokenRetrieveTimeMs)
    }

    constructor ()
      ensures authData == None && tokenRetrieveTimeMs == -1
      ensures storageCalls == [] && networkCalls == []
    {
      authData := None;
      tokenRetrieveTimeMs := -1;
      storageCalls := [];
      networkCalls := [];
    }

    /** authorizeWithUserPass; `response` is the outcome of the request and
        `nowMs` the clock when it returns. */
    method AuthorizeWithUserPass(tenant: string, username: string, password: string, response: LoginResponse, nowMs: int)
      returns (ok: bool)
      modifies this`authData, this`tokenRetrieveTimeMs, this`networkCalls
      ensures networkCalls == old(networkCalls) + [PasswordGrant(tenant, username, password)]
      ensures (ok, State()) == Authorize(old(State()), response, nowMs)
    {
      networkCalls := networkCalls + [PasswordGrant(tenant, username, password)];
      match response {
        case Rejected =>
          ok := false;
        case Accepted(data) =>
          authData := data;
          tokenRetrieveTimeMs := nowMs;
          ok := true;
      }
    }

    /** authorizeWithRefreshToken */
    method AuthorizeWithRefreshToken(tenant: string, refreshToken: string, response: LoginResponse, nowMs: int)
      returns (ok: bool)
      modifies this`authData, this`tokenRetrieveTimeMs, this`networkCalls
      ensures networkCalls == old(networkCalls) + [RefreshGrant(tenant, refreshToken)]
      ensures (ok, State()) == Authorize(old(State()), response, nowMs)
    {
      networkCalls := networkCalls + [RefreshGrant(tenant, refreshToken)];
      match response {
        case Rejected =>
          ok := false;
        case Accepted(data) =>
          authData := data;
          tokenRetrieveTimeMs := nowMs;
          ok := true;
      }
    }

    /** authDataProvider */
    method AuthDataProvider(ctx: Ctx, forceRefresh: bool, inputs: ProviderInputs) returns (credential: Credential)
      modifies this
      ensures var o := ProviderRun(old(State()), ctx, forceRefresh, inputs);
        && State() == o.state
        && credential == o.credential
        && storageCalls == old(storageCalls) + o.storage
        && networkCalls == old(networkCalls) + o.network
    {
      if !forceRefresh && authData.Some? && authData.value.accessToken != "" {
        if !IsTokenExpired(authData, tokenRetrieveTimeMs, inputs.checkTimeMs) {
          return Credential(authData.value.accessToken, authData.value.uuid);
        }
      }
      var loginSuccess := false;
      storageCalls := storageCalls + [GetRefreshToken(ctx.tenant)];
      var refreshToken := inputs.storedRefreshToken;
      if refreshToken != "" {
        // the block guarded by the mutex
        if authData.Some? && !IsTokenExpired(authData, tokenRetrieveTimeMs, inputs.lockTimeMs) {
          loginSuccess := true;
        } else {
          loginSuccess := AuthorizeWithRefreshToken(ctx.tenant, refreshToken, inputs.refreshResponse, inputs.refreshTimeMs);
        }
      }
      if !loginSuccess && ctx.anonymousAuth {
        loginSuccess := AuthorizeWithUserPass(ctx.tenant, AnonymousUser, "", inputs.anonymousResponse, inputs.anonymousTimeMs);
      }
      if !loginSuccess || authData.None? {
        credential := EmptyCredential;
      } else {
        storageCalls := storageCalls + [SetRefreshToken(ctx.tenant, authData.value.refreshToken)];
        credential := Credential(authData.value.accessToken, authData.value.uuid);
      }
    }

    /** setAuthData; `newTokenRetrieveTimeMs` defaults to the clock in the
        source, here the caller passes it. */
    method SetAuthData(tenant: string, newAuthData: AuthData, newTokenRetrieveTimeMs: int)
      modifies this`authData, this`tokenRetrieveTimeMs, this`storageCalls
      ensures authData == Some(newAuthData) && tokenRetrieveTimeMs == newTokenRetrieveTimeMs
      ensures storageCalls == old(storageCalls) + [SetRefreshToken(tenant, newAuthData.refreshToken)]
    {
      authData := Some(newAuthData);
      tokenRetrieveTimeMs := newTokenRetrieveTimeMs;
      storageCalls := storageCalls + [SetRefreshToken(tenant, newAuthData.refreshToken)];
    }

    /** clearAuthData: the stored refresh token is cleared and the cache
        emptied; the retrieval time is left as it was. */
    method ClearAuthData(tenant: string)
      modifies this`authData, this`storageCalls
      ensures authData == None && tokenRetrieveTimeMs == old(tokenRetrieveTimeMs)
      ensures storageCalls == old(storageCalls) + [ClearRefreshToken(tenant)]
    {
      storageCalls := storageCalls + [ClearRefreshToken(tenant)];
      authData := None;
    }
  }

  /** After setAuthData with a fresh token, the provider answers from the
      cache (src/__tests__/authTest.ts, "return existing token if it is
      still valid"). */
  method SetThenProvide(m: AuthModule, ctx: Ctx, d: AuthData, setTimeMs: int, inputs: ProviderInputs) returns (c: Credential)
    requires d.expiresIn == Some(3600) && d.accessToken != ""
    requires inputs.checkTimeMs == setTimeMs + 60 * 1000
    modifies m
    ensures c == Credential(d.accessToken, d.uuid)
    ensures m.networkCalls == old(m.networkCalls)
  {
    m.SetAuthData(ctx.tenant, d, setTimeMs);
    ExpiryExamples(d, setTimeMs);
    c := m.AuthDataProvider(ctx, false, inputs);
  }
}
