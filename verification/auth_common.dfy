/** The authentication state machine shared by the two login services: the
    state they keep after a login or a refresh, the rule that merges a
    refresh response into it, the login payload, the 401 retry guard and
    the error text shown to the user. Response bodies are JSON values;
    values the browser storage holds are kept already parsed. */
module AuthCommon {
  import opened Text
  import opened Util
  import opened JsValue

  /** `AuthState`: every field is what the backend sent. */
  datatype AuthState = AuthState(tokenType: Value, accessToken: Value, refreshToken: Value,
                                 permissions: Value, tenant: Value)

  /** `err?.response?.data?.detail || err?.response?.data?.message ||
      err?.message || "Request failed"`, as the alert shows it. */
  function ParseError(err: Value): (r: string)
    ensures Truthy(Detail(err)) ==> r == ToStr(Detail(err))
    ensures !Truthy(Detail(err)) && Truthy(Message(err)) ==> r == ToStr(Message(err))
    ensures !Truthy(Detail(err)) && !Truthy(Message(err)) && Truthy(Get(err, "message")) ==>
              r == ToStr(Get(err, "message"))
    ensures !Truthy(Detail(err)) && !Truthy(Message(err)) && !Truthy(Get(err, "message")) ==>
              r == "Request failed"
  {
    if Truthy(Detail(err)) then ToStr(Detail(err))
    else if Truthy(Message(err)) then ToStr(Message(err))
    else if Truthy(Get(err, "message")) then ToStr(Get(err, "message"))
    else "Request failed"
  }

  /** `err?.response?.data?.detail` */
  function Detail(err: Value): Value {
    Get(Get(Get(err, "response"), "data"), "detail")
  }

  /** `err?.response?.data?.message` */
  function Message(err: Value): Value {
    Get(Get(Get(err, "response"), "data"), "message")
  }

  /** A string `detail` wins over a `message` sent alongside it. */
  lemma ParseErrorPrefersDetail(detail: string, message: string)
    requires detail != []
    ensures ParseError(Obj(map["response" := Obj(map["data" := Obj(map["detail" := Str(detail),
                                                                     "message" := Str(message)])])]))
            == detail
  {
  }

  /** Whatever the error, the text shown is the first truthy field in the
      order `detail`, `message`, the error's own `message`, and "Request
      failed" only when none is truthy. A non-empty string `detail` wins
      over everything else, and an error thrown without a response shows
      its own message. */
  lemma ParseErrorMeaning(err: Value, thrownMessage: string)
    ensures Detail(err).Str? && Detail(err).s != [] ==> ParseError(err) == Detail(err).s
    ensures !Truthy(Detail(err)) && Message(err).Str? && Message(err).s != [] ==>
              ParseError(err) == Message(err).s
    ensures (!Truthy(Detail(err)) && !Truthy(Message(err)) && Get(err, "message").Str?
             && Get(err, "message").s != []) ==> ParseError(err) == Get(err, "message").s
    ensures ParseError(err) == "Request failed" && !Truthy(Detail(err)) && !Truthy(Message(err)) ==>
              !Truthy(Get(err, "message")) || ToStr(Get(err, "message")) == "Request failed"
    ensures thrownMessage != [] ==> ParseError(Thrown(thrownMessage)) == thrownMessage
    ensures ParseError(Thrown([])) == "Request failed"
  {
  }

  /** The response interceptor's guard: retry only a 401, only once per
      request, and never the refresh call itself. */
  predicate ShouldRetry(status: Option<int>, retried: bool, url: string) {
    status == Some(401) && !retried && !Contains(url, "/api/refresh/")
  }

  /** Once a request is marked as retried the guard refuses it, and the
      refresh endpoint is never retried, whatever its status. */
  lemma ShouldRetryMeaning(status: Option<int>, retried: bool, url: string)
    ensures !ShouldRetry(status, true, url)
    ensures status != Some(401) ==> !ShouldRetry(status, retried, url)
    ensures !ShouldRetry(status, retried, "/api/refresh/")
    ensures ShouldRetry(Some(401), false, "/api/orders/") || Contains("/api/orders/", "/api/refresh/")
  {
    ContainsSelf("/api/refresh/");
  }

  /** `JSON.parse(localStorage.getItem("permissions") || "{}")`, with the
      stored value already parsed. */
  function StoredPermissions(stored: Option<Value>): (r: Value)
    ensures stored.None? ==> r == Obj(map[])
  {
    if stored.Some? then stored.value else Obj(map[])
  }

  /** The state `setAuthFromRefresh` leaves, or `None` when it returns
      false and leaves the state alone. */
  function AfterRefresh(state: Option<AuthState>, data: Value, stored: Option<Value>): Option<AuthState> {
    var token := Get(data, "access_token");
    var perms := Get(data, "permissions");
    var tenant := Get(data, "tenant");
    if !Truthy(token) then None
    else if state.None? then
      if !Truthy(tenant) then None
      else Some(AuthState(Str("Bearer"), token, Null,
                          if Truthy(perms) then perms else StoredPermissions(stored), tenant))
    else
      var s := state.value;
      Some(s.(accessToken := token,
              permissions := if Truthy(perms) then perms else s.permissions,
              tenant := if Truthy(tenant) then tenant else s.tenant))
  }

  /** The four cases of `setAuthFromRefresh`. Without a token nothing
      happens; without a state a tenant is needed and a fresh "Bearer"
      state without refresh token is created; with a state only the access
      token always changes, permissions and tenant change when sent, and
      the token type and refresh token are kept. */
  lemma AfterRefreshMeaning(state: Option<AuthState>, data: Value, stored: Option<Value>)
    ensures var r := AfterRefresh(state, data, stored);
            var token := Get(data, "access_token");
            var perms := Get(data, "permissions");
            var tenant := Get(data, "tenant");
            && (!Truthy(token) ==> r.None?)
            && (state.None? && !Truthy(tenant) ==> r.None?)
            && (state.None? && Truthy(token) && Truthy(tenant) ==>
                  r.Some? && r.value.tokenType == Str("Bearer") && r.value.refreshToken == Null
                  && r.value.accessToken == token && r.value.tenant == tenant
                  && (Truthy(perms) ==> r.value.permissions == perms)
                  && (!Truthy(perms) ==> r.value.permissions == StoredPermissions(stored)))
            && (state.Some? && Truthy(token) ==>
                  r.Some? && r.value.accessToken == token
                  && r.value.tokenType == state.value.tokenType
                  && r.value.refreshToken == state.value.refreshToken
                  && (Truthy(perms) ==> r.value.permissions == perms)
                  && (!Truthy(perms) ==> r.value.permissions == state.value.permissions)
                  && (Truthy(tenant) ==> r.value.tenant == tenant)
                  && (!Truthy(tenant) ==> r.value.tenant == state.value.tenant))
  {
  }

  /** A successful refresh always leaves a logged-in state, and applying
      the same response a second time changes nothing more. */
  lemma AfterRefreshIdempotent(state: Option<AuthState>, data: Value, stored: Option<Value>)
    requires AfterRefresh(state, data, stored).Some?
    ensures IsLoggedIn(AfterRefresh(state, data, stored))
    ensures AfterRefresh(AfterRefresh(state, data, stored), data, stored)
            == AfterRefresh(state, data, stored)
  {
  }

  /** `isLoggedIn()`: a state with a truthy access token. */
  predicate IsLoggedIn(state: Option<AuthState>) {
    state.Some? && Truthy(state.value.accessToken)
  }

  /** `authState?.access_token || null` */
  function AccessToken(state: Option<AuthState>): (r: Option<Value>)
    ensures r.Some? <==> IsLoggedIn(state)
    ensures r.Some? ==> r.value == state.value.accessToken
  {
    if state.Some? && Truthy(state.value.accessToken) then Some(state.value.accessToken) else None
  }

  /** `authState?.tenant || null` */
  function CurrentUser(state: Option<AuthState>): (r: Option<Value>)
    ensures r.Some? <==> state.Some? && Truthy(state.value.tenant)
    ensures r.Some? ==> r.value == state.value.tenant
  {
    if state.Some? && Truthy(state.value.tenant) then Some(state.value.tenant) else None
  }

  /** What the getters read after each transition: a successful refresh
      exposes the token it sent, and the tenant it sent or else the one
      kept; a login exposes the token and tenant of its response when they
      are truthy; after logout neither is present. */
  lemma GettersAfterTransitions(state: Option<AuthState>, data: Value, stored: Option<Value>)
    ensures var next := AfterRefresh(state, data, stored);
            next.Some? ==>
              && AccessToken(next) == Some(Get(data, "access_token"))
              && (Truthy(Get(data, "tenant")) ==> CurrentUser(next) == Some(Get(data, "tenant")))
              && (!Truthy(Get(data, "tenant")) ==> CurrentUser(next) == CurrentUser(state))
    ensures Truthy(Get(data, "access_token")) <==> AccessToken(Some(LoginState(data))).Some?
    ensures Truthy(Get(data, "access_token")) ==>
              AccessToken(Some(LoginState(data))) == Some(Get(data, "access_token"))
    ensures Truthy(Get(data, "tenant")) ==> CurrentUser(Some(LoginState(data))) == Some(Get(data, "tenant"))
    ensures AccessToken(None) == None && CurrentUser(None) == None && !IsLoggedIn(None)
  {
  }

  /** The body `getToken` posts: username and password, and the trimmed
      client username only when it is not blank. */
  function LoginPayload(username: string, password: string, clientUsername: Option<string>)
    : (p: map<string, Value>)
    ensures "username" in p && p["username"] == Str(username)
    ensures "password" in p && p["password"] == Str(password)
    ensures "client_username" in p <==> clientUsername.Some? && !IsBlank(clientUsername.value)
    ensures "client_username" in p ==> p["client_username"] == Str(Trim(clientUsername.value))
    ensures p.Keys <= {"username", "password", "client_username"}
  {
    var base := map["username" := Str(username), "password" := Str(password)];
    if clientUsername.Some? && Trim(clientUsername.value) != [] then
      base["client_username" := Str(Trim(clientUsername.value))]
    else base
  }

  /** Trimming the client username before the call, as the interactive
      prompt does, posts the same body: a blank name is dropped either way
      and a name is sent trimmed either way. */
  lemma LoginPayloadTrimInsensitive(username: string, password: string, clientUsername: string)
    ensures LoginPayload(username, password, Some(Trim(clientUsername)))
            == LoginPayload(username, password, Some(clientUsername))
    ensures IsBlank(clientUsername) ==>
              LoginPayload(username, password, Some(clientUsername)) == LoginPayload(username, password, None)
  {
    TrimIdempotent(clientUsername);
  }

  /** `data.permissions || {}` */
  function PermissionsOr(data: Value): (r: Value)
    ensures Truthy(Get(data, "permissions")) ==> r == Get(data, "permissions")
    ensures !Truthy(Get(data, "permissions")) ==> r == Obj(map[])
  {
    if Truthy(Get(data, "permissions")) then Get(data, "permissions") else Obj(map[])
  }

  /** The permissions stored at login are always truthy, so a later
      `stored || {}` reads them back unchanged, and they are those the
      response sent whenever it sent truthy ones. */
  lemma PermissionsOrMeaning(data: Value, refresh: Value)
    ensures Truthy(PermissionsOr(data))
    ensures Truthy(Get(data, "permissions")) ==> PermissionsOr(data) == Get(data, "permissions")
    ensures PermissionsOr(data) == LoginState(data).permissions
    ensures Truthy(Get(refresh, "access_token")) && Truthy(Get(refresh, "tenant"))
            && !Truthy(Get(refresh, "permissions")) ==>
              AfterRefresh(None, refresh, Some(PermissionsOr(data))).value.permissions == PermissionsOr(data)
  {
  }

  /** The state a successful login builds from the response body. */
  function LoginState(data: Value): AuthState {
    AuthState(Get(data, "token_type"), Get(data, "access_token"),
              Coalesce(Get(data, "refresh_token"), Null),
              PermissionsOr(data), Get(data, "tenant"))
  }

  /** A login replaces the whole state with the response: the refresh token
      defaults to `null`, the permissions to `{}`. A later refresh that
      sends only a new token keeps everything else the login stored. */
  lemma LoginStateMeaning(data: Value, newToken: Value, stored: Option<Value>)
    requires Truthy(newToken)
    ensures var s := LoginState(data);
            && s.accessToken == Get(data, "access_token") && s.tenant == Get(data, "tenant")
            && s.tokenType == Get(data, "token_type")
            && (IsNullish(Get(data, "refresh_token")) ==> s.refreshToken == Null)
            && (!IsNullish(Get(data, "refresh_token")) ==> s.refreshToken == Get(data, "refresh_token"))
            && (!Truthy(Get(data, "permissions")) ==> s.permissions == Obj(map[]))
            && AfterRefresh(Some(s), Obj(map["access_token" := newToken]), stored)
               == Some(s.(accessToken := newToken))
  {
  }

  /** How the response interceptor disposes of a failed request. */
  datatype Retry =
    | PassOn                      // rejected with the original error
    | Resend(authorization: string)  // sent again with this header
    | AskLogin                    // refresh failed; the user is prompted
}
