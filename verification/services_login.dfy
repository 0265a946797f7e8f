/** The persistent login service: the module-level auth state, mirrored in
    local storage, which login, cookie refresh and logout update, and the
    interceptors of its own HTTP client. Storage entries are kept already
    parsed; the refresh cookie is reduced to whether logout cleared it. */
module ServicesLogin {
  import opened Text
  import opened Util
  import opened JsValue
  import opened AuthCommon
  import opened ApiClient

  class Session {
    /** `authState` */
    var authState: Option<AuthState>
    /** `localStorage["authState"]` */
    var storedAuth: Option<AuthState>
    /** `localStorage["permissions"]` */
    var storedPermissions: Option<Value>
    /** `sessionStorage["client_username"]` */
    var sessionClientUsername: Option<string>
    /** Whether logout expired the refresh cookie. */
    var cookieCleared: bool
    /** The alerts shown to the user, oldest first. */
    var alerts: seq<string>

    /** `initializeAuth()` on module load: the stored state, if any, becomes
        the current one. */
    constructor (storedAuth: Option<AuthState>, storedPermissions: Option<Value>,
                 sessionClientUsername: Option<string>)
      ensures authState == storedAuth && this.storedAuth == storedAuth
      ensures this.storedPermissions == storedPermissions
      ensures this.sessionClientUsername == sessionClientUsername && !cookieCleared && alerts == []
    {
      authState := storedAuth;
      this.storedAuth := storedAuth;
      this.storedPermissions := storedPermissions;
      this.sessionClientUsername := sessionClientUsername;
      cookieCleared := false;
      alerts := [];
    }

    /** `isLoggedIn()` */
    predicate LoggedIn()
      reads this
    {
      IsLoggedIn(authState)
    }

    /** `setAuthFromRefresh(data)`: merges a refresh response and saves the
        result; returns false, changing nothing, when the response lacks a
        token or, without a state, a tenant. */
    method SetAuthFromRefresh(data: Value) returns (ok: bool)
      modifies this`authState, this`storedAuth
      ensures ok <==> AfterRefresh(old(authState), data, storedPermissions).Some?
      ensures ok ==> authState == AfterRefresh(old(authState), data, storedPermissions)
                     && storedAuth == authState && LoggedIn()
      ensures !ok ==> authState == old(authState) && storedAuth == old(storedAuth)
    {
      var next := AfterRefresh(authState, data, storedPermissions);
      if next.None? {
        return false;
      }
      AfterRefreshIdempotent(authState, data, storedPermissions);
      authState := next;
      storedAuth := authState;
      return true;
    }

    /** `refreshAccessToken()` once the refresh call has settled: the new
        access token when the response was accepted, `None` when it was
        refused or the call failed. */
    method RefreshAccessToken(response: Outcome) returns (token: Option<Value>)
      modifies this`authState, this`storedAuth
      ensures response.Rejected? ==>
                token.None? && authState == old(authState) && storedAuth == old(storedAuth)
      ensures response.Resolved? ==>
                var next := AfterRefresh(old(authState), response.data, storedPermissions);
                && (next.Some? ==> token == AccessToken(next) && token.Some? && authState == next
                                   && storedAuth == next)
                && (next.None? ==> token.None? && authState == old(authState) && storedAuth == old(storedAuth))
    {
      match response {
        case Rejected(_) =>
          return None;
        case Resolved(data) =>
          var ok := SetAuthFromRefresh(data);
          if ok {
            return Some(authState.value.accessToken);
          }
          return None;
      }
    }

    /** `getToken(username, password, clientUsername)` once the login call
        has settled. Returns the body it posted and the new state. A
        rejected call, or a `null` body whose permissions cannot be read,
        shows the parsed error and leaves the state alone. */
    method GetToken(username: string, password: string, clientUsername: Option<string>,
                    response: Outcome)
      returns (payload: map<string, Value>, result: Option<AuthState>)
      modifies this`authState, this`storedAuth, this`storedPermissions,
               this`sessionClientUsername, this`alerts
      ensures payload == LoginPayload(username, password, clientUsername)
      ensures clientUsername.Some? && !IsBlank(clientUsername.value) ==>
                sessionClientUsername == Some(Trim(clientUsername.value))
      ensures clientUsername.None? || IsBlank(clientUsername.value) ==>
                sessionClientUsername == old(sessionClientUsername)
      ensures response.Resolved? && !IsNullish(response.data) ==>
                var st := LoginState(response.data);
                && result == Some(st) && authState == Some(st) && storedAuth == Some(st)
                && storedPermissions == Some(PermissionsOr(response.data)) && alerts == old(alerts)
      ensures response.Rejected? ==>
                && result.None? && authState == old(authState) && storedAuth == old(storedAuth)
                && storedPermissions == old(storedPermissions)
                && alerts == old(alerts) + ["❌ Login failed: " + ParseError(response.error)]
      ensures response.Resolved? && IsNullish(response.data) ==>
                && result.None? && authState == old(authState) && storedAuth == old(storedAuth)
                && storedPermissions == old(storedPermissions)
                && alerts == old(alerts) + ["❌ Login failed: " + ReadPropertyError(response.data, "permissions")]
    {
      payload := LoginPayload(username, password, clientUsername);
      if clientUsername.Some? && Trim(clientUsername.value) != [] {
        sessionClientUsername := Some(Trim(clientUsername.value));
      }
      match response {
        case Rejected(e) =>
          alerts := alerts + ["❌ Login failed: " + ParseError(e)];
          result := None;
        case Resolved(data) =>
          if IsNullish(data) {
            var thrown := Thrown(ReadPropertyError(data, "permissions"));
            ParseErrorMeaning(thrown, ReadPropertyError(data, "permissions"));
            alerts := alerts + ["❌ Login failed: " + ParseError(thrown)];
            result := None;
          } else {
            storedPermissions := Some(PermissionsOr(data));
            authState := Some(LoginState(data));
            storedAuth := authState;
            result := authState;
          }
      }
    }

    /** The response interceptor for a failed request, up to the refresh:
        a request the guard accepts is marked as retried and, when the
        refresh produced a token, sent again with it; when it did not, the
        user is asked to log in. Anything else is passed on. */
    method OnResponseError(req: Request, status: Option<int>, refresh: Outcome) returns (h: Retry)
      modifies this`authState, this`storedAuth, req`retried, req`headers
      ensures !ShouldRetry(status, old(req.retried), req.url) ==>
                h == PassOn && req.retried == old(req.retried) && req.headers == old(req.headers)
                && authState == old(authState) && storedAuth == old(storedAuth)
      ensures ShouldRetry(status, old(req.retried), req.url) ==>
                var next := if refresh.Resolved?
                            then AfterRefresh(old(authState), refresh.data, storedPermissions) else None;
                && req.retried
                && (next.Some? ==>
                      && h == Resend("Bearer " + ToStr(next.value.accessToken))
                      && authState == next && storedAuth == next && LoggedIn()
                      && req.headers == old(req.headers)["Authorization" := h.authorization])
                && (next.None? ==>
                      && h == AskLogin && authState == old(authState) && storedAuth == old(storedAuth)
                      && req.headers == old(req.headers))
    {
      if !ShouldRetry(status, req.retried, req.url) {
        return PassOn;
      }
      req.retried := true;
      var token := RefreshAccessToken(refresh);
      if token.Some? {
        req.headers := req.headers["Authorization" := "Bearer " + ToStr(token.value)];
        return Resend("Bearer " + ToStr(token.value));
      }
      return AskLogin;
    }

    /** The interceptor after the interactive login it asked for: the
        request is sent again with the then current token when the login
        succeeded and left a token, and rejected otherwise. */
    method AfterInteractiveLogin(req: Request, ok: bool) returns (h: Retry)
      modifies req`headers
      ensures ok && LoggedIn() ==>
                h == Resend("Bearer " + ToStr(authState.value.accessToken))
                && req.headers == old(req.headers)["Authorization" := h.authorization]
      ensures !(ok && LoggedIn()) ==> h == PassOn && req.headers == old(req.headers)
    {
      if ok && authState.Some? && Truthy(authState.value.accessToken) {
        var auth := "Bearer " + ToStr(authState.value.accessToken);
        req.headers := req.headers["Authorization" := auth];
        return Resend(auth);
      }
      return PassOn;
    }

    /** `bootstrapAuth()`: true exactly when the refresh gave a token and a
        state is present; the state is then the merged one, and otherwise
        it is left alone. */
    method BootstrapAuth(refresh: Outcome) returns (ok: bool)
      modifies this`authState, this`storedAuth
      ensures var next := if refresh.Resolved?
                          then AfterRefresh(old(authState), refresh.data, storedPermissions) else None;
              && (ok <==> next.Some?)
              && (ok ==> authState == next && storedAuth == next && LoggedIn())
              && (!ok ==> authState == old(authState) && storedAuth == old(storedAuth))
    {
      var token := RefreshAccessToken(refresh);
      ok := token.Some? && authState.Some?;
    }

    /** `logoutLocal()`: the state and the stored state, permissions and
        client username are all cleared. */
    method LogoutLocal()
      modifies this`authState, this`storedAuth, this`storedPermissions, this`sessionClientUsername
      ensures authState.None? && storedAuth.None? && storedPermissions.None?
      ensures sessionClientUsername.None? && !LoggedIn()
    {
      authState := None;
      storedPermissions := None;
      storedAuth := None;
      sessionClientUsername := None;
    }

    /** `logout()`: whatever the server answered, the local data is cleared
        and the refresh cookie expired. */
    method Logout(server: Outcome)
      modifies this`authState, this`storedAuth, this`storedPermissions,
               this`sessionClientUsername, this`cookieCleared
      ensures authState.None? && storedAuth.None? && storedPermissions.None?
      ensures sessionClientUsername.None? && cookieCleared && !LoggedIn()
    {
      LogoutLocal();
      cookieCleared := true;
    }
  }
}
