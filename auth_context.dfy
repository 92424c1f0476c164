/**
 * The session provider: the flows that sequence dispatches to the reducer
 * with writes to the token store and calls to the backend. Backend answers are
 * parameters; the calls made are recorded in `backendCalls` and the actions
 * dispatched in `dispatched`.
 */
module AuthContext {
  import opened Wrappers
  import opened JsStrings
  import opened AuthService
  import opened AuthReducer
  import opened TokenStore

  const SessionExpired: string := "Session expired"

  /** The session every failed start-up ends in. */
  const ExpiredSession: Session := Session(None, None, None, false, false, Some(SessionExpired))

  /** What `login` resolves with: `{success: true}` or `{success: false, error}`. */
  datatype LoginResult = LoginResult(success: bool, error: Option<string>)

  /** The message `login` reports when verification does not succeed. */
  function LoginFailureMessage(a: VerifyAnswer): (m: string)
    requires !a.Verified?
    ensures m != ""
    ensures a.NotVerified? ==> m == VerifyFallback
  {
    match a
    case NotVerified => VerifyFallback
    case VerifyFailed(msg) => ThrownMessage(msg, VerifyFallback)
  }

  /** The message `refreshAccessToken` rejects with when refreshing does not succeed. */
  function RefreshFailureMessage(a: RefreshAnswer): (m: string)
    requires !a.Refreshed?
    ensures m != ""
    ensures a.NotRefreshed? ==> m == RefreshFallback
  {
    match a
    case NotRefreshed => RefreshFallback
    case RefreshFailed(msg) => ThrownMessage(msg, RefreshFallback)
  }

  /** Start-up tries a refresh only when verify answered `success: false` and a refresh token is stored. */
  predicate StartupTriesRefresh(verify: VerifyAnswer, refreshToken: Option<string>) {
    verify.NotVerified? && Truthy(refreshToken)
  }

  /** Start-up with a stored access token ends in the expired session unless verify or the refresh succeeds. */
  predicate StartupFails(verify: VerifyAnswer, refreshToken: Option<string>, refresh: RefreshAnswer) {
    !verify.Verified? && !(StartupTriesRefresh(verify, refreshToken) && refresh.Refreshed?)
  }

  class AuthProvider {
    var state: Session
    var dispatched: seq<Action>
    var backendCalls: seq<BackendCall>
    const storage: LocalStorage

    constructor (storage: LocalStorage)
      ensures this.storage == storage
      ensures state == InitialSession && dispatched == [] && backendCalls == []
    {
      this.storage := storage;
      state := InitialSession;
      dispatched := [];
      backendCalls := [];
    }

    /** `dispatch(action)`. */
    method Dispatch(a: Action)
      modifies this
      ensures state == Reduce(old(state), a)
      ensures dispatched == old(dispatched) + [a]
      ensures backendCalls == old(backendCalls)
    {
      state := Reduce(state, a);
      dispatched := dispatched + [a];
    }

    /**
     * `logout`: calls the backend only when a refresh token is stored, and
     * whatever that call answers, removes both keys and dispatches `LOGOUT`.
     */
    method Logout(answer: LogoutAnswer)
      modifies this, storage
      ensures storage.items == old(storage.items) - {AuthTokenKey, RefreshTokenKey}
      ensures state == SignedOut
      ensures dispatched == old(dispatched) + [Action.Logout]
      ensures var rt := Lookup(old(storage.items), RefreshTokenKey);
        backendCalls == old(backendCalls) + (if Truthy(rt) then [LogoutCall(rt.value)] else [])
    {
      var rt := storage.GetItem(RefreshTokenKey);
      if Truthy(rt) {
        backendCalls := backendCalls + [LogoutCall(rt.value)];
        // `authService.logout` resolves with a body even on failure, so the
        // provider's own catch clause is never entered.
        var reply := LogoutResponse(answer);
      }
      storage.RemoveItem(AuthTokenKey);
      storage.RemoveItem(RefreshTokenKey);
      Dispatch(Action.Logout);
    }

    /**
     * `refreshAccessToken`: on success stores and dispatches the new access
     * token and leaves the refresh token alone; otherwise logs out and rejects.
     */
    method RefreshAccessToken(refreshToken: string, answer: RefreshAnswer, logoutAnswer: LogoutAnswer)
      returns (r: Result<string>)
      modifies this, storage
      ensures r.Ok? <==> answer.Refreshed?
      ensures answer.Refreshed? ==>
        && r.value == answer.accessToken
        && storage.items == old(storage.items)[AuthTokenKey := answer.accessToken]
        && state == Reduce(old(state), RefreshTokenSuccess(answer.accessToken))
        && dispatched == old(dispatched) + [RefreshTokenSuccess(answer.accessToken)]
        && backendCalls == old(backendCalls) + [RefreshCall(refreshToken)]
      ensures !answer.Refreshed? ==>
        var rt := Lookup(old(storage.items), RefreshTokenKey);
        && r.message == RefreshFailureMessage(answer)
        && storage.items == old(storage.items) - {AuthTokenKey, RefreshTokenKey}
        && state == SignedOut
        && dispatched == old(dispatched) + [Action.Logout]
        && backendCalls == old(backendCalls) + [RefreshCall(refreshToken)]
                           + (if Truthy(rt) then [LogoutCall(rt.value)] else [])
    {
      backendCalls := backendCalls + [RefreshCall(refreshToken)];
      if answer.Refreshed? {
        storage.SetItem(AuthTokenKey, answer.accessToken);
        Dispatch(RefreshTokenSuccess(answer.accessToken));
        r := Ok(answer.accessToken);
      } else {
        Logout(logoutAnswer);
        r := Err(RefreshFailureMessage(answer));
      }
    }

    /**
     * `initializeAuth`: with no stored access token, ends unauthenticated
     * without calling the backend; otherwise verifies it, falls back to one
     * refresh only on a `success: false` answer, and on any failure removes
     * both keys and reports the session as expired.
     */
    method InitializeAuth(verify: VerifyAnswer, refresh: RefreshAnswer, logoutAnswer: LogoutAnswer)
      modifies this, storage
      ensures var tok := Lookup(old(storage.items), AuthTokenKey);
        !Truthy(tok) ==>
          && state == SignedOut
          && storage.items == old(storage.items)
          && backendCalls == old(backendCalls)
          && dispatched == old(dispatched) + [VerifyTokenFailure(None)]
      ensures var tok, rt := Lookup(old(storage.items), AuthTokenKey), Lookup(old(storage.items), RefreshTokenKey);
        Truthy(tok) && verify.Verified? ==>
          && state == old(state).(user := verify.user, isAuthenticated := true, isLoading := false, error := None)
          && storage.items == old(storage.items)
          && backendCalls == old(backendCalls) + [VerifyCall(tok.value)]
      ensures var tok, rt := Lookup(old(storage.items), AuthTokenKey), Lookup(old(storage.items), RefreshTokenKey);
        Truthy(tok) && StartupTriesRefresh(verify, rt) && refresh.Refreshed? ==>
          && state == old(state).(token := Some(refresh.accessToken), isLoading := false, error := None)
          && storage.items == old(storage.items)[AuthTokenKey := refresh.accessToken]
          && backendCalls == old(backendCalls) + [VerifyCall(tok.value), RefreshCall(rt.value)]
      ensures var tok, rt := Lookup(old(storage.items), AuthTokenKey), Lookup(old(storage.items), RefreshTokenKey);
        Truthy(tok) && StartupFails(verify, rt, refresh) ==>
          && state == ExpiredSession
          && storage.items == old(storage.items) - {AuthTokenKey, RefreshTokenKey}
          && backendCalls == old(backendCalls) + [VerifyCall(tok.value)]
             + (if StartupTriesRefresh(verify, rt) then [RefreshCall(rt.value), LogoutCall(rt.value)] else [])
    {
      var token := storage.GetItem(AuthTokenKey);
      var refreshToken := storage.GetItem(RefreshTokenKey);
      if Truthy(token) {
        Dispatch(VerifyTokenStart);
        backendCalls := backendCalls + [VerifyCall(token.value)];
        var failed := false;
        match verify {
          case Verified(u) =>
            Dispatch(VerifyTokenSuccess(u, token, refreshToken));
          case NotVerified =>
            if Truthy(refreshToken) {
              var r := RefreshAccessToken(refreshToken.value, refresh, logoutAnswer);
              failed := r.Err?;
            } else {
              failed := true;
            }
          case VerifyFailed(_) =>
            failed := true;
        }
        if failed {
          storage.RemoveItem(AuthTokenKey);
          storage.RemoveItem(RefreshTokenKey);
          Dispatch(VerifyTokenFailure(Some(SessionExpired)));
        }
      } else {
        Dispatch(VerifyTokenFailure(None));
      }
    }

    /**
     * `login(tokens)`: verifies the access token; on success stores both
     * tokens and signs in, otherwise stores nothing and reports why.
     */
    method Login(token: string, refreshToken: string, verify: VerifyAnswer) returns (r: LoginResult)
      modifies this, storage
      ensures backendCalls == old(backendCalls) + [VerifyCall(token)]
      ensures r.success <==> verify.Verified?
      ensures verify.Verified? ==>
        && r.error == None
        && storage.items == old(storage.items)[AuthTokenKey := token][RefreshTokenKey := refreshToken]
        && state == Session(verify.user, Some(token), Some(refreshToken), true, false, None)
        && dispatched == old(dispatched) + [LoginStart, LoginSuccess(verify.user, token, refreshToken)]
      ensures !verify.Verified? ==>
        && r.error == Some(LoginFailureMessage(verify))
        && storage.items == old(storage.items)
        && state == Session(None, None, None, false, false, r.error)
        && dispatched == old(dispatched) + [LoginStart, LoginFailure(r.error)]
    {
      Dispatch(LoginStart);
      backendCalls := backendCalls + [VerifyCall(token)];
      if verify.Verified? {
        storage.SetItem(AuthTokenKey, token);
        storage.SetItem(RefreshTokenKey, refreshToken);
        Dispatch(LoginSuccess(verify.user, token, refreshToken));
        r := LoginResult(true, None);
      } else {
        var message := LoginFailureMessage(verify);
        Dispatch(LoginFailure(Some(message)));
        r := LoginResult(false, Some(message));
      }
    }

    /** `clearError`: only `error` changes, and nothing is stored or called. */
    method ClearError()
      modifies this
      ensures state == old(state).(error := None)
      ensures dispatched == old(dispatched) + [Action.ClearError]
      ensures backendCalls == old(backendCalls)
    {
      Dispatch(Action.ClearError);
    }
  }
}
