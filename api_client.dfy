/**
 * The HTTP client's two interceptors: every request carries the stored access
 * token as a bearer credential, and a 401 answer triggers at most one refresh
 * and one replay of the request. The refresh answer is a parameter; a
 * `window.location.href` assignment is recorded in `redirectedTo`.
 */
module ApiClient {
  import opened Wrappers
  import opened JsStrings
  import opened AuthService
  import opened TokenStore

  const LoginRoute: string := "/login"
  const Unauthorized: int := 401

  /** One attempt as the client sees it: a response status, or no response at all. */
  datatype Response = Status(code: int) | NoResponse

  /** The client resolves 2xx answers and hands every other outcome to the error interceptor. */
  predicate IsSuccess(r: Response) {
    r.Status? && 200 <= r.code < 300
  }

  /** The `Authorization` header value for an access token. */
  function BearerHeader(token: string): string {
    "Bearer " + token
  }

  /** The per-request configuration; the interceptors mutate it in place. */
  class RequestConfig {
    var authorization: Option<string>
    var retry: bool

    constructor (authorization: Option<string>)
      ensures this.authorization == authorization && !retry
    {
      this.authorization := authorization;
      retry := false;
    }
  }

  /** What the error interceptor does with a failed attempt. */
  datatype Recovery = Replay | Reject(reason: Rejection)

  /** The error a call rejects with: the attempt's own error, or the refresh call's. */
  datatype Rejection = OriginalError(response: Response) | RefreshError(message: string)

  /** How a call ends, and how many times its request was sent. */
  datatype CallOutcome = Resolved(attempts: nat) | Rejected(reason: Rejection, attempts: nat)

  /** A 401 on a request that has not been retried yet is the only case the error interceptor recovers. */
  predicate Recoverable(response: Response, retried: bool) {
    response == Status(Unauthorized) && !retried
  }

  class HttpClient {
    const storage: LocalStorage
    var redirectedTo: Option<string>
    var refreshCalls: seq<string>

    constructor (storage: LocalStorage)
      ensures this.storage == storage && redirectedTo == None && refreshCalls == []
    {
      this.storage := storage;
      redirectedTo := None;
      refreshCalls := [];
    }

    /** The request interceptor: reads the token store at request time. */
    method InterceptRequest(config: RequestConfig)
      modifies config
      ensures config.retry == old(config.retry)
      ensures var tok := Lookup(storage.items, AuthTokenKey);
        config.authorization == if Truthy(tok) then Some(BearerHeader(tok.value)) else old(config.authorization)
    {
      var token := storage.GetItem(AuthTokenKey);
      if Truthy(token) {
        config.authorization := Some(BearerHeader(token.value));
      }
    }

    /** The error interceptor of the response chain. */
    method InterceptResponseError(config: RequestConfig, response: Response, refresh: RefreshAnswer)
      returns (recovery: Recovery)
      modifies config, this, storage
      ensures !Recoverable(response, old(config.retry)) ==>
        && recovery == Reject(OriginalError(response))
        && storage.items == old(storage.items) && redirectedTo == old(redirectedTo)
        && refreshCalls == old(refreshCalls)
        && config.retry == old(config.retry) && config.authorization == old(config.authorization)
      ensures Recoverable(response, old(config.retry)) ==> config.retry
      ensures var rt := Lookup(old(storage.items), RefreshTokenKey);
        Recoverable(response, old(config.retry)) && !Truthy(rt) ==>
          && recovery == Reject(OriginalError(response))
          && storage.items == old(storage.items) && redirectedTo == Some(LoginRoute)
          && refreshCalls == old(refreshCalls) && config.authorization == old(config.authorization)
      ensures var rt := Lookup(old(storage.items), RefreshTokenKey);
        Recoverable(response, old(config.retry)) && Truthy(rt) ==>
          && refreshCalls == old(refreshCalls) + [rt.value]
          && match refresh
             case Refreshed(at) =>
               && recovery == Replay
               && storage.items == old(storage.items)[AuthTokenKey := at]
               && config.authorization == Some(BearerHeader(at))
               && redirectedTo == old(redirectedTo)
             case NotRefreshed =>
               && recovery == Reject(OriginalError(response))
               && storage.items == old(storage.items) && redirectedTo == old(redirectedTo)
               && config.authorization == old(config.authorization)
             case RefreshFailed(m) =>
               && recovery == Reject(RefreshError(ThrownMessage(m, RefreshFallback)))
               && storage.items == old(storage.items) - {AuthTokenKey, RefreshTokenKey}
               && redirectedTo == Some(LoginRoute)
               && config.authorization == old(config.authorization)
    {
      if response == Status(Unauthorized) && !config.retry {
        config.retry := true;
        var refreshToken := storage.GetItem(RefreshTokenKey);
        if Truthy(refreshToken) {
          refreshCalls := refreshCalls + [refreshToken.value];
          match refresh {
            case Refreshed(at) =>
              storage.SetItem(AuthTokenKey, at);
              config.authorization := Some(BearerHeader(at));
              return Replay;
            case NotRefreshed =>
            case RefreshFailed(m) =>
              storage.RemoveItem(AuthTokenKey);
              storage.RemoveItem(RefreshTokenKey);
              redirectedTo := Some(LoginRoute);
              return Reject(RefreshError(ThrownMessage(m, RefreshFallback)));
          }
        } else {
          redirectedTo := Some(LoginRoute);
        }
      }
      recovery := Reject(OriginalError(response));
    }

    /**
     * One call through both interceptors. `first` answers the request and
     * `replay` answers its replay, if there is one; the request is sent at
     * most twice and the refresh endpoint called at most once.
     */
    method Send(config: RequestConfig, first: Response, replay: Response, refresh: RefreshAnswer)
      returns (outcome: CallOutcome)
      modifies config, this, storage
      ensures 1 <= outcome.attempts <= 2
      ensures |refreshCalls| <= |old(refreshCalls)| + 1
      ensures IsSuccess(first) ==> outcome == Resolved(1) && storage.items == old(storage.items)
      ensures var rt := Lookup(old(storage.items), RefreshTokenKey);
        outcome.attempts == 2 <==>
          !IsSuccess(first) && Recoverable(first, old(config.retry)) && Truthy(rt) && refresh.Refreshed?
      ensures outcome.attempts == 2 ==>
        && config.authorization == Some(BearerHeader(refresh.accessToken))
        && (outcome.Resolved? <==> IsSuccess(replay))
        && (outcome.Rejected? ==> outcome.reason == OriginalError(replay))
      ensures !IsSuccess(first) && Recoverable(first, old(config.retry)) ==> config.retry
    {
      InterceptRequest(config);
      if IsSuccess(first) {
        return Resolved(1);
      }
      var recovery := InterceptResponseError(config, first, refresh);
      if recovery.Reject? {
        return Rejected(recovery.reason, 1);
      }
      InterceptRequest(config);
      if IsSuccess(replay) {
        return Resolved(2);
      }
      var second := InterceptResponseError(config, replay, refresh);
      outcome := Rejected(second.reason, 2);
    }
  }
}
