/**
 * The three session endpoints of the backend as the client sees them. A
 * backend answer is an input to the model: a success body, a `success: false`
 * body, or an HTTP/network failure carrying the optional `message` of the
 * error body.
 */
module AuthService {
  import opened Wrappers
  import opened JsStrings

  /** The authenticated principal returned by the verify endpoint; opaque to the session code. */
  datatype Principal = Principal(id: string, email: string)

  /** POST /auth/verify. */
  datatype VerifyAnswer =
    | Verified(user: Option<Principal>)
    | NotVerified
    | VerifyFailed(backendMessage: Option<string>)

  /** POST /auth/refresh. */
  datatype RefreshAnswer =
    | Refreshed(accessToken: string)
    | NotRefreshed
    | RefreshFailed(backendMessage: Option<string>)

  /** POST /auth/logout: a 2xx reply and its body, or an HTTP/network failure. */
  datatype LogoutAnswer =
    | LogoutBody(body: LogoutReply)
    | LogoutFailed(backendMessage: Option<string>)

  /** One call made to the backend, with the credential it carried. */
  datatype BackendCall =
    | VerifyCall(token: string)
    | RefreshCall(refreshToken: string)
    | LogoutCall(refreshToken: string)

  const VerifyFallback: string := "Token verification failed"
  const RefreshFallback: string := "Token refresh failed"
  const LogoutFallback: string := "Logout error"

  /**
   * The message of the `Error` a wrapper throws for a failed call:
   * `error.response?.data?.message || fallback`.
   */
  function ThrownMessage(backendMessage: Option<string>, fallback: string): (m: string)
    requires fallback != ""
    ensures m != ""
    ensures Truthy(backendMessage) ==> m == backendMessage.value
    ensures !Truthy(backendMessage) ==> m == fallback
  {
    Or(backendMessage, fallback)
  }

  /** The body of a logout reply. */
  datatype LogoutReply = LogoutReply(success: bool, message: Option<string>)

  /**
   * What `authService.logout` resolves with; it never rejects. A 2xx reply's
   * body is passed on as it is, `success: false` included; a failed call
   * becomes a `success: false` body carrying the thrown message.
   */
  function LogoutResponse(a: LogoutAnswer): (r: LogoutReply)
    ensures a.LogoutBody? ==> r == a.body
    ensures a.LogoutFailed? ==> !r.success && r.message == Some(ThrownMessage(a.backendMessage, LogoutFallback))
    ensures r.success ==> a.LogoutBody? && a.body.success
  {
    match a
    case LogoutBody(body) => body
    case LogoutFailed(m) => LogoutReply(false, Some(Or(m, LogoutFallback)))
  }

  /**
   * What one of the thin REST wrappers settles with: the response body (its
   * `success`, `data` and `message`), or the `Error` it throws, carrying the
   * error body's optional `message`.
   */
  datatype WrapperAnswer<T> =
    | Body(success: bool, data: Option<T>, message: Option<string>)
    | Thrown(backendMessage: Option<string>)

  /**
   * The error text a component shows for an unsuccessful wrapper call: the
   * body's `message || componentFallback` for a `success: false` body, and
   * `err.message || componentFallback` for a thrown one, whose message is the
   * wrapper's `ThrownMessage` and so never empty.
   */
  function CallError<T>(a: WrapperAnswer<T>, wrapperFallback: string, componentFallback: string): (m: string)
    requires !(a.Body? && a.success)
    requires wrapperFallback != ""
    ensures a.Body? && Truthy(a.message) ==> m == a.message.value
    ensures a.Body? && !Truthy(a.message) ==> m == componentFallback
    ensures a.Thrown? ==> m == ThrownMessage(a.backendMessage, wrapperFallback)
    ensures componentFallback != "" ==> m != ""
  {
    match a
    case Body(_, _, msg) => Or(msg, componentFallback)
    case Thrown(msg) => OrStr(ThrownMessage(msg, wrapperFallback), componentFallback)
  }
}
