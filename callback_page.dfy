/**
 * The sign-in callback route: on its first effect run it reads the tokens
 * from the query string, hands them to the session provider's `login` once,
 * and navigates by the outcome. Navigation is recorded in `navigatedTo` and
 * the toast shown in `toast`.
 */
module CallbackPage {
  import opened Wrappers
  import opened JsStrings
  import opened AuthService
  import opened AuthReducer
  import opened TokenStore
  import opened AuthContext
  import opened Notifications

  const DashboardRoute: string := "/dashboard"
  const LoginRoute: string := "/login"
  const AuthenticationFailed: string := "Authentication failed"
  const LoginFailed: string := "Login failed"
  const SignedInToast: string := "Successfully signed in!"


  /** `searchParams.get(name)`. */
  function Param(params: map<string, string>, name: string): Option<string> {
    if name in params then Some(params[name]) else None
  }

  /** The query string is refused without calling `login` when it reports an error or lacks a token. */
  predicate ParamsRejected(params: map<string, string>) {
    Truthy(Param(params, "error")) || !Truthy(Param(params, "token")) || !Truthy(Param(params, "refreshToken"))
  }

  class Callback {
    const auth: AuthProvider
    var hasProcessed: bool
    var isProcessing: bool
    var navigatedTo: Option<string>
    var toast: Option<Toast>

    constructor (auth: AuthProvider)
      ensures this.auth == auth && !hasProcessed && isProcessing && navigatedTo == None && toast == None
    {
      this.auth := auth;
      hasProcessed := false;
      isProcessing := true;
      navigatedTo := None;
      toast := None;
    }

    /**
     * The mount effect. `verify` is the backend's answer to the verify call
     * `login` makes. A second run, from a re-render, does nothing.
     */
    method Effect(params: map<string, string>, verify: VerifyAnswer)
      modifies this, auth, auth.storage
      ensures old(hasProcessed) ==>
        && navigatedTo == old(navigatedTo) && isProcessing == old(isProcessing)
        && toast == old(toast)
        && auth.backendCalls == old(auth.backendCalls) && auth.state == old(auth.state)
        && auth.storage.items == old(auth.storage.items) && auth.dispatched == old(auth.dispatched)
      ensures hasProcessed && (!old(hasProcessed) ==> !isProcessing)
      ensures !old(hasProcessed) && ParamsRejected(params) ==>
        && navigatedTo == Some(LoginRoute)
        && toast == Some(ErrorToast(Or(Param(params, "message"), AuthenticationFailed)))
        && auth.backendCalls == old(auth.backendCalls) && auth.state == old(auth.state)
        && auth.storage.items == old(auth.storage.items) && auth.dispatched == old(auth.dispatched)
      ensures !old(hasProcessed) && !ParamsRejected(params) ==>
        && auth.backendCalls == old(auth.backendCalls) + [VerifyCall(params["token"])]
        && (verify.Verified? ==>
              navigatedTo == Some(DashboardRoute) && toast == Some(SuccessToast(SignedInToast))
              && auth.storage.items == old(auth.storage.items)[AuthTokenKey := params["token"]][RefreshTokenKey := params["refreshToken"]]
              && auth.state == Session(verify.user, Some(params["token"]), Some(params["refreshToken"]), true, false, None)
              && auth.dispatched == old(auth.dispatched) + [LoginStart, LoginSuccess(verify.user, params["token"], params["refreshToken"])])
        && (!verify.Verified? ==>
              navigatedTo == Some(LoginRoute) && toast == Some(ErrorToast(LoginFailureMessage(verify)))
              && auth.storage.items == old(auth.storage.items)
              && auth.state == Session(None, None, None, false, false, Some(LoginFailureMessage(verify)))
              && auth.dispatched == old(auth.dispatched) + [LoginStart, LoginFailure(Some(LoginFailureMessage(verify)))])
    {
      if hasProcessed {
        return;
      }
      hasProcessed := true;
      var token := Param(params, "token");
      var refreshToken := Param(params, "refreshToken");
      var error := Param(params, "error");
      var errorMessage := Param(params, "message");
      if Truthy(error) || !Truthy(token) || !Truthy(refreshToken) {
        Fail(Or(errorMessage, AuthenticationFailed));
      } else {
        var result := auth.Login(token.value, refreshToken.value, verify);
        if result.success {
          toast := Some(SuccessToast(SignedInToast));
          navigatedTo := Some(DashboardRoute);
        } else {
          Fail(Or(result.error, LoginFailed));
        }
      }
      isProcessing := false;
    }

    /** The catch clause: toast the message, or the generic one when it is empty, and go to the login route. */
    method Fail(message: string)
      modifies this
      ensures toast == Some(ErrorToast(OrStr(message, AuthenticationFailed))) && navigatedTo == Some(LoginRoute)
      ensures hasProcessed == old(hasProcessed) && isProcessing == old(isProcessing)
    {
      toast := Some(ErrorToast(OrStr(message, AuthenticationFailed)));
      navigatedTo := Some(LoginRoute);
    }
  }
}
