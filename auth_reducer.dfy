/**
 * The session record and its reducer (`authReducer` in the session context):
 * a pure transition function from a session and an action to a new session.
 */
module AuthReducer {
  import opened Wrappers
  import opened AuthService

  datatype Session = Session(
    user: Option<Principal>,
    token: Option<string>,
    refreshToken: Option<string>,
    isAuthenticated: bool,
    isLoading: bool,
    error: Option<string>)

  /** `authInitialState`: nobody signed in, verification pending. */
  const InitialSession: Session := Session(None, None, None, false, true, None)

  /**
   * The nine action kinds, plus any other `type` string, which the reducer
   * ignores. The verify-success payload carries both tokens, which the reducer
   * does not read.
   */
  datatype Action =
    | LoginStart
    | LoginSuccess(user: Option<Principal>, token: string, refreshToken: string)
    | LoginFailure(error: Option<string>)
    | Logout
    | VerifyTokenStart
    | VerifyTokenSuccess(user: Option<Principal>, payloadToken: Option<string>, payloadRefreshToken: Option<string>)
    | VerifyTokenFailure(error: Option<string>)
    | RefreshTokenSuccess(token: string)
    | ClearError
    | Unknown(kind: string)

  /**
   * `authReducer`. Only the two success actions sign a session in, only the
   * two failure actions set a new error, and only sign-in, failure and
   * `LOGOUT` touch the refresh token.
   */
  function Reduce(s: Session, a: Action): (r: Session)
    ensures r.isAuthenticated && !s.isAuthenticated ==> a.LoginSuccess? || a.VerifyTokenSuccess?
    ensures r.error.Some? ==>
      ((a.LoginFailure? || a.VerifyTokenFailure?) && r.error == a.error) || (a.Unknown? && r.error == s.error)
    ensures r.refreshToken != s.refreshToken ==> a.LoginSuccess? || a.LoginFailure? || a.VerifyTokenFailure? || a.Logout?
  {
    match a
    case LoginStart | VerifyTokenStart =>
      s.(isLoading := true, error := None)
    case LoginSuccess(u, t, rt) =>
      s.(user := u, token := Some(t), refreshToken := Some(rt), isAuthenticated := true, isLoading := false, error := None)
    case VerifyTokenSuccess(u, _, _) =>
      s.(user := u, isAuthenticated := true, isLoading := false, error := None)
    case RefreshTokenSuccess(t) =>
      s.(token := Some(t), isLoading := false, error := None)
    case LoginFailure(_) | VerifyTokenFailure(_) =>
      s.(user := None, token := None, refreshToken := None, isAuthenticated := false, isLoading := false, error := a.error)
    case Logout =>
      InitialSession.(isLoading := false)
    case ClearError =>
      s.(error := None)
    case Unknown(_) =>
      s
  }

  /** The session after dispatching `actions` in order. */
  function Run(s: Session, actions: seq<Action>): Session
    decreases |actions|
  {
    if actions == [] then s else Run(Reduce(s, actions[0]), actions[1..])
  }

  /** The signed-out session `LOGOUT` produces. */
  const SignedOut: Session := Session(None, None, None, false, false, None)

  lemma LogoutYieldsSignedOut(s: Session)
    ensures Reduce(s, Logout) == SignedOut
    ensures Reduce(s, Logout) == InitialSession.(isLoading := false)
  {
  }

  /** Both failure actions clear the principal and both tokens and surface the payload's error. */
  lemma FailureClearsSession(s: Session, a: Action)
    requires a.LoginFailure? || a.VerifyTokenFailure?
    ensures var r := Reduce(s, a);
      && r.user == None && r.token == None && r.refreshToken == None
      && !r.isAuthenticated && !r.isLoading && r.error == a.error
  {
  }

  /** Verify-success attaches the principal but keeps the session's own tokens, ignoring the payload's. */
  lemma VerifySuccessKeepsTokens(s: Session, u: Option<Principal>, t: Option<string>, rt: Option<string>)
    ensures var r := Reduce(s, VerifyTokenSuccess(u, t, rt));
      && r.user == u && r.isAuthenticated && !r.isLoading && r.error == None
      && r.token == s.token && r.refreshToken == s.refreshToken
  {
  }

  /** Refresh-success changes only `token`, `isLoading` and `error`. */
  lemma RefreshSuccessFrame(s: Session, t: string)
    ensures var r := Reduce(s, RefreshTokenSuccess(t));
      && r.token == Some(t) && !r.isLoading && r.error == None
      && r.user == s.user && r.refreshToken == s.refreshToken && r.isAuthenticated == s.isAuthenticated
  {
  }

  /** `CLEAR_ERROR` changes only `error`; an unknown action changes nothing. */
  lemma ClearErrorAndUnknownFrame(s: Session, kind: string)
    ensures Reduce(s, ClearError) == s.(error := None)
    ensures Reduce(s, Unknown(kind)) == s
  {
  }

  /** Running a two-action sequence is reducing twice. */
  lemma {:induction false} RunPair(s: Session, a: Action, b: Action)
    ensures Run(s, [a, b]) == Reduce(Reduce(s, a), b)
  {
    assert [a, b][1..] == [b];
    assert [b][1..] == [];
    assert Run(Reduce(s, a), [b]) == Run(Reduce(Reduce(s, a), b), []);
  }

  /** Dispatching `xs` then `ys` is dispatching `xs + ys`. */
  lemma {:induction false} RunAppend(s: Session, xs: seq<Action>, ys: seq<Action>)
    ensures Run(s, xs + ys) == Run(Run(s, xs), ys)
    decreases |xs|
  {
    if xs != [] {
      assert (xs + ys)[0] == xs[0];
      assert (xs + ys)[1..] == xs[1..] + ys;
      RunAppend(Reduce(s, xs[0]), xs[1..], ys);
    } else {
      assert xs + ys == ys;
    }
  }

  /** Whatever was dispatched before, a final `LOGOUT` leaves the signed-out session. */
  lemma {:induction false} RunEndingInLogout(s: Session, actions: seq<Action>)
    ensures Run(s, actions + [Logout]) == SignedOut
  {
    RunAppend(s, actions, [Logout]);
  }

  /** The session's own invariant: authenticated exactly when a principal is attached. */
  predicate Consistent(s: Session) {
    s.isAuthenticated <==> s.user.Some?
  }

  /** Success payloads carry a principal. */
  predicate WellFormed(a: Action) {
    (a.LoginSuccess? ==> a.user.Some?) && (a.VerifyTokenSuccess? ==> a.user.Some?)
  }

  lemma ReducePreservesConsistent(s: Session, a: Action)
    requires Consistent(s) && WellFormed(a)
    ensures Consistent(Reduce(s, a))
  {
  }

  /**
   * From `authInitialState`, every run of well-formed actions keeps
   * `isAuthenticated` equal to "a principal is attached".
   */
  lemma {:induction false} RunPreservesConsistent(s: Session, actions: seq<Action>)
    requires Consistent(s)
    requires forall i | 0 <= i < |actions| :: WellFormed(actions[i])
    ensures Consistent(Run(s, actions))
    decreases |actions|
  {
    if actions != [] {
      ReducePreservesConsistent(s, actions[0]);
      RunPreservesConsistent(Reduce(s, actions[0]), actions[1..]);
    }
  }

  lemma InitialRunsConsistent(actions: seq<Action>)
    requires forall i | 0 <= i < |actions| :: WellFormed(actions[i])
    ensures Consistent(Run(InitialSession, actions))
  {
    RunPreservesConsistent(InitialSession, actions);
  }

  /**
   * A verify-success payload without a principal breaks the invariant: the
   * reducer sets `isAuthenticated` whatever the payload holds.
   */
  lemma MissingPrincipalBreaksConsistent()
    ensures !Consistent(Run(InitialSession, [VerifyTokenStart, VerifyTokenSuccess(None, None, None)]))
  {
    RunPair(InitialSession, VerifyTokenStart, VerifyTokenSuccess(None, None, None));
  }

  /**
   * As written, a successful verification at start-up leaves an authenticated
   * session whose `token` is still null, so "no access token implies not
   * authenticated" does not hold of the reducer.
   */
  lemma VerifiedAtStartupHasNoToken(u: Principal, t: string, rt: Option<string>)
    ensures var r := Run(InitialSession, [VerifyTokenStart, VerifyTokenSuccess(Some(u), Some(t), rt)]);
      r.isAuthenticated && r.token == None
  {
    RunPair(InitialSession, VerifyTokenStart, VerifyTokenSuccess(Some(u), Some(t), rt));
  }

  /**
   * As written, a successful refresh at start-up attaches no principal: the
   * session keeps the new token but stays unauthenticated.
   */
  lemma RefreshedAtStartupStaysUnauthenticated(t: string)
    ensures var r := Run(InitialSession, [VerifyTokenStart, RefreshTokenSuccess(t)]);
      !r.isAuthenticated && r.user == None && r.token == Some(t) && !r.isLoading
  {
    RunPair(InitialSession, VerifyTokenStart, RefreshTokenSuccess(t));
  }
}
