/**
 * The web client's auth store. Each action runs to completion with the API
 * call's settled promise given as a parameter; what the action rethrows is
 * returned. The cluster store's `fetchContexts` is counted, not modelled.
 */
module AuthStore {
  import opened Wrappers
  import opened ApiClient

  datatype SessionInfo = SessionInfo(
    subject: string, source: string, context: Option<string>, hasRefresh: Option<bool>, expiresAt: Option<string>)

  datatype AuthStatus = AuthStatus(needsSetup: bool, authMethods: seq<string>)

  /**
   * The store's fields, the number of `fetchContexts` calls it started, and the
   * address it sent the browser to, if any.
   */
  datatype AuthState = AuthState(
    session: Option<SessionInfo>, authStatus: Option<AuthStatus>, isLoading: bool, error: Option<string>,
    contextFetches: nat, redirect: Option<string>)

  function Initial(): (s: AuthState)
    ensures s.session.None? && s.authStatus.None? && !s.isLoading && s.error.None?
  {
    AuthState(None, None, false, None, 0, None)
  }

  // The fallback message of each action, used when the rejection is not an `Error`.
  const CheckSetupFallback := "Unable to check setup status"
  const SetupAdminFallback := "Unable to create admin account"
  const LocalLoginFallback := "Invalid username or password"
  const LoadSessionFallback := "Unable to load session"
  const StartOidcFallback := "Unable to start login"
  const CompleteOidcFallback := "Unable to complete login"

  /** The first `set` of every action but `logout` and `clearError`. */
  function Begin(s: AuthState): (r: AuthState)
    ensures r.isLoading && r.error.None?
  {
    s.(isLoading := true, error := None)
  }

  /** `checkSetup`: resolves with the status, or records the message and rethrows. */
  function CheckSetupStep(s: AuthState, fetched: Outcome<AuthStatus>): (AuthState, Outcome<AuthStatus>) {
    var b := Begin(s);
    match fetched
    case Resolved(status) => (b.(authStatus := Some(status), isLoading := false), fetched)
    case Rejected(e) => (b.(isLoading := false, error := Some(Message(e, CheckSetupFallback))), fetched)
  }

  /** `setupAdmin` and `localLogin`: keep the session and load contexts, or record the message and rethrow. */
  function SignInStep(s: AuthState, result: Outcome<SessionInfo>, fallback: string): (AuthState, Option<Thrown>) {
    var b := Begin(s);
    match result
    case Resolved(session) =>
      (b.(session := Some(session), isLoading := false, error := None, contextFetches := b.contextFetches + 1), None)
    case Rejected(e) => (b.(isLoading := false, error := Some(Message(e, fallback))), Some(e))
  }

  /** `loadSession`: a 401 means signed out, silently; other failures sign out with a message. Never throws. */
  function LoadSessionStep(s: AuthState, fetched: Outcome<SessionInfo>): AuthState {
    var b := Begin(s);
    match fetched
    case Resolved(session) =>
      b.(session := Some(session), isLoading := false, error := None, contextFetches := b.contextFetches + 1)
    case Rejected(e) =>
      if e.ApiErr? && e.status == 401 then b.(session := None, isLoading := false, error := None)
      else b.(session := None, isLoading := false, error := Some(Message(e, LoadSessionFallback)))
  }

  /** `startOidc`: send the browser to the provider (still loading), or record the message. Never throws. */
  function StartOidcStep(s: AuthState, started: Outcome<string>): AuthState {
    var b := Begin(s);
    match started
    case Resolved(url) => b.(redirect := Some(url))
    case Rejected(e) => b.(isLoading := false, error := Some(Message(e, StartOidcFallback)))
  }

  /**
   * `completeOidc`: the callback, then the session; `fetched` is only consulted
   * when the callback resolved. Any failure signs out with a message. Never throws.
   */
  function CompleteOidcStep(s: AuthState, callback: Option<Thrown>, fetched: Outcome<SessionInfo>): AuthState {
    var b := Begin(s);
    if callback.Some? then
      b.(session := None, isLoading := false, error := Some(Message(callback.value, CompleteOidcFallback)))
    else match fetched
      case Resolved(session) => b.(session := Some(session), isLoading := false, error := None)
      case Rejected(e) => b.(session := None, isLoading := false, error := Some(Message(e, CompleteOidcFallback)))
  }

  /** `logout`: loading, then signed out whatever the call did; a rejection passes through the `finally`. */
  function LogoutStep(s: AuthState, failure: Option<Thrown>): (AuthState, Option<Thrown>) {
    var b := s.(isLoading := true);
    (b.(session := None, isLoading := false), failure)
  }

  // ---------------------------------------------------------------- properties

  /** Sign-in succeeds with the session and no error; fails keeping the old session, with the message, rethrowing. */
  lemma SignInOutcomes(s: AuthState, result: Outcome<SessionInfo>, fallback: string)
    ensures var (r, thrown) := SignInStep(s, result, fallback);
      && !r.isLoading && r.authStatus == s.authStatus
      && (result.Resolved? ==> r.session == Some(result.value) && r.error.None? && thrown.None?
                               && r.contextFetches == s.contextFetches + 1)
      && (result.Rejected? ==> r.session == s.session && thrown == Some(result.reason)
                               && r.error == Some(Message(result.reason, fallback))
                               && r.contextFetches == s.contextFetches)
  {
  }

  /** A 401 from the session endpoint is a quiet sign-out; any other failure is reported. */
  lemma LoadSessionFailures(s: AuthState, e: Thrown)
    ensures LoadSessionStep(s, Rejected(e)).session.None? && !LoadSessionStep(s, Rejected(e)).isLoading
    ensures LoadSessionStep(s, Rejected(e)).error.None? <==> e.ApiErr? && e.status == 401
  {
  }

  /** Every action but a successful `startOidc` ends with loading cleared; that one leaves for the provider. */
  lemma ActionsSettle(s: AuthState, status: Outcome<AuthStatus>, signIn: Outcome<SessionInfo>, fallback: string,
                      started: Outcome<string>, callback: Option<Thrown>, failure: Option<Thrown>)
    ensures !CheckSetupStep(s, status).0.isLoading
    ensures !SignInStep(s, signIn, fallback).0.isLoading
    ensures !LoadSessionStep(s, signIn).isLoading
    ensures !CompleteOidcStep(s, callback, signIn).isLoading
    ensures !LogoutStep(s, failure).0.isLoading
    ensures StartOidcStep(s, started).isLoading <==> started.Resolved?
    ensures StartOidcStep(s, started).redirect.Some? <==> started.Resolved? || s.redirect.Some?
  {
  }

  /** `logout` signs out and keeps the error as it was, whether or not the call fails. */
  lemma LogoutAlwaysSignsOut(s: AuthState, failure: Option<Thrown>)
    ensures LogoutStep(s, failure).0.session.None? && LogoutStep(s, failure).0.error == s.error
    ensures LogoutStep(s, failure).1 == failure
  {
  }

  /** A failed callback signs out with a message and the session fetch is never used. */
  lemma CompleteOidcCallbackFailure(s: AuthState, e: Thrown, fetched: Outcome<SessionInfo>)
    ensures CompleteOidcStep(s, Some(e), fetched) == CompleteOidcStep(s, Some(e), Rejected(NonError))
    ensures CompleteOidcStep(s, Some(e), fetched).session.None?
    ensures CompleteOidcStep(s, Some(e), fetched).error == Some(Message(e, CompleteOidcFallback))
  {
  }

  /** Every fallback message is non-empty, so a failed action always shows something. */
  lemma FailuresReported(s: AuthState, e: Thrown)
    requires e.NonError? || e.message != ""
    ensures var f := CheckSetupStep(s, Rejected(e)).0.error; f.Some? && f.value != ""
    ensures var f := SignInStep(s, Rejected(e), SetupAdminFallback).0.error; f.Some? && f.value != ""
    ensures var f := SignInStep(s, Rejected(e), LocalLoginFallback).0.error; f.Some? && f.value != ""
    ensures var f := StartOidcStep(s, Rejected(e)).error; f.Some? && f.value != ""
    ensures var f := CompleteOidcStep(s, Some(e), Rejected(e)).error; f.Some? && f.value != ""
  {
  }

  // ---------------------------------------------------------------- the store

  class Store {
    var session: Option<SessionInfo>
    var authStatus: Option<AuthStatus>
    var isLoading: bool
    var error: Option<string>
    var contextFetches: nat
    var redirect: Option<string>

    function State(): AuthState
      reads this
    {
      AuthState(session, authStatus, isLoading, error, contextFetches, redirect)
    }

    constructor ()
      ensures State() == Initial()
    {
      session := None;
      authStatus := None;
      isLoading := false;
      error := None;
      contextFetches := 0;
      redirect := None;
    }

    method ClearError()
      modifies this
      ensures State() == old(State()).(error := None)
    {
      error := None;
    }

    method CheckSetup(fetchAuthStatus: Outcome<AuthStatus>) returns (r: Outcome<AuthStatus>)
      modifies this
      ensures (State(), r) == CheckSetupStep(old(State()), fetchAuthStatus)
    {
      isLoading, error := true, None;
      r := fetchAuthStatus;
      match fetchAuthStatus
      case Resolved(status) =>
        authStatus, isLoading := Some(status), false;
      case Rejected(e) =>
        isLoading, error := false, Some(Message(e, CheckSetupFallback));
    }

    /** The shared body of `setupAdmin` and `localLogin`. */
    method SignIn(result: Outcome<SessionInfo>, fallback: string) returns (thrown: Option<Thrown>)
      modifies this
      ensures (State(), thrown) == SignInStep(old(State()), result, fallback)
    {
      isLoading, error := true, None;
      thrown := None;
      match result
      case Resolved(s) =>
        session, isLoading, error := Some(s), false, None;
        contextFetches := contextFetches + 1;
      case Rejected(e) =>
        isLoading, error := false, Some(Message(e, fallback));
        thrown := Some(e);
    }

    method SetupAdmin(username: string, password: string, apiSetupAdmin: (string, string) -> Outcome<SessionInfo>)
      returns (thrown: Option<Thrown>)
      modifies this
      ensures (State(), thrown) == SignInStep(old(State()), apiSetupAdmin(username, password), SetupAdminFallback)
    {
      thrown := SignIn(apiSetupAdmin(username, password), SetupAdminFallback);
    }

    method LocalLogin(username: string, password: string, apiLocalLogin: (string, string) -> Outcome<SessionInfo>)
      returns (thrown: Option<Thrown>)
      modifies this
      ensures (State(), thrown) == SignInStep(old(State()), apiLocalLogin(username, password), LocalLoginFallback)
    {
      thrown := SignIn(apiLocalLogin(username, password), LocalLoginFallback);
    }

    method LoadSession(fetchSession: Outcome<SessionInfo>)
      modifies this
      ensures State() == LoadSessionStep(old(State()), fetchSession)
    {
      isLoading, error := true, None;
      match fetchSession
      case Resolved(s) =>
        session, isLoading, error := Some(s), false, None;
        contextFetches := contextFetches + 1;
      case Rejected(e) =>
        if e.ApiErr? && e.status == 401 {
          session, isLoading, error := None, false, None;
        } else {
          session, isLoading, error := None, false, Some(Message(e, LoadSessionFallback));
        }
    }

    method StartOidc(startOIDC: Outcome<string>)
      modifies this
      ensures State() == StartOidcStep(old(State()), startOIDC)
    {
      isLoading, error := true, None;
      match startOIDC
      case Resolved(url) =>
        redirect := Some(url);
      case Rejected(e) =>
        isLoading, error := false, Some(Message(e, StartOidcFallback));
    }

    method CompleteOidc(code: string, state: string, completeOIDC: (string, string) -> Option<Thrown>,
                        fetchSession: Outcome<SessionInfo>)
      modifies this
      ensures State() == CompleteOidcStep(old(State()), completeOIDC(code, state), fetchSession)
    {
      isLoading, error := true, None;
      var failed := completeOIDC(code, state);
      if failed.Some? {
        session, isLoading, error := None, false, Some(Message(failed.value, CompleteOidcFallback));
        return;
      }
      match fetchSession
      case Resolved(s) =>
        session, isLoading, error := Some(s), false, None;
      case Rejected(e) =>
        session, isLoading, error := None, false, Some(Message(e, CompleteOidcFallback));
    }

    method Logout(apiLogout: Option<Thrown>) returns (thrown: Option<Thrown>)
      modifies this
      ensures (State(), thrown) == LogoutStep(old(State()), apiLogout)
    {
      isLoading := true;
      session, isLoading := None, false;
      thrown := apiLogout;
    }
  }
}
