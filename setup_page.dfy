/**
 * The first-run setup form: client-side checks in a fixed order, then the
 * auth store's `setupAdmin`, then navigation to the pods page.
 */
module SetupPage {
  import opened Wrappers
  import opened ApiClient
  import AuthStore
  import SetupHandlers

  const UsernameTooShort := "Username must be at least 3 characters"
  const PasswordTooShort := "Password must be at least 6 characters"
  const PasswordMismatch := "Passwords do not match"

  /** The first failing check's message: username length, then password length, then confirmation. */
  function Validate(username: string, password: string, confirmPassword: string): (r: Option<string>)
    ensures r.None? <==> |username| >= 3 && |password| >= 6 && password == confirmPassword
    ensures |username| < 3 ==> r == Some(UsernameTooShort)
    ensures |username| >= 3 && |password| < 6 ==> r == Some(PasswordTooShort)
    ensures |username| >= 3 && |password| >= 6 && password != confirmPassword ==> r == Some(PasswordMismatch)
  {
    if |username| < 3 then Some(UsernameTooShort)
    else if |password| < 6 then Some(PasswordTooShort)
    else if password != confirmPassword then Some(PasswordMismatch)
    else None
  }

  /**
   * A form the page submits passes the server's setup binding, provided the
   * username stays within the server's 50-character cap. Lengths are counted in
   * characters on both sides; the page counts UTF-16 units and the server runes,
   * so this holds for text without characters outside the Basic Multilingual
   * Plane (two emoji pass the page's 3-unit minimum but are 2 runes).
   */
  lemma ValidFormPassesServerCheck(username: string, password: string, confirmPassword: string)
    requires Validate(username, password, confirmPassword).None? && |username| <= 50
    ensures SetupHandlers.SetupRequestValid(SetupHandlers.SetupRequest(username, password))
  {
  }

  /** The page has no upper bound: a longer username is submitted and then refused by the server. */
  lemma LongUsernameReachesServer(username: string, password: string)
    requires |username| > 50 && |password| >= 6
    ensures Validate(username, password, password).None?
    ensures !SetupHandlers.SetupRequestValid(SetupHandlers.SetupRequest(username, password))
  {
  }

  /**
   * The message box: `error ?? validationError`, shown only when that is a
   * non-empty string. A store error hides the validation error.
   */
  function DisplayedError(storeError: Option<string>, validationError: Option<string>): (r: Option<string>)
    ensures storeError.Some? ==> (r.Some? <==> storeError.value != "") && (r.Some? ==> r == storeError)
    ensures storeError.None? ==> (r.Some? <==> validationError.Some? && validationError.value != "")
                                 && (r.Some? ==> r == validationError)
  {
    var shown := if storeError.Some? then storeError else validationError;
    if shown.Some? && shown.value != "" then shown else None
  }

  /** A validation message is shown exactly when the store has no error. */
  lemma StoreErrorTakesPrecedence(storeError: Option<string>, username: string, password: string, confirmPassword: string)
    requires Validate(username, password, confirmPassword).Some?
    ensures DisplayedError(storeError, Validate(username, password, confirmPassword)) ==
      (if storeError.None? then Validate(username, password, confirmPassword)
       else if storeError.value != "" then storeError else None)
  {
  }

  class SetupForm {
    var username: string
    var password: string
    var confirmPassword: string
    var validationError: Option<string>
    /** The paths `navigate` was called with. */
    var navigations: seq<string>

    constructor ()
      ensures username == "" && password == "" && confirmPassword == ""
      ensures validationError.None? && navigations == []
    {
      username, password, confirmPassword := "", "", "";
      validationError := None;
      navigations := [];
    }

    /**
     * `handleSubmit`: clear the message, stop at the first failing check, else
     * call `setupAdmin` and navigate to /pods once it resolves; a rejection is
     * left to the store.
     */
    method HandleSubmit(store: AuthStore.Store, apiSetupAdmin: (string, string) -> Outcome<AuthStore.SessionInfo>)
      modifies this, store
      ensures username == old(username) && password == old(password) && confirmPassword == old(confirmPassword)
      ensures validationError == Validate(username, password, confirmPassword)
      ensures validationError.Some? ==> unchanged(store) && navigations == old(navigations)
      ensures validationError.None? ==>
        && store.State() == AuthStore.SignInStep(old(store.State()), apiSetupAdmin(username, password),
                                                 AuthStore.SetupAdminFallback).0
        && navigations == old(navigations) + (if apiSetupAdmin(username, password).Resolved? then ["/pods"] else [])
    {
      validationError := None;
      if |username| < 3 {
        validationError := Some(UsernameTooShort);
        return;
      }
      if |password| < 6 {
        validationError := Some(PasswordTooShort);
        return;
      }
      if password != confirmPassword {
        validationError := Some(PasswordMismatch);
        return;
      }
      var thrown := store.SetupAdmin(username, password, apiSetupAdmin);
      if thrown.None? {
        navigations := navigations + ["/pods"];
      }
    }
  }
}
