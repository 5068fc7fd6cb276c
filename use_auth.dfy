/**
 * The `useAuth` hook (app/src/hooks/use-auth.ts): each action is a sequence
 * of auth-store setter calls around one call to the auth service, whose
 * outcome is a parameter. `jwtDecode` of the id token is the parameter
 * `decode`. Toasts and navigation are not part of this model.
 */
module UseAuth {
  import opened Wrappers
  import JsString
  import Auth
  import Api

  /** The claims of a Cognito id token that the hook reads. */
  datatype Claims = Claims(sub: string, email: Option<string>, name: Option<string>)

  /** `jwtDecode` on an id token; None when it throws. */
  type ClaimsDecoder = string -> Option<Claims>

  /** The tokens of a successful login. */
  datatype LoginTokens = LoginTokens(accessToken: string, idToken: string, refreshToken: string)

  /** The user record built in `login`: claims first, the typed email last. */
  function UserFromClaims(c: Claims, typedEmail: string): (u: Auth.User)
    ensures u.id == c.sub
    ensures JsString.Truthy(c.email) ==> u.email == c.email.value
    ensures !JsString.Truthy(c.email) ==> u.email == typedEmail
    ensures JsString.Truthy(c.name) ==> u.name == c.name.value
  {
    var email := if JsString.Truthy(c.email) then c.email.value else typedEmail;
    var name := if JsString.Truthy(c.name) then c.name.value else email;
    Auth.User(c.sub, email, name)
  }

  /** Without a name claim the user's name is their email, however the email was obtained. */
  lemma NameFallsBackToEmail(c: Claims, typedEmail: string)
    requires !JsString.Truthy(c.name)
    ensures UserFromClaims(c, typedEmail).name == UserFromClaims(c, typedEmail).email
  {
  }

  /** The name and email are never empty when the typed email is not. */
  lemma UserFieldsNonEmpty(c: Claims, typedEmail: string)
    requires typedEmail != ""
    ensures UserFromClaims(c, typedEmail).email != "" && UserFromClaims(c, typedEmail).name != ""
  {
  }

  /** A login failure that means the account awaits confirmation. */
  predicate NotConfirmed(e: Api.ServiceError) {
    e.ApiFailure? && JsString.Contains(JsString.ToLower(e.message), "not confirmed")
  }

  const LoginFallback: string := "Failed to login"

  /** The store after `login`. */
  function AfterLogin(s: Auth.AuthState, exp: Auth.ExpClaim, decode: ClaimsDecoder, email: string, reply: Api.Outcome<LoginTokens>): (r: Auth.AuthState)
    ensures !r.isLoading
    ensures reply.Done? && decode(reply.value.idToken).Some? ==>
      && r.isAuthenticated && r.isInitialized && r.error.None?
      && r.user == Some(UserFromClaims(decode(reply.value.idToken).value, email))
      && r.accessToken == Some(reply.value.accessToken) && r.idToken == Some(reply.value.idToken)
      && r.refreshToken == Some(reply.value.refreshToken)
    ensures reply.Done? && decode(reply.value.idToken).None? ==> r == s.(error := Some(LoginFallback), isLoading := false)
    ensures reply.Threw? && NotConfirmed(reply.error) ==> r == s.(pendingEmail := Some(email), error := None, isLoading := false)
    ensures reply.Threw? && !NotConfirmed(reply.error) ==>
      r == s.(error := Some(Api.ErrorText(reply.error, LoginFallback)), isLoading := false)
  {
    var started := s.(isLoading := true, error := None);
    var settled :=
      match reply
      case Done(t) =>
        (match decode(t.idToken)
         case Some(c) => Auth.AfterSetTokens(started, exp, UserFromClaims(c, email), t.accessToken, Some(t.idToken), t.refreshToken)
         case None => started.(error := Some(LoginFallback), isLoading := false))
      case Threw(e) =>
        if NotConfirmed(e) then started.(pendingEmail := Some(email))
        else started.(error := Some(Api.ErrorText(e, LoginFallback)), isLoading := false);
    settled.(isLoading := false)
  }

  /** A failed login never leaves both an error and a confirmation redirect. */
  lemma LoginFailureRouting(s: Auth.AuthState, exp: Auth.ExpClaim, decode: ClaimsDecoder, email: string, e: Api.ServiceError)
    ensures var r := AfterLogin(s, exp, decode, email, Api.Threw(e));
      (r.error.None? <==> NotConfirmed(e)) && (NotConfirmed(e) ==> r.pendingEmail == Some(email))
  {
    if !NotConfirmed(e) {
      assert AfterLogin(s, exp, decode, email, Api.Threw(e)).error == Some(Api.ErrorText(e, LoginFallback));
    }
  }

  /** `login`: the calls the hook makes on the store, in order; it rethrows every failure. */
  method Login(store: Auth.AuthStore, decode: ClaimsDecoder, email: string, reply: Api.Outcome<LoginTokens>)
    returns (result: Api.Outcome<LoginTokens>)
    modifies store
    ensures store.State() == AfterLogin(old(store.State()), store.exp, decode, email, reply)
    ensures result.Done? <==> reply.Done? && decode(reply.value.idToken).Some?
    ensures reply.Threw? ==> result == reply
  {
    store.SetLoading(true);
    store.ClearError();
    match reply {
      case Done(t) =>
        var claims := decode(t.idToken);
        if claims.Some? {
          store.SetTokens(UserFromClaims(claims.value, email), t.accessToken, Some(t.idToken), t.refreshToken);
          result := reply;
        } else {
          // jwtDecode threw: not an ApiError
          store.SetError(Some(LoginFallback));
          result := Api.Threw(Api.OtherFailure);
        }
      case Threw(e) =>
        if NotConfirmed(e) {
          store.SetPendingEmail(Some(email));
        } else {
          store.SetError(Some(Api.ErrorText(e, LoginFallback)));
        }
        result := reply;
    }
    store.SetLoading(false);
  }

  /** The account actions that share one shape: loading, service call, pending email, error. */
  datatype AccountAction =
    | Register(email: string)
    | ConfirmCode
    | ResendCode
    | ForgotPassword(email: string)
    | ResetPassword

  /** The message used when the failure is not an ApiError. */
  function Fallback(a: AccountAction): string {
    match a
    case Register(_) => "Failed to register"
    case ConfirmCode => "Invalid confirmation code"
    case ResendCode => "Failed to resend code"
    case ForgotPassword(_) => "Failed to send reset email"
    case ResetPassword => "Failed to reset password"
  }

  /** The actions that report a 403 as disabled registration. */
  predicate GuardsRegistration(a: AccountAction) {
    a.Register? || a.ConfirmCode? || a.ResendCode?
  }

  const RegistrationDisabled: string := "REGISTRATION_DISABLED"

  /** The pending email after a successful action: set, cleared, or left alone (None). */
  function PendingAfterSuccess(a: AccountAction): Option<Option<string>> {
    match a
    case Register(email) => Some(Some(email))
    case ConfirmCode => Some(None)
    case ResendCode => None
    case ForgotPassword(email) => Some(Some(email))
    case ResetPassword => Some(None)
  }

  /** The error an account action records for a failure. */
  function AccountError(a: AccountAction, e: Api.ServiceError): (m: string)
    ensures GuardsRegistration(a) && e.ApiFailure? && e.status == 403 ==> m == RegistrationDisabled
    ensures !(GuardsRegistration(a) && e.ApiFailure? && e.status == 403) && e.ApiFailure? ==> m == e.message
    ensures e.OtherFailure? ==> m == Fallback(a)
  {
    if GuardsRegistration(a) && e.ApiFailure? && e.status == 403 then RegistrationDisabled
    else Api.ErrorText(e, Fallback(a))
  }

  /** The store after an account action; `failure` is None when the service call succeeds. */
  function AfterAccountAction(s: Auth.AuthState, a: AccountAction, failure: Option<Api.ServiceError>): (r: Auth.AuthState)
    ensures !r.isLoading
    ensures failure.None? ==> r.error.None?
    ensures failure.Some? ==> r.error == Some(AccountError(a, failure.value)) && r.pendingEmail == s.pendingEmail
    ensures failure.None? && PendingAfterSuccess(a).Some? ==> r.pendingEmail == PendingAfterSuccess(a).value
    ensures failure.None? && PendingAfterSuccess(a).None? ==> r.pendingEmail == s.pendingEmail
    ensures r.(error := s.error, isLoading := s.isLoading, pendingEmail := s.pendingEmail) == s
  {
    var started := s.(isLoading := true, error := None);
    var settled :=
      if failure.None? then
        (if PendingAfterSuccess(a).Some? then started.(pendingEmail := PendingAfterSuccess(a).value) else started)
      else started.(error := Some(AccountError(a, failure.value)), isLoading := false);
    settled.(isLoading := false)
  }

  /** Only registration, confirmation and resending turn a 403 into REGISTRATION_DISABLED. */
  lemma ForbiddenRouting(s: Auth.AuthState, a: AccountAction, message: string)
    ensures GuardsRegistration(a) ==> AfterAccountAction(s, a, Some(Api.ApiFailure(403, message))).error == Some(RegistrationDisabled)
    ensures !GuardsRegistration(a) ==> AfterAccountAction(s, a, Some(Api.ApiFailure(403, message))).error == Some(message)
  {
  }

  method RunAccountAction(store: Auth.AuthStore, a: AccountAction, failure: Option<Api.ServiceError>)
    modifies store
    ensures store.State() == AfterAccountAction(old(store.State()), a, failure)
  {
    store.SetLoading(true);
    store.ClearError();
    if failure.None? {
      var pending := PendingAfterSuccess(a);
      if pending.Some? {
        store.SetPendingEmail(pending.value);
      }
    } else {
      store.SetError(Some(AccountError(a, failure.value)));
    }
    store.SetLoading(false);
  }

  /** `logout`: the store is cleared whether or not the service call failed. */
  method Logout(store: Auth.AuthStore, serviceFailed: bool)
    modifies store
    ensures store.State() == Auth.AfterLogout(old(store.State()))
  {
    if serviceFailed {
      // the error is ignored
    }
    store.Logout();
  }

  /** The store after `refreshAccessToken`, and whether it reports success. */
  function AfterRefreshAccessToken(s: Auth.AuthState, exp: Auth.ExpClaim, reply: Api.RequestResult, now: int): (r: (Auth.AuthState, bool))
    ensures !JsString.Truthy(s.refreshToken) ==> r == (Auth.AfterLogout(s), false)
    ensures JsString.Truthy(s.refreshToken) ==> (r.1 <==> Api.ServiceGrant(reply).Some?)
    ensures JsString.Truthy(s.refreshToken) && Api.ServiceGrant(reply).None? ==> r.0 == Auth.AfterLogout(s)
  {
    if !JsString.Truthy(s.refreshToken) then (Auth.AfterLogout(s), false)
    else match Api.ServiceGrant(reply)
      case None => (Auth.AfterLogout(s), false)
      case Some(g) => (Auth.AfterUpdateTokens(s, exp, g.accessToken, g.idToken, g.expiresIn, now), true)
  }

  /** A reported success keeps the session's user and refresh token. */
  lemma RefreshSuccessKeepsSession(s: Auth.AuthState, exp: Auth.ExpClaim, reply: Api.RequestResult, now: int)
    requires AfterRefreshAccessToken(s, exp, reply, now).1
    ensures var r := AfterRefreshAccessToken(s, exp, reply, now).0;
      r.user == s.user && r.refreshToken == s.refreshToken && r.isAuthenticated == s.isAuthenticated
  {
  }

  /**
   * `refreshAccessToken`; `called` says whether the auth service was asked,
   * which happens exactly when a refresh token is stored.
   */
  method RefreshAccessToken(store: Auth.AuthStore, reply: Api.RequestResult, now: int) returns (ok: bool, called: bool)
    modifies store
    ensures called <==> JsString.Truthy(old(store.refreshToken))
    ensures (store.State(), ok) == AfterRefreshAccessToken(old(store.State()), store.exp, reply, now)
  {
    if !JsString.Truthy(store.refreshToken) {
      store.Logout();
      return false, false;
    }
    called := true;
    var grant := Api.ServiceGrant(reply);
    if grant.None? {
      store.Logout();
      return false, called;
    }
    store.UpdateTokens(grant.value.accessToken, grant.value.idToken, grant.value.expiresIn, now);
    ok := true;
  }

  /** The store after `initializeAuth`. */
  function AfterInitialize(s: Auth.AuthState, exp: Auth.ExpClaim, reply: Api.RequestResult, now: int): (r: Auth.AuthState)
    ensures r.isInitialized
    ensures !JsString.Truthy(s.refreshToken) || !Auth.TokenExpired(s, now) ==> r == s.(isInitialized := true)
  {
    if !JsString.Truthy(s.refreshToken) || !Auth.TokenExpired(s, now) then s.(isInitialized := true)
    else
      var (t, ok) := AfterRefreshAccessToken(s, exp, reply, now);
      var t' := if ok then t else Auth.AfterLogout(t);
      t'.(isInitialized := true)
  }

  /**
   * Initialisation either keeps the stored session (same user and refresh
   * token) or ends with the store logged out.
   */
  lemma InitializeKeepsOrClears(s: Auth.AuthState, exp: Auth.ExpClaim, reply: Api.RequestResult, now: int)
    ensures var r := AfterInitialize(s, exp, reply, now);
      (r.user == s.user && r.refreshToken == s.refreshToken && r.isAuthenticated == s.isAuthenticated)
      || r == Auth.AfterLogout(s)
  {
    if JsString.Truthy(s.refreshToken) && Auth.TokenExpired(s, now) {
      var (t, ok) := AfterRefreshAccessToken(s, exp, reply, now);
      if !ok {
        Auth.LogoutIdempotent(s);
      }
    }
  }

  /** An expired session refreshed with a positive lifetime is no longer expired. */
  lemma InitializeRenewsExpiredSession(s: Auth.AuthState, exp: Auth.ExpClaim, reply: Api.RequestResult, now: int)
    requires JsString.Truthy(s.refreshToken) && Auth.TokenExpired(s, now) && now >= 0
    requires Api.ServiceGrant(reply).Some? && Api.ServiceGrant(reply).value.expiresIn.Some?
    requires Api.ServiceGrant(reply).value.expiresIn.value > 0
    ensures !Auth.TokenExpired(AfterInitialize(s, exp, reply, now), now)
  {
    var g := Api.ServiceGrant(reply).value;
    Auth.TimeLeftAfterRefresh(s, exp, g.accessToken, g.idToken, g.expiresIn.value, now);
    Auth.ExpiredIffNoTimeLeft(AfterInitialize(s, exp, reply, now), now);
  }

  /** `initializeAuth`. */
  method InitializeAuth(store: Auth.AuthStore, reply: Api.RequestResult, now: int)
    modifies store
    ensures store.State() == AfterInitialize(old(store.State()), store.exp, reply, now)
  {
    if !JsString.Truthy(store.refreshToken) {
      store.SetInitialized(true);
      return;
    }
    if store.IsTokenExpired(now) {
      var success, _ := RefreshAccessToken(store, reply, now);
      if !success {
        store.Logout();
      }
    }
    store.SetInitialized(true);
  }
}
