/**
 * The client's auth store (app/src/store/auth.ts): the token fields, the
 * actions that replace them and the expiry queries. `Date.now()` is the
 * parameter `now` (milliseconds); decoding a JWT's `exp` claim is the store's
 * constant `exp`, which yields None for a token `jwtDecode` rejects.
 */
module Auth {
  import opened Wrappers
  import JsString

  datatype User = User(id: string, email: string, name: string)

  /** Every field of the store. */
  datatype AuthState = AuthState(
    user: Option<User>,
    accessToken: Option<string>,
    idToken: Option<string>,
    refreshToken: Option<string>,
    tokenExpiresAt: Option<int>,
    isAuthenticated: bool,
    isLoading: bool,
    isInitialized: bool,
    error: Option<string>,
    pendingEmail: Option<string>)

  /** The `exp` claim (seconds) of a JWT, or None when the token cannot be decoded. */
  type ExpClaim = string -> Option<int>

  const Initial: AuthState := AuthState(None, None, None, None, None, false, false, false, None, None)

  /** The expiry of a token in milliseconds, or None when it cannot be decoded (an absent token cannot). */
  function ExpirationFromToken(exp: ExpClaim, token: Option<string>): (r: Option<int>)
    ensures r.Some? <==> token.Some? && exp(token.value).Some?
    ensures r.Some? ==> r.value == exp(token.value).value * 1000
  {
    if token.Some? && exp(token.value).Some? then Some(exp(token.value).value * 1000) else None
  }

  /** `!tokenExpiresAt`: a missing expiry and an expiry of 0 both count as no expiry. */
  predicate NoExpiry(t: Option<int>) {
    t.None? || t.value == 0
  }

  /** `setTokens` after a login: a full session. */
  function AfterSetTokens(s: AuthState, exp: ExpClaim, user: User, accessToken: string, idToken: Option<string>, refreshToken: string): (r: AuthState)
    ensures r.isAuthenticated && r.isInitialized && r.error.None?
    ensures r.user == Some(user) && r.accessToken == Some(accessToken) && r.refreshToken == Some(refreshToken)
    ensures idToken.None? ==> r.idToken == Some(accessToken)
    ensures idToken.Some? ==> r.idToken == idToken
    ensures r.tokenExpiresAt == ExpirationFromToken(exp, Some(accessToken))
    ensures r.isLoading == s.isLoading && r.pendingEmail == s.pendingEmail
  {
    s.(user := Some(user), accessToken := Some(accessToken), idToken := Some(idToken.GetOr(accessToken)),
       refreshToken := Some(refreshToken), tokenExpiresAt := ExpirationFromToken(exp, Some(accessToken)),
       isAuthenticated := true, isInitialized := true, error := None)
  }

  /**
   * `updateTokens` after a refresh. The token fields are optional because the
   * reactive refresh in the request pipeline passes whatever the reply holds.
   */
  function AfterUpdateTokens(s: AuthState, exp: ExpClaim, accessToken: Option<string>, idToken: Option<string>, expiresIn: Option<int>, now: int): (r: AuthState)
    ensures r.accessToken == accessToken
    ensures r.idToken == (if idToken.Some? then idToken else accessToken)
    ensures expiresIn.Some? && expiresIn.value != 0 ==> r.tokenExpiresAt == Some(now + expiresIn.value * 1000)
    ensures expiresIn.None? || expiresIn.value == 0 ==> r.tokenExpiresAt == ExpirationFromToken(exp, accessToken)
    ensures r.error.None?
    ensures r.user == s.user && r.refreshToken == s.refreshToken && r.isAuthenticated == s.isAuthenticated
    ensures r.isLoading == s.isLoading && r.isInitialized == s.isInitialized && r.pendingEmail == s.pendingEmail
  {
    var expiresAt := if expiresIn.Some? && expiresIn.value != 0 then Some(now + expiresIn.value * 1000)
                     else ExpirationFromToken(exp, accessToken);
    s.(accessToken := accessToken, idToken := if idToken.Some? then idToken else accessToken,
       tokenExpiresAt := expiresAt, error := None)
  }

  /** `logout`: the initial state, except that the store stays initialised. */
  function AfterLogout(s: AuthState): (r: AuthState)
    ensures r.user.None? && r.accessToken.None? && r.idToken.None? && r.refreshToken.None?
    ensures r.tokenExpiresAt.None? && !r.isAuthenticated && !r.isLoading && r.error.None? && r.pendingEmail.None?
    ensures r.isInitialized
  {
    Initial.(isInitialized := true)
  }

  lemma LogoutIdempotent(s: AuthState)
    ensures AfterLogout(AfterLogout(s)) == AfterLogout(s)
  {
  }

  /** `isTokenExpired`: no expiry, or the expiry has been reached. */
  predicate TokenExpired(s: AuthState, now: int) {
    NoExpiry(s.tokenExpiresAt) || now >= s.tokenExpiresAt.value
  }

  /** `getTimeUntilExpiry`: milliseconds left (negative once expired), or None without an expiry. */
  function TimeUntilExpiry(s: AuthState, now: int): (r: Option<int>)
    ensures r.None? <==> NoExpiry(s.tokenExpiresAt)
    ensures r.Some? ==> r.value == s.tokenExpiresAt.value - now
  {
    if NoExpiry(s.tokenExpiresAt) then None else Some(s.tokenExpiresAt.value - now)
  }

  /** At the same instant, the token is expired exactly when no time is left. */
  lemma ExpiredIffNoTimeLeft(s: AuthState, now: int)
    ensures TokenExpired(s, now) <==> TimeUntilExpiry(s, now).None? || TimeUntilExpiry(s, now).value <= 0
  {
  }

  /** Right after a refresh that reports `expiresIn` seconds, that many milliseconds are left. */
  lemma TimeLeftAfterRefresh(s: AuthState, exp: ExpClaim, accessToken: Option<string>, idToken: Option<string>, expiresIn: int, now: int)
    requires expiresIn > 0 && now >= 0
    ensures TimeUntilExpiry(AfterUpdateTokens(s, exp, accessToken, idToken, Some(expiresIn), now), now) == Some(expiresIn * 1000)
  {
  }

  /** The fields `partialize` writes to local storage. */
  datatype Persisted = Persisted(
    user: Option<User>,
    accessToken: Option<string>,
    idToken: Option<string>,
    refreshToken: Option<string>,
    tokenExpiresAt: Option<int>,
    isAuthenticated: bool)

  function Partialize(s: AuthState): Persisted {
    Persisted(s.user, s.accessToken, s.idToken, s.refreshToken, s.tokenExpiresAt, s.isAuthenticated)
  }

  /** A reload: the persisted fields merged over the initial state. */
  function Rehydrate(p: Persisted): AuthState {
    Initial.(user := p.user, accessToken := p.accessToken, idToken := p.idToken, refreshToken := p.refreshToken,
             tokenExpiresAt := p.tokenExpiresAt, isAuthenticated := p.isAuthenticated)
  }

  /**
   * A reload keeps exactly the persisted fields: the session and its tokens
   * survive, the transient fields (loading, initialised, error, pending email)
   * start over.
   */
  lemma ReloadKeepsSession(s: AuthState)
    ensures var t := Rehydrate(Partialize(s));
      && t.user == s.user && t.accessToken == s.accessToken && t.idToken == s.idToken
      && t.refreshToken == s.refreshToken && t.tokenExpiresAt == s.tokenExpiresAt
      && t.isAuthenticated == s.isAuthenticated
      && !t.isLoading && !t.isInitialized && t.error.None? && t.pendingEmail.None?
    ensures Partialize(Rehydrate(Partialize(s))) == Partialize(s)
  {
  }

  /** The store object: its fields are replaced by the actions. */
  class AuthStore {
    /** How `jwtDecode` reads the `exp` claim. */
    const exp: ExpClaim

    var user: Option<User>
    var accessToken: Option<string>
    var idToken: Option<string>
    var refreshToken: Option<string>
    var tokenExpiresAt: Option<int>
    var isAuthenticated: bool
    var isLoading: bool
    var isInitialized: bool
    var error: Option<string>
    var pendingEmail: Option<string>

    function State(): AuthState
      reads this
    {
      AuthState(user, accessToken, idToken, refreshToken, tokenExpiresAt, isAuthenticated, isLoading,
                isInitialized, error, pendingEmail)
    }

    constructor (exp: ExpClaim)
      ensures this.exp == exp && State() == Initial
    {
      this.exp := exp;
      user, accessToken, idToken, refreshToken, tokenExpiresAt := None, None, None, None, None;
      isAuthenticated, isLoading, isInitialized := false, false, false;
      error, pendingEmail := None, None;
    }

    method Assign(s: AuthState)
      modifies this
      ensures State() == s
    {
      user, accessToken, idToken, refreshToken, tokenExpiresAt := s.user, s.accessToken, s.idToken, s.refreshToken, s.tokenExpiresAt;
      isAuthenticated, isLoading, isInitialized := s.isAuthenticated, s.isLoading, s.isInitialized;
      error, pendingEmail := s.error, s.pendingEmail;
    }

    method SetTokens(user: User, accessToken: string, idToken: Option<string>, refreshToken: string)
      modifies this
      ensures State() == AfterSetTokens(old(State()), exp, user, accessToken, idToken, refreshToken)
    {
      Assign(AfterSetTokens(State(), exp, user, accessToken, idToken, refreshToken));
    }

    method UpdateTokens(accessToken: Option<string>, idToken: Option<string>, expiresIn: Option<int>, now: int)
      modifies this
      ensures State() == AfterUpdateTokens(old(State()), exp, accessToken, idToken, expiresIn, now)
    {
      Assign(AfterUpdateTokens(State(), exp, accessToken, idToken, expiresIn, now));
    }

    method SetLoading(b: bool)
      modifies this
      ensures State() == old(State()).(isLoading := b)
    {
      isLoading := b;
    }

    method SetInitialized(b: bool)
      modifies this
      ensures State() == old(State()).(isInitialized := b)
    {
      isInitialized := b;
    }

    /** `setError` also ends any loading. */
    method SetError(e: Option<string>)
      modifies this
      ensures State() == old(State()).(error := e, isLoading := false)
    {
      error, isLoading := e, false;
    }

    method SetPendingEmail(e: Option<string>)
      modifies this
      ensures State() == old(State()).(pendingEmail := e)
    {
      pendingEmail := e;
    }

    method ClearError()
      modifies this
      ensures State() == old(State()).(error := None)
    {
      error := None;
    }

    method Logout()
      modifies this
      ensures State() == AfterLogout(old(State()))
    {
      Assign(AfterLogout(State()));
    }

    predicate IsTokenExpired(now: int)
      reads this
    {
      TokenExpired(State(), now)
    }

    function GetTimeUntilExpiry(now: int): Option<int>
      reads this
    {
      TimeUntilExpiry(State(), now)
    }
  }
}
