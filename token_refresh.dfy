/**
 * The proactive refresh (app/src/hooks/use-token-refresh.ts): while the
 * session is authenticated and has a refresh token, a timer is armed to
 * refresh five minutes before the token expires, and every successful
 * refresh re-arms it from the new expiry. The hook is a state machine
 * Idle / Scheduled(delay) / Refreshing; the timer firing, the service's
 * reply and the effect's teardown are the events that drive it.
 */
module TokenRefresh {
  import opened Wrappers
  import JsString
  import Auth
  import Api
  import opened Json

  /** Five minutes, in milliseconds. */
  const RefreshBufferMs: int := 5 * 60 * 1000

  datatype Phase = Idle | Scheduled(delay: int) | Refreshing

  /** What `scheduleRefresh` decides for a given time until expiry. */
  datatype Plan = NoRefresh | RefreshNow | ArmTimer(delay: int)

  function PlanFor(timeUntilExpiry: Option<int>): (p: Plan)
    ensures p.NoRefresh? <==> timeUntilExpiry.None?
    ensures p.RefreshNow? <==> timeUntilExpiry.Some? && timeUntilExpiry.value <= RefreshBufferMs
    ensures p.ArmTimer? ==> p.delay > 0 && p.delay == timeUntilExpiry.value - RefreshBufferMs
  {
    match timeUntilExpiry
    case None => NoRefresh
    case Some(t) => if t - RefreshBufferMs <= 0 then RefreshNow else ArmTimer(t - RefreshBufferMs)
  }

  /** The effect does anything only for an authenticated session with a refresh token. */
  predicate ShouldRun(s: Auth.AuthState) {
    s.isAuthenticated && JsString.Truthy(s.refreshToken)
  }

  /** An armed timer fires exactly the buffer before the stored expiry. */
  lemma TimerFiresBufferBeforeExpiry(s: Auth.AuthState, now: int)
    requires PlanFor(Auth.TimeUntilExpiry(s, now)).ArmTimer?
    ensures now + PlanFor(Auth.TimeUntilExpiry(s, now)).delay == s.tokenExpiresAt.value - RefreshBufferMs
  {
  }

  /** Right after a refresh granting an hour, the next refresh is 55 minutes away. */
  lemma HourGrantSchedules55Minutes(s: Auth.AuthState, exp: Auth.ExpClaim, accessToken: Option<string>, idToken: Option<string>, now: int)
    requires now >= 0
    ensures PlanFor(Auth.TimeUntilExpiry(Auth.AfterUpdateTokens(s, exp, accessToken, idToken, Some(3600), now), now)) == ArmTimer(3_300_000)
  {
    Auth.TimeLeftAfterRefresh(s, exp, accessToken, idToken, 3600, now);
  }

  class TokenRefresher {
    const store: Auth.AuthStore
    var phase: Phase
    /** The effect is installed and its cleanup has not run. */
    var mounted: bool
    /** The refresh token the running effect closed over. */
    var captured: string
    /** The refresh tokens sent to the auth service, in order. */
    var sent: seq<string>

    /** No timer outlives the effect that armed it. */
    predicate Valid()
      reads this
    {
      phase.Scheduled? ==> mounted
    }

    constructor (store: Auth.AuthStore)
      ensures this.store == store && phase == Idle && !mounted && sent == [] && Valid()
    {
      this.store := store;
      phase := Idle;
      mounted := false;
      captured := "";
      sent := [];
    }

    /** `scheduleRefresh`: act on the plan for the store's current time until expiry. */
    method Schedule(now: int)
      requires phase != Refreshing
      modifies this`phase, this`sent
      ensures var plan := PlanFor(store.GetTimeUntilExpiry(now));
        && (plan.NoRefresh? ==> phase == old(phase) && sent == old(sent))
        && (plan.RefreshNow? ==> phase == Refreshing && sent == old(sent) + [captured])
        && (plan.ArmTimer? ==> phase == Scheduled(plan.delay) && sent == old(sent))
    {
      var plan := PlanFor(store.GetTimeUntilExpiry(now));
      match plan
      case NoRefresh =>
      case RefreshNow => Perform();
      case ArmTimer(delay) => phase := Scheduled(delay);
    }

    /** `performRefresh` up to the call to the service. */
    method Perform()
      modifies this`phase, this`sent
      ensures phase == Refreshing && sent == old(sent) + [captured]
    {
      sent := sent + [captured];
      phase := Refreshing;
    }

    /**
     * The effect: without an authenticated session and a refresh token it
     * installs nothing; otherwise it captures the refresh token and schedules.
     */
    method Run(now: int)
      requires !mounted && phase == Idle
      modifies this`phase, this`sent, this`mounted, this`captured
      ensures !ShouldRun(old(store.State())) ==> !mounted && phase == Idle && sent == old(sent)
      ensures ShouldRun(old(store.State())) ==>
        var plan := PlanFor(store.GetTimeUntilExpiry(now));
        && mounted && captured == store.refreshToken.value
        && (plan.NoRefresh? ==> phase == Idle && sent == old(sent))
        && (plan.RefreshNow? ==> phase == Refreshing && sent == old(sent) + [captured])
        && (plan.ArmTimer? ==> phase == Scheduled(plan.delay) && sent == old(sent))
      ensures Valid()
    {
      if !ShouldRun(store.State()) {
        return;
      }
      mounted := true;
      captured := store.refreshToken.value;
      Schedule(now);
    }

    /** The armed timer fires; with no timer armed nothing happens. */
    method Fire()
      modifies this`phase, this`sent
      ensures old(phase).Scheduled? ==> phase == Refreshing && sent == old(sent) + [captured]
      ensures !old(phase).Scheduled? ==> phase == old(phase) && sent == old(sent)
      ensures old(Valid()) ==> Valid()
    {
      if phase.Scheduled? {
        Perform();
      }
    }

    /**
     * The service answers the refresh in flight (as written): a grant updates
     * the tokens and schedules again, a failure logs out and arms nothing.
     */
    method Complete(reply: Api.RequestResult, now: int)
      requires phase == Refreshing
      modifies this`phase, this`sent, store
      ensures var g := Api.ServiceGrant(reply);
        && (g.Some? ==>
              && store.State() == Auth.AfterUpdateTokens(old(store.State()), store.exp, g.value.accessToken, g.value.idToken, g.value.expiresIn, now)
              && var plan := PlanFor(store.GetTimeUntilExpiry(now));
              && (plan.NoRefresh? ==> phase == Idle && sent == old(sent))
              && (plan.RefreshNow? ==> phase == Refreshing && sent == old(sent) + [captured])
              && (plan.ArmTimer? ==> phase == Scheduled(plan.delay) && sent == old(sent)))
        && (g.None? ==> store.State() == Auth.AfterLogout(old(store.State())) && phase == Idle && sent == old(sent))
    {
      phase := Idle;
      var g := Api.ServiceGrant(reply);
      if g.Some? {
        store.UpdateTokens(g.value.accessToken, g.value.idToken, g.value.expiresIn, now);
        Schedule(now);
      } else {
        store.Logout();
      }
    }

    /**
     * The reply handled as the effect's lifetime evidently intends: once the
     * effect has been torn down the answer is dropped, so nothing is written
     * to the store and no timer is armed.
     */
    method CompleteIfMounted(reply: Api.RequestResult, now: int)
      requires phase == Refreshing
      modifies this`phase, this`sent, store
      ensures !mounted ==> phase == Idle && sent == old(sent) && store.State() == old(store.State())
      ensures mounted ==> var g := Api.ServiceGrant(reply);
        && (g.Some? ==> store.State() == Auth.AfterUpdateTokens(old(store.State()), store.exp, g.value.accessToken, g.value.idToken, g.value.expiresIn, now))
        && (g.None? ==> store.State() == Auth.AfterLogout(old(store.State())) && phase == Idle && sent == old(sent))
      ensures Valid()
    {
      if !mounted {
        phase := Idle;
        return;
      }
      Complete(reply, now);
    }

    /** The effect's cleanup: a pending timer is cleared; a refresh in flight is not cancelled. */
    method Teardown()
      modifies this`phase, this`mounted
      ensures !mounted
      ensures old(phase).Scheduled? ==> phase == Idle
      ensures !old(phase).Scheduled? ==> phase == old(phase)
      ensures Valid()
    {
      if phase.Scheduled? {
        phase := Idle;
      }
      mounted := false;
    }
  }

  /**
   * A refresh still in flight when the effect is torn down (the user logged
   * out meanwhile) completes as written: it writes the new tokens into the
   * logged-out store and arms a timer that no cleanup will clear, which later
   * sends the old refresh token again.
   */
  method StaleRefreshRearms() returns (r: TokenRefresher)
    ensures r.phase == Scheduled(3_300_000) && !r.mounted && !r.Valid()
    ensures !r.store.isAuthenticated && r.store.accessToken == Some("new-access")
  {
    var store := new Auth.AuthStore(token => Some(1));
    store.SetTokens(Auth.User("u1", "a@b.c", "A"), "access", None, "refresh");
    r := new TokenRefresher(store);
    // the access token expired at 1000 ms; at that time the effect refreshes at once
    r.Run(1000);
    assert r.phase == Refreshing;
    store.Logout();
    r.Teardown();
    var grant := Api.Resolved(JObj(map["accessToken" := JStr("new-access"), "expiresIn" := JNum(3600)]));
    r.Complete(grant, 1000);
  }
}
