/**
 * The client's request pipeline (app/src/services/api.ts): the bearer
 * header, the reactive refresh on a 401 with exactly one retry, the error
 * message of a failed response and the unwrapping of the `{success, data}`
 * envelope. Each network reply is a parameter; the client keeps a log of the
 * calls it puts on the network, in order.
 */
module Api {
  import opened Wrappers
  import JsString
  import opened Json
  import Auth

  /** A received HTTP response; `body` is None when the body is not valid JSON. */
  datatype HttpResponse = HttpResponse(status: int, body: Option<Json>)

  /** What `fetch` settles with. */
  datatype Fetch = NetworkFailure | Received(response: HttpResponse)

  /** `response.ok`. */
  predicate IsOk(status: int) { 200 <= status <= 299 }

  datatype RequestError =
    | ApiError(status: int, message: string, data: Json)
    | TransportError    // `fetch` itself rejected
    | InvalidJson       // a successful response whose body is not JSON

  datatype RequestResult = Resolved(value: Json) | Rejected(error: RequestError)

  /** A call the client puts on the network. */
  datatype Call =
    | ApiCall(endpoint: string, authorization: Option<string>)
    | RefreshCall(refreshToken: string)

  const SessionExpired: RequestResult := Rejected(ApiError(401, "Session expired", JNull))

  /** The Authorization header of the first attempt. */
  function AuthHeader(idToken: Option<string>, skipAuth: bool): (h: Option<string>)
    ensures h.Some? <==> JsString.Truthy(idToken) && !skipAuth
    ensures h.Some? ==> h.value == "Bearer " + idToken.value
  {
    if JsString.Truthy(idToken) && !skipAuth then Some("Bearer " + idToken.value) else None
  }

  /**
   * The Authorization header of the retry: always set, with the store's token
   * as JavaScript renders it in a template (an absent token reads "undefined").
   */
  function RetryHeader(idToken: Option<string>): string {
    "Bearer " + idToken.GetOr("undefined")
  }

  /** A 401 leads to a refresh only for an authenticated call outside `/auth/`. */
  predicate RefreshesOn401(endpoint: string, skipAuth: bool) {
    !skipAuth && !JsString.StartsWith(endpoint, "/auth/")
  }

  /** `errorData?.error || errorData?.message || "HTTP error <status>"`. */
  function ErrorMessage(data: Json, status: int): (m: string)
    ensures Field(data, "error").Some? && Truthy(Field(data, "error").value) ==> m == Display(Field(data, "error").value)
    ensures !(Field(data, "error").Some? && Truthy(Field(data, "error").value))
            && Field(data, "message").Some? && Truthy(Field(data, "message").value)
            ==> m == Display(Field(data, "message").value)
    ensures !(Field(data, "error").Some? && Truthy(Field(data, "error").value))
            && !(Field(data, "message").Some? && Truthy(Field(data, "message").value))
            ==> m == "HTTP error " + JsString.IntToString(status)
  {
    var e := Field(data, "error");
    var msg := Field(data, "message");
    if e.Some? && Truthy(e.value) then Display(e.value)
    else if msg.Some? && Truthy(msg.value) then Display(msg.value)
    else "HTTP error " + JsString.IntToString(status)
  }

  /**
   * The success body handed to the caller: an object with a `success` key and
   * a `data` key is unwrapped to its data; anything else is returned as it is.
   * (JSON has no `undefined`, so a present `data` key is a defined one.)
   */
  function Unwrap(json: Json): (r: Json)
    ensures json.JObj? && "success" in json.fields && "data" in json.fields ==> r == json.fields["data"]
    ensures !(json.JObj? && "success" in json.fields && "data" in json.fields) ==> r == json
  {
    if json.JObj? && "success" in json.fields && "data" in json.fields then json.fields["data"] else json
  }

  /** What the caller gets from the response that ends the call. */
  function Finish(r: HttpResponse): RequestResult {
    if !IsOk(r.status) then
      var data := r.body.GetOr(JNull);  // `.json().catch(() => null)`
      Rejected(ApiError(r.status, ErrorMessage(data, r.status), data))
    else if r.status == 204 then Resolved(JObj(map[]))
    else if r.body.None? then Rejected(InvalidJson)
    else Resolved(Unwrap(r.body.value))
  }

  /** A failed response surfaces as an ApiError carrying its status, whatever the status. */
  lemma FailureCarriesStatus(r: HttpResponse)
    requires !IsOk(r.status)
    ensures Finish(r).Rejected? && Finish(r).error.ApiError? && Finish(r).error.status == r.status
  {
  }

  /** Status 204 yields an empty object without reading the body. */
  lemma NoContentIsEmptyObject(b1: Option<Json>, b2: Option<Json>)
    ensures Finish(HttpResponse(204, b1)) == Finish(HttpResponse(204, b2)) == Resolved(JObj(map[]))
  {
  }

  /** The token fields a successful refresh reply delivers to `updateTokens`. */
  datatype TokenGrant = TokenGrant(accessToken: Option<string>, idToken: Option<string>, expiresIn: Option<int>)

  /**
   * The outcome of the refresh call: None when the call fails, is not OK or
   * its body cannot be read (`json.data` on a `null` body throws); otherwise the
   * fields of `json.data` when it is truthy, else of `json` itself.
   */
  function Grant(reply: Fetch): (g: Option<TokenGrant>)
    ensures reply.NetworkFailure? ==> g.None?
    ensures reply.Received? && !IsOk(reply.response.status) ==> g.None?
    ensures reply.Received? && reply.response.body in {None, Some(JNull)} ==> g.None?
    ensures g.Some? ==> var json := reply.response.body.value;
      var data := if Field(json, "data").Some? && Truthy(Field(json, "data").value) then Field(json, "data").value else json;
      g.value == TokenGrant(StringField(data, "accessToken"), StringField(data, "idToken"), NumberField(data, "expiresIn"))
  {
    if reply.NetworkFailure? || !IsOk(reply.response.status) then None
    else if reply.response.body.None? || reply.response.body.value.JNull? then None
    else
      var json := reply.response.body.value;
      var d := Field(json, "data");
      var data := if d.Some? && Truthy(d.value) then d.value else json;
      Some(TokenGrant(StringField(data, "accessToken"), StringField(data, "idToken"), NumberField(data, "expiresIn")))
  }

  /**
   * The tokens a caller of the auth service reads from a resolved refresh
   * (`response.accessToken`, ...); reading a property of a `null` payload
   * throws, and so does a rejected call.
   */
  function ServiceGrant(r: RequestResult): (g: Option<TokenGrant>)
    ensures g.Some? <==> r.Resolved? && !r.value.JNull?
  {
    if r.Resolved? && !r.value.JNull? then
      Some(TokenGrant(StringField(r.value, "accessToken"), StringField(r.value, "idToken"), NumberField(r.value, "expiresIn")))
    else None
  }

  /** The failures of `request` as the callers' `err instanceof ApiError` sees them. */
  datatype ServiceError = ApiFailure(status: int, message: string) | OtherFailure

  /** What a service call settles with. */
  datatype Outcome<T> = Done(value: T) | Threw(error: ServiceError)

  function Classify(e: RequestError): (s: ServiceError)
    ensures s.ApiFailure? <==> e.ApiError?
    ensures e.ApiError? ==> s == ApiFailure(e.status, e.message)
  {
    if e.ApiError? then ApiFailure(e.status, e.message) else OtherFailure
  }

  /** `err instanceof ApiError ? err.message : fallback`. */
  function ErrorText(e: ServiceError, fallback: string): (m: string)
    ensures e.ApiFailure? ==> m == e.message
    ensures e.OtherFailure? ==> m == fallback
  {
    if e.ApiFailure? then e.message else fallback
  }

  /** The number of calls to the endpoint itself (not the refresh) in a log. */
  function ApiCalls(log: seq<Call>): nat {
    if log == [] then 0 else (if log[0].ApiCall? then 1 else 0) + ApiCalls(log[1..])
  }

  lemma {:induction false} ApiCallsAppend(a: seq<Call>, b: seq<Call>)
    ensures ApiCalls(a + b) == ApiCalls(a) + ApiCalls(b)
  {
    if a == [] {
      assert a + b == b;
    } else {
      assert (a + b)[0] == a[0];
      assert (a + b)[1..] == a[1..] + b;
      ApiCallsAppend(a[1..], b);
    }
  }

  /** The client: its refresh flag, the auth store it reads and updates, and the calls it has sent. */
  class ApiClient {
    const store: Auth.AuthStore
    var isRefreshing: bool
    var sent: seq<Call>

    /** Between calls no refresh is in progress. */
    predicate Valid()
      reads this
    {
      !isRefreshing
    }

    constructor (store: Auth.AuthStore)
      ensures this.store == store && Valid() && sent == []
    {
      this.store := store;
      isRefreshing := false;
      sent := [];
    }

    /**
     * `refreshToken()`: without a stored refresh token it logs out without a
     * network call; otherwise it posts the token, and a failed, non-OK or
     * unreadable reply logs out, while a good one updates the tokens.
     */
    method RefreshToken(reply: Fetch, now: int) returns (ok: bool)
      modifies this`sent, store
      ensures !JsString.Truthy(old(store.refreshToken)) ==>
        && !ok && sent == old(sent)
        && store.State() == Auth.AfterLogout(old(store.State()))
      ensures JsString.Truthy(old(store.refreshToken)) ==>
        && sent == old(sent) + [RefreshCall(old(store.refreshToken).value)]
        && ok == Grant(reply).Some?
        && (ok ==> var g := Grant(reply).value;
              store.State() == Auth.AfterUpdateTokens(old(store.State()), store.exp, g.accessToken, g.idToken, g.expiresIn, now))
        && (!ok ==> store.State() == Auth.AfterLogout(old(store.State())))
    {
      var token := store.refreshToken;
      if !JsString.Truthy(token) {
        store.Logout();
        return false;
      }
      sent := sent + [RefreshCall(token.value)];
      var grant := Grant(reply);
      if grant.None? {
        store.Logout();
        return false;
      }
      store.UpdateTokens(grant.value.accessToken, grant.value.idToken, grant.value.expiresIn, now);
      return true;
    }

    /**
     * `request(endpoint, {skipAuth})`. `first` is the reply to the first
     * attempt, `refreshReply` the reply to the refresh call and `retry` the
     * reply to the repeated request; a reply that is never asked for is ignored.
     */
    method Request(endpoint: string, skipAuth: bool, first: Fetch, refreshReply: Fetch, retry: Fetch, now: int)
      returns (result: RequestResult)
      requires Valid()
      modifies this, store
      ensures Valid()
      ensures var call := ApiCall(endpoint, AuthHeader(old(store.idToken), skipAuth));
        var reacts := first.Received? && first.response.status == 401 && RefreshesOn401(endpoint, skipAuth);
        var s0 := old(store.State());
        && (first.NetworkFailure? ==>
              result == Rejected(TransportError) && sent == old(sent) + [call] && store.State() == s0)
        && (first.Received? && !reacts ==>
              result == Finish(first.response) && sent == old(sent) + [call] && store.State() == s0)
        && (reacts && !JsString.Truthy(s0.refreshToken) ==>
              result == SessionExpired && sent == old(sent) + [call] && store.State() == Auth.AfterLogout(s0))
        && (reacts && JsString.Truthy(s0.refreshToken) && Grant(refreshReply).None? ==>
              && result == SessionExpired
              && sent == old(sent) + [call, RefreshCall(s0.refreshToken.value)]
              && store.State() == Auth.AfterLogout(s0))
        && (reacts && JsString.Truthy(s0.refreshToken) && Grant(refreshReply).Some? ==>
              var g := Grant(refreshReply).value;
              && store.State() == Auth.AfterUpdateTokens(s0, store.exp, g.accessToken, g.idToken, g.expiresIn, now)
              && sent == old(sent) + [call, RefreshCall(s0.refreshToken.value), ApiCall(endpoint, Some(RetryHeader(store.idToken)))]
              && result == (if retry.NetworkFailure? then Rejected(TransportError) else Finish(retry.response)))
      // at most two attempts at the endpoint, and the second one's reply is final
      ensures ApiCalls(sent) - ApiCalls(old(sent)) in {1, 2}
      ensures ApiCalls(sent) - ApiCalls(old(sent)) == 2 ==>
        result == (if retry.NetworkFailure? then Rejected(TransportError) else Finish(retry.response))
    {
      ghost var before := sent;
      var authorization := AuthHeader(store.idToken, skipAuth);
      sent := sent + [ApiCall(endpoint, authorization)];
      ApiCallsAppend(before, [ApiCall(endpoint, authorization)]);
      if first.NetworkFailure? {
        return Rejected(TransportError);
      }
      var response := first.response;

      if response.status == 401 && RefreshesOn401(endpoint, skipAuth) {
        isRefreshing := true;
        ghost var mid := sent;
        var refreshed := RefreshToken(refreshReply, now);
        isRefreshing := false;
        if sent != mid {
          ApiCallsAppend(mid, sent[|mid|..]);
          assert sent == mid + sent[|mid|..];
        }
        ghost var afterRefresh := sent;

        if refreshed {
          var newToken := store.idToken;
          sent := sent + [ApiCall(endpoint, Some(RetryHeader(newToken)))];
          ApiCallsAppend(afterRefresh, [ApiCall(endpoint, Some(RetryHeader(newToken)))]);
          if retry.NetworkFailure? {
            return Rejected(TransportError);
          }
          response := retry.response;
        } else {
          return SessionExpired;
        }
      }

      result := Finish(response);
    }
  }
}
