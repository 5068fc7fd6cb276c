/**
 * What the client's request pipeline makes of the backend's envelope: a
 * success is unwrapped to its data, an error surfaces its message and status.
 */
module RoundTrip {
  import opened Wrappers
  import opened Json
  import Envelope
  import Api
  import JsString

  /** A Lambda result as the client receives it. */
  function Received(r: Envelope.LambdaResult): Api.HttpResponse {
    Api.HttpResponse(r.statusCode, Some(r.body))
  }

  /** Unwrapping a `successResponse(d)` gives `d` back, for every OK status but 204. */
  lemma SuccessUnwrapsToData(d: Json, status: int)
    requires Api.IsOk(status) && status != 204
    ensures Api.Finish(Received(Envelope.SuccessResponse(d, status))) == Api.Resolved(d)
  {
  }

  /** An `errorResponse(m)` with a non-empty message reaches the caller as an ApiError with `m` and the status. */
  lemma ErrorCarriesMessage(m: string, status: int)
    requires m != "" && !Api.IsOk(status)
    ensures var r := Envelope.ErrorResponse(m, status);
      Api.Finish(Received(r)) == Api.Rejected(Api.ApiError(status, m, r.body))
  {
    var body := Envelope.ErrorResponse(m, status).body;
    assert Field(body, "error") == Some(JStr(m));
  }

  /** With an empty message the caller sees the generic "HTTP error <status>". */
  lemma EmptyErrorFallsBack(status: int)
    requires !Api.IsOk(status)
    ensures var r := Envelope.ErrorResponse("", status);
      Api.Finish(Received(r)).error.message == "HTTP error " + JsString.IntToString(status)
  {
    var body := Envelope.ErrorResponse("", status).body;
    assert Field(body, "error") == Some(JStr(""));
    assert Field(body, "message") == None;
  }

  /** The refresh endpoint's tokens, in the envelope the backend sends. */
  function TokenData(access: string, id: string, expiresIn: int): Json {
    JObj(map["accessToken" := JStr(access), "idToken" := JStr(id), "expiresIn" := JNum(expiresIn)])
  }

  /** The pipeline's own refresh reads the tokens inside the envelope. */
  lemma RefreshReadsEnvelope(access: string, id: string, expiresIn: int)
    ensures Api.Grant(Api.Received(Received(Envelope.SuccessResponse(TokenData(access, id, expiresIn)))))
      == Some(Api.TokenGrant(Some(access), Some(id), Some(expiresIn)))
  {
    var body := Envelope.SuccessResponse(TokenData(access, id, expiresIn)).body;
    assert Field(body, "data") == Some(TokenData(access, id, expiresIn));
  }

  /** A caller of the auth service reads the same tokens from the unwrapped payload. */
  lemma ServiceReadsEnvelope(access: string, id: string, expiresIn: int)
    ensures Api.ServiceGrant(Api.Finish(Received(Envelope.SuccessResponse(TokenData(access, id, expiresIn)))))
      == Some(Api.TokenGrant(Some(access), Some(id), Some(expiresIn)))
  {
    SuccessUnwrapsToData(TokenData(access, id, expiresIn), 200);
  }
}
