/**
 * The backend's response envelope (backend/writeflow-sam-app/src/types/api.ts).
 * A Lambda result's body is the JSON text of the envelope; the model keeps the
 * JSON value itself, on the understanding that the client's `response.json()`
 * reads back the value the handler serialised.
 */
module Envelope {
  import opened Wrappers
  import opened Json

  /** `ApiResponse`: members that are `undefined` are dropped by `JSON.stringify`. */
  datatype ApiResponse = ApiResponse(success: bool, data: Option<Json>, error: Option<string>, message: Option<string>)

  datatype LambdaResult = LambdaResult(statusCode: int, headers: map<string, string>, body: Json)

  /** The JSON content type and CORS headers every response carries. */
  const StandardHeaders: map<string, string> := map[
    "Content-Type" := "application/json",
    "Access-Control-Allow-Origin" := "*",
    "Access-Control-Allow-Headers" := "Content-Type,Authorization",
    "Access-Control-Allow-Methods" := "GET,POST,PUT,DELETE,OPTIONS"]

  /** The envelope as a JSON object. */
  function BodyJson(b: ApiResponse): (j: Json)
    ensures j.JObj? && "success" in j.fields && j.fields["success"] == JBool(b.success)
    ensures Field(j, "data") == b.data
    ensures ("error" in j.fields <==> b.error.Some?) && (b.error.Some? ==> j.fields["error"] == JStr(b.error.value))
    ensures ("message" in j.fields <==> b.message.Some?) && (b.message.Some? ==> j.fields["message"] == JStr(b.message.value))
    ensures j.fields.Keys <= {"success", "data", "error", "message"}
  {
    var withData := if b.data.Some? then map["data" := b.data.value] else map[];
    var withError := if b.error.Some? then map["error" := JStr(b.error.value)] else map[];
    var withMessage := if b.message.Some? then map["message" := JStr(b.message.value)] else map[];
    JObj(map["success" := JBool(b.success)] + withData + withError + withMessage)
  }

  function CreateResponse(statusCode: int, body: ApiResponse): (r: LambdaResult)
    ensures r.statusCode == statusCode && r.headers == StandardHeaders
    ensures r.body == BodyJson(body)
  {
    LambdaResult(statusCode, StandardHeaders, BodyJson(body))
  }

  /** `successResponse(data, statusCode = 200)`. */
  function SuccessResponse(data: Json, statusCode: int := 200): (r: LambdaResult)
    ensures r.statusCode == statusCode && r.headers == StandardHeaders
    ensures r.body == JObj(map["success" := JBool(true), "data" := data])
  {
    CreateResponse(statusCode, ApiResponse(true, Some(data), None, None))
  }

  /** `errorResponse(error, statusCode = 400)`. */
  function ErrorResponse(error: string, statusCode: int := 400): (r: LambdaResult)
    ensures r.statusCode == statusCode && r.headers == StandardHeaders
    ensures r.body == JObj(map["success" := JBool(false), "error" := JStr(error)])
  {
    CreateResponse(statusCode, ApiResponse(false, None, Some(error), None))
  }

  /** The defaults: 200 for success, 400 for an error. */
  lemma DefaultStatuses(data: Json, error: string)
    ensures SuccessResponse(data).statusCode == 200 && ErrorResponse(error).statusCode == 400
  {
  }

  /** The headers do not depend on the status or the body. */
  lemma HeadersUniform(s1: int, b1: ApiResponse, s2: int, b2: ApiResponse)
    ensures CreateResponse(s1, b1).headers == CreateResponse(s2, b2).headers
  {
  }
}
