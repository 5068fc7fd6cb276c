/**
 * Parsed JSON values as the client sees them after `response.json()`, with
 * JavaScript truthiness, property access and `String(value)`.
 * Numbers are integers; floating point is not part of this model.
 */
module Json {
  import opened Wrappers
  import JsString

  datatype Json =
    | JNull
    | JBool(b: bool)
    | JNum(n: int)
    | JStr(s: string)
    | JArr(items: seq<Json>)
    | JObj(fields: map<string, Json>)

  /** JavaScript truthiness of a JSON value. */
  predicate Truthy(j: Json) {
    match j
    case JNull => false
    case JBool(b) => b
    case JNum(n) => n != 0
    case JStr(s) => s != ""
    case JArr(_) => true
    case JObj(_) => true
  }

  /** `j.key` on a parsed value; only objects carry the keys looked up here. */
  function Field(j: Json, key: string): (r: Option<Json>)
    ensures r.Some? <==> j.JObj? && key in j.fields
    ensures r.Some? ==> r.value == j.fields[key]
  {
    if j.JObj? && key in j.fields then Some(j.fields[key]) else None
  }

  /** A string-valued property, or None when it is absent or not a string. */
  function StringField(j: Json, key: string): (r: Option<string>)
    ensures r.Some? <==> Field(j, key).Some? && Field(j, key).value.JStr?
  {
    match Field(j, key)
    case Some(JStr(s)) => Some(s)
    case _ => None
  }

  /** A number-valued property, or None when it is absent or not a number. */
  function NumberField(j: Json, key: string): (r: Option<int>)
    ensures r.Some? <==> Field(j, key).Some? && Field(j, key).value.JNum?
  {
    match Field(j, key)
    case Some(JNum(n)) => Some(n)
    case _ => None
  }

  /** `String(j)`: what the `Error` constructor makes of a non-string message. */
  function Display(j: Json): string {
    match j
    case JNull => "null"
    case JBool(b) => if b then "true" else "false"
    case JNum(n) => JsString.IntToString(n)
    case JStr(s) => s
    case JArr(items) => JoinComma(seq(|items|, i requires 0 <= i < |items| => if items[i].JNull? then "" else Display(items[i])))
    case JObj(_) => "[object Object]"
  }

  function JoinComma(parts: seq<string>): string {
    if parts == [] then "" else if |parts| == 1 then parts[0] else parts[0] + "," + JoinComma(parts[1..])
  }
}
