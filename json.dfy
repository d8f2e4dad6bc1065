/** Parsed JSON documents as the Python code sees them after `json.loads` / `response.json()`.
    An object keeps its members as written; looking a member up goes through `dict(pairs)`, so
    a repeated member name yields its last value. Fractional numbers are not modelled. */
module Json {
  import opened Wrappers
  import opened Dicts

  datatype Value =
    | JNull
    | JBool(b: bool)
    | JInt(n: int)
    | JString(s: string)
    | JArray(items: seq<Value>)
    | JObject(fields: Dict<Value>)

  /** Python truthiness of a decoded JSON value (`if data:`). */
  predicate Truthy(v: Value)
  {
    match v
    case JNull => false
    case JBool(b) => b
    case JInt(n) => n != 0
    case JString(s) => s != ""
    case JArray(items) => items != []
    case JObject(fields) => fields != []
  }

  /** `obj.get(k)` on a decoded JSON object. */
  function Member(fields: Dict<Value>, k: string): Option<Value>
  {
    Get(FromPairs(fields), k)
  }
}

/** The part of an HTTP exchange the source inspects: the status code, whether the
    content type is JSON, and the body decoded as JSON (`None` when it does not parse). */
module Http {
  import opened Wrappers
  import Json

  datatype Reply =
    | Received(status: int, jsonContentType: bool, body: Option<Json.Value>)
    | ConnectFailed

  /** httpx `Response.is_success`: a 2xx status. */
  predicate IsSuccess(status: int)
  {
    200 <= status < 300
  }
}
