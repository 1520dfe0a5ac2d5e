/** Vocabulary shared by every route: optional values, the JSON fields a request
    body carries, Python truthiness, and the responses the routes return. */
module Common {

  datatype Option<T> = None | Some(value: T) {
    /** `x or default` / `dict.get(key, default)` */
    function GetOr(default: T): T {
      if Some? then value else default
    }
  }

  /** The JSON values the routes read out of a request body. */
  datatype Json = JNull | JBool(b: bool) | JStr(s: string)

  /** A JSON request body: an object, or `None` when it is JSON `null`. A
      request that is not JSON, a top-level body that is neither an object nor
      `null`, and the field values `Json` does not hold are not modelled. */
  type Body = Option<map<string, Json>>

  /** A response: its HTTP status and the message (or redirect target, or
      flashed text) that goes with it. */
  datatype Response = Response(status: nat, message: string)

  /** `data.get(key)`: a missing key reads as `None`. */
  function Field(data: map<string, Json>, key: string): (r: Option<Json>)
    ensures r.Some? <==> key in data
    ensures r.Some? ==> r.value == data[key]
  {
    if key in data then Some(data[key]) else None
  }

  /** Python truthiness of a value read with `data.get`. */
  predicate Truthy(v: Option<Json>) {
    match v
    case None => false
    case Some(JNull) => false
    case Some(JBool(b)) => b
    case Some(JStr(s)) => s != ""
  }

  /** `if not data`: no JSON object, or an empty one. */
  predicate EmptyBody(body: Body) {
    body.None? || body.value == map[]
  }

  /** Python truthiness of an optional string: `None` and `''` are false. */
  predicate Present(s: Option<string>) {
    s.Some? && s.value != ""
  }

  /** Python truthiness of an optional integer id: `None` and `0` are false. */
  predicate PresentId(id: Option<nat>) {
    id.Some? && id.value != 0
  }
}
