/**
 * Decoded JSON documents as the Python code sees them (the result of
 * `response.json()`), together with the few pieces of Python behaviour the
 * modelled code relies on: truthiness, `d.get(key)`, `d[key]`, and the
 * exceptions that can escape.
 */
module Json {

  datatype Option<+T> = None | Some(value: T)

  /** A JSON value. Numbers are integers; JSON `null` is Python's `None`. */
  datatype Json =
    | JNull
    | JBool(b: bool)
    | JNum(n: int)
    | JStr(s: string)
    | JArray(items: seq<Json>)
    | JObject(fields: map<string, Json>)

  /** The Python exceptions that the modelled code raises or lets through. */
  datatype Exception =
    | KeyError(key: string)     // a missing dictionary key, or a non-mapping on a key path
    | TypeError                 // subscripting or iterating a value of the wrong kind
    | AttributeError            // `.get` on a value that is not a dict
    | RequestFailed(url: Json)  // `get_json(url)` raised (transport failure or error status)

  datatype Result<+T> = Ok(value: T) | Err(error: Exception)

  /** Python's `bool(v)` for a decoded JSON value. */
  predicate Truthy(v: Json) {
    match v
    case JNull => false
    case JBool(b) => b
    case JNum(n) => n != 0
    case JStr(s) => s != ""
    case JArray(items) => items != []
    case JObject(fields) => |fields| != 0
  }

  /** `fields.get(key)` on a dict: a missing key reads as `None`. */
  function Lookup(fields: map<string, Json>, key: string): Json {
    if key in fields then fields[key] else JNull
  }

  /** `v.get(key)`: only dicts have a `get` method. */
  function DictGet(v: Json, key: string): (r: Result<Json>)
    ensures r.Err? <==> !v.JObject?
    ensures r.Err? ==> r.error == AttributeError
    ensures v.JObject? ==> r == Ok(if key in v.fields then v.fields[key] else JNull)
  {
    if v.JObject? then Ok(Lookup(v.fields, key)) else Err(AttributeError)
  }

  /**
   * `v[key]` with a string key: a dict raises `KeyError` for a missing key;
   * lists, strings, numbers, booleans and `None` cannot be indexed by a string.
   */
  function Subscript(v: Json, key: string): (r: Result<Json>)
    ensures r.Ok? <==> v.JObject? && key in v.fields
    ensures r.Ok? ==> r.value == v.fields[key]
    ensures r == Err(KeyError(key)) <==> v.JObject? && key !in v.fields
    ensures r == Err(TypeError) <==> !v.JObject?
  {
    match v
    case JObject(fields) => if key in fields then Ok(fields[key]) else Err(KeyError(key))
    case _ => Err(TypeError)
  }
}
