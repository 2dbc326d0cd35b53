/**
 * Decoded JSON request bodies, and the Python checks the handlers apply to them:
 * truthiness (`request.get_json() or {}`), `dict.get`, and `isinstance` against
 * `str`, `int` and `(int, float)`. In Python `bool` is a subclass of `int`, so a
 * JSON `true`/`false` passes the integer and the numeric checks.
 */
module Json {
  import opened Wrappers

  datatype JsonValue =
    | JNull
    | JBool(b: bool)
    | JInt(i: int)
    | JFloat(f: real)
    | JStr(s: string)
    | JArray(items: seq<JsonValue>)
    | JObject(fields: map<string, JsonValue>)

  /** The dictionary a handler reads its fields from. */
  type Payload = map<string, JsonValue>

  /** Python's truth value of a decoded JSON value. */
  predicate Truthy(v: JsonValue)
  {
    match v
    case JNull => false
    case JBool(b) => b
    case JInt(i) => i != 0
    case JFloat(f) => f != 0.0
    case JStr(s) => s != ""
    case JArray(items) => items != []
    case JObject(fields) => fields != map[]
  }

  /**
   * `data = request.get_json() or {}`: a falsy body becomes the empty dictionary.
   * None when `data.get` would raise, which happens for a truthy body that is not
   * an object (a list, a string, a number, `true`).
   */
  function PayloadOf(body: JsonValue): (r: Option<Payload>)
    ensures r.None? <==> Truthy(body) && !body.JObject?
    ensures r.Some? && body.JObject? ==> r.value == body.fields
    ensures !Truthy(body) ==> r == Some(map[])
  {
    if !Truthy(body) then Some(map[])
    else if body.JObject? then Some(body.fields)
    else None
  }

  /** `data.get(name)`: a missing field reads as `None`. */
  function Get(data: Payload, name: string): JsonValue
  {
    if name in data then data[name] else JNull
  }

  /** `isinstance(v, str)` */
  predicate IsStr(v: JsonValue)
  {
    v.JStr?
  }

  /** `isinstance(v, int)`, which also holds of `True` and `False`. */
  predicate IsInt(v: JsonValue)
  {
    v.JInt? || v.JBool?
  }

  /** `isinstance(v, (int, float))` */
  predicate IsNumber(v: JsonValue)
  {
    IsInt(v) || v.JFloat?
  }

  /** `int(v)`: the value an integer column stores for an accepted integer. */
  function IntOf(v: JsonValue): int
    requires IsInt(v)
  {
    match v
    case JInt(i) => i
    case JBool(b) => if b then 1 else 0
  }

  /** `float(v)`: the value a float column stores for an accepted number. */
  function FloatOf(v: JsonValue): real
    requires IsNumber(v)
  {
    match v
    case JInt(i) => i as real
    case JBool(b) => if b then 1.0 else 0.0
    case JFloat(f) => f
  }

  /** A JSON boolean is accepted as an integer and as a number, and keys as 1 or 0. */
  lemma BoolsPassAsIntegers(b: bool)
    ensures IsInt(JBool(b)) && IsNumber(JBool(b))
    ensures IntOf(JBool(b)) == (if b then 1 else 0)
  {
  }
}
