/**
 * JSON values as the protocol engine sees them after parsing, and the
 * JavaScript truthiness test it applies to them.
 */
module Json {

  /**
   * A JSON number is an opaque leaf: the engine never computes with
   * numbers, it only asks whether one is falsy (0 and -0 are).
   */
  datatype Number = Zero | NonZero(token: nat)

  datatype Json =
    | JNull
    | JBool(b: bool)
    | JNumber(n: Number)
    | JString(s: string)
    | JArray(elems: seq<Json>)
    | JObject(fields: map<string, Json>)

  /** A decoded wire message: a JSON object, keyed by property name. */
  type Message = map<string, Json>

  /**
   * JavaScript truthiness of a JSON value: `null`, `false`, zero and the
   * empty string are falsy; every array and every object is truthy.
   */
  predicate Truthy(v: Json)
  {
    match v
    case JNull => false
    case JBool(b) => b
    case JNumber(n) => n != Zero
    case JString(s) => s != ""
    case JArray(_) => true
    case JObject(_) => true
  }
}
