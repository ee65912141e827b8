/**
  Values that cross the boundaries of the core: JSON documents (the config
  file, token claims, GraphQL results, Redux action payloads) and Tango
  timestamps.
*/
module Values {

  /** A parsed JSON value. Numbers are kept as integers; floating point is not modelled. */
  datatype Json =
    | JNull
    | JBool(b: bool)
    | JNumber(n: int)
    | JString(s: string)
    | JArray(items: seq<Json>)
    | JObject(fields: map<string, Json>)

  /** Python truthiness of the value a JSON document parses to. */
  predicate Truthy(j: Json) {
    match j
    case JNull => false
    case JBool(b) => b
    case JNumber(n) => n != 0
    case JString(s) => s != ""
    case JArray(items) => items != []
    case JObject(fields) => fields != map[]
  }

  /** A Tango `TimeVal`: whole seconds and microseconds. */
  datatype TimeVal = TimeVal(tvSec: int, tvUsec: int)

  /** `TimeVal.totime()`: seconds as a number (exact here, a float in the source). */
  function ToTime(t: TimeVal): real {
    t.tvSec as real + t.tvUsec as real / 1000000.0
  }
}
