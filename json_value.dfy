/**
 * JSON values as Python's `json` module reads and writes them. An integer and
 * a float stay apart (`1` and `1.0` are different values), and `NaN`,
 * `Infinity` and `-Infinity`, which `json` reads and writes by default, are
 * values of their own. A float is an exact real here, not an IEEE double.
 */
module JsonValue {

  datatype Json =
    | JNull
    | JBool(b: bool)
    | JInt(i: int)
    | JFloat(f: real)
    | JNaN
    | JInfinity(negative: bool)
    | JString(s: string)
    | JArray(items: seq<Json>)
    | JObject(members: seq<(string, Json)>)
}
