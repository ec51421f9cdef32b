/**
 * JSON-shaped Python values (what `json.loads` produces and what the
 * `to_dict`/schema functions build). Floating-point numbers are not modelled.
 */
module Json {

  import opened Wrappers

  datatype Json =
    | JNull
    | JBool(b: bool)
    | JInt(i: int)
    | JStr(s: string)
    | JList(items: seq<Json>)
    | JDict(fields: map<string, Json>)

  /** `d.get(key)` on a JSON object; `None` for a missing key or a value that is not an object. */
  function Get(j: Json, key: string): Option<Json> {
    if j.JDict? && key in j.fields then Some(j.fields[key]) else None
  }

  /** Nested lookup `j[path[0]][path[1]]...`; `None` where a key is missing. */
  function At(j: Json, path: seq<string>): Option<Json>
    decreases |path|
  {
    if path == [] then Some(j)
    else match Get(j, path[0])
      case None => None
      case Some(child) => At(child, path[1..])
  }

  /** The value at `path` is an object whose keys are exactly `keys`. */
  predicate KeysAre(j: Json, path: seq<string>, keys: set<string>) {
    At(j, path).Some? && At(j, path).value.JDict? && At(j, path).value.fields.Keys == keys
  }

  /** A list of strings as a JSON list. */
  function StrList(xs: seq<string>): (j: Json)
    ensures j.JList? && |j.items| == |xs|
    ensures forall k :: 0 <= k < |xs| ==> j.items[k] == JStr(xs[k])
  {
    JList(seq(|xs|, k requires 0 <= k < |xs| => JStr(xs[k])))
  }
}
