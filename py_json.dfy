/** Decoded JSON documents as Python's `json` module produces them, and the few
    Python operations the integration applies to them. An operation that raises
    in Python (KeyError, IndexError, TypeError, AttributeError) yields None here. */
module PyJson {

  datatype Option<+T> = None | Some(value: T)

  datatype Json =
    | JNull
    | JBool(b: bool)
    | JNum(n: int)
    | JStr(s: string)
    | JArr(items: seq<Json>)
    | JObj(fields: map<string, Json>)

  /** Python truthiness of an optional string argument: both None and "" are false. */
  predicate Truthy(s: Option<string>) {
    s.Some? && s.value != ""
  }

  /** `j[key]` with a string key: only an object that holds the key answers. */
  function Subscript(j: Json, key: string): Option<Json> {
    if j.JObj? && key in j.fields then Some(j.fields[key]) else None
  }

  /** `j[0]`: the first element of a list or the first character of a string.
      Decoded object keys are strings, so `0` is never one of them. */
  function Index0(j: Json): Option<Json> {
    match j
    case JArr(xs) => if |xs| > 0 then Some(xs[0]) else None
    case JStr(s) => if |s| > 0 then Some(JStr([s[0]])) else None
    case _ => None
  }

  /** The elements `for x in j` visits. A string yields its characters. A
      non-empty object yields its keys, which are strings; every loop that uses
      this subscripts each element with a string key, which raises on a string,
      so that case is collapsed to None. Numbers, booleans and null are not
      iterable. */
  function Elements(j: Json): Option<seq<Json>> {
    match j
    case JArr(xs) => Some(xs)
    case JStr(s) => Some(seq(|s|, i requires 0 <= i < |s| => JStr([s[i]])))
    case JObj(m) => if |m| == 0 then Some([]) else None
    case _ => None
  }

  /** `j.get(key, default)`: only a dict has `get`; on anything else it raises
      AttributeError. */
  function DictGet(j: Json, key: string, default: Json): Option<Json> {
    match j
    case JObj(m) => Some(if key in m then m[key] else default)
    case _ => None
  }
}
