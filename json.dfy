/**
 * JSON values as the Python code sees them after `json.loads` or a framework
 * body parse, with Python's truthiness and its `in` operator.
 */
module Json {
  import opened Wrappers

  datatype Json =
    | Null
    | Bool(b: bool)
    | Num(n: int)
    | Str(s: string)
    | Arr(items: seq<Json>)
    | Obj(fields: map<string, Json>)

  /** Python's `bool(v)` for a decoded JSON value. */
  predicate Truthy(v: Json)
  {
    match v
    case Null => false
    case Bool(b) => b
    case Num(n) => n != 0
    case Str(s) => s != ""
    case Arr(items) => items != []
    case Obj(fields) => fields != map[]
  }

  /** `s` occurs in `t` as a contiguous block. */
  predicate IsSubstring(s: string, t: string)
    decreases |t|
  {
    (|s| <= |t| && t[..|s|] == s) || (t != [] && IsSubstring(s, t[1..]))
  }

  /**
   * Python's `key in data` for a string key: key membership on a dict,
   * element equality on a list, substring search on a string; None when
   * Python raises TypeError (numbers, booleans, null).
   */
  function Contains(key: string, data: Json): Option<bool>
  {
    match data
    case Obj(fields) => Some(key in fields)
    case Arr(items) => Some(Str(key) in items)
    case Str(s) => Some(IsSubstring(key, s))
    case _ => None
  }
}
