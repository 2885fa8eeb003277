/** Decoded JSON values and the few Python operations the integration applies to
    them: truthiness, `dict.get` with a default, `a or b`, and `str()`. */
module Json {
  import opened Strings

  datatype Option<+T> = None | Some(value: T)

  datatype Result<+T, +E> = Ok(value: T) | Err(error: E)

  /** A JSON value as `json.loads` / `aiohttp`'s `resp.json()` produce it. */
  datatype Json =
    | Null
    | Bool(b: bool)
    | Num(n: real)
    | Str(s: string)
    | Arr(items: seq<Json>)
    | Obj(fields: map<string, Json>)

  /** Python truthiness (`if x:`, `not x`, `bool(x)`) of a decoded value. */
  predicate Truthy(j: Json) {
    match j
    case Null => false
    case Bool(b) => b
    case Num(n) => n != 0.0
    case Str(s) => s != ""
    case Arr(items) => items != []
    case Obj(fields) => fields != map[]
  }

  /** `d.get(key, default)`: a key that is present yields its value, even when that value is null. */
  function GetOr(d: map<string, Json>, key: string, default: Json): Json {
    if key in d then d[key] else default
  }

  /** Python's `a or b`: the first operand when it is truthy, the second otherwise. */
  function Or(a: Json, b: Json): Json {
    if Truthy(a) then a else b
  }

  /** The `_id`, else `id`, of a record, as `x.get("_id", x.get("id"))` computes it. */
  function IdOf(d: map<string, Json>): Json {
    GetOr(d, "_id", GetOr(d, "id", Null))
  }

  /** Python's `str()` of a decoded value, as used by f-strings.  Strings, null and
      booleans are rendered as Python does; other values get a fixed placeholder. */
  function Text(j: Json): string {
    match j
    case Str(s) => s
    case Null => "None"
    case Bool(b) => if b then "True" else "False"
    case _ => "?"
  }

  /** Python's `key in container` for a string key: a dict tests its keys, a list its
      elements, a string its substrings; on any other value `in` raises (None). */
  function Member(key: string, container: Json): (r: Option<bool>)
    ensures container.Obj? ==> r == Some(key in container.fields)
    ensures r.None? <==> !(container.Obj? || container.Arr? || container.Str?)
  {
    match container
    case Obj(fields) => Some(key in fields)
    case Arr(items) => Some(Str(key) in items)
    case Str(s) => Some(Contains(s, key))
    case _ => None
  }
}
