/** The JSON values the updater reads (manifest, settings), with the parts of
    Python's object model that the updater relies on: `dict.get`, truthiness,
    `==` against a digest, and what a `for` loop over a value does. */
module PyJson {
  import opened Wrappers

  /** A decoded JSON value. Numbers are integers only; floats are not modelled. */
  datatype Json =
    | Null
    | Bool(b: bool)
    | Num(n: int)
    | Str(s: string)
    | Arr(items: seq<Json>)
    | Obj(fields: map<string, Json>)

  /** Python's `bool(v)`. */
  predicate Truthy(v: Json)
  {
    match v
    case Null => false
    case Bool(b) => b
    case Num(n) => n != 0
    case Str(s) => s != ""
    case Arr(items) => items != []
    case Obj(fields) => fields != map[]
  }

  /** `d.get(key, default)` on a dict; `d.get(key)` is `Get(d, key, Null)`. */
  function Get(fields: map<string, Json>, key: string, default: Json): Json
  {
    if key in fields then fields[key] else default
  }

  /** A digest as a Python value: a `str`, or `None`. */
  function AsJson(digest: Option<string>): Json
  {
    match digest
    case Some(d) => Str(d)
    case None => Null
  }

  /** What `for x in v:` hands to a loop body whose first action is `x.get(...)`:
      the items of a list, nothing for an empty string or dict, and None when the
      loop raises before its first effect: a non-empty string or dict yields
      strings, which have no `get`, and null, booleans and numbers are not
      iterable. */
  function Elements(v: Json): (r: Option<seq<Json>>)
    ensures v.Arr? ==> r == Some(v.items)
    ensures !v.Arr? && r.Some? ==> r.value == [] && !Truthy(v)
    ensures (v.Str? || v.Obj?) && !Truthy(v) ==> r == Some([])
  {
    match v
    case Arr(items) => Some(items)
    case Str(s) => if s == "" then Some([]) else None
    case Obj(fields) => if fields == map[] then Some([]) else None
    case _ => None
  }
}
