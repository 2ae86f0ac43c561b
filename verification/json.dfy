/** Python's dynamically typed dictionaries and lists as parsed JSON values,
    with the `dict.get`, truthiness and `str()` operations the repository uses. */
module Json {
  import opened Base
  import Text

  /** `None`, `bool`, `int`, `str`, `list` and `dict` values. */
  datatype Value =
    | Null
    | Bool(b: bool)
    | Int(i: int)
    | Str(s: string)
    | List(items: seq<Value>)
    | Object(fields: map<string, Value>)

  /** `d.get(key)`: `None` when the key is absent. A value that is not a
      dictionary is read as an empty dictionary. */
  function Get(v: Value, key: string): (r: Option<Value>)
    ensures r.Some? <==> v.Object? && key in v.fields
    ensures r.Some? ==> r.value == v.fields[key]
  {
    if v.Object? && key in v.fields then Some(v.fields[key]) else None
  }

  /** `d.get(key, default)`. */
  function GetOr(v: Value, key: string, default: Value): Value {
    Get(v, key).GetOr(default)
  }

  /** Python truthiness: `None`, `False`, `0` and empty containers are falsy. */
  predicate Truthy(v: Value) {
    match v
    case Null => false
    case Bool(b) => b
    case Int(i) => i != 0
    case Str(s) => s != ""
    case List(l) => |l| > 0
    case Object(m) => |m| > 0
  }

  /** The text held by a string value; any other value is read as `default`. */
  function StrOr(v: Value, default: string): string {
    if v.Str? then v.s else default
  }

  /** The elements of a list value; any other value is read as an empty list. */
  function Items(v: Value): seq<Value> {
    if v.List? then v.items else []
  }

  /** `str(v)` as an f-string renders it, for scalars. */
  function Show(v: Value): string {
    match v
    case Null => "None"
    case Bool(b) => if b then "True" else "False"
    case Int(i) => Text.IntToString(i)
    case Str(s) => s
    case List(_) => ""
    case Object(_) => ""
  }

  /** An optional string as stored in a dictionary (`None` or the text). */
  function OptStr(o: Option<string>): Value {
    match o
    case None => Null
    case Some(s) => Str(s)
  }

  /** An optional integer as stored in a dictionary. */
  function OptInt(o: Option<int>): Value {
    match o
    case None => Null
    case Some(i) => Int(i)
  }

  /** Reads back an optional string: `None` or a string, anything else is rejected. */
  function ReadOptStr(v: Value): Result<Option<string>>
  {
    match v
    case Null => Ok(None)
    case Str(s) => Ok(Some(s))
    case _ => Err("expected a string or None")
  }

  /** Reads back an optional integer. */
  function ReadOptInt(v: Value): Result<Option<int>>
  {
    match v
    case Null => Ok(None)
    case Int(i) => Ok(Some(i))
    case _ => Err("expected an int or None")
  }

  lemma OptionalRoundTrip(s: Option<string>, i: Option<int>)
    ensures ReadOptStr(OptStr(s)) == Ok(s)
    ensures ReadOptInt(OptInt(i)) == Ok(i)
  {
  }
}
