/** Decoded JSON values, as `json.loads` returns them, and the Python operations
    the report code applies to them without checking their kind first. */
module JsonValues {
  import opened Wrappers
  import opened Text

  datatype Json =
    | JNull
    | JBool(b: bool)
    | JNum(n: int)
    | JStr(s: string)
    | JArr(items: seq<Json>)
    | JObj(fields: map<string, Json>)

  /** What `json.loads` yields: a value, or the message of its `JSONDecodeError`. */
  datatype Decoded = Parsed(value: Json) | Malformed(message: string)

  /** Python truthiness of a decoded value. */
  predicate Truthy(j: Json) {
    match j
    case JNull => false
    case JBool(b) => b
    case JNum(n) => n != 0
    case JStr(s) => s != []
    case JArr(items) => items != []
    case JObj(fields) => fields != map[]
  }

  /** Python `key in j`: a dict tests its keys, a list its elements, a string its
      substrings; None, booleans and numbers raise `TypeError` (result `None`). */
  function PyContains(j: Json, key: string): (r: Option<bool>)
    ensures r.Some? <==> (j.JObj? || j.JArr? || j.JStr?)
    ensures j.JObj? ==> r == Some(key in j.fields)
  {
    match j
    case JObj(fields) => Some(key in fields)
    case JArr(items) => Some(JStr(key) in items)
    case JStr(s) => Some(Contains(s, key))
    case _ => None
  }

  /** `str(j)` as an f-string prints it, for scalars; lists and dicts are shown
      by a fixed tag. */
  function Show(j: Json): string {
    match j
    case JNull => "None"
    case JBool(b) => if b then "True" else "False"
    case JNum(n) => IntToString(n)
    case JStr(s) => s
    case JArr(_) => "[...]"
    case JObj(_) => "{...}"
  }

  /** The Python type name that `TypeError` messages quote. */
  function TypeName(j: Json): string {
    match j
    case JNull => "NoneType"
    case JBool(_) => "bool"
    case JNum(_) => "int"
    case JStr(_) => "str"
    case JArr(_) => "list"
    case JObj(_) => "dict"
  }

  /** The `TypeError` Python raises for `key in j` on a value that is not a container. */
  function NotIterable(j: Json): Failure {
    TypeError("argument of type '" + TypeName(j) + "' is not iterable")
  }

  /** `j[key]` for a string key: a dict's value, or the `TypeError` any other kind raises.
      A dict without the key would raise `KeyError`; callers test the key first. */
  function Subscript(j: Json, key: string): (r: Result<Json>)
    ensures r.Ok? <==> j.JObj? && key in j.fields
    ensures r.Ok? ==> r.value == j.fields[key]
  {
    match j
    case JObj(fields) =>
      if key in fields then Ok(fields[key]) else Err(KeyError("'" + key + "'"))
    case JArr(_) => Err(TypeError("list indices must be integers or slices, not str"))
    case JStr(_) => Err(TypeError("string indices must be integers, not 'str'"))
    case _ => Err(TypeError("'" + TypeName(j) + "' object is not subscriptable"))
  }

  /** The `TypeError` Python raises for `j[key] = v` with a string key on anything but a dict. */
  function NoItemAssignment(j: Json): Failure {
    if j.JArr? then TypeError("list indices must be integers or slices, not str")
    else TypeError("'" + TypeName(j) + "' object does not support item assignment")
  }
}
