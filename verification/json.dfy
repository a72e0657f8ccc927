/**
 * The generic tree value produced by `yaml.safe_load` and consumed by
 * `json.dumps` and `response.json()`, together with the one Python operation
 * the core applies to it: subscripting with a string key.
 */
module Json {
  import opened Wrappers

  /** A parsed YAML or JSON document. Floating-point numbers are not modelled. */
  datatype Value =
    | Null
    | Bool(b: bool)
    | Number(n: int)
    | Str(s: string)
    | Array(items: seq<Value>)
    | Object(fields: map<string, Value>)

  /** The Python exceptions the core can let escape. */
  datatype PyError =
    | KeyError(key: string)   // a mapping without the requested key
    | TypeError               // subscripting something that is not a mapping
    | JsonDecodeError         // `response.json()` on a body that is not JSON

  /** Python's `v[key]` for a string key: only a mapping can be subscripted by a string. */
  function Subscript(v: Value, key: string): (r: Result<Value, PyError>)
    ensures r.Success? <==> v.Object? && key in v.fields
    ensures r.Success? ==> r.value == v.fields[key]
    ensures v.Object? && key !in v.fields ==> r == Failure(KeyError(key))
    ensures !v.Object? ==> r == Failure(TypeError)
  {
    match v
    case Object(fields) => if key in fields then Success(fields[key]) else Failure(KeyError(key))
    case _ => Failure(TypeError)
  }

  /** Follows a path of keys through nested mappings; None when a step is missing. */
  function Path(v: Value, keys: seq<string>): Option<Value>
    decreases |keys|
  {
    if |keys| == 0 then Some(v)
    else if v.Object? && keys[0] in v.fields then Path(v.fields[keys[0]], keys[1..])
    else None
  }
}
