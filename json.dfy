/**
 * The JSON-shaped Python values (`None`, `bool`, `int`, `str`, `list`, `dict`) that payloads,
 * metadata and stored configurations are made of, with the Python operations the core applies to
 * them: truthiness, `a or b`, `str(v)`, `isinstance(v, dict)` and `v.get(key, default)`.
 */
module Json {
  import opened Results
  import opened Text

  datatype Json =
    | JNull
    | JBool(b: bool)
    | JInt(i: int)
    | JStr(s: string)
    | JArr(items: seq<Json>)
    | JObj(fields: map<string, Json>)

  type Object = map<string, Json>

  /** Python truthiness: `None`, `False`, `0`, `""`, `[]` and `{}` are false. */
  predicate Truthy(v: Json) {
    match v
    case JNull => false
    case JBool(b) => b
    case JInt(i) => i != 0
    case JStr(s) => s != []
    case JArr(items) => items != []
    case JObj(fields) => fields != map[]
  }

  /** Python's `a or b`: the first operand when it is truthy, otherwise the second. */
  function Or(a: Json, b: Json): (r: Json)
    ensures Truthy(a) ==> r == a
    ensures !Truthy(a) ==> r == b
    ensures Truthy(r) <==> Truthy(a) || Truthy(b)
  {
    if Truthy(a) then a else b
  }

  /** The text Python's `repr` gives a container; its exact layout is not modelled. */
  const ContainerText: string := "<container>"

  /** Python's `str(v)` for the scalar values; containers get a fixed stand-in text. */
  function PyStr(v: Json): string {
    match v
    case JNull => "None"
    case JBool(b) => if b then "True" else "False"
    case JInt(i) => IntToString(i)
    case JStr(s) => s
    case JArr(_) => ContainerText
    case JObj(_) => ContainerText
  }

  /** Python's `type(v).__name__`. */
  function TypeName(v: Json): string {
    match v
    case JNull => "NoneType"
    case JBool(_) => "bool"
    case JInt(_) => "int"
    case JStr(_) => "str"
    case JArr(_) => "list"
    case JObj(_) => "dict"
  }

  /** The error Python raises when `.get` is called on something that is not a dict. */
  function NoGet(v: Json): string {
    "AttributeError: '" + TypeName(v) + "' object has no attribute 'get'"
  }

  /** `v.get(key, default)`: only a dict has `.get`; a missing key yields the default. */
  function GetOr(v: Json, key: string, default: Json): (r: Result<Json>)
    ensures r.Ok? <==> v.JObj?
    ensures v.JObj? && key in v.fields ==> r == Ok(v.fields[key])
    ensures v.JObj? && key !in v.fields ==> r == Ok(default)
  {
    match v
    case JObj(fields) => Ok(if key in fields then fields[key] else default)
    case _ => Err(NoGet(v))
  }

  /** `v.get(key)`, which yields `None` for a missing key. */
  function Get(v: Json, key: string): Result<Json> {
    GetOr(v, key, JNull)
  }

  /** `d.get(key, default)` on a value already known to be a dict. */
  function Lookup(d: Object, key: string, default: Json): Json {
    if key in d then d[key] else default
  }

  const EmptyObject: Json := JObj(map[])
}
