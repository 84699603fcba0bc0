/** Already-parsed YAML/JSON documents, as Python's `yaml.safe_load` and
    `json.load` hand them to the code (dictionaries keyed by strings). */
module Json {
  import opened Wrappers

  datatype Json =
    | JNull
    | JBool(b: bool)
    | JInt(i: int)
    | JReal(r: real)
    | JStr(s: string)
    | JList(items: seq<Json>)
    | JObj(fields: map<string, Json>)

  /** Python truthiness of a value (`if x:` / `x or y`). */
  predicate Truthy(j: Json) {
    match j
    case JNull => false
    case JBool(b) => b
    case JInt(i) => i != 0
    case JReal(r) => r != 0.0
    case JStr(s) => |s| > 0
    case JList(items) => |items| > 0
    case JObj(fields) => |fields| > 0
  }

  /** Python truthiness of an optional string argument. */
  predicate TruthyStr(s: Option<string>) {
    s.Some? && |s.value| > 0
  }

  /** Python's `type(x).__name__` for a parsed value. */
  function TypeName(j: Json): string {
    match j
    case JNull => "NoneType"
    case JBool(_) => "bool"
    case JInt(_) => "int"
    case JReal(_) => "float"
    case JStr(_) => "str"
    case JList(_) => "list"
    case JObj(_) => "dict"
  }

  /** The value as a number in arithmetic (`bool` is a subclass of `int`
      in Python); `None` for values arithmetic rejects with a TypeError. */
  function AsNumber(j: Json): (r: Option<real>)
    ensures r.Some? <==> (j.JInt? || j.JReal? || j.JBool?)
  {
    match j
    case JInt(i) => Some(i as real)
    case JReal(x) => Some(x)
    case JBool(b) => Some(if b then 1.0 else 0.0)
    case _ => None
  }

  /** `d.get(key, default)` on a dictionary. */
  function Get(d: map<string, Json>, key: string, default: Json): (r: Json)
    ensures key in d ==> r == d[key]
    ensures key !in d ==> r == default
  {
    if key in d then d[key] else default
  }
}
