/**
 * Decoded JSON documents as the Python sources see them after `json.loads`: `None`,
 * booleans, numbers (modelled as exact reals), strings, lists and dicts. The decoder
 * itself is outside the model; modules that decode text take it as a parameter.
 */
module Json {
  import opened Wrappers
  import opened Text
  import opened Numeric

  datatype Value =
    | Null
    | Bool(b: bool)
    | Num(n: real)
    | Str(s: string)
    | Arr(items: seq<Value>)
    | Obj(fields: map<string, Value>)

  /** Python truthiness: `None`, `False`, `0`, `""`, `[]` and `{}` are false. */
  predicate Truthy(v: Value) {
    match v
    case Null => false
    case Bool(b) => b
    case Num(n) => n != 0.0
    case Str(s) => s != []
    case Arr(items) => items != []
    case Obj(fields) => fields != map[]
  }

  /**
   * Python's `float(v)`: numbers as they are, `True`/`False` as 1 and 0, strings through
   * the decimal-text parser; `None`, lists and dicts raise `TypeError` (here `None`).
   */
  function ToFloat(v: Value): (r: Option<real>)
    ensures v.Num? ==> r == Some(v.n)
    ensures v.Null? || v.Arr? || v.Obj? ==> r.None?
  {
    match v
    case Null => None
    case Bool(b) => Some(if b then 1.0 else 0.0)
    case Num(n) => Some(n)
    case Str(s) => ParseFloat(s)
    case Arr(_) => None
    case Obj(_) => None
  }

  /** Python's `d.get(key, default)` on a dict. */
  function GetOr(d: map<string, Value>, key: string, default: Value): (r: Value)
    ensures key in d ==> r == d[key]
    ensures key !in d ==> r == default
  {
    if key in d then d[key] else default
  }

  /** Python's `key in v`: a dict's key, a list's element or a substring; other values raise. */
  function Has(v: Value, key: string): (r: Option<bool>)
    ensures v.Obj? ==> r == Some(key in v.fields)
    ensures v.Arr? ==> r == Some(Str(key) in v.items)
    ensures v.Str? ==> r == Some(Contains(v.s, key))
    ensures r.None? <==> !(v.Obj? || v.Arr? || v.Str?)
  {
    match v
    case Obj(m) => Some(key in m)
    case Arr(items) => Some(Str(key) in items)
    case Str(s) => Some(Contains(s, key))
    case _ => None
  }

  /** Python's `x or y`: the first operand when it is truthy, else the second. */
  function Or(x: Value, y: Value): (r: Value)
    ensures Truthy(x) ==> r == x
    ensures !Truthy(x) ==> r == y
  {
    if Truthy(x) then x else y
  }
}
