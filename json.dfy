/**
 * Decoded JSON values as Python sees them after `json.loads`, and the few Python
 * behaviours the modelled code relies on: type names, truthiness, hashability, `str()` and
 * `dict.get`.
 */
module Json {
  import opened Text

  /**
   * A JSON value. Numbers carry the text Python's `str()` prints for them; the
   * modelled code never computes with a decoded number. Object key order is not kept.
   */
  datatype Value =
    | Null
    | Bool(b: bool)
    | Num(repr: string)
    | Str(s: string)
    | Arr(items: seq<Value>)
    | Obj(fields: map<string, Value>)

  /** The printed forms of a numeric zero (`0`, `0.0`, `-0.0`), the only falsy numbers. */
  predicate IsZeroRepr(r: string)
  {
    r == "0" || r == "0.0" || r == "-0.0"
  }

  /** Python's name for the type of a decoded value. */
  function PyTypeName(v: Value): string
  {
    match v
    case Null => "NoneType"
    case Bool(_) => "bool"
    case Num(r) => if IsDigitString(r) || (|r| > 1 && r[0] == '-' && IsDigitString(r[1..])) then "int" else "float"
    case Str(_) => "str"
    case Arr(_) => "list"
    case Obj(_) => "dict"
  }

  /** Python's `bool(v)`: None, False, zero and empty containers are falsy. */
  predicate Truthy(v: Value)
  {
    match v
    case Null => false
    case Bool(b) => b
    case Num(r) => !IsZeroRepr(r)
    case Str(s) => |s| > 0
    case Arr(xs) => |xs| > 0
    case Obj(m) => |m| > 0
  }

  /** Lists and dicts cannot be dictionary keys or set members: `hash()` raises TypeError. */
  predicate Hashable(v: Value)
  {
    !v.Arr? && !v.Obj?
  }

  /** Python's `str(v)` for a hashable decoded value. */
  function Render(v: Value): (r: string)
    requires Hashable(v)
    ensures v.Str? ==> r == v.s
    ensures v.Num? ==> r == v.repr
  {
    match v
    case Null => "None"
    case Bool(b) => if b then "True" else "False"
    case Num(r) => r
    case Str(s) => s
  }

  /** `d.get(key, default)`. */
  function Get(d: map<string, Value>, key: string, default: Value): (r: Value)
    ensures key in d ==> r == d[key]
    ensures key !in d ==> r == default
  {
    if key in d then d[key] else default
  }

  /** A dict literal with a single string-valued entry, `{key: s}`. */
  function Single(key: string, s: string): (r: Value)
    ensures r.Obj? && r.fields.Keys == {key} && r.fields[key] == Str(s)
  {
    Obj(map[key := Str(s)])
  }

  /** A list of strings as a JSON array. */
  function StrList(xs: seq<string>): (r: seq<Value>)
    ensures |r| == |xs| && forall i :: 0 <= i < |xs| ==> r[i] == Str(xs[i])
  {
    if xs == [] then [] else StrList(xs[..|xs| - 1]) + [Str(xs[|xs| - 1])]
  }
}
