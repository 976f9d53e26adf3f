/**
 * The value `yaml.safe_load` produces, with the Python semantics the rubric
 * relies on: truthiness, `a or b`, `a and b`, and `dict.get`.
 */
module Yaml {
  import opened Common

  datatype Value =
    | Null
    | Bool(b: bool)
    | Int(i: int)
    | Float(r: real)
    | Str(s: string)
    | List(items: seq<Value>)
    | Map(fields: map<string, Value>)

  const Empty: Value := Map(map[])

  /** Python's `bool(v)`. */
  predicate Truthy(v: Value)
  {
    match v
    case Null => false
    case Bool(b) => b
    case Int(i) => i != 0
    case Float(r) => r != 0.0
    case Str(s) => s != ""
    case List(xs) => xs != []
    case Map(m) => m != map[]
  }

  /** Python's `a or b`. */
  function Or(a: Value, b: Value): (r: Value)
    ensures Truthy(r) <==> Truthy(a) || Truthy(b)
  {
    if Truthy(a) then a else b
  }

  /** Python's `a and b`. */
  function And(a: Value, b: Value): (r: Value)
    ensures Truthy(r) <==> Truthy(a) && Truthy(b)
  {
    if Truthy(a) then b else a
  }

  /** `v.get(key)`: None when `v` is not a dict (the call raises AttributeError). */
  function Get(v: Value, key: string): (r: Option<Value>)
    ensures r.None? <==> !v.Map?
    ensures r.Some? && key in v.fields ==> r.value == v.fields[key]
    ensures r.Some? && key !in v.fields ==> r.value == Null
  {
    if !v.Map? then None else Some(if key in v.fields then v.fields[key] else Null)
  }

  /** `v.get(key)` where `v` is known to be a dict; Null for anything else. */
  function Field(v: Value, key: string): (r: Value)
    ensures v.Map? ==> Get(v, key) == Some(r)
  {
    if v.Map? && key in v.fields then v.fields[key] else Null
  }

  /** `a and b or b` is `b`: whichever way `a` goes, the result is `b`. */
  lemma AndThenOrCollapses(a: Value, b: Value)
    ensures Or(And(a, b), b) == b
  {
  }
}
