/**
 * JavaScript values as the modelled code meets them after `JSON.parse`, with
 * the language rules it relies on: truthiness, `typeof`, strict equality,
 * property reads (which throw on `null` and `undefined`) and `||` chains.
 */
module Json {
  import opened Wrappers
  import Text

  /** A JavaScript value. `Undefined` stands for an absent property. */
  datatype Value =
    | Undefined
    | Null
    | Bool(b: bool)
    | Num(n: real)
    | Str(s: string)
    | Arr(items: seq<Value>)
    | Obj(fields: map<string, Value>)

  /** The falsy values are `undefined`, `null`, `false`, `0` and `''`. */
  predicate Truthy(v: Value) {
    match v
    case Undefined => false
    case Null => false
    case Bool(b) => b
    case Num(n) => n != 0.0
    case Str(s) => s != ""
    case Arr(_) => true
    case Obj(_) => true
  }

  predicate IsNullish(v: Value) { v.Undefined? || v.Null? }

  /** `typeof v === "number"`. */
  predicate IsNumber(v: Value) { v.Num? }

  /** `Array.isArray(v)`. */
  predicate IsArray(v: Value) { v.Arr? }

  /** Primitives compare by value; objects and arrays only by identity. */
  predicate IsPrimitive(v: Value) { !v.Arr? && !v.Obj? }

  /** `a === b` for two values taken from distinct places of a parsed
      document: two objects are never the same object. */
  predicate StrictEquals(a: Value, b: Value) {
    IsPrimitive(a) && a == b
  }

  /** `o[key]` when `o` is known not to be nullish: a missing own property,
      or any property of a primitive, reads as `undefined`. */
  function Field(o: Value, key: string): (r: Value)
    ensures o.Obj? && key in o.fields ==> r == o.fields[key]
    ensures !(o.Obj? && key in o.fields) ==> r == Undefined
  {
    if o.Obj? && key in o.fields then o.fields[key] else Undefined
  }

  /** `o.key`: throws a TypeError when `o` is `null` or `undefined`. */
  function Get(o: Value, key: string): (r: Result<Value>)
    ensures r.Thrown? <==> IsNullish(o)
    ensures r.Thrown? ==> r.error == TypeError
    ensures r.Ok? ==> r.value == Field(o, key)
  {
    if IsNullish(o) then Thrown(TypeError) else Ok(Field(o, key))
  }

  /** `o?.key`. */
  function OptField(o: Value, key: string): (r: Value)
    ensures IsNullish(o) ==> r == Undefined
    ensures !IsNullish(o) ==> r == Field(o, key)
  {
    if IsNullish(o) then Undefined else Field(o, key)
  }

  /** `a || b`. */
  function Or(a: Value, b: Value): (r: Value)
    ensures Truthy(a) ==> r == a
    ensures !Truthy(a) ==> r == b
  {
    if Truthy(a) then a else b
  }

  /** `vs[0] || vs[1] || ... || vs[n-1]`: the first truthy value, or the last. */
  function FirstTruthy(vs: seq<Value>): (r: Value)
    requires vs != []
    ensures Truthy(r) <==> exists i :: 0 <= i < |vs| && Truthy(vs[i])
    ensures Truthy(r) ==> exists i :: 0 <= i < |vs| && vs[i] == r && forall j :: 0 <= j < i ==> !Truthy(vs[j])
    ensures !Truthy(r) ==> r == vs[|vs| - 1]
  {
    if |vs| == 1 then vs[0] else Or(vs[0], FirstTruthy(vs[1..]))
  }

  /** `v || undefined`. */
  function OrUndefined(v: Value): (r: Value)
    ensures Truthy(v) ==> r == v
    ensures !Truthy(v) ==> r == Undefined
  {
    Or(v, Undefined)
  }

  /** `Boolean(v)`. */
  function ToBoolean(v: Value): (r: Value)
    ensures r.Bool? && (r.b <==> Truthy(v))
  {
    Bool(Truthy(v))
  }

  /** `v.includes(name)` where `v` is a string or an array: a substring test
      or an element test; any other value has no `includes` method. */
  function Includes(v: Value, name: string): (r: Result<bool>)
    ensures v.Str? ==> r == Ok(Text.Contains(v.s, name))
    ensures v.Arr? ==> r == Ok(Str(name) in v.items)
    ensures !v.Str? && !v.Arr? ==> r == Thrown(TypeError)
  {
    match v
    case Str(s) => Ok(Text.Contains(s, name))
    case Arr(items) => Ok(Str(name) in items)
    case _ => Thrown(TypeError)
  }

  /** Membership of `v` in a JavaScript `Set` of keys seen before; objects
      and arrays are never found. */
  predicate SetHas(seen: seq<Value>, v: Value) {
    IsPrimitive(v) && v in seen
  }

  lemma FirstTruthyPair(a: Value, b: Value)
    ensures FirstTruthy([a, b]) == Or(a, b)
  {
    assert [a, b][1..] == [b];
  }

  lemma FirstTruthyTriple(a: Value, b: Value, c: Value)
    ensures FirstTruthy([a, b, c]) == Or(a, Or(b, c))
  {
    assert [a, b, c][1..] == [b, c];
    FirstTruthyPair(b, c);
  }
}
