/** JSON values as the worker sees them after `request.json()`, together
    with the JavaScript `undefined` that reading a missing field yields. */
module JsValue {

  datatype Json =
    | Undefined
    | Null
    | Bool(b: bool)
    | Num(n: real)
    | Str(s: string)
    | Arr(items: seq<Json>)
    | Obj(fields: map<string, Json>)

  /** The falsy values listed by the language, written out one by one. */
  predicate IsFalsyLiteral(v: Json) {
    v == Undefined || v == Null || v == Bool(false) || v == Num(0.0) || v == Str("")
  }

  /** JavaScript's ToBoolean on a value that can come out of JSON.parse
      (JSON has no NaN, so a number is falsy exactly when it is zero). It
      agrees with the language's list of falsy values; in particular every
      array and every object, even an empty one, is truthy. */
  predicate Truthy(v: Json)
    ensures Truthy(v) <==> !IsFalsyLiteral(v)
    ensures v.Arr? || v.Obj? ==> Truthy(v)
  {
    match v
    case Undefined => false
    case Null => false
    case Bool(b) => b
    case Num(n) => n != 0.0
    case Str(s) => s != ""
    case Arr(_) => true
    case Obj(_) => true
  }

  /** Reading property `name` of a value, as destructuring does: an object
      yields its field or `undefined`; any other non-null value has none of
      the properties the worker reads. */
  function Property(v: Json, name: string): (r: Json)
    ensures !v.Obj? ==> r == Undefined
    ensures v.Obj? && name in v.fields ==> r == v.fields[name]
    ensures v.Obj? && name !in v.fields ==> r == Undefined
  {
    if v.Obj? && name in v.fields then v.fields[name] else Undefined
  }
}
