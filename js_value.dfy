/** JavaScript values as the request handler sees them once a body has been
    parsed from JSON, together with the two language rules the handler relies
    on: truthiness (the `if (x)` and `!x` tests) and reading a property, which
    throws a TypeError when the receiver is null or undefined. */
module JsValue {

  datatype Option<+T> = None | Some(value: T)

  /** A JSON value, plus `undefined`, which is what reading a missing
      property yields. Numbers are finite reals: JSON cannot spell NaN. */
  datatype Value =
    | Undefined
    | Null
    | Bool(b: bool)
    | Num(n: real)
    | Str(s: string)
    | Arr(items: seq<Value>)
    | Obj(fields: map<string, Value>)

  /** ToBoolean: undefined, null, false, 0 (and -0) and "" are falsy;
      every other value, every array and every object included, is truthy. */
  predicate Truthy(v: Value) {
    match v
    case Undefined => false
    case Null => false
    case Bool(b) => b
    case Num(n) => n != 0.0
    case Str(s) => s != ""
    case Arr(_) => true
    case Obj(_) => true
  }

  /** Null and undefined are the values whose properties cannot be read. */
  predicate Nullish(v: Value) {
    v.Undefined? || v.Null?
  }

  /** `v.key` (and `const { key } = v`) for a key that is an object's own
      data property or absent: None when the read throws a TypeError (the
      receiver is null or undefined), the field's value when the receiver is
      an object holding the key, and undefined otherwise. */
  function Get(v: Value, key: string): (r: Option<Value>)
    ensures r.None? <==> Nullish(v)
    ensures v.Obj? && key in v.fields ==> r == Some(v.fields[key])
    ensures r.Some? && !(v.Obj? && key in v.fields) ==> r.value == Undefined
  {
    match v
    case Undefined => None
    case Null => None
    case Obj(fields) => Some(if key in fields then fields[key] else Undefined)
    case _ => Some(Undefined)
  }
}
