/** Values of a parsed JSON request body, as the Express handlers see them:
    a missing field reads as `undefined`, everything else is what JSON can carry.
    Only the JavaScript behaviour the invoice controller relies on is modelled:
    truthiness, `Array.isArray` with `length`, and `JSON.stringify`. */
module JsValue {

  datatype Value =
    | Undefined
    | Null
    | Bool(b: bool)
    | Num(n: real)
    | Str(s: string)
    | Arr(items: seq<Value>)
    | Obj(fields: map<string, Value>)

  /** JavaScript truthiness. JSON numbers are finite, so NaN never occurs here;
      `-0` and `0` are both the real 0.0. */
  predicate Truthy(v: Value) {
    match v
    case Undefined => false
    case Null => false
    case Bool(b) => b
    case Num(n) => n != 0.0
    case Str(s) => s != ""
    case Arr(_) => true
    case Obj(_) => true
  }

  /** `v || null`: a truthy value is kept, every falsy one becomes `null`. */
  function OrNull(v: Value): (r: Value)
    ensures Truthy(v) ==> r == v
    ensures !Truthy(v) ==> r == Null
    ensures r != Undefined
  {
    if Truthy(v) then v else Null
  }

  /** `Array.isArray(v) && v.length !== 0` */
  predicate IsNonEmptyArray(v: Value) {
    v.Arr? && |v.items| != 0
  }

  /** The text `JSON.stringify(value)` produces, kept abstract: the model never
      looks inside it, it only stores it in a column. */
  datatype JsonText = Stringified(value: Value)
}
