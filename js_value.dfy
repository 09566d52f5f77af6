/** The untyped values the frontend handles as `any`: what JSON.parse can
    produce, plus `undefined` for a missing property. */
module JsValue {
  import opened Common

  datatype Value =
    | Undefined
    | Null
    | Bool(b: bool)
    | Num(n: real)
    | Str(s: string)
    | Arr(items: seq<Value>)
    | Obj(fields: map<string, Value>)

  /** JavaScript truthiness (NaN is not a value of this model). */
  predicate Truthy(v: Value)
  {
    match v
    case Undefined => false
    case Null => false
    case Bool(b) => b
    case Num(n) => n != 0.0
    case Str(s) => s != ""
    case Arr(_) => true
    case Obj(_) => true
  }

  /** `a || b` */
  function Or(a: Value, b: Value): (r: Value)
    ensures Truthy(a) ==> r == a
    ensures !Truthy(a) ==> r == b
  {
    if Truthy(a) then a else b
  }

  /** `v.key`: None when JavaScript throws a TypeError (v is null or undefined);
      a missing key, or a key on a primitive, reads as undefined. */
  function Get(v: Value, key: string): (r: Option<Value>)
    ensures r.None? <==> v.Null? || v.Undefined?
    ensures v.Obj? && key in v.fields ==> r == Some(v.fields[key])
    ensures v.Obj? && key !in v.fields ==> r == Some(Undefined)
  {
    match v
    case Undefined => None
    case Null => None
    case Obj(fields) => if key in fields then Some(fields[key]) else Some(Undefined)
    case _ => Some(Undefined)
  }

  /** `v?.key`: optional chaining never throws. */
  function OptGet(v: Value, key: string): (r: Value)
    ensures v.Null? || v.Undefined? ==> r == Undefined
    ensures Get(v, key).Some? ==> r == Get(v, key).value
  {
    match Get(v, key)
    case None => Undefined
    case Some(x) => x
  }

  /** A string field that may be null. */
  function StrOrNull(s: Option<string>): Value
  {
    match s
    case None => Null
    case Some(x) => Str(x)
  }
}
