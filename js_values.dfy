/** The JavaScript values the layer inspects, and the runtime error it can raise. */
module JsValues {

  datatype Option<T> = None | Some(value: T)

  /** A `TypeError`: a property read on `null`, or a DOM call on a missing element. */
  datatype JsError = TypeError

  datatype Result<T> = Success(value: T) | Failure(error: JsError)

  /** A JavaScript value. Numbers are reals (NaN is not modelled); `Obj` covers
      plain objects and arrays by their enumerable properties. */
  datatype Js =
    | Undefined
    | Null
    | Bool(b: bool)
    | Num(r: real)
    | Str(s: string)
    | Obj(props: map<string, Js>)
    | Func

  /** `typeof v === 'object'`, which holds for objects, arrays and `null`. */
  predicate IsObject(v: Js) {
    v.Obj? || v.Null?
  }

  /** JavaScript's ToBoolean: what `v || w` and `if (v)` test. */
  predicate Truthy(v: Js) {
    match v
    case Undefined => false
    case Null => false
    case Bool(b) => b
    case Num(r) => r != 0.0
    case Str(s) => s != ""
    case Obj(_) => true
    case Func => true
  }

  /** Reading `o[key]` on an options object: a missing property reads as `undefined`. */
  function Lookup(o: map<string, Js>, key: string): Js {
    if key in o then o[key] else Undefined
  }

  /** The properties a `for (k in v)` loop copies out of an options argument. */
  function OwnProps(v: Js): map<string, Js> {
    if v.Obj? then v.props else map[]
  }

  /** The comparison `v < 1` after JavaScript's ToNumber: `null` and `false` are 0,
      `true` is 1; `undefined`, objects and functions become NaN, which compares false. */
  predicate LessThanOne(v: Js) {
    match v
    case Num(r) => r < 1.0
    case Null => true
    case Bool(b) => !b
    case _ => false
  }
}
