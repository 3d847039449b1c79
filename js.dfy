/** JavaScript values as the three core files see them: two distinct absent
    values (null and undefined), truthiness, and the plain objects that
    serialisers return. */
module Js {

  /** A slot that JavaScript may leave null, leave undefined, or fill. */
  datatype JsOpt<+T> = Null | Undefined | Val(v: T) {

    /** `TypeUtil.isNone`: the slot holds null or undefined. */
    predicate IsNone() { !Val? }
  }

  /** A JavaScript value, as far as the modelled code builds or inspects one. */
  datatype JsValue =
    | JsUndefined
    | JsNull
    | JsBool(b: bool)
    | JsString(s: string)
    | JsObject(fields: map<string, JsValue>)

  datatype Option<+T> = None | Some(value: T)

  datatype Result<+T, +E> = Success(value: T) | Failure(error: E)

  /** JavaScript truthiness of an optional string: null, undefined and "" are falsy. */
  predicate TruthyString(x: JsOpt<string>) {
    x.Val? && x.v != ""
  }

  /** The JavaScript value held by an optional string slot. */
  function StringValue(x: JsOpt<string>): (r: JsValue)
    ensures x.Null? <==> r == JsNull
    ensures x.Undefined? <==> r == JsUndefined
    ensures x.Val? ==> r == JsString(x.v)
    ensures r.JsString? ==> x.Val?
  {
    match x
    case Null => JsNull
    case Undefined => JsUndefined
    case Val(s) => JsString(s)
  }

  /** The JavaScript value held by an optional boolean slot. */
  function BoolValue(x: JsOpt<bool>): (r: JsValue)
    ensures x.Null? <==> r == JsNull
    ensures x.Undefined? <==> r == JsUndefined
    ensures x.Val? ==> r == JsBool(x.v)
    ensures r.JsBool? ==> x.Val?
  {
    match x
    case Null => JsNull
    case Undefined => JsUndefined
    case Val(b) => JsBool(b)
  }
}
