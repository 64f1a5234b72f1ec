/** The usual optional value. */
module Wrappers {

  datatype Option<+T> = None | Some(value: T)
}

/** Values a client can put in a JSON payload property, as the handlers see them. */
module Js {
  import opened Wrappers

  /** `Undefined` is an absent property; `Obj` is any object that is not an array.
      Numbers are reals: NaN and the infinities are not modelled. */
  datatype JsValue =
    | Undefined
    | Null
    | Bool(b: bool)
    | Num(n: real)
    | Str(s: string)
    | Arr(elems: seq<JsValue>)
    | Obj

  /** The JS value of a property that holds either a string or `undefined`. */
  function FromOption(o: Option<string>): (v: JsValue)
    ensures v.Str? <==> o.Some?
    ensures o.Some? ==> v.s == o.value
    ensures o.None? ==> v == Undefined
  {
    match o
    case Some(s) => Str(s)
    case None => Undefined
  }

  /** JS truthiness of a property that holds an optional string: `undefined`, `null`,
      `false` and `""` are falsy. */
  predicate Truthy(o: Option<string>) {
    o.Some? && o.value != ""
  }
}
