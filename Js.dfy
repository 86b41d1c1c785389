/** Values of a parsed JSON request body, as the Express handlers see them. */
module JsValues {

  /** A property of a body object: absent (`undefined`), `null`, or a value of type T. */
  datatype JsVal<T> = Undefined | Null | Val(v: T)

  datatype Option<T> = None | Some(value: T)

  /** `!!x` for a string-typed property: `undefined`, `null` and `''` are falsy. */
  predicate TruthyStr(x: JsVal<string>)
  {
    x.Val? && x.v != ""
  }

  /** `!!x` for a number-typed property: `undefined`, `null` and `0` are falsy. */
  predicate TruthyNum(x: JsVal<int>)
  {
    x.Val? && x.v != 0
  }

  /** `!!x` for an array- or object-typed property: every array and object is truthy, `[]` included. */
  predicate TruthyObj<T>(x: JsVal<T>)
  {
    x.Val?
  }

  /** `x || d` for a string-typed property. */
  function OrStr(x: JsVal<string>, d: string): string
  {
    if TruthyStr(x) then x.v else d
  }

  /** `x || []` for an array-typed property. */
  function OrEmpty<T>(x: JsVal<seq<T>>): seq<T>
  {
    if x.Val? then x.v else []
  }

  /** `x || null` for a string-typed property: a falsy value becomes `null`. */
  function OrNull(x: JsVal<string>): JsVal<string>
  {
    if TruthyStr(x) then x else Null
  }
}
