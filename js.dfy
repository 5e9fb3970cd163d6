/** The part of JavaScript's value semantics the component relies on: truthiness. */
module Js {

  /**
   * A JavaScript value. Objects (plain objects, arrays, SDK results) are opaque
   * values of type T. Numbers are integers here, plus NaN.
   */
  datatype Value<T> =
    | Undefined
    | Null
    | Boolean(b: bool)
    | Number(n: int)
    | NaN
    | Str(s: string)
    | Object(obj: T)
  {
    /** ToBoolean: what `if (x)` and `x ? a : b` test. Every object, even `[]` or `{}`, is truthy. */
    predicate Truthy() {
      match this
      case Undefined => false
      case Null => false
      case Boolean(b) => b
      case Number(n) => n != 0
      case NaN => false
      case Str(s) => s != ""
      case Object(_) => true
    }
  }

  /** The falsy values, listed independently of Truthy. */
  ghost predicate IsFalsyValue<T>(v: Value<T>) {
    v == Undefined || v == Null || v == Boolean(false) || v == Number(0) || v == NaN || v == Str("")
  }

  /** Truthy agrees with JavaScript's fixed list of falsy values. */
  lemma TruthyIffNotFalsy<T>(v: Value<T>)
    ensures v.Truthy() <==> !IsFalsyValue(v)
  {
  }
}
