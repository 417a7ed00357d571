/**
 * src/utils/functions/coalesce.ts: `coalesce(x, y)` is `x ?? y`, which falls
 * back to `y` only when `x` is `null` or `undefined`.
 */
module Coalesce {

  /** A JavaScript value that may be `null` or `undefined`. */
  datatype Nullish<T> = Value(value: T) | Null | Undefined

  function Coalesce<T>(x: Nullish<T>, y: T): (r: T)
    ensures x.Value? ==> r == x.value
    ensures !x.Value? ==> r == y
  {
    match x
    case Value(v) => v
    case Null => y
    case Undefined => y
  }

  /**
   * Unlike `||`, `??` keeps falsy values: a present 0, `false` or empty
   * string is returned, not the fallback.
   */
  lemma FalsyKept(y: int, b: bool, s: string)
    ensures Coalesce(Value(0), y) == 0
    ensures Coalesce(Value(false), b) == false
    ensures Coalesce(Value(""), s) == ""
  {
  }

  /** The fallback is returned exactly when the value is missing (for a fallback that differs from every present value). */
  lemma FallbackIffMissing<T>(x: Nullish<T>, y: T)
    requires x.Value? ==> x.value != y
    ensures Coalesce(x, y) == y <==> (x == Null || x == Undefined)
  {
  }
}
