/**
 * src/utils/functions/toArray.ts: `toArray(v)` returns `v` itself when it is
 * an array and the one-element array `[v]` otherwise.
 */
module Arrays {

  /** `MaybeArray<T>`: one value or an array of them. */
  datatype MaybeArray<T> = Single(item: T) | Many(items: seq<T>)

  function ToArray<T>(v: MaybeArray<T>): (r: seq<T>)
    ensures v.Many? ==> r == v.items
    ensures v.Single? ==> |r| == 1 && r[0] == v.item
  {
    match v
    case Single(x) => [x]
    case Many(xs) => xs
  }

  /** An array passed through `toArray` again comes back unchanged. */
  lemma ToArrayIdempotent<T>(v: MaybeArray<T>)
    ensures ToArray(Many(ToArray(v))) == ToArray(v)
  {
  }

  /** Every value the argument holds is in the result, and nothing else. */
  lemma ToArrayElements<T>(v: MaybeArray<T>, x: T)
    ensures x in ToArray(v) <==> (v.Single? && x == v.item) || (v.Many? && x in v.items)
  {
  }
}
