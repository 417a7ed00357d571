/**
 * src/composables/clampRef.ts: a reactive number whose setter clamps the
 * new value into [min, max] (`Math.max(min, Math.min(max, v))`). The
 * initial value is stored as given; the default bounds are the safe
 * integer range. Vue's dependency tracking (`track`, `trigger`) is left
 * out.
 */
module ClampRef {

  /** `Number.MAX_SAFE_INTEGER`. */
  const MAX_SAFE_INTEGER: real := 9007199254740991.0

  /** `Math.max(min, Math.min(max, v))`. */
  function Clamped(v: real, min: real, max: real): real {
    var upper := if max <= v then max else v;
    if min >= upper then min else upper
  }

  /** With `min <= max` the stored value lies in [min, max]. */
  lemma ClampedInRange(v: real, min: real, max: real)
    requires min <= max
    ensures min <= Clamped(v, min, max) <= max
  {
  }

  /** A value already in [min, max] is stored unchanged, and only such a value is. */
  lemma ClampedKeeps(v: real, min: real, max: real)
    requires min <= max
    ensures Clamped(v, min, max) == v <==> min <= v <= max
  {
  }

  /** With `min > max` every value is stored as `min`. */
  lemma ClampedInverted(v: real, min: real, max: real)
    requires min > max
    ensures Clamped(v, min, max) == min
  {
  }

  /** Setting twice is the same as setting the second value. */
  lemma ClampedIdempotent(v: real, min: real, max: real)
    ensures Clamped(Clamped(v, min, max), min, max) == Clamped(v, min, max)
  {
  }

  class ClampedNumber {
    var value: real
    const min: real
    const max: real

    /** `clampRef(value, { min, max })`: the initial value is not clamped. */
    constructor (value: real, min: real, max: real)
      ensures this.value == value && this.min == min && this.max == max
    {
      this.value := value;
      this.min := min;
      this.max := max;
    }

    /** `clampRef(value)` with the default bounds. */
    constructor WithSafeBounds(value: real)
      ensures this.value == value && min == -MAX_SAFE_INTEGER && max == MAX_SAFE_INTEGER
    {
      this.value := value;
      min := -MAX_SAFE_INTEGER;
      max := MAX_SAFE_INTEGER;
    }

    /** `get()`. */
    function Get(): (r: real)
      reads this
      ensures r == value
    {
      value
    }

    /** `set(newValue)`. */
    method Set(newValue: real)
      modifies this
      ensures value == Clamped(newValue, min, max)
      ensures min <= max ==> min <= value <= max
      ensures min <= newValue <= max ==> Get() == newValue
    {
      value := Clamped(newValue, min, max);
      if min <= max {
        ClampedInRange(newValue, min, max);
        ClampedKeeps(newValue, min, max);
      }
    }
  }
}
