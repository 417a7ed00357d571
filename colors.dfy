/**
 * src/resources/colors/RGB.ts: the same RGB colour as src/utils/classes/RGB.ts
 * (constructor check, `interpolate`, `toString`, modelled in `RGBColor`)
 * with one more operation, `multiply`, which scales each component, rounds
 * it and clamps it to [0, 255].
 */
module Colors {
  import opened RGBColor
  import opened JsNumbers

  /** `c * amount`. */
  function Scale(c: real, amount: real): real {
    c * amount
  }

  /** `multipliedValueOf(c)`: `clamp(Math.round(c * amount), 0, 255)`. */
  function MultipliedValue(c: real, amount: real): (v: int)
    ensures 0 <= v <= 255
  {
    ClampRound(Scale(c, amount))
  }

  /** `clamp(Math.round(p), 0, 255)`. */
  function ClampRound(p: real): (v: int)
    ensures 0 <= v <= 255
  {
    var n := Round(p);
    if n < 0 then 0 else if n > 255 then 255 else n
  }

  /** `multiply(amount)`; the development-build assertion `amount > 0` is the precondition. */
  function Multiply(c: RGB, amount: real): (m: RGB)
    requires amount > 0.0
    ensures Valid(m)
    ensures m.r == MultipliedValue(c.r, amount) as real
    ensures m.g == MultipliedValue(c.g, amount) as real
    ensures m.b == MultipliedValue(c.b, amount) as real
  {
    NewRGB(MultipliedValue(c.r, amount) as real, MultipliedValue(c.g, amount) as real, MultipliedValue(c.b, amount) as real)
  }

  /** A component scaled by `amount` is the integer nearest `c * amount`, or 0 or 255 when that lies outside. */
  lemma MultipliedValueIsNearest(c: real, amount: real)
    ensures var v, p := MultipliedValue(c, amount) as real, Scale(c, amount);
      (0.0 <= p < 255.0 ==> v - 0.5 <= p < v + 0.5) &&
      (p >= 255.0 ==> v == 255.0) &&
      (p < 0.0 ==> v == 0.0)
  {
  }

  /** `multiply(1)` leaves a colour with integer components unchanged. */
  lemma MultiplyByOne(c: RGB)
    requires Valid(c)
    requires c.r == c.r.Floor as real && c.g == c.g.Floor as real && c.b == c.b.Floor as real
    ensures Multiply(c, 1.0) == c
  {
    IntegerRounds(c.r.Floor);
    IntegerRounds(c.g.Floor);
    IntegerRounds(c.b.Floor);
  }

  lemma IntegerRounds(k: nat)
    requires k <= 255
    ensures MultipliedValue(k as real, 1.0) == k
  {
    assert Scale(k as real, 1.0) == k as real;
    ClampRoundBounds(k as real, k);
  }

  /** Rounding and clamping keep an integer bound in [0, 255] on either side. */
  lemma ClampRoundBounds(p: real, k: int)
    requires 0 <= k <= 255
    ensures p >= k as real ==> ClampRound(p) >= k
    ensures p <= k as real ==> ClampRound(p) <= k
  {
  }

  lemma ScaleDirection(c: real, amount: real)
    requires c >= 0.0 && amount > 0.0
    ensures amount >= 1.0 ==> Scale(c, amount) >= c
    ensures amount <= 1.0 ==> Scale(c, amount) <= c
  {
    if amount >= 1.0 {
      assert c * (amount - 1.0) >= 0.0;
    } else {
      assert c * (1.0 - amount) >= 0.0;
    }
  }

  /** Multiplying by at least 1 never darkens an integer component, and by at most 1 never brightens one. */
  lemma MultiplyDirection(k: nat, amount: real)
    requires k <= 255 && amount > 0.0
    ensures amount >= 1.0 ==> MultipliedValue(k as real, amount) >= k
    ensures amount <= 1.0 ==> MultipliedValue(k as real, amount) <= k
  {
    ScaleDirection(k as real, amount);
    ClampRoundBounds(Scale(k as real, amount), k);
  }

  /** `interpolate` at factor 0 gives the first colour and at factor 1 the second. */
  lemma InterpolateEnds(x: RGB, y: RGB)
    requires Valid(x) && Valid(y)
    ensures CanInterpolate(x, y, 0.0) && Interpolate(x, y, 0.0) == x
    ensures CanInterpolate(x, y, 1.0) && Interpolate(x, y, 1.0) == y
  {
  }

  /** A component that passes the constructor's check need not be an integer: 255.5 does. */
  lemma FractionalAccepted()
    ensures Valid(NewRGB(255.5, 0.0, 0.0)) && NewRGB(255.5, 0.0, 0.0).r == 255.5
  {
  }
}
