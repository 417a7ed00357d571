/**
 * src/utils/classes/RGB.ts: an RGB colour whose three components the
 * constructor checks to lie in [0, 256) (lodash `inRange(c, 0, 255 + 1)`;
 * fractional components pass), linear interpolation between two colours and
 * the CSS `rgb(r, g, b)` text. The constructor's check is a
 * development-build assertion and is the precondition of `NewRGB`. The
 * fields are never reassigned, so a colour is a value.
 */
module RGBColor {

  datatype RGB = RGB(r: real, g: real, b: real)

  /** `inRange(c, 0, 255 + 1)`. */
  predicate InComponentRange(c: real) {
    0.0 <= c < 256.0
  }

  predicate Valid(c: RGB) {
    InComponentRange(c.r) && InComponentRange(c.g) && InComponentRange(c.b)
  }

  /** `new RGB(r, g, b)`: the fields hold exactly the arguments. */
  function NewRGB(r: real, g: real, b: real): (c: RGB)
    requires InComponentRange(r) && InComponentRange(g) && InComponentRange(b)
    ensures Valid(c) && c.r == r && c.g == g && c.b == b
  {
    RGB(r, g, b)
  }

  /** `interpolateValue(a, b, factor)`. */
  function InterpolateValue(a: real, b: real, factor: real): real {
    a * (1.0 - factor) + b * factor
  }

  /** For a factor in [0, 1] the interpolated value lies between the two ends. */
  lemma InterpolateBetween(a: real, b: real, factor: real)
    requires 0.0 <= factor <= 1.0
    ensures a <= b ==> a <= InterpolateValue(a, b, factor) <= b
    ensures b <= a ==> b <= InterpolateValue(a, b, factor) <= a
  {
    var f := 1.0 - factor;
    NonNegativeProduct(b - a, factor);
    NonNegativeProduct(a - b, factor);
    NonNegativeProduct(b - a, f);
    NonNegativeProduct(a - b, f);
    assert InterpolateValue(a, b, factor) == a + (b - a) * factor;
    assert InterpolateValue(a, b, factor) == b - (b - a) * f;
  }

  lemma NonNegativeProduct(x: real, y: real)
    ensures x >= 0.0 && y >= 0.0 ==> x * y >= 0.0
  {
  }

  /** The three interpolated components would pass the constructor's check. */
  predicate CanInterpolate(x: RGB, y: RGB, factor: real) {
    InComponentRange(InterpolateValue(x.r, y.r, factor)) &&
    InComponentRange(InterpolateValue(x.g, y.g, factor)) &&
    InComponentRange(InterpolateValue(x.b, y.b, factor))
  }

  /** `RGB.interpolate(x, y, factor)`. */
  function Interpolate(x: RGB, y: RGB, factor: real): (c: RGB)
    requires CanInterpolate(x, y, factor)
    ensures Valid(c)
  {
    NewRGB(InterpolateValue(x.r, y.r, factor), InterpolateValue(x.g, y.g, factor), InterpolateValue(x.b, y.b, factor))
  }

  /** Between two valid colours, every factor in [0, 1] passes the constructor's check. */
  lemma InterpolateInRange(x: RGB, y: RGB, factor: real)
    requires Valid(x) && Valid(y) && 0.0 <= factor <= 1.0
    ensures CanInterpolate(x, y, factor)
  {
    InterpolateBetween(x.r, y.r, factor);
    InterpolateBetween(x.g, y.g, factor);
    InterpolateBetween(x.b, y.b, factor);
  }

  /** Outside [0, 1] the check can fail: black and white at factor 2 give components of 510. */
  lemma ExtrapolationFails()
    ensures !CanInterpolate(RGB(0.0, 0.0, 0.0), RGB(255.0, 255.0, 255.0), 2.0)
  {
  }

  /** `toString()`, with JavaScript's number-to-string conversion given as `fmt`. */
  function ToString(c: RGB, fmt: real -> string): string {
    "rgb(" + fmt(c.r) + ", " + fmt(c.g) + ", " + fmt(c.b) + ")"
  }

  /**
   * The text is `rgb(`, the red text, `, `, the green text, `, `, the blue
   * text and `)`, each at its own offset.
   */
  lemma {:induction false} ToStringLayout(c: RGB, fmt: real -> string)
    ensures var s := ToString(c, fmt); var r, g, b := fmt(c.r), fmt(c.g), fmt(c.b);
      var gAt, bAt := 4 + |r| + 2, 4 + |r| + 2 + |g| + 2;
      |s| == bAt + |b| + 1 &&
      s[..4] == "rgb(" && s[4..4 + |r|] == r && s[4 + |r|..gAt] == ", " &&
      s[gAt..gAt + |g|] == g && s[gAt + |g|..bAt] == ", " &&
      s[bAt..bAt + |b|] == b && s[bAt + |b|..] == ")"
  {
    var r, g, b := fmt(c.r), fmt(c.g), fmt(c.b);
    var s := ToString(c, fmt);
    var gAt, bAt := 4 + |r| + 2, 4 + |r| + 2 + |g| + 2;
    var head := "rgb(" + r + ", ";
    var tail := g + ", " + b + ")";
    assert s == head + tail;
    assert |head| == gAt;
    assert s[..gAt] == head;
    assert s[gAt..] == tail;
    assert head[..4] == "rgb(" && head[4..4 + |r|] == r && head[4 + |r|..] == ", ";
    assert tail[..|g|] == g && tail[|g|..|g| + 2] == ", " && tail[|g| + 2..|g| + 2 + |b|] == b && tail[|g| + 2 + |b|..] == ")";
  }
}
