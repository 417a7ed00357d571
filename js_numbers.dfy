/**
 * JavaScript's `Number(value)` conversion as the beatmap parser applies it to
 * the fields of a text line (ECMA-262, section 7.1.4.1.1, StringToNumber):
 * surrounding white space is ignored, the empty string is 0, `undefined` and
 * anything that is not a decimal literal are NaN. Numbers are exact reals.
 */
module JsNumbers {
  import opened Wrappers

  /** A JavaScript number: a finite value or NaN. */
  datatype JsNumber = Finite(value: real) | NaN

  /**
   * The modelled subset of StrWhiteSpaceChar, the white space and line
   * terminators `Number` trims: the space separators U+1680, U+2000-U+200A,
   * U+202F, U+205F and U+3000 are not included.
   */
  predicate IsWhiteSpace(c: char) {
    c == ' ' || c == '\t' || c == '\U{000B}' || c == '\U{000C}' || c == '\U{00A0}' || c == '\U{FEFF}' ||
    c == '\r' || c == '\n' || c == '\U{2028}' || c == '\U{2029}'
  }

  predicate IsDigit(c: char) {
    '0' <= c <= '9'
  }

  function DigitValue(c: char): nat
    requires IsDigit(c)
  {
    (c as int) - ('0' as int)
  }

  /** The value of a run of decimal digits, most significant first. */
  function DigitsValue(s: string): nat
    requires AllDigits(s)
  {
    if s == [] then 0 else 10 * DigitsValue(s[..|s| - 1]) + DigitValue(s[|s| - 1])
  }

  function Pow10(k: nat): (r: nat)
    ensures r >= 1
  {
    if k == 0 then 1 else 10 * Pow10(k - 1)
  }

  /** `s` without its leading and trailing white space. */
  function Trim(s: string): (r: string)
    ensures r == [] || (!IsWhiteSpace(r[0]) && !IsWhiteSpace(r[|r| - 1]))
    decreases |s|
  {
    if s == [] then []
    else if IsWhiteSpace(s[0]) then Trim(s[1..])
    else if IsWhiteSpace(s[|s| - 1]) then Trim(s[..|s| - 1])
    else s
  }

  /** The index of the first `.` in `t`, or `|t|` when there is none. */
  function DotIndex(t: string): (k: nat)
    ensures k <= |t| && (k < |t| ==> t[k] == '.')
    ensures forall i :: 0 <= i < k ==> t[i] != '.'
  {
    if t == [] then 0 else if t[0] == '.' then 0 else 1 + DotIndex(t[1..])
  }

  predicate AllDigits(s: string) {
    forall i :: 0 <= i < |s| ==> IsDigit(s[i])
  }

  /** StrUnsignedDecimalLiteral without exponent: `digits`, `digits.digits`, `digits.` or `.digits`. */
  function Unsigned(t: string): JsNumber {
    var k := DotIndex(t);
    var whole := t[..k];
    var fraction := if k < |t| then t[k + 1..] else [];
    if (whole != [] || fraction != []) && AllDigits(whole) && AllDigits(fraction)
    then Finite(DigitsValue(whole) as real + DigitsValue(fraction) as real / Pow10(|fraction|) as real)
    else NaN
  }

  /** StringToNumber: trim, then the empty string, a signed or an unsigned decimal literal. */
  function StringToNumber(s: string): JsNumber {
    var t := Trim(s);
    if t == [] then Finite(0.0)
    else if t[0] == '-' then
      match Unsigned(t[1..])
      case Finite(v) => Finite(-v)
      case NaN => NaN
    else if t[0] == '+' then Unsigned(t[1..])
    else Unsigned(t)
  }

  /** `Number(value)` for a string or `undefined` (`None`). */
  function ToNumber(value: Option<string>): (r: JsNumber)
    ensures value.None? ==> r == NaN
  {
    match value
    case None => NaN
    case Some(s) => StringToNumber(s)
  }

  /** The decimal notation of a natural number, as `String(n)` writes it. */
  function NatToString(n: nat): (s: string)
    ensures s != [] && AllDigits(s)
  {
    if n < 10 then [('0' as int + n) as char]
    else NatToString(n / 10) + [('0' as int + n % 10) as char]
  }

  lemma {:induction false} NatToStringValue(n: nat)
    ensures DigitsValue(NatToString(n)) == n
  {
    if n >= 10 {
      var s := NatToString(n);
      assert s[..|s| - 1] == NatToString(n / 10);
      NatToStringValue(n / 10);
    }
  }

  /** `Number(String(n)) === n` for every natural number `n`. */
  lemma NatRoundTrip(n: nat)
    ensures StringToNumber(NatToString(n)) == Finite(n as real)
  {
    var s := NatToString(n);
    NatToStringValue(n);
    assert !IsWhiteSpace(s[0]) && !IsWhiteSpace(s[|s| - 1]);
    assert Trim(s) == s;
    UnsignedDigits(s);
  }

  /** A plain run of digits reads as its decimal value. */
  lemma UnsignedDigits(s: string)
    requires s != [] && AllDigits(s)
    ensures Unsigned(s) == Finite(DigitsValue(s) as real)
  {
    assert DotIndex(s) == |s|;
    assert s[..|s|] == s;
  }

  /** `Number("-" + String(n)) === -n`. */
  lemma NegativeRoundTrip(n: nat)
    ensures StringToNumber(['-'] + NatToString(n)) == Finite(-(n as real))
  {
    var d := NatToString(n);
    var s := ['-'] + d;
    NatToStringValue(n);
    assert s[1..] == d;
    assert !IsWhiteSpace(s[|s| - 1]) by { assert s[|s| - 1] == d[|d| - 1]; }
    assert Trim(s) == s;
    UnsignedDigits(d);
  }

  /** White space around a literal does not change its value. */
  lemma {:induction false} PaddingIgnored(s: string)
    ensures StringToNumber([' '] + s + [' ']) == StringToNumber(s)
  {
    var p := [' '] + s + [' '];
    assert p[1..] == s + [' '];
    if s + [' '] != [] {
      assert (s + [' '])[..|s + [' ']| - 1] == s;
    }
    TrimPadded(s);
  }

  lemma TrimPadded(s: string)
    ensures Trim([' '] + s + [' ']) == Trim(s)
  {
    var p := [' '] + s + [' '];
    assert p[1..] == s + [' '];
    TrimTrailingSpace(s);
  }

  lemma {:induction false} TrimTrailingSpace(s: string)
    ensures Trim(s + [' ']) == Trim(s)
    decreases |s|
  {
    var p := s + [' '];
    if s == [] {
    } else if IsWhiteSpace(s[0]) {
      assert p[1..] == s[1..] + [' '];
      TrimTrailingSpace(s[1..]);
    } else {
      assert p[..|p| - 1] == s;
    }
  }

  /** `Math.round(x)`: the nearest integer, halves rounded up. */
  function Round(x: real): (n: int)
    ensures n as real - 0.5 <= x < n as real + 0.5
  {
    (x + 0.5).Floor
  }
}
