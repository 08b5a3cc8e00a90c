/**
 * JavaScript numbers as far as the modelled comparisons need them: `NaN`,
 * the two infinities and finite values, with `Number(...)` on a string and
 * on a parsed value, subtraction, and the sign a comparator result has for
 * `Array.prototype.sort`. Finite values are exact reals: rounding to the
 * nearest double is not modelled.
 */
module JsNumbers {
  import opened Wrappers
  import Text
  import opened Json

  datatype JsNumber = NaN | Finite(x: real) | Infinity(positive: bool)

  /** The order of the extended reals; `NaN` is below, above and equal to
      nothing. */
  predicate Below(a: JsNumber, b: JsNumber) {
    match (a, b)
    case (Finite(x), Finite(y)) => x < y
    case (Infinity(p), Finite(_)) => !p
    case (Finite(_), Infinity(q)) => q
    case (Infinity(p), Infinity(q)) => !p && q
    case _ => false
  }

  /** `a - b`: `NaN` is absorbing, and the difference of two equal
      infinities is `NaN`. */
  function Sub(a: JsNumber, b: JsNumber): JsNumber {
    match (a, b)
    case (NaN, _) => NaN
    case (_, NaN) => NaN
    case (Infinity(p), Infinity(q)) => if p == q then NaN else Infinity(p)
    case (Infinity(p), Finite(_)) => Infinity(p)
    case (Finite(_), Infinity(q)) => Infinity(!q)
    case (Finite(x), Finite(y)) => Finite(x - y)
  }

  /** How `sort` reads a comparator result: its sign, with `NaN` read as 0. */
  function Sign(n: JsNumber): (r: int)
    ensures -1 <= r <= 1
  {
    match n
    case NaN => 0
    case Infinity(p) => if p then 1 else -1
    case Finite(x) => if x < 0.0 then -1 else if x > 0.0 then 1 else 0
  }

  /** The sign of a difference is the order of the two numbers, except that
      a `NaN` operand, or two equal infinities, give 0. */
  lemma SubSign(a: JsNumber, b: JsNumber)
    ensures Sign(Sub(a, b)) < 0 <==> Below(a, b)
    ensures Sign(Sub(a, b)) > 0 <==> Below(b, a)
    ensures a.NaN? || b.NaN? ==> Sign(Sub(a, b)) == 0
  {
  }

  lemma BelowTransitive(a: JsNumber, b: JsNumber, c: JsNumber)
    requires !Below(b, a) && !Below(c, b)
    requires !a.NaN? && !b.NaN? && !c.NaN?
    ensures !Below(c, a)
  {
  }

  // ------------------------------------------------------ Number(string)

  /** The value of a digit in bases up to 36, or 36 for any other character. */
  function DigitOf(c: char): (d: nat)
    ensures d <= 36
  {
    if '0' <= c <= '9' then c as int - '0' as int
    else if 'a' <= c <= 'z' then c as int - 'a' as int + 10
    else if 'A' <= c <= 'Z' then c as int - 'A' as int + 10
    else 36
  }

  predicate AllDigits(s: string, base: nat) {
    forall i :: 0 <= i < |s| ==> DigitOf(s[i]) < base
  }

  function RadixValue(s: string, base: nat): nat
    requires AllDigits(s, base)
  {
    if s == [] then 0 else RadixValue(s[..|s| - 1], base) * base + DigitOf(s[|s| - 1])
  }

  function Pow10(e: int): (r: real)
    ensures r > 0.0
    decreases if e < 0 then -e else e
  {
    if e == 0 then 1.0 else if e > 0 then 10.0 * Pow10(e - 1) else Pow10(e + 1) / 10.0
  }

  /** The index of the first character of `s` that is in `cs`, or `|s|`. */
  function FirstOf(s: string, cs: string): (i: nat)
    ensures i <= |s|
    ensures forall k :: 0 <= k < i ==> s[k] !in cs
    ensures i < |s| ==> s[i] in cs
  {
    if s == [] || s[0] in cs then 0 else 1 + FirstOf(s[1..], cs)
  }

  /** The digits after `0x`, `0o` or `0b`: at least one, all of the base. */
  function RadixNumber(digits: string, base: nat): JsNumber {
    if digits != [] && AllDigits(digits, base) then Finite(RadixValue(digits, base) as real) else NaN
  }

  /** An exponent part: an optional sign and at least one decimal digit. */
  function Exponent(e: string): Option<int> {
    var signed := e != [] && e[0] in "+-";
    var digits := if signed then e[1..] else e;
    if digits != [] && AllDigits(digits, 10) then
      Some(if signed && e[0] == '-' then -(RadixValue(digits, 10) as int) else RadixValue(digits, 10))
    else None
  }

  /** An unsigned decimal literal: `Infinity`, or digits with an optional
      fraction (one side of the point may be empty, not both) and an
      optional exponent. */
  function UnsignedDecimal(u: string): JsNumber {
    if u == "Infinity" then Infinity(true)
    else
      var k := FirstOf(u, "eE");
      var mantissa := u[..k];
      var exponent := if k < |u| then Exponent(u[k + 1..]) else Some(0);
      var d := FirstOf(mantissa, ".");
      var whole, fraction := mantissa[..d], if d < |mantissa| then mantissa[d + 1..] else "";
      if exponent.Some? && |whole| + |fraction| > 0 && AllDigits(whole, 10) && AllDigits(fraction, 10) then
        Finite(RadixValue(whole + fraction, 10) as real * Pow10(exponent.value - |fraction|))
      else NaN
  }

  function Negate(n: JsNumber): JsNumber {
    match n
    case NaN => NaN
    case Finite(x) => Finite(-x)
    case Infinity(p) => Infinity(!p)
  }

  /** `Number(s)`: white space around the literal is ignored, an empty
      literal is 0, `0x`, `0o` and `0b` introduce unsigned integers in base
      16, 8 and 2, and a decimal literal may carry a sign. Anything else is
      `NaN`. */
  function StringToNumber(s: string): (r: JsNumber)
    ensures Text.Trim(s) == "" ==> r == Finite(0.0)
  {
    LiteralNumber(Text.Trim(s))
  }

  /** The value of a literal with no white space around it. */
  function LiteralNumber(t: string): JsNumber {
    if t == "" then Finite(0.0)
    else if |t| >= 2 && t[0] == '0' && t[1] in "xX" then RadixNumber(t[2..], 16)
    else if |t| >= 2 && t[0] == '0' && t[1] in "oO" then RadixNumber(t[2..], 8)
    else if |t| >= 2 && t[0] == '0' && t[1] in "bB" then RadixNumber(t[2..], 2)
    else if t[0] == '-' then Negate(UnsignedDecimal(t[1..]))
    else if t[0] == '+' then UnsignedDecimal(t[1..])
    else UnsignedDecimal(t)
  }

  /** `Number(v)` for a parsed value: `null` is 0, booleans are 1 and 0, and
      objects are `NaN` (they print as `[object Object]`). An array prints
      as its elements joined with commas, a missing or `null` element as
      nothing, so only an empty array (0) or a one-element array can give a
      number. */
  function ValueToNumber(v: Value): (r: JsNumber)
    ensures v.Num? ==> r == Finite(v.n)
    ensures v.Obj? || v.Undefined? ==> r.NaN?
  {
    match v
    case Undefined => NaN
    case Null => Finite(0.0)
    case Bool(b) => Finite(if b then 1.0 else 0.0)
    case Num(n) => Finite(n)
    case Str(s) => StringToNumber(s)
    case Arr(items) =>
      if items == [] then Finite(0.0)
      else if |items| > 1 then NaN
      else
        var e := items[0];
        if IsNullish(e) then Finite(0.0) else if e.Bool? then NaN else ValueToNumber(e)
    case Obj(_) => NaN
  }

  // ---------------------------------------------------------- properties

  /** A string with no white space at either end is its own trim. */
  lemma TrimmedAlready(s: string)
    requires s != [] ==> !Text.IsSpace(s[0]) && !Text.IsSpace(s[|s| - 1])
    ensures Text.Trim(s) == s
  {
    assert Text.TrimStart(s) == s;
    assert Text.TrimEnd(s) == s;
  }

  /** Decimal digits read in base 10 are their value as `Text` reads them. */
  lemma {:induction false} DecimalDigits(s: string)
    requires forall i :: 0 <= i < |s| ==> Text.IsDigit(s[i])
    ensures AllDigits(s, 10)
    ensures RadixValue(s, 10) == Text.DigitsValue(s)
  {
    if s != [] {
      var init := s[..|s| - 1];
      DecimalDigits(init);
    }
  }

  lemma {:induction false} FirstOfAbsent(s: string, cs: string)
    requires forall k :: 0 <= k < |s| ==> s[k] !in cs
    ensures FirstOf(s, cs) == |s|
  {
    if s != [] {
      var tail := s[1..];
      assert forall k :: 0 <= k < |tail| ==> tail[k] == s[k + 1];
      FirstOfAbsent(tail, cs);
    }
  }

  /** A string of decimal digits reads as their value. */
  lemma DigitsNumber(u: string)
    requires u != [] && forall i :: 0 <= i < |u| ==> Text.IsDigit(u[i])
    ensures UnsignedDecimal(u) == Finite(Text.DigitsValue(u) as real)
  {
    DecimalDigits(u);
    assert u != "Infinity" by { assert Text.IsDigit(u[0]); }
    FirstOfAbsent(u, "eE");
    var mantissa := u[..|u|];
    assert mantissa == u;
    FirstOfAbsent(u, ".");
    assert u + "" == u;
  }

  /** Reading back a rendered natural number gives the number. */
  lemma NatRoundTrip(n: nat)
    ensures StringToNumber(Text.NatToString(n)) == Finite(n as real)
  {
    var t := Text.NatToString(n);
    assert Text.IsDigit(t[0]) && Text.IsDigit(t[|t| - 1]);
    TrimmedAlready(t);
    DigitsNumber(t);
    Text.NatToStringRoundTrip(n);
  }

  /** A minus sign in front negates. */
  lemma NegativeRoundTrip(n: nat)
    ensures StringToNumber("-" + Text.NatToString(n)) == Finite(-(n as real))
  {
    var u := Text.NatToString(n);
    var t := "-" + u;
    assert t[1..] == u;
    assert Text.IsDigit(t[|t| - 1]);
    TrimmedAlready(t);
    DigitsNumber(u);
    Text.NatToStringRoundTrip(n);
  }

  /** White space around a literal does not change its value. */
  lemma TrimDoesNotMatter(s: string)
    ensures StringToNumber(Text.Trim(s)) == StringToNumber(s)
  {
    Text.TrimIdempotent(s);
  }
}
