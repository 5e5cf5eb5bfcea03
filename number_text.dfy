/**
 * Text-level number handling used by the scraper: the cell filter
 * `/^\d+(\.\d+)?$/` of the detail-page scan and JavaScript's `parseFloat`
 * as applied to absence percentages and credits.
 */
module NumberText {
  import opened Wrappers

  predicate IsDigit(c: char) { '0' <= c <= '9' }

  function DigitValue(c: char): (d: nat)
    requires IsDigit(c)
    ensures d < 10
  {
    c as int - '0' as int
  }

  predicate AllDigits(s: string) {
    forall k :: 0 <= k < |s| ==> IsDigit(s[k])
  }

  /** The end of the longest run of digits in `s` that starts at `i`. */
  function DigitRunEnd(s: string, i: nat): (j: nat)
    requires i <= |s|
    ensures i <= j <= |s|
    ensures forall k :: i <= k < j ==> IsDigit(s[k])
    ensures j < |s| ==> !IsDigit(s[j])
    decreases |s| - i
  {
    if i < |s| && IsDigit(s[i]) then DigitRunEnd(s, i + 1) else i
  }

  /**
   * The regular expression `^\d+(\.\d+)?$` stated as a language: one or more
   * digits, optionally followed by a point and one or more digits.
   */
  ghost predicate InDecimalLanguage(s: string) {
    (|s| > 0 && AllDigits(s))
    || exists k :: 0 < k < |s| - 1 && s[k] == '.' && AllDigits(s[..k]) && AllDigits(s[k + 1..])
  }

  /** The test `/^\d+(\.\d+)?$/.test(s)`, written as a left-to-right scan. */
  predicate IsPlainDecimal(s: string) {
    var j := DigitRunEnd(s, 0);
    0 < j && (j == |s| || (s[j] == '.' && j + 1 < DigitRunEnd(s, j + 1) == |s|))
  }

  /** A run of digits that starts at `i` and reaches `j` is the longest one. */
  lemma DigitRunEndAt(s: string, i: nat, j: nat)
    requires i <= j <= |s|
    requires forall k :: i <= k < j ==> IsDigit(s[k])
    requires j == |s| || !IsDigit(s[j])
    ensures DigitRunEnd(s, i) == j
  {
  }

  /** The scanning test accepts exactly the language of the regular expression. */
  lemma PlainDecimalMatchesPattern(s: string)
    ensures IsPlainDecimal(s) <==> InDecimalLanguage(s)
  {
    var j := DigitRunEnd(s, 0);
    if IsPlainDecimal(s) {
      if j == |s| {
        assert AllDigits(s);
      } else {
        assert AllDigits(s[..j]);
        assert AllDigits(s[j + 1..]);
      }
    }
    if InDecimalLanguage(s) {
      if |s| > 0 && AllDigits(s) {
        DigitRunEndAt(s, 0, |s|);
      } else {
        var k :| 0 < k < |s| - 1 && s[k] == '.' && AllDigits(s[..k]) && AllDigits(s[k + 1..]);
        assert forall m :: 0 <= m < k ==> IsDigit(s[m]) by {
          forall m | 0 <= m < k ensures IsDigit(s[m]) { assert s[..k][m] == s[m]; }
        }
        DigitRunEndAt(s, 0, k);
        assert forall m :: k + 1 <= m < |s| ==> IsDigit(s[m]) by {
          forall m | k + 1 <= m < |s| ensures IsDigit(s[m]) { assert s[k + 1..][m - k - 1] == s[m]; }
        }
        DigitRunEndAt(s, k + 1, |s|);
      }
    }
  }

  /** The integer a string of decimal digits denotes. */
  function DigitsValue(d: string): (v: nat)
    requires AllDigits(d)
  {
    if d == [] then 0 else DigitsValue(d[..|d| - 1]) * 10 + DigitValue(d[|d| - 1])
  }

  /** The value of the digits after a decimal point: "25" denotes 0.25. */
  function FractionValue(d: string): (v: real)
    requires AllDigits(d)
    ensures 0.0 <= v < 1.0
  {
    if d == [] then 0.0 else (DigitValue(d[0]) as real + FractionValue(d[1..])) / 10.0
  }

  function Pow10(e: nat): (p: nat)
    ensures p >= 1
  {
    if e == 0 then 1 else 10 * Pow10(e - 1)
  }

  /** Ten to a possibly negative power. */
  function Scale(e: int): (p: real)
    ensures p > 0.0
  {
    if e >= 0 then Pow10(e) as real else 1.0 / Pow10(-e) as real
  }

  /** The end of an optional `+` or `-` sign at position `i`. */
  function SignEnd(s: string, i: nat): (j: nat)
    requires i <= |s|
    ensures j == i || (j == i + 1 && i < |s| && (s[i] == '+' || s[i] == '-'))
  {
    if i < |s| && (s[i] == '+' || s[i] == '-') then i + 1 else i
  }

  /**
   * The exponent part that `parseFloat` reads at position `i`: `e` or `E`,
   * an optional sign and at least one digit; without digits it reads none.
   */
  function ExponentAt(s: string, i: nat): (e: int)
    requires i <= |s|
  {
    if i < |s| && (s[i] == 'e' || s[i] == 'E') then
      var digitsStart := SignEnd(s, i + 1);
      var digitsEnd := DigitRunEnd(s, digitsStart);
      if digitsEnd == digitsStart then 0
      else if s[i + 1] == '-' then -(DigitsValue(s[digitsStart..digitsEnd]) as int)
      else DigitsValue(s[digitsStart..digitsEnd])
    else 0
  }

  /**
   * JavaScript's `parseFloat` on text without leading white space: the longest
   * prefix that is a decimal literal (sign, digits, optional point and
   * fraction, optional exponent) gives the number; `None` stands for `NaN`,
   * returned when, after an optional sign, the text does not go on with a
   * digit or with a point followed by a digit.
   */
  function ParseFloat(s: string): (r: Option<real>)
    ensures var i := SignEnd(s, 0);
      r.Some? <==> (i < |s| && IsDigit(s[i])) || (i + 1 < |s| && s[i] == '.' && IsDigit(s[i + 1]))
  {
    var intStart := SignEnd(s, 0);
    var intEnd := DigitRunEnd(s, intStart);
    var fracEnd := FractionEnd(s, intEnd);
    if intEnd == intStart && fracEnd <= intEnd + 1 then None
    else Some(Signed(s[..intStart], Magnitude(s[intStart..intEnd], s[intEnd..fracEnd]) * Scale(ExponentAt(s, fracEnd))))
  }

  /** The end of an optional point and the digits after it, at position `i`. */
  function FractionEnd(s: string, i: nat): (j: nat)
    requires i <= |s|
    ensures i <= j <= |s|
    ensures j == i || (s[i] == '.' && AllDigits(s[i + 1..j]))
  {
    if i < |s| && s[i] == '.' then DigitRunEnd(s, i + 1) else i
  }

  /** The value of the integer digits and of an optional point followed by fraction digits. */
  function Magnitude(whole: string, pointAndFraction: string): (v: real)
    requires AllDigits(whole)
    requires pointAndFraction == [] || (pointAndFraction[0] == '.' && AllDigits(pointAndFraction[1..]))
    ensures v >= 0.0
  {
    DigitsValue(whole) as real + if pointAndFraction == [] then 0.0 else FractionValue(pointAndFraction[1..])
  }

  /** A value with the leading sign applied. */
  function Signed(sign: string, v: real): (r: real) {
    if sign == "-" then -v else v
  }

  /** A cell the scan accepts is read by `parseFloat` in full, as a non-negative number. */
  lemma PlainDecimalParses(s: string)
    requires IsPlainDecimal(s)
    ensures ParseFloat(s).Some? && ParseFloat(s).value >= 0.0
  {
    assert SignEnd(s, 0) == 0;
  }

  /** A run of digits is read by `parseFloat` as the integer it denotes. */
  lemma ParseFloatOfDigits(a: string)
    requires |a| > 0 && AllDigits(a)
    ensures ParseFloat(a) == Some(DigitsValue(a) as real)
  {
    assert SignEnd(a, 0) == 0;
    DigitRunEndAt(a, 0, |a|);
    assert a[0..|a|] == a;
    assert ExponentAt(a, |a|) == 0;
  }

  /** Digits, a point and digits are read by `parseFloat` as the decimal number they denote. */
  lemma ParseFloatOfDecimal(a: string, b: string)
    requires |a| > 0 && AllDigits(a) && |b| > 0 && AllDigits(b)
    ensures ParseFloat(a + "." + b) == Some(DigitsValue(a) as real + FractionValue(b))
  {
    var s := a + "." + b;
    DecimalBoundaries(a, b);
    ParseFloatUnsigned(s, |a|, |s|);
    assert s[0..|a|] == a && s[|a|..|s|] == "." + b && ("." + b)[1..] == b;
  }

  /** `parseFloat` on text without sign or exponent: the magnitude of its digits and fraction. */
  lemma ParseFloatUnsigned(s: string, p: nat, q: nat)
    requires 0 < p <= q <= |s|
    requires SignEnd(s, 0) == 0 && DigitRunEnd(s, 0) == p && FractionEnd(s, p) == q && ExponentAt(s, q) == 0
    ensures ParseFloat(s) == Some(Magnitude(s[0..p], s[p..q]))
  {
    assert Scale(0) == 1.0;
    assert s[..0] == [];
  }

  /** Where `parseFloat`'s reading of digits, a point and digits stops at each stage. */
  lemma DecimalBoundaries(a: string, b: string)
    requires |a| > 0 && AllDigits(a) && |b| > 0 && AllDigits(b)
    ensures var s := a + "." + b;
      SignEnd(s, 0) == 0 && DigitRunEnd(s, 0) == |a| && FractionEnd(s, |a|) == |s| && ExponentAt(s, |s|) == 0
  {
    var s := a + "." + b;
    var p := |a|;
    assert s[0] == a[0];
    assert forall k :: 0 <= k < p ==> s[k] == a[k];
    DigitRunEndAt(s, 0, p);
    assert forall k :: p + 1 <= k < |s| ==> s[k] == b[k - p - 1];
    DigitRunEndAt(s, p + 1, |s|);
  }

  /** Text that does not start with a digit, a sign or a point is `NaN` to `parseFloat`. */
  lemma NonNumericStartIsNaN(s: string)
    requires |s| > 0 && !IsDigit(s[0]) && s[0] != '+' && s[0] != '-' && s[0] != '.'
    ensures ParseFloat(s).None?
  {
  }

  /** A lone sign is `NaN` to `parseFloat`: the placeholder "-" is not a number. */
  lemma LoneSignIsNaN(s: string)
    requires s == "-" || s == "+"
    ensures ParseFloat(s).None?
  {
    assert SignEnd(s, 0) == 1;
    assert DigitRunEnd(s, 1) == 1;
  }

  /** The text of a natural number in decimal, as a template literal prints it. */
  function NatToString(n: nat): (s: string)
    ensures |s| > 0 && AllDigits(s)
    ensures DigitsValue(s) == n
  {
    if n < 10 then [('0' as int + n) as char]
    else
      var prefix := NatToString(n / 10);
      var s := prefix + [('0' as int + n % 10) as char];
      assert s[..|s| - 1] == prefix;
      s
  }
}
