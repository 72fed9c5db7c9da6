/**
 * Text handling shared by the view and the controller: the view's character
 * filter (the regular expression INVALID_NUMBER_REXP, ".*[^+0-9.-].*", applied
 * with String.matches) and Java's Double.parseDouble restricted to the strings
 * that can get past that filter.
 */
module NumberText {

  datatype Option<T> = None | Some(value: T)

  predicate IsDigit(c: char) { '0' <= c <= '9' }

  /** The characters the filter lets through: a sign, a decimal point or a digit. */
  predicate IsNumberChar(c: char) { c == '+' || c == '-' || c == '.' || IsDigit(c) }

  predicate AllNumberChars(s: string) { forall i :: 0 <= i < |s| ==> IsNumberChar(s[i]) }

  predicate AllDigits(s: string) { forall i :: 0 <= i < |s| ==> IsDigit(s[i]) }

  /**
   * `s.matches(".*[^+0-9.-].*")`: the whole of s is some text, one character
   * outside the number alphabet, then some text.
   */
  function MatchesInvalidNumber(s: string): (m: bool)
    ensures m <==> exists i :: 0 <= i < |s| && !IsNumberChar(s[i])
    ensures !m <==> AllNumberChars(s)
  {
    if s == [] then false else !IsNumberChar(s[0]) || MatchesInvalidNumber(s[1..])
  }

  // ----- Double.parseDouble on the filter alphabet -----

  /**
   * The decimal floating-point literal that Double.valueOf accepts, restricted to
   * the filter alphabet (no exponent, no NaN or Infinity, no hexadecimal form, no
   * type suffix, no surrounding white space): an optional sign, then digits and
   * points only, at most one point, and at least one digit.
   */
  predicate IsDecimalLiteral(s: string) {
    var b := Unsigned(s);
    && (forall i :: 0 <= i < |b| ==> IsDigit(b[i]) || b[i] == '.')
    && (forall i, j :: 0 <= i < j < |b| && b[i] == '.' ==> b[j] != '.')
    && (exists i :: 0 <= i < |b| && IsDigit(b[i]))
  }

  /** s without its leading sign, if it has one. */
  function Unsigned(s: string): (b: string)
    ensures |s| > 0 && (s[0] == '+' || s[0] == '-') ==> b == s[1..]
    ensures |s| == 0 || (s[0] != '+' && s[0] != '-') ==> b == s
  {
    if |s| > 0 && (s[0] == '+' || s[0] == '-') then s[1..] else s
  }

  /** Position of the first decimal point of b, or |b| when it has none. */
  function PointIndex(b: string): (k: nat)
    ensures k <= |b|
    ensures forall i :: 0 <= i < k ==> b[i] != '.'
    ensures k < |b| ==> b[k] == '.'
  {
    if b == [] || b[0] == '.' then 0 else 1 + PointIndex(b[1..])
  }

  /** The characters before the first point (all of b when there is none). */
  function WholeDigits(b: string): string {
    b[..PointIndex(b)]
  }

  /** The characters after the first point (none when there is no point). */
  function FractionDigits(b: string): string {
    var k := PointIndex(b);
    if k < |b| then b[k + 1..] else []
  }

  function Pow10(n: nat): (p: nat)
    ensures p >= 1
  {
    if n == 0 then 1 else 10 * Pow10(n - 1)
  }

  function DigitValue(c: char): (d: nat)
    requires IsDigit(c)
    ensures d <= 9
  {
    c as int - '0' as int
  }

  /** Value of a string of decimal digits, most significant first; "" reads as 0. */
  function DigitsValue(s: string): (v: nat)
    requires AllDigits(s)
    ensures v < Pow10(|s|)
  {
    if s == [] then 0 else DigitsValue(s[..|s| - 1]) * 10 + DigitValue(s[|s| - 1])
  }

  function Abs(x: real): real { if x < 0.0 then -x else x }

  /**
   * Double.parseDouble over exact reals: None stands for NumberFormatException.
   * A literal's value is its sign applied to its whole digits plus its fraction
   * digits scaled down; the whole digits are the integer part of the magnitude.
   */
  function Parse(s: string): (r: Option<real>)
    requires AllNumberChars(s)
    ensures r.Some? <==> IsDecimalLiteral(s)
    ensures r.Some? ==> |s| > 0 && (s[0] == '-' ==> r.value <= 0.0) && (s[0] != '-' ==> r.value >= 0.0)
    ensures r.Some? ==> AllDigits(WholeDigits(Unsigned(s))) && AllDigits(FractionDigits(Unsigned(s)))
    ensures r.Some? ==>
              var w := DigitsValue(WholeDigits(Unsigned(s))) as real;
              w <= Abs(r.value) < w + 1.0
    ensures r.Some? ==>
              var w, f := WholeDigits(Unsigned(s)), FractionDigits(Unsigned(s));
              Abs(r.value) == DigitsValue(w + f) as real / Pow10(|f|) as real
  {
    var b := Unsigned(s);
    var w, f := WholeDigits(b), FractionDigits(b);
    assert AllDigits(w) && AllDigits(f) && |w| + |f| > 0 <==> IsDecimalLiteral(s) by {
      DecimalLiteralSplit(s);
    }
    if AllDigits(w) && AllDigits(f) && |w| + |f| > 0 then
      MagnitudeScaled(w, f);
      var m := DigitsValue(w) as real + FractionValue(f);
      Some(if |s| > 0 && s[0] == '-' then -m else m)
    else
      None
  }

  /** Reading digits a then digits b: a's value shifted left by |b| places, plus b's value. */
  lemma {:induction false} DigitsValueAppend(a: string, b: string)
    requires AllDigits(a) && AllDigits(b)
    ensures AllDigits(a + b)
    ensures DigitsValue(a + b) == DigitsValue(a) * Pow10(|b|) + DigitsValue(b)
  {
    assert AllDigits(a + b) by {
      forall i | 0 <= i < |a + b| ensures IsDigit((a + b)[i]) {
        if i < |a| { assert (a + b)[i] == a[i]; } else { assert (a + b)[i] == b[i - |a|]; }
      }
    }
    if b == [] {
      assert a + b == a;
    } else {
      var n := |b|;
      var b' := b[..n - 1];
      assert AllDigits(b') by {
        forall i | 0 <= i < |b'| ensures IsDigit(b'[i]) { assert b'[i] == b[i]; }
      }
      DigitsValueAppend(a, b');
      assert (a + b)[..|a + b| - 1] == a + b';
      assert (a + b)[|a + b| - 1] == b[n - 1];
      assert b[..|b| - 1] == b';
      ShiftStep(DigitsValue(a), Pow10(n - 1), DigitsValue(b'), DigitValue(b[n - 1]));
    }
  }

  lemma ShiftStep(x: int, y: int, z: int, d: int)
    ensures (x * y + z) * 10 + d == x * (y * 10) + (z * 10 + d)
  {
  }

  /**
   * The magnitude of a literal with whole digits w and fraction digits f is
   * the digits w + f read as one integer, divided by 10^|f|.
   */
  lemma MagnitudeScaled(w: string, f: string)
    requires AllDigits(w) && AllDigits(f)
    ensures AllDigits(w + f)
    ensures DigitsValue(w) as real + FractionValue(f) == DigitsValue(w + f) as real / Pow10(|f|) as real
  {
    DigitsValueAppend(w, f);
    ShiftedOverScale(DigitsValue(w), Pow10(|f|), DigitsValue(f), DigitsValue(w + f), FractionValue(f));
  }

  /** If total == whole * scale + fraction, then whole + fraction / scale == total / scale. */
  lemma ShiftedOverScale(whole: nat, scale: nat, fraction: nat, total: nat, part: real)
    requires scale >= 1
    requires total == whole * scale + fraction
    requires part == fraction as real / scale as real
    ensures whole as real + part == total as real / scale as real
  {
    CastShift(whole, scale, fraction, total);
    ScaledFraction(whole as real, fraction as real, scale as real, total as real, part);
  }

  lemma CastShift(x: nat, p: nat, n: nat, total: nat)
    requires total == x * p + n
    ensures total as real == x as real * p as real + n as real
  {
  }

  /** A whole part plus a fraction over a scale is the scaled-up sum over the scale. */
  lemma ScaledFraction(whole: real, fraction: real, scale: real, total: real, part: real)
    requires scale > 0.0
    requires total == whole * scale + fraction
    requires part == fraction / scale
    ensures whole + part == total / scale
  {
  }

  /** The value of the digits after the point: a number in [0, 1). */
  function FractionValue(f: string): (v: real)
    requires AllDigits(f)
    ensures 0.0 <= v < 1.0
  {
    var n, d := DigitsValue(f) as real, Pow10(|f|) as real;
    QuotientBelowOne(n, d);
    n / d
  }

  lemma QuotientBelowOne(n: real, d: real)
    requires 0.0 <= n < d
    ensures 0.0 <= n / d < 1.0
  {
  }

  /**
   * A string over the filter alphabet is a decimal literal exactly when the part
   * before its first point and the part after it are all digits and not both empty.
   */
  lemma DecimalLiteralSplit(s: string)
    requires AllNumberChars(s)
    ensures var b := Unsigned(s);
            var w, f := WholeDigits(b), FractionDigits(b);
            AllDigits(w) && AllDigits(f) && |w| + |f| > 0 <==> IsDecimalLiteral(s)
  {
    var b := Unsigned(s);
    var k := PointIndex(b);
    var w, f := WholeDigits(b), FractionDigits(b);
    assert forall i :: 0 <= i < |b| ==> IsNumberChar(b[i]) by {
      if |s| > 0 && (s[0] == '+' || s[0] == '-') {
        assert forall i :: 0 <= i < |b| ==> b[i] == s[i + 1];
      }
    }
    if AllDigits(w) && AllDigits(f) && |w| + |f| > 0 {
      forall i | 0 <= i < k ensures IsDigit(b[i]) {
        assert b[i] == w[i];
      }
      forall i | k < i < |b| ensures IsDigit(b[i]) {
        assert b[i] == f[i - k - 1];
      }
      if |w| > 0 {
        assert IsDigit(b[0]) by { assert b[0] == w[0]; }
      } else {
        assert IsDigit(b[k + 1]) by { assert b[k + 1] == f[0]; }
      }
    }
    if IsDecimalLiteral(s) {
      forall i | 0 <= i < |w| ensures IsDigit(w[i]) {
        assert w[i] == b[i];
      }
      if k < |b| {
        forall i | 0 <= i < |f| ensures IsDigit(f[i]) {
          assert f[i] == b[k + 1 + i];
        }
      }
      var i :| 0 <= i < |b| && IsDigit(b[i]);
      assert i != k;
      if i < k {
        assert |w| > 0;
      } else {
        assert |f| > 0;
      }
    }
  }

  /** The filter lets every decimal literal through... */
  lemma DecimalLiteralsPassFilter(s: string)
    requires IsDecimalLiteral(s)
    ensures s != [] && !MatchesInvalidNumber(s)
  {
    var b := Unsigned(s);
    forall i | 0 <= i < |s| ensures IsNumberChar(s[i]) {
      if |s| > 0 && (s[0] == '+' || s[0] == '-') {
        if i > 0 { assert s[i] == b[i - 1]; }
      } else {
        assert s[i] == b[i];
      }
    }
  }

  /** ...but it is looser than a full validator: "--.." and "." get through and do not parse. */
  lemma FilterLooserThanParse()
    ensures !MatchesInvalidNumber("--..") && Parse("--..") == None
    ensures !MatchesInvalidNumber(".") && Parse(".") == None
  {
  }
}
