/** Character-level helpers: ASCII case mapping, whitespace stripping, and the
    decimal rendering and parsing of numbers that Python's `str()`, `int()` and
    `float()` perform on the values of a request.
 */
module Text {
  import opened Results

  predicate IsDigit(c: char) { '0' <= c <= '9' }

  predicate IsLowerLetter(c: char) { 'a' <= c <= 'z' }

  predicate IsUpperLetter(c: char) { 'A' <= c <= 'Z' }

  /** The ASCII whitespace that `int()` and `float()` skip at both ends: space
      and tab to carriage return (U+0009 to U+000D). The separators U+001C to
      U+001F are not among them, although `str.isspace()` accepts them. */
  predicate IsSpace(c: char) {
    c == ' ' || c == '\t' || c == '\n' || c == '\U{B}' || c == '\U{C}' || c == '\r'
  }

  predicate AllDigits(s: string) {
    forall i :: 0 <= i < |s| ==> IsDigit(s[i])
  }

  predicate AllLowerLetters(s: string) {
    forall i :: 0 <= i < |s| ==> IsLowerLetter(s[i])
  }

  function LowerChar(c: char): char {
    if IsUpperLetter(c) then (c as int + 32) as char else c
  }

  function UpperChar(c: char): char {
    if IsLowerLetter(c) then (c as int - 32) as char else c
  }

  /** ASCII `str.lower()`. */
  function Lower(s: string): (r: string)
    ensures |r| == |s|
  {
    seq(|s|, i requires 0 <= i < |s| => LowerChar(s[i]))
  }

  /** An independent description of "s spells the lower-case word w in any
      mixture of cases": every character is either w's letter or its capital. */
  predicate EqualsIgnoringCase(s: string, w: string) {
    && |s| == |w|
    && forall i :: 0 <= i < |s| ==> s[i] == w[i] || s[i] == UpperChar(w[i])
  }

  /** Lower-casing a string yields a lower-case word exactly when the string is
      that word written in some mixture of cases. */
  lemma LowerIsWordIffCaseVariant(s: string, w: string)
    requires AllLowerLetters(w)
    ensures Lower(s) == w <==> EqualsIgnoringCase(s, w)
  {
    if Lower(s) == w {
      forall i | 0 <= i < |s|
        ensures s[i] == w[i] || s[i] == UpperChar(w[i])
      {
        assert LowerChar(s[i]) == w[i];
      }
    }
    if EqualsIgnoringCase(s, w) {
      forall i | 0 <= i < |s|
        ensures Lower(s)[i] == w[i]
      {
        assert IsLowerLetter(w[i]);
      }
    }
  }

  /** Lower-casing leaves a character alone unless it is an upper-case letter, so
      the first character of a rendered number survives it. */
  lemma LowerKeepsNonLetter(s: string)
    requires |s| > 0 && !IsUpperLetter(s[0]) && !IsLowerLetter(s[0])
    ensures |Lower(s)| > 0 && Lower(s)[0] == s[0]
  {
  }

  // ---------------------------------------------------------------------------
  // Whitespace stripping

  function StripStart(s: string): (r: string)
    ensures |r| <= |s| && r == s[|s| - |r|..]
    ensures |r| > 0 ==> !IsSpace(r[0])
  {
    if |s| > 0 && IsSpace(s[0]) then StripStart(s[1..]) else s
  }

  function StripEnd(s: string): (r: string)
    ensures |r| <= |s| && r == s[..|r|]
    ensures |r| > 0 ==> !IsSpace(r[|r| - 1])
  {
    if |s| > 0 && IsSpace(s[|s| - 1]) then StripEnd(s[..|s| - 1]) else s
  }

  /** The stripping of surrounding whitespace that `int()` and `float()` do,
      for the whitespace `IsSpace` recognises. */
  function Strip(s: string): (r: string)
    ensures |r| > 0 ==> !IsSpace(r[0]) && !IsSpace(r[|r| - 1])
  {
    StripEnd(StripStart(s))
  }

  lemma StripKeepsEnds(s: string)
    requires |s| > 0 && !IsSpace(s[0]) && !IsSpace(s[|s| - 1])
    ensures Strip(s) == s
  {
  }

  // ---------------------------------------------------------------------------
  // Decimal rendering

  function DigitChar(d: nat): (c: char)
    requires d < 10
    ensures IsDigit(c)
  {
    ('0' as int + d) as char
  }

  function DigitValue(c: char): (d: nat)
    requires IsDigit(c)
    ensures d < 10 && DigitChar(d) == c
  {
    c as int - '0' as int
  }

  /** The decimal digits of a natural number, most significant first, with no
      leading zeros. */
  function NatText(n: nat): (s: string)
    ensures |s| > 0 && AllDigits(s)
    ensures |s| > 1 ==> s[0] != '0'
    decreases n
  {
    if n < 10 then [DigitChar(n)] else NatText(n / 10) + [DigitChar(n % 10)]
  }

  /** Python's `str()` of an `int`. */
  function IntText(n: int): string {
    if n < 0 then "-" + NatText(-n) else NatText(n)
  }

  /** The value of a string of decimal digits (leading zeros allowed, as
      `int("007")` allows them). */
  function DigitsValue(s: string): nat
    requires AllDigits(s)
  {
    if s == [] then 0 else 10 * DigitsValue(s[..|s| - 1]) + DigitValue(s[|s| - 1])
  }

  /** Reading back the digits of a rendered natural gives the natural. */
  lemma {:induction false} DigitsValueOfNatText(n: nat)
    ensures DigitsValue(NatText(n)) == n
    decreases n
  {
    if n >= 10 {
      var s := NatText(n);
      assert s[..|s| - 1] == NatText(n / 10);
      DigitsValueOfNatText(n / 10);
    }
  }

  function Pow10(k: nat): (r: nat)
    ensures r >= 1
  {
    if k == 0 then 1 else 10 * Pow10(k - 1)
  }

  /** `k` decimal digits of a fraction in [0, 1), truncated. */
  function FractionDigits(f: real, k: nat): (s: string)
    requires 0.0 <= f < 1.0
    ensures |s| == k && AllDigits(s)
    decreases k
  {
    if k == 0 then []
    else
      var d := (f * 10.0).Floor;
      [DigitChar(d as nat)] + FractionDigits(f * 10.0 - d as real, k - 1)
  }

  function DropTrailingZeros(s: string): (r: string)
    ensures |r| <= |s| && r == s[..|r|]
  {
    if |s| > 0 && s[|s| - 1] == '0' then DropTrailingZeros(s[..|s| - 1]) else s
  }

  /** The rendering of a float that `str()` produces, approximated as: a sign,
      the integral digits, a point, and up to 17 fraction digits with trailing
      zeros dropped (at least one digit kept). */
  function RealText(x: real): (s: string)
    ensures |s| > 0 && (s[0] == '-' || IsDigit(s[0]))
  {
    var a := if x < 0.0 then -x else x;
    var whole := a.Floor;
    var frac := DropTrailingZeros(FractionDigits(a - whole as real, 17));
    var body := NatText(whole as nat) + "." + (if frac == [] then "0" else frac);
    if x < 0.0 then "-" + body else body
  }

  // ---------------------------------------------------------------------------
  // Parsing

  /** Splits an optional leading sign off a string: whether it was a minus,
      and the rest. */
  function SplitSign(t: string): (r: (bool, string))
    ensures |r.1| <= |t|
  {
    if |t| > 0 && t[0] == '-' then (true, t[1..])
    else if |t| > 0 && t[0] == '+' then (false, t[1..])
    else (false, t)
  }

  /** The most digits `int()` converts from a string; longer ones raise. */
  const MaxIntDigits: nat := 4300

  /** `int(s)` for a string `s`: optional surrounding whitespace, an optional
      sign, then one to `MaxIntDigits` decimal digits. Every string `int()`
      accepts, `float()` accepts too, with the same value. */
  function ParseInteger(s: string): (r: Option<int>)
    ensures r.Some? ==> ParseDecimal(s) == Some(r.value as real)
  {
    var signed := SplitSign(Strip(s));
    var body := signed.1;
    if 0 < |body| <= MaxIntDigits && AllDigits(body) then
      DecimalOfDigits(s, signed.0, body);
      var v: int := DigitsValue(body);
      Some(if signed.0 then -v else v)
    else None
  }

  /** The index of the first '.' in `s`, or `|s|` when there is none. */
  function PointIndex(s: string): (i: nat)
    ensures i <= |s|
    ensures i < |s| ==> s[i] == '.'
    ensures forall j :: 0 <= j < i ==> s[j] != '.'
  {
    if s == [] then 0 else if s[0] == '.' then 0 else 1 + PointIndex(s[1..])
  }

  /** The value a decimal numeral with digits `w` before its point and `f`
      after it stands for. */
  function PointedValue(w: string, f: string): real
    requires AllDigits(w) && AllDigits(f)
  {
    DigitsValue(w) as real + DigitsValue(f) as real / Pow10(|f|) as real
  }

  /** `float(s)` for a string `s`: optional surrounding whitespace, an optional
      sign, then digits with at most one decimal point and at least one digit. */
  function ParseDecimal(s: string): Option<real> {
    var signed := SplitSign(Strip(s));
    var body := signed.1;
    var p := PointIndex(body);
    var whole := body[..p];
    var frac := if p < |body| then body[p + 1..] else [];
    if |whole| + |frac| > 0 && AllDigits(whole) && AllDigits(frac) then
      var v := PointedValue(whole, frac);
      Some(if signed.0 then -v else v)
    else None
  }

  function Abs(n: int): nat {
    if n < 0 then -n else n
  }

  /** A rendered integer has no surrounding whitespace and splits into its
      sign and the digits of its magnitude. */
  lemma IntTextShape(n: int)
    ensures Strip(IntText(n)) == IntText(n)
    ensures SplitSign(IntText(n)) == (n < 0, NatText(Abs(n)))
  {
    if n < 0 {
      NegativeTextShape(n);
    } else {
      NonNegativeTextShape(n);
    }
  }

  lemma NegativeTextShape(n: int)
    requires n < 0
    ensures Strip(IntText(n)) == IntText(n)
    ensures SplitSign(IntText(n)) == (true, NatText(Abs(n)))
  {
    var d := NatText(Abs(n));
    assert IntText(n) == "-" + d;
    NegativeDigitsAreStripped(d);
    MinusSplits(d);
  }

  lemma NonNegativeTextShape(n: int)
    requires n >= 0
    ensures Strip(IntText(n)) == IntText(n)
    ensures SplitSign(IntText(n)) == (false, NatText(Abs(n)))
  {
    var d := NatText(Abs(n));
    assert IntText(n) == d;
    DigitsAreStripped(d);
    UnsignedSplits(d);
  }

  lemma DigitsAreStripped(d: string)
    requires |d| > 0 && AllDigits(d)
    ensures Strip(d) == d
  {
    assert IsDigit(d[0]) && IsDigit(d[|d| - 1]);
    StripKeepsEnds(d);
  }

  lemma MinusSplits(d: string)
    ensures SplitSign("-" + d) == (true, d)
  {
    var t := "-" + d;
    assert t[1..] == d;
  }

  lemma UnsignedSplits(d: string)
    requires |d| > 0 && AllDigits(d)
    ensures SplitSign(d) == (false, d)
  {
    assert IsDigit(d[0]);
  }

  lemma NegativeDigitsAreStripped(d: string)
    requires |d| > 0 && AllDigits(d)
    ensures Strip("-" + d) == "-" + d
  {
    var t := "-" + d;
    assert IsDigit(d[|d| - 1]);
    assert t[0] == '-' && t[|t| - 1] == d[|d| - 1];
    StripKeepsEnds(t);
  }

  lemma IntTextSplits(n: int)
    ensures SplitSign(Strip(IntText(n))) == (n < 0, NatText(Abs(n)))
  {
    IntTextShape(n);
  }

  /** The digits of a magnitude read back as that magnitude. */
  lemma MagnitudeReadsBack(n: int)
    ensures |NatText(Abs(n))| > 0 && AllDigits(NatText(Abs(n))) && DigitsValue(NatText(Abs(n))) == Abs(n)
  {
    DigitsValueOfNatText(Abs(n));
  }

  /** A run of digits has no decimal point. */
  lemma DigitsHaveNoPoint(d: string)
    requires AllDigits(d)
    ensures PointIndex(d) == |d| && d[..PointIndex(d)] == d
  {
  }

  /** A sign and a run of digits parse as an integer with that sign. */
  lemma IntegerOfDigits(s: string, negative: bool, d: string)
    requires SplitSign(Strip(s)) == (negative, d) && |d| > 0 && AllDigits(d)
    ensures |d| <= MaxIntDigits ==> ParseInteger(s) == Some(if negative then -(DigitsValue(d) as int) else DigitsValue(d) as int)
    ensures |d| > MaxIntDigits ==> ParseInteger(s) == None
  {
  }

  /** A sign and a run of digits, with no point, parse as a decimal with that
      sign. */
  lemma DecimalOfDigits(s: string, negative: bool, d: string)
    requires SplitSign(Strip(s)) == (negative, d) && |d| > 0 && AllDigits(d)
    ensures ParseDecimal(s) == Some(if negative then -(DigitsValue(d) as real) else DigitsValue(d) as real)
  {
    DigitsHaveNoPoint(d);
    assert Pow10(0) == 1;
  }

  /** `int(str(n)) == n`: the integer parser reads back every rendered integer
      of at most `MaxIntDigits` digits, and rejects every longer one. */
  lemma ParseIntegerOfIntText(n: int)
    ensures |NatText(Abs(n))| <= MaxIntDigits ==> ParseInteger(IntText(n)) == Some(n)
    ensures |NatText(Abs(n))| > MaxIntDigits ==> ParseInteger(IntText(n)) == None
  {
    IntTextSplits(n);
    MagnitudeReadsBack(n);
    IntegerOfDigits(IntText(n), n < 0, NatText(Abs(n)));
  }

  /** `float(str(n)) == n`: the decimal parser reads back every rendered integer. */
  lemma ParseDecimalOfIntText(n: int)
    ensures ParseDecimal(IntText(n)) == Some(n as real)
  {
    IntTextSplits(n);
    MagnitudeReadsBack(n);
    DecimalOfDigits(IntText(n), n < 0, NatText(Abs(n)));
  }

  /** Digits, a point and digits: the point is the first one, and it splits
      the numeral back into its two runs of digits. */
  lemma PointSplitsNumeral(w: string, f: string)
    requires AllDigits(w) && AllDigits(f)
    ensures var t := w + "." + f;
            && PointIndex(t) == |w| && t[..PointIndex(t)] == w && t[PointIndex(t) + 1..] == f
  {
    var t := w + "." + f;
    assert t[|w|] == '.';
    assert forall j :: 0 <= j < |w| ==> t[j] == w[j];
    assert t[..|w|] == w && t[|w| + 1..] == f;
  }

  /** A numeral of digits and one point has no surrounding whitespace and no
      sign of its own. */
  lemma NumeralIsBare(w: string, f: string)
    requires AllDigits(w) && AllDigits(f)
    ensures var t := w + "." + f;
            && Strip(t) == t && SplitSign(t) == (false, t)
            && Strip("-" + t) == "-" + t && SplitSign("-" + t) == (true, t)
  {
    var t := w + "." + f;
    assert t[0] == (if |w| > 0 then w[0] else '.');
    assert t[|t| - 1] == (if |f| > 0 then f[|f| - 1] else '.');
    StripKeepsEnds(t);
    var u := "-" + t;
    assert u[0] == '-' && u[|u| - 1] == t[|t| - 1];
    StripKeepsEnds(u);
    MinusSplits(t);
  }

  /** `float()` reads a numeral with a decimal point, such as "31.25", "7."
      or ".5", as the exact value it stands for. */
  lemma ParseDecimalOfPointed(w: string, f: string)
    requires AllDigits(w) && AllDigits(f) && |w| + |f| > 0
    ensures ParseDecimal(w + "." + f) == Some(PointedValue(w, f))
  {
    var t := w + "." + f;
    assert SplitSign(Strip(t)) == (false, t) by { NumeralIsBare(w, f); }
    assert PointIndex(t) < |t| && t[..PointIndex(t)] == w && t[PointIndex(t) + 1..] == f by {
      PointSplitsNumeral(w, f);
    }
    DecimalOfParts(t, false, t, w, f);
  }

  /** The same with a leading minus, such as "-0.5". */
  lemma ParseDecimalOfNegativePointed(w: string, f: string)
    requires AllDigits(w) && AllDigits(f) && |w| + |f| > 0
    ensures ParseDecimal("-" + (w + "." + f)) == Some(-PointedValue(w, f))
  {
    var t := w + "." + f;
    assert SplitSign(Strip("-" + t)) == (true, t) by { NumeralIsBare(w, f); }
    assert PointIndex(t) < |t| && t[..PointIndex(t)] == w && t[PointIndex(t) + 1..] == f by {
      PointSplitsNumeral(w, f);
    }
    DecimalOfParts("-" + t, true, t, w, f);
  }

  /** `int()` refuses a numeral with a decimal point, with or without a
      minus: "2.0" raises where `float()` reads 2. */
  lemma ParseIntegerOfPointed(w: string, f: string)
    requires AllDigits(w) && AllDigits(f)
    ensures ParseInteger(w + "." + f) == None
    ensures ParseInteger("-" + (w + "." + f)) == None
  {
    var t := w + "." + f;
    assert SplitSign(Strip(t)) == (false, t) && SplitSign(Strip("-" + t)) == (true, t) by {
      NumeralIsBare(w, f);
    }
    assert !AllDigits(t) by { assert t[|w|] == '.'; }
  }

  /** A string that starts with anything but whitespace, a sign, a digit or a
      point is no numeral: neither `int()` nor `float()` accepts it. */
  lemma LeadingJunkIsRefused(s: string)
    requires |s| > 0 && !IsSpace(s[0]) && !IsDigit(s[0])
    requires s[0] != '-' && s[0] != '+' && s[0] != '.'
    ensures ParseInteger(s) == None && ParseDecimal(s) == None
  {
    var t := Strip(s);
    assert SplitSign(t) == (false, t) && (|t| > 0 ==> t[0] == s[0]) by {
      assert StripStart(s) == s;
    }
    if |t| > 0 {
      assert !AllDigits(t);
      assert PointIndex(t) > 0;
      assert t[..PointIndex(t)][0] == s[0];
    }
  }

  /** A sign and a numeral that splits at its point into two runs of digits
      parse as a decimal with that sign. */
  lemma DecimalOfParts(s: string, negative: bool, t: string, w: string, f: string)
    requires SplitSign(Strip(s)) == (negative, t)
    requires PointIndex(t) < |t| && t[..PointIndex(t)] == w && t[PointIndex(t) + 1..] == f
    requires AllDigits(w) && AllDigits(f) && |w| + |f| > 0
    ensures ParseDecimal(s) == Some(if negative then -PointedValue(w, f) else PointedValue(w, f))
  {
    var p := PointIndex(t);
    var frac := if p < |t| then t[p + 1..] else [];
    assert frac == f;
  }
}
