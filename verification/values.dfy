/** The values a JSON request body can carry in one field, and the three Python
    built-ins the service applies to them: `str()`, `int()` and `float()`.
 */
module Values {
  import opened Results
  import opened Text

  /** A JSON scalar as the decoded request holds it. Normalised fields are held
      as `Int` (flags, pregnancy count) or `Real` (numeric fields). */
  datatype Value =
    | Str(s: string)
    | Int(n: int)
    | Real(x: real)
    | Bool(b: bool)
    | Null

  /** Python's truncating `int(x)` of a float: rounds toward zero. */
  function Trunc(x: real): (r: int)
    ensures x >= 0.0 ==> 0 <= r && r as real <= x < r as real + 1.0
    ensures x < 0.0 ==> r <= 0 && r as real - 1.0 < x <= r as real
  {
    if x >= 0.0 then x.Floor else -((-x).Floor)
  }

  /** Python's `str(v)`. */
  function StrForm(v: Value): string {
    match v
    case Str(s) => s
    case Int(n) => IntText(n)
    case Real(x) => RealText(x)
    case Bool(b) => if b then "True" else "False"
    case Null => "None"
  }

  /** Python's `int(v)`; `None` where it raises. Whatever `int()` accepts,
      `float()` accepts too, and with the same value unless `int()` truncated
      a float. */
  function PyInt(v: Value): (r: Option<int>)
    ensures r.Some? ==> PyFloat(v).Some?
    ensures r.Some? && !v.Real? ==> PyFloat(v) == Some(r.value as real)
  {
    match v
    case Str(s) => ParseInteger(s)
    case Int(n) => Some(n)
    case Real(x) => Some(Trunc(x))
    case Bool(b) => Some(if b then 1 else 0)
    case Null => None
  }

  /** Python's `float(v)`; `None` where it raises. */
  function PyFloat(v: Value): Option<real> {
    match v
    case Str(s) => ParseDecimal(s)
    case Int(n) => Some(n as real)
    case Real(x) => Some(x)
    case Bool(b) => Some(if b then 1.0 else 0.0)
    case Null => None
  }

  /** `int(str(n)) == n` and `float(str(n)) == n`: an integer sent as a string
      coerces to the same number as the integer itself, except that `int()`
      refuses a string of more than `MaxIntDigits` digits. */
  lemma CoerceRenderedInt(n: int)
    ensures |NatText(Abs(n))| <= MaxIntDigits ==> PyInt(Str(StrForm(Int(n)))) == PyInt(Int(n)) == Some(n)
    ensures |NatText(Abs(n))| > MaxIntDigits ==> PyInt(Str(StrForm(Int(n)))) == None
    ensures PyFloat(Str(StrForm(Int(n)))) == PyFloat(Int(n)) == Some(n as real)
  {
    ParseIntegerOfIntText(n);
    ParseDecimalOfIntText(n);
  }

  /** A number sent as a string with a decimal point, such as "31.25" or
      "-0.5": `float()` reads the value it stands for, and `int()` raises. */
  lemma CoercePointedString(negative: bool, w: string, f: string)
    requires AllDigits(w) && AllDigits(f) && |w| + |f| > 0
    ensures var s := (if negative then "-" else "") + (w + "." + f);
            && PyFloat(Str(s)) == Some(if negative then -PointedValue(w, f) else PointedValue(w, f))
            && PyInt(Str(s)) == None
  {
    ParseIntegerOfPointed(w, f);
    if negative {
      ParseDecimalOfNegativePointed(w, f);
    } else {
      assert "" + (w + "." + f) == w + "." + f;
      ParseDecimalOfPointed(w, f);
    }
  }

  /** The string form of anything but a string never lower-cases to a word of
      letters, other than the renderings of the two booleans and of null. */
  lemma NonStringSpellsNoWord(v: Value, w: string)
    requires !v.Str?
    requires |w| > 0 && AllLowerLetters(w)
    requires w != "true" && w != "false" && w != "none"
    ensures Lower(StrForm(v)) != w
  {
    match v
    case Int(n) =>
      var t := IntText(n);
      assert t[0] == '-' || IsDigit(t[0]) by {
        if n >= 0 { assert IsDigit(NatText(n)[0]); }
      }
      LowerKeepsNonLetter(t);
    case Real(x) =>
      LowerKeepsNonLetter(RealText(x));
    case Bool(b) =>
      assert Lower("True") == "true";
      assert Lower("False") == "false";
    case Null =>
      assert Lower("None") == "none";
  }
}
