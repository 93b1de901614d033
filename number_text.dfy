/**
 * The two text-to-number conversions the core relies on: `std::stof`
 * (settings values and the numeric input boxes) and `std::stoi` (integer
 * settings). Both read the longest numeric prefix after leading white space
 * and ignore whatever follows; both throw when no digit can be read or when
 * the value does not fit the target type. A thrown exception is `None`.
 */
module NumberText {
  import opened Wrappers

  /** The largest finite single-precision value, (2 - 2^-23) * 2^127. */
  const FLT_MAX: real := 340282346638528859811704183484516925440.0
  /** Range of a 32-bit `int`, the result type of `std::stoi`. */
  const INT_MIN: int := -0x8000_0000
  const INT_MAX: int := 0x7FFF_FFFF

  predicate IsDigit(c: char) { '0' <= c <= '9' }

  /** The characters `isspace` accepts in the C locale: space, \t, \n, \v, \f, \r. */
  predicate IsSpace(c: char) { c == ' ' || 9 <= c as int <= 13 }

  predicate AllDigits(s: string) { forall i :: 0 <= i < |s| ==> IsDigit(s[i]) }

  type DigitString = s: string | AllDigits(s) witness ""

  function DigitValue(c: char): (d: nat)
    requires IsDigit(c)
    ensures d < 10
  {
    c as int - '0' as int
  }

  /** The value of a string of decimal digits, most significant digit first. */
  function DigitsValue(s: DigitString): nat
    decreases |s|
  {
    if s == [] then 0 else DigitsValue(s[..|s| - 1]) * 10 + DigitValue(s[|s| - 1])
  }

  function Pow10(n: nat): (p: nat)
    ensures p >= 1
  {
    if n == 0 then 1 else 10 * Pow10(n - 1)
  }

  lemma {:induction false} Pow10Monotone(m: nat, n: nat)
    requires m <= n
    ensures Pow10(m) <= Pow10(n)
  {
    if m < n {
      Pow10Monotone(m, n - 1);
    }
  }

  /** A string of n digits denotes a number below 10^n. */
  lemma {:induction false} DigitsValueBound(s: DigitString)
    ensures DigitsValue(s) < Pow10(|s|)
  {
    if s != [] {
      DigitsValueBound(s[..|s| - 1]);
    }
  }

  /** Index of the first character at or after i that is not white space. */
  function SpaceRunEnd(s: string, i: nat): (j: nat)
    requires i <= |s|
    ensures i <= j <= |s|
    ensures forall k :: i <= k < j ==> IsSpace(s[k])
    ensures j == |s| || !IsSpace(s[j])
    decreases |s| - i
  {
    if i < |s| && IsSpace(s[i]) then SpaceRunEnd(s, i + 1) else i
  }

  /** Index of the first character at or after i that is not a digit. */
  function DigitRunEnd(s: string, i: nat): (j: nat)
    requires i <= |s|
    ensures i <= j <= |s|
    ensures forall k :: i <= k < j ==> IsDigit(s[k])
    ensures j == |s| || !IsDigit(s[j])
    decreases |s| - i
  {
    if i < |s| && IsDigit(s[i]) then DigitRunEnd(s, i + 1) else i
  }

  /** Index just past an optional '+' or '-' at i. */
  function SignEnd(s: string, i: nat): nat
    requires i <= |s|
  {
    if i < |s| && (s[i] == '+' || s[i] == '-') then i + 1 else i
  }

  /** The digits between i and the end of their run, as a digit string. */
  function DigitsAt(s: string, i: nat): (d: DigitString)
    requires i <= |s|
    ensures d == s[i..DigitRunEnd(s, i)]
  {
    var j := DigitRunEnd(s, i);
    assert forall k :: 0 <= k < j - i ==> s[i..j][k] == s[i + k];
    s[i..j]
  }

  /** What `strtof` reads of a decimal number: sign, integer digits, fraction digits, exponent. */
  datatype Decimal = Decimal(negative: bool, intDigits: DigitString, fracDigits: DigitString, exponent: int)

  function Scale(m: real, e: int): (r: real)
    ensures m >= 0.0 ==> r >= 0.0
  {
    if e >= 0 then m * Pow10(e) as real else m / Pow10(-e) as real
  }

  function Magnitude(d: Decimal): (r: real)
    ensures r >= 0.0
  {
    Scale(DigitsValue(d.intDigits) as real + DigitsValue(d.fracDigits) as real / Pow10(|d.fracDigits|) as real,
          d.exponent)
  }

  /**
   * The exponent part starting at k: 'e' or 'E', an optional sign and at least
   * one digit. Without a digit the exponent is not part of the number.
   */
  function ExponentAt(s: string, k: nat): int
    requires k <= |s|
  {
    if k < |s| && (s[k] == 'e' || s[k] == 'E') then
      var m := SignEnd(s, k + 1);
      var digits := DigitsAt(s, m);
      if digits == [] then 0
      else if m > k + 1 && s[k + 1] == '-' then -(DigitsValue(digits) as int)
      else DigitsValue(digits)
    else 0
  }

  /**
   * The decimal number at the start of s, after white space: at least one
   * digit before or after an optional point is needed.
   */
  function ScanDecimal(s: string): Option<Decimal>
  {
    var i := SpaceRunEnd(s, 0);
    var j := SignEnd(s, i);
    var intDigits := DigitsAt(s, j);
    var intEnd := j + |intDigits|;
    var fracStart := if intEnd < |s| && s[intEnd] == '.' then intEnd + 1 else intEnd;
    var fracDigits := DigitsAt(s, fracStart);
    if intDigits == [] && fracDigits == [] then None
    else Some(Decimal(j > i && s[i] == '-', intDigits, fracDigits, ExponentAt(s, fracStart + |fracDigits|)))
  }

  /**
   * `std::stof`: None where it throws invalid_argument (no digit to read) or
   * out_of_range (beyond the largest finite float).
   */
  function ParseFloat(s: string): (r: Option<real>)
    ensures r.Some? ==> -FLT_MAX <= r.value <= FLT_MAX
  {
    match ScanDecimal(s)
    case None => None
    case Some(d) =>
      var m := Magnitude(d);
      if m > FLT_MAX then None else Some(if d.negative then -m else m)
  }

  /**
   * `std::stoi` (base 10): None where it throws invalid_argument (no digit to
   * read) or out_of_range (beyond a 32-bit `int`).
   */
  function ParseInt(s: string): (r: Option<int>)
    ensures r.Some? ==> INT_MIN <= r.value <= INT_MAX
  {
    var i := SpaceRunEnd(s, 0);
    var j := SignEnd(s, i);
    var digits := DigitsAt(s, j);
    if digits == [] then None
    else
      var v := if j > i && s[i] == '-' then -(DigitsValue(digits) as int) else DigitsValue(digits);
      if INT_MIN <= v <= INT_MAX then Some(v) else None
  }

  /** A scanned number whose magnitude exceeds FLT_MAX makes `std::stof` throw out_of_range. */
  lemma ParseFloatOutOfRange(s: string)
    requires ScanDecimal(s).Some? && Magnitude(ScanDecimal(s).value) > FLT_MAX
    ensures ParseFloat(s).None?
  {
  }

  /** A plain decimal integer beyond INT_MAX makes `std::stoi` throw out_of_range. */
  lemma ParseIntOutOfRange(s: DigitString)
    requires s != [] && DigitsValue(s) > INT_MAX
    ensures ParseInt(s).None?
  {
    assert !IsSpace(s[0]);
    assert SpaceRunEnd(s, 0) == 0;
    DigitRunOfDigits(s, 0);
    assert DigitsAt(s, 0) == s[0..|s|] == s;
  }

  /** A plain decimal integer text scans as its digits, with no fraction and no exponent. */
  lemma ScanOfDigits(s: DigitString)
    requires s != []
    ensures ScanDecimal(s) == Some(Decimal(false, s, [], 0))
  {
    assert !IsSpace(s[0]);
    assert SpaceRunEnd(s, 0) == 0;
    DigitRunOfDigits(s, 0);
    assert DigitsAt(s, 0) == s[0..|s|] == s;
    assert DigitsAt(s, |s|) == [];
  }

  lemma MagnitudeOfInteger(s: DigitString)
    ensures Magnitude(Decimal(false, s, [], 0)) == DigitsValue(s) as real
  {
    var empty: DigitString := [];
    assert DigitsValue(empty) == 0;
    assert Pow10(|empty|) == 1;
  }

  /** A plain decimal integer text converts with `std::stof` to its value when it is within FLT_MAX, and throws beyond. */
  lemma ParseFloatOfDigits(s: DigitString)
    requires s != []
    ensures DigitsValue(s) as real <= FLT_MAX ==> ParseFloat(s) == Some(DigitsValue(s) as real)
    ensures DigitsValue(s) as real > FLT_MAX ==> ParseFloat(s).None?
  {
    ScanOfDigits(s);
    MagnitudeOfInteger(s);
  }

  /** A digit run from i ends at j when [i, j) holds digits and j is the end or a non-digit. */
  lemma DigitRunTo(s: string, i: nat, j: nat)
    requires i <= j <= |s|
    requires forall k :: i <= k < j ==> IsDigit(s[k])
    requires j == |s| || !IsDigit(s[j])
    ensures DigitRunEnd(s, i) == j
    decreases j - i
  {
    if i < j {
      DigitRunTo(s, i + 1, j);
    }
  }

  /** "a.b" with digit strings a and b scans as integer digits a, fraction digits b and no exponent. */
  lemma ScanOfPointed(a: DigitString, b: DigitString)
    requires a != [] || b != []
    ensures ScanDecimal(a + "." + b) == Some(Decimal(false, a, b, 0))
  {
    var t := a + "." + b;
    assert t[|a|] == '.';
    assert forall k :: 0 <= k < |a| ==> t[k] == a[k];
    assert forall k :: |a| + 1 <= k < |t| ==> t[k] == b[k - |a| - 1];
    if a != [] {
      assert !IsSpace(t[0]);
    }
    assert SpaceRunEnd(t, 0) == 0;
    assert SignEnd(t, 0) == 0;
    DigitRunTo(t, 0, |a|);
    assert DigitsAt(t, 0) == t[..|a|] == a;
    DigitRunTo(t, |a| + 1, |t|);
    assert DigitsAt(t, |a| + 1) == t[|a| + 1..] == b;
    assert ExponentAt(t, |t|) == 0;
  }

  /**
   * `std::stof` of "a.b" is a + b / 10^|b|, the value the decimal notation
   * denotes, when that is within FLT_MAX; beyond it the conversion throws.
   */
  lemma ParseFloatOfPointed(a: DigitString, b: DigitString)
    requires a != [] || b != []
    ensures var v := DigitsValue(a) as real + DigitsValue(b) as real / Pow10(|b|) as real;
            (v <= FLT_MAX ==> ParseFloat(a + "." + b) == Some(v)) && (v > FLT_MAX ==> ParseFloat(a + "." + b).None?)
  {
    var t, d := a + "." + b, Decimal(false, a, b, 0);
    ScanOfPointed(a, b);
    MagnitudeNoExponent(d);
    assert ParseFloat(t) == if Magnitude(d) > FLT_MAX then None else Some(Magnitude(d));
  }

  /** Without an exponent the magnitude is the integer digits plus the fraction digits over 10^(their count). */
  lemma MagnitudeNoExponent(d: Decimal)
    requires d.exponent == 0
    ensures Magnitude(d) == DigitsValue(d.intDigits) as real + DigitsValue(d.fracDigits) as real / Pow10(|d.fracDigits|) as real
  {
    assert Pow10(0) == 1;
  }

  /** Both conversions throw invalid_argument on a text that holds no digit at all. */
  lemma NoDigitNoNumber(s: string)
    requires forall i :: 0 <= i < |s| ==> !IsDigit(s[i])
    ensures ParseFloat(s).None? && ParseInt(s).None?
  {
    var j := SignEnd(s, SpaceRunEnd(s, 0));
    var intDigits := DigitsAt(s, j);
    assert intDigits == [];
    var intEnd := j + |intDigits|;
    var fracStart := if intEnd < |s| && s[intEnd] == '.' then intEnd + 1 else intEnd;
    assert DigitsAt(s, fracStart) == [];
  }

  /** A digit run that starts a string consisting only of digits reaches its end. */
  lemma DigitRunOfDigits(s: string, i: nat)
    requires i <= |s| && forall k :: i <= k < |s| ==> IsDigit(s[k])
    ensures DigitRunEnd(s, i) == |s|
    decreases |s| - i
  {
    if i < |s| {
      DigitRunOfDigits(s, i + 1);
    }
  }

  /** A plain non-negative decimal integer that fits an `int` converts to its value. */
  lemma ParseIntOfDigits(s: DigitString)
    requires s != [] && DigitsValue(s) <= INT_MAX
    ensures ParseInt(s) == Some(DigitsValue(s))
  {
    assert !IsSpace(s[0]);
    assert SpaceRunEnd(s, 0) == 0;
    DigitRunOfDigits(s, 0);
    assert DigitsAt(s, 0) == s[0..|s|] == s;
  }
}
