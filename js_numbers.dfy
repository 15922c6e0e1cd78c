/**
 * The JavaScript number built-ins the core relies on, over decimal text:
 * `Number(text)`, `parseFloat(text)`, `x.toString()` and `x.toFixed(1)` for
 * values with one decimal, JavaScript truthiness (`x || d`) and `===`.
 *
 * Numbers are reals; a value with one decimal is carried as its count of
 * tenths. The parsers read plain decimal notation (digits, at most one '.',
 * digits); every other spelling JavaScript accepts is listed in README.md.
 */
module JsNumbers {
  import opened Types

  predicate IsDigit(c: char) { '0' <= c <= '9' }

  predicate AllDigits(s: string) { forall i :: 0 <= i < |s| ==> IsDigit(s[i]) }

  function DigitValue(c: char): nat
    requires IsDigit(c)
  {
    c as int - '0' as int
  }

  function DigitChar(d: nat): (c: char)
    requires d < 10
    ensures IsDigit(c) && DigitValue(c) == d
  {
    ('0' as int + d) as char
  }

  /** The value of a string of decimal digits ("" reads as 0). */
  function DigitsValue(s: string): nat
    requires AllDigits(s)
    decreases |s|
  {
    if s == [] then 0 else DigitsValue(s[..|s| - 1]) * 10 + DigitValue(s[|s| - 1])
  }

  function Pow10(n: nat): (p: nat)
    ensures p >= 1
  {
    if n == 0 then 1 else 10 * Pow10(n - 1)
  }

  /** The length of the run of digits that starts s. */
  function LeadingDigits(s: string): (n: nat)
    ensures n <= |s| && AllDigits(s[..n])
    ensures n < |s| ==> !IsDigit(s[n])
  {
    if s == [] || !IsDigit(s[0]) then 0
    else
      var n := 1 + LeadingDigits(s[1..]);
      assert s[..n] == [s[0]] + s[1..][..n - 1];
      n
  }

  /** The value of the decimal numeral `whole.fraction`. */
  function DecimalValue(whole: string, fraction: string): real
    requires AllDigits(whole) && AllDigits(fraction)
  {
    DigitsValue(whole) as real + DigitsValue(fraction) as real / Pow10(|fraction|) as real
  }

  /**
   * The shape of `/^\d*\.?\d*$/`: a run of digits, then optionally one '.'
   * followed by nothing but digits.
   */
  predicate DecimalShape(s: string) {
    var i := LeadingDigits(s);
    i == |s| || (s[i] == '.' && AllDigits(s[i + 1..]))
  }

  /**
   * `parseFloat(s)`: the value of the longest decimal numeral that starts s
   * (a run of digits, optionally '.' and a second run, at least one digit in
   * all); NaN when s does not start with one. Whatever follows is ignored.
   */
  function ParseFloat(s: string): (r: JsNum)
    ensures r.Finite? ==> r.value >= 0.0
  {
    var i := LeadingDigits(s);
    if i < |s| && s[i] == '.' then
      var fraction := s[i + 1..];
      var j := LeadingDigits(fraction);
      if i == 0 && j == 0 then NaN else Finite(DecimalValue(s[..i], fraction[..j]))
    else if i == 0 then NaN
    else Finite(DigitsValue(s[..i]) as real)
  }

  function Negate(n: JsNum): JsNum {
    match n
    case NaN => NaN
    case Finite(v) => Finite(-v)
  }

  /** Text that is a decimal numeral from its first character to its last. */
  predicate IsNumeral(t: string) {
    DecimalShape(t) && exists i :: 0 <= i < |t| && IsDigit(t[i])
  }

  /**
   * `Number(s)` of a string: "" is 0; otherwise an optional sign and a
   * numeral that must fill the whole string, else NaN.
   */
  function NumberOf(s: string): (r: JsNum)
    ensures s == "" ==> r == Finite(0.0)
    ensures IsNumeral(s) ==> r == ParseFloat(s)
    ensures s != "" && !IsNumeral(s) && s[0] != '-' && s[0] != '+' ==> r == NaN
    ensures |s| >= 2 && (s[0] == '+' || s[0] == '-') && IsNumeral(s[1..]) ==>
      r == (if s[0] == '-' then Negate(ParseFloat(s[1..])) else ParseFloat(s[1..]))
    ensures s != "" && (s[0] == '+' || s[0] == '-') && !IsNumeral(s[1..]) ==> r == NaN
  {
    if s == "" then Finite(0.0)
    else if s[0] == '-' then Negate(UnsignedNumber(s[1..]))
    else if s[0] == '+' then UnsignedNumber(s[1..])
    else UnsignedNumber(s)
  }

  function UnsignedNumber(t: string): JsNum {
    if IsNumeral(t) then ParseFloat(t) else NaN
  }

  /** `Number(v)` for a field that may hold a number or text. */
  function ToNumber(v: Scalar): JsNum {
    match v
    case Number(n) => n
    case Text(s) => NumberOf(s)
  }

  /** JavaScript truthiness of a number: NaN and 0 are falsy. */
  predicate Truthy(n: JsNum) { n.Finite? && n.value != 0.0 }

  /** `n || fallback` for a number n. */
  function OrElse(n: JsNum, fallback: real): real {
    if Truthy(n) then n.value else fallback
  }

  /** `a === b` on numbers: NaN equals nothing, itself included. */
  predicate StrictEquals(a: JsNum, b: JsNum) {
    a.Finite? && b.Finite? && a.value == b.value
  }

  function Min(a: real, b: real): real { if a <= b then a else b }

  function Max(a: real, b: real): real { if a >= b then a else b }

  /** The decimal text of n, without leading zeros: `String(n)` for a natural number. */
  function NatToDigits(n: nat): (s: string)
    ensures |s| >= 1 && AllDigits(s)
    decreases n
  {
    if n < 10 then [DigitChar(n)] else NatToDigits(n / 10) + [DigitChar(n % 10)]
  }

  /**
   * `(t / 10).toFixed(1)` for values below 1e21: the whole part, '.', and
   * exactly one decimal. JavaScript writes exponent notation (or "Infinity")
   * from 1e21 up; this function writes digits for every t.
   */
  function ToFixed1(t: nat): string {
    NatToDigits(t / 10) + ['.', DigitChar(t % 10)]
  }

  /** `(t / 10).toString()`: like ToFixed1, but a zero decimal is omitted. */
  function TenthsToString(t: nat): string {
    if t % 10 == 0 then NatToDigits(t / 10) else ToFixed1(t)
  }

  /**
   * The number of tenths `x.toFixed(1)` writes for x: the nearest tenth,
   * a tie going up (binary rounding error is not modelled).
   */
  function RoundToTenths(x: real): (t: int)
    ensures x * 10.0 - 0.5 < t as real <= x * 10.0 + 0.5
  {
    (x * 10.0 + 0.5).Floor
  }

  // ----- lemmas: the parsers read back what the formatters write -----

  lemma {:induction false} DigitsValueAppend(s: string, c: char)
    requires AllDigits(s) && IsDigit(c)
    ensures AllDigits(s + [c])
    ensures DigitsValue(s + [c]) == DigitsValue(s) * 10 + DigitValue(c)
  {
    assert (s + [c])[..|s + [c]| - 1] == s;
  }

  lemma {:induction false} NatToDigitsValue(n: nat)
    ensures DigitsValue(NatToDigits(n)) == n
    decreases n
  {
    if n < 10 {
      assert [DigitChar(n)][..0] == [];
    } else {
      NatToDigitsValue(n / 10);
      DigitsValueAppend(NatToDigits(n / 10), DigitChar(n % 10));
    }
  }

  lemma {:induction false} LeadingDigitsAppend(d: string, rest: string)
    requires AllDigits(d)
    ensures LeadingDigits(d + rest) == |d| + LeadingDigits(rest)
    decreases |d|
  {
    if d != [] {
      assert (d + rest)[1..] == d[1..] + rest;
      LeadingDigitsAppend(d[1..], rest);
    } else {
      assert d + rest == rest;
    }
  }

  /** A numeral `d.e` with a single decimal e reads as d + e/10. */
  lemma ParseFloatOneDecimal(d: string, e: char)
    requires AllDigits(d) && IsDigit(e)
    ensures ParseFloat(d + ['.', e]) == Finite(DigitsValue(d) as real + DigitValue(e) as real / 10.0)
    ensures DecimalShape(d + ['.', e]) && IsNumeral(d + ['.', e])
  {
    var s := d + ['.', e];
    LeadingDigitsAppend(d, ['.', e]);
    assert LeadingDigits(['.', e]) == 0;
    assert LeadingDigits(s) == |d|;
    assert s[|d|] == '.';
    assert s[..|d|] == d;
    assert s[|d| + 1..] == [e];
    assert LeadingDigits([e]) == 1;
    assert [e][..1] == [e];
    DigitsValueAppend([], e);
    assert [] + [e] == [e];
    assert Pow10(1) == 10;
    assert DecimalValue(d, [e]) == DigitsValue(d) as real + DigitValue(e) as real / 10.0;
    assert IsDigit(s[|d| + 1]);
  }

  lemma ParseFloatDigits(d: string)
    requires AllDigits(d) && d != []
    ensures ParseFloat(d) == Finite(DigitsValue(d) as real)
    ensures DecimalShape(d) && IsNumeral(d)
  {
    LeadingDigitsAppend(d, []);
    assert d + [] == d;
    assert d[..|d|] == d;
    assert IsDigit(d[0]);
  }

  /** parseFloat reads back the text of a natural number. */
  lemma ParseFloatNat(n: nat)
    ensures ParseFloat(NatToDigits(n)) == Finite(n as real)
    ensures DecimalShape(NatToDigits(n)) && IsNumeral(NatToDigits(n))
  {
    ParseFloatDigits(NatToDigits(n));
    NatToDigitsValue(n);
  }

  /** parseFloat reads back what toFixed(1) writes. */
  lemma ParseFloatToFixed1(t: nat)
    ensures ParseFloat(ToFixed1(t)) == Finite(t as real / 10.0)
    ensures DecimalShape(ToFixed1(t)) && IsNumeral(ToFixed1(t))
  {
    ParseFloatOneDecimal(NatToDigits(t / 10), DigitChar(t % 10));
    NatToDigitsValue(t / 10);
    assert t == (t / 10) * 10 + t % 10;
    assert (t / 10) as real + (t % 10) as real / 10.0 == t as real / 10.0;
  }

  /** parseFloat reads back what toString writes for a value with one decimal. */
  lemma ParseFloatTenthsToString(t: nat)
    ensures ParseFloat(TenthsToString(t)) == Finite(t as real / 10.0)
    ensures DecimalShape(TenthsToString(t)) && IsNumeral(TenthsToString(t))
  {
    if t % 10 == 0 {
      ParseFloatNat(t / 10);
      assert t == (t / 10) * 10;
      assert (t / 10) as real == t as real / 10.0;
    } else {
      ParseFloatToFixed1(t);
    }
  }

  /** A value that already has one decimal is written back unchanged by toFixed(1). */
  lemma RoundToTenthsExact(m: int)
    ensures RoundToTenths(m as real / 10.0) == m
  {
    assert (m as real / 10.0) * 10.0 == m as real;
  }
}
