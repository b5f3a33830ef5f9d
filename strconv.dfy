/**
 * The two number parsers of Go's `strconv` package that the benchmark-line
 * parser calls (`Atoi` and `ParseFloat`), for a 64-bit `int`, together with a
 * reference decimal formatter (`Itoa`) that serves as their partner in the
 * round-trip lemmas.
 */
module Strconv {

  /** Range of Go's `int` on a 64-bit platform. */
  const MinInt: int := -0x8000_0000_0000_0000
  const MaxInt: int := 0x7FFF_FFFF_FFFF_FFFF

  predicate IsDigit(c: char) {
    '0' <= c <= '9'
  }

  predicate AllDigits(s: string) {
    forall i :: 0 <= i < |s| ==> IsDigit(s[i])
  }

  function DigitValue(c: char): nat
    requires IsDigit(c)
  {
    c as int - '0' as int
  }

  function DigitChar(d: nat): (c: char)
    requires d < 10
    ensures IsDigit(c) && DigitValue(c) == d
  {
    ('0' as int + d) as char
  }

  /** Value of a string of decimal digits, most significant digit first. */
  function DigitsValue(s: string): nat
    requires AllDigits(s)
  {
    if s == [] then 0 else DigitsValue(s[..|s| - 1]) * 10 + DigitValue(s[|s| - 1])
  }

  /** What `Atoi` accepts syntactically: an optional sign, then at least one digit. */
  predicate IsIntSyntax(s: string) {
    if |s| > 0 && (s[0] == '+' || s[0] == '-') then |s| > 1 && AllDigits(s[1..])
    else |s| > 0 && AllDigits(s)
  }

  function SyntaxValue(s: string): int
    requires IsIntSyntax(s)
  {
    var magnitude: int := if s[0] == '-' || s[0] == '+' then DigitsValue(s[1..]) else DigitsValue(s);
    if s[0] == '-' then -magnitude else magnitude
  }

  /** The pair `(value, err == nil)` that `strconv.Atoi` returns. */
  datatype IntResult = IntResult(value: int, ok: bool)

  /** Largest value of Go's `uint64`, the accumulator of `strconv.ParseUint`. */
  const MaxUint: int := 0xFFFF_FFFF_FFFF_FFFF

  /** s without a leading '+' or '-'. */
  function Unsigned(s: string): (u: string)
    ensures u == s || (|s| > 0 && (s[0] == '+' || s[0] == '-') && u == s[1..])
  {
    if |s| > 0 && (s[0] == '+' || s[0] == '-') then s[1..] else s
  }

  /** The longest run of digits s starts with. */
  function LeadingDigits(s: string): (p: string)
    ensures p <= s && AllDigits(p)
    ensures |p| < |s| ==> !IsDigit(s[|p|])
  {
    if s == [] || !IsDigit(s[0]) then []
    else
      var rest := LeadingDigits(s[1..]);
      assert s == [s[0]] + s[1..];
      [s[0]] + rest
  }

  /**
   * `strconv.ParseUint` scans the digits after the sign from left to right and
   * gives up with a range error as soon as the value read so far exceeds
   * `MaxUint`, before it looks at any later character; this is the case where
   * the digits before the first non-digit already exceed it.
   */
  predicate Overflows(s: string) {
    DigitsValue(LeadingDigits(Unsigned(s))) > MaxUint
  }

  /**
   * `strconv.Atoi`: when the digits overflow before any syntax error is seen,
   * the value is clamped to the bound of the sign and reported as a range
   * error; otherwise a syntax error gives 0, a well-formed number outside the
   * `int` range is clamped to the nearest bound with a range error, and any
   * other number is returned without error.
   */
  function Atoi(s: string): (r: IntResult)
    ensures MinInt <= r.value <= MaxInt
    ensures r.ok ==> IsIntSyntax(s) && r.value == SyntaxValue(s)
    ensures !IsIntSyntax(s) && !Overflows(s) ==> r == IntResult(0, false)
    ensures IsIntSyntax(s) && MinInt <= SyntaxValue(s) <= MaxInt ==> r == IntResult(SyntaxValue(s), true)
  {
    InRangeNoOverflow(s);
    if Overflows(s) then IntResult(if s[0] == '-' then MinInt else MaxInt, false)
    else if !IsIntSyntax(s) then IntResult(0, false)
    else
      var v := SyntaxValue(s);
      if v < MinInt then IntResult(MinInt, false)
      else if v > MaxInt then IntResult(MaxInt, false)
      else IntResult(v, true)
  }

  /**
   * The value the source keeps when it replaces a failed parse by a sentinel:
   * the number the text spells when `Atoi` accepts it, and the sentinel
   * otherwise.
   */
  function AtoiOr(s: string, sentinel: int): (v: int)
    ensures v == sentinel || (IsIntSyntax(s) && v == SyntaxValue(s) && MinInt <= v <= MaxInt)
    ensures IsIntSyntax(s) && MinInt <= SyntaxValue(s) <= MaxInt ==> v == SyntaxValue(s)
  {
    var r := Atoi(s);
    if r.ok then r.value else sentinel
  }

  /** The pair `(value, err == nil)` that `strconv.ParseFloat(s, 64)` returns. */
  datatype FloatResult = FloatResult(value: real, ok: bool)

  function Pow10(n: nat): (p: real)
    ensures p >= 1.0
  {
    if n == 0 then 1.0 else 10.0 * Pow10(n - 1)
  }

  /** Index of the first '.' in s, or |s| when there is none. */
  function DotIndex(s: string): (d: nat)
    ensures d <= |s|
    ensures d < |s| ==> s[d] == '.'
    ensures forall i :: 0 <= i < d ==> s[i] != '.'
  {
    if s == [] || s[0] == '.' then 0 else 1 + DotIndex(s[1..])
  }

  /** Digits with an optional '.' and fraction, at least one digit in all. */
  function ParseUnsignedDecimal(s: string): FloatResult {
    var d := DotIndex(s);
    var whole, frac := s[..d], if d < |s| then s[d + 1..] else [];
    if AllDigits(whole) && AllDigits(frac) && |whole| + |frac| > 0 then
      FloatResult(DigitsValue(whole) as real + DigitsValue(frac) as real / Pow10(|frac|), true)
    else
      FloatResult(0.0, false)
  }

  /**
   * `strconv.ParseFloat(s, 64)` restricted to plain decimal notation: an
   * optional sign, digits, an optional '.' and fraction. The value is exact.
   */
  function ParseFloat(s: string): (r: FloatResult)
    ensures !r.ok ==> r.value == 0.0
  {
    if |s| > 0 && (s[0] == '+' || s[0] == '-') then
      var u := ParseUnsignedDecimal(s[1..]);
      if s[0] == '-' then FloatResult(-u.value, u.ok) else u
    else
      ParseUnsignedDecimal(s)
  }

  /** `ParseFloat`'s value when it succeeds, the sentinel otherwise. */
  function FloatOr(s: string, sentinel: real): (v: real)
    ensures ParseFloat(s).ok ==> v == ParseFloat(s).value
    ensures !ParseFloat(s).ok ==> v == sentinel
  {
    var r := ParseFloat(s);
    if r.ok then r.value else sentinel
  }

  /** Reference formatter: the decimal digits of n without leading zeros. */
  function Digits(n: nat): (s: string)
    ensures |s| > 0 && AllDigits(s)
    decreases n
  {
    if n < 10 then [DigitChar(n)] else Digits(n / 10) + [DigitChar(n % 10)]
  }

  /** Reference formatter `strconv.Itoa`. */
  function Itoa(v: int): string {
    if v < 0 then "-" + Digits(-v) else Digits(v)
  }

  lemma {:induction false} DigitsValueOfDigits(n: nat)
    ensures DigitsValue(Digits(n)) == n
    decreases n
  {
    if n >= 10 {
      var s := Digits(n);
      DigitsValueOfDigits(n / 10);
      assert s[..|s| - 1] == Digits(n / 10);
    }
  }

  lemma {:induction false} LeadingDigitsOf(ds: string, rest: string)
    requires AllDigits(ds)
    requires rest == [] || !IsDigit(rest[0])
    ensures LeadingDigits(ds + rest) == ds
    decreases |ds|
  {
    if ds != [] {
      assert (ds + rest)[1..] == ds[1..] + rest;
      LeadingDigitsOf(ds[1..], rest);
    } else {
      assert ds + rest == rest;
    }
  }

  /** A well-formed number within the `int` range does not overflow the scan. */
  lemma InRangeNoOverflow(s: string)
    ensures IsIntSyntax(s) && MinInt <= SyntaxValue(s) <= MaxInt ==> !Overflows(s)
  {
    if IsIntSyntax(s) && MinInt <= SyntaxValue(s) <= MaxInt {
      var u := Unsigned(s);
      assert u == if s[0] == '+' || s[0] == '-' then s[1..] else s;
      LeadingDigitsOf(u, []);
      assert u + [] == u;
    }
  }

  /** Formatting an in-range integer and parsing it back with `Atoi` gives it back without error. */
  lemma AtoiOfItoa(v: int)
    requires MinInt <= v <= MaxInt
    ensures Atoi(Itoa(v)) == IntResult(v, true)
  {
    if v < 0 {
      DigitsValueOfDigits(-v);
      assert Itoa(v)[1..] == Digits(-v);
    } else {
      DigitsValueOfDigits(v);
    }
    assert IsIntSyntax(Itoa(v)) && SyntaxValue(Itoa(v)) == v;
  }

  /**
   * Digits whose value exceeds `MaxUint` followed by a non-digit are read as a
   * range error with the value `MaxInt`, not as a syntax error.
   */
  lemma AtoiOfOverflow(ds: string, rest: string)
    requires AllDigits(ds) && DigitsValue(ds) > MaxUint
    requires rest == [] || !IsDigit(rest[0])
    ensures Atoi(ds + rest) == IntResult(MaxInt, false)
  {
    LeadingDigitsOf(ds, rest);
    assert ds != [];
    assert (ds + rest)[0] == ds[0];
    assert Unsigned(ds + rest) == ds + rest;
  }

  /** Integer timings such as "21618" go through `ParseFloat` unchanged. */
  lemma ParseFloatOfDigits(n: nat)
    ensures ParseFloat(Digits(n)) == FloatResult(n as real, true)
  {
    var s := Digits(n);
    assert s[0] != '+' && s[0] != '-' by { assert IsDigit(s[0]); }
    assert forall i :: 0 <= i < |s| ==> s[i] != '.' by { assert AllDigits(s); }
    assert DotIndex(s) == |s|;
    assert s[..|s|] == s;
    DigitsValueOfDigits(n);
  }

  lemma {:induction false} DotIndexAfterDigits(whole: string, t: string)
    requires AllDigits(whole)
    ensures DotIndex(whole + t) == |whole| + DotIndex(t)
    decreases |whole|
  {
    if whole != [] {
      assert (whole + t)[1..] == whole[1..] + t;
      DotIndexAfterDigits(whole[1..], t);
    } else {
      assert whole + t == t;
    }
  }

  /** A digit string with a fraction part reads as whole + fraction / 10^|fraction|. */
  lemma ParseFloatOfDecimal(whole: string, frac: string)
    requires AllDigits(whole) && AllDigits(frac) && |whole| > 0
    ensures ParseFloat(whole + "." + frac)
         == FloatResult(DigitsValue(whole) as real + DigitsValue(frac) as real / Pow10(|frac|), true)
  {
    var s := whole + ("." + frac);
    assert s == whole + "." + frac;
    assert s[0] == whole[0];
    assert s[0] != '+' && s[0] != '-' by { assert IsDigit(whole[0]); }
    DotIndexAfterDigits(whole, "." + frac);
    var d := DotIndex(s);
    assert d == |whole|;
    assert s[..d] == whole;
    assert s[d + 1..] == frac;
    assert ParseFloat(s) == ParseUnsignedDecimal(s);
  }
}
