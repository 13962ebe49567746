/** Whole-string decimal conversion, the part of boost::lexical_cast<long> and
    boost::lexical_cast<int> that the configuration loader relies on: an optional
    sign followed by one or more decimal digits, and nothing else. A string that
    is not of that shape, or whose value does not fit the target type, fails;
    the failure (a bad_lexical_cast exception in the source) is `None` here. */
module LexicalCast {
  import opened Wrappers

  /** Range of `long` on the LP64 platforms the service is built for. */
  const LONG_MIN: int := -0x8000_0000_0000_0000
  const LONG_MAX: int := 0x7FFF_FFFF_FFFF_FFFF
  /** Range of `int`. */
  const INT_MIN: int := -0x8000_0000
  const INT_MAX: int := 0x7FFF_FFFF

  predicate IsDigit(c: char) {
    '0' <= c <= '9'
  }

  predicate AllDigits(s: string) {
    forall i :: 0 <= i < |s| ==> IsDigit(s[i])
  }

  predicate IsSign(c: char) {
    c == '+' || c == '-'
  }

  /** The accepted syntax: an optional sign, then at least one digit. */
  predicate IsDecimal(s: string) {
    if |s| > 0 && IsSign(s[0]) then |s| > 1 && AllDigits(s[1..])
    else |s| > 0 && AllDigits(s)
  }

  function DigitValue(c: char): (d: nat)
    requires IsDigit(c)
    ensures d < 10
  {
    c as int - '0' as int
  }

  function DigitChar(d: nat): (c: char)
    requires d < 10
    ensures IsDigit(c) && DigitValue(c) == d
  {
    ('0' as int + d) as char
  }

  /** The value of a digit string, most significant digit first. */
  function DigitsValue(s: string): nat
    requires AllDigits(s)
    decreases |s|
  {
    if s == [] then 0 else 10 * DigitsValue(s[..|s| - 1]) + DigitValue(s[|s| - 1])
  }

  /** The integer a decimal string denotes; `None` when the string is not decimal. */
  function ParseDecimal(s: string): (r: Option<int>)
    ensures r.Some? <==> IsDecimal(s)
    ensures r.Some? && s[0] == '-' ==> r.value <= 0
    ensures r.Some? && s[0] != '-' ==> r.value >= 0
  {
    if |s| > 0 && IsSign(s[0]) then
      if |s| > 1 && AllDigits(s[1..]) then
        var magnitude: int := DigitsValue(s[1..]);
        Some(if s[0] == '-' then -magnitude else magnitude)
      else None
    else if |s| > 0 && AllDigits(s) then Some(DigitsValue(s))
    else None
  }

  /** lexical_cast to a signed integer type whose range is [lo, hi]. */
  function CastInteger(s: string, lo: int, hi: int): (r: Option<int>)
    ensures r.Some? <==> IsDecimal(s) && lo <= ParseDecimal(s).value <= hi
    ensures r.Some? ==> r == ParseDecimal(s) && lo <= r.value <= hi
  {
    match ParseDecimal(s)
    case Some(v) => if lo <= v <= hi then Some(v) else None
    case None => None
  }

  /** Decimal rendering of a natural number, without leading zeros. */
  function FormatNat(n: nat): string
    decreases n
  {
    if n < 10 then [DigitChar(n)] else FormatNat(n / 10) + [DigitChar(n % 10)]
  }

  /** Decimal rendering of an integer, with a '-' for negative values: the
      inverse of ParseDecimal on its canonical strings. */
  function FormatDecimal(n: int): string {
    if n < 0 then "-" + FormatNat(-n) else FormatNat(n)
  }

  lemma {:induction false} FormatNatDigits(n: nat)
    ensures |FormatNat(n)| > 0 && AllDigits(FormatNat(n))
    ensures DigitsValue(FormatNat(n)) == n
    decreases n
  {
    if n >= 10 {
      FormatNatDigits(n / 10);
      var s := FormatNat(n / 10) + [DigitChar(n % 10)];
      assert s[..|s| - 1] == FormatNat(n / 10);
    }
  }

  /** Every integer survives the round trip through its decimal rendering. */
  lemma ParseFormatRoundTrip(n: int)
    ensures ParseDecimal(FormatDecimal(n)) == Some(n)
  {
    if n < 0 {
      FormatNatDigits(-n);
      assert FormatDecimal(n)[1..] == FormatNat(-n);
    } else {
      FormatNatDigits(n);
      assert !IsSign(FormatDecimal(n)[0]);
    }
  }

  /** A leading '+' does not change the value: "+42" and "42" cast alike. */
  lemma PlusSignIsNeutral(s: string)
    requires |s| > 0 && AllDigits(s)
    ensures ParseDecimal("+" + s) == ParseDecimal(s)
  {
    assert ("+" + s)[1..] == s;
    assert !IsSign(s[0]);
  }
}
