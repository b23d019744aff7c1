/** Decimal text of counts: `Number.toString` and `parseInt(s, 10)` on non-negative numbers. */
module Numbers {
  import opened Wrappers
  import opened Types

  predicate IsDigit(c: char)
  {
    '0' <= c <= '9'
  }

  predicate AllDigits(s: string)
  {
    forall i :: 0 <= i < |s| ==> IsDigit(s[i])
  }

  function DigitValue(c: char): nat
    requires IsDigit(c)
  {
    c as int - '0' as int
  }

  function DigitChar(d: nat): (c: char)
    requires d < 10
    ensures IsDigit(c) && DigitValue(c) == d
  {
    ('0' as int + d) as char
  }

  /** Length of the longest prefix of `s` made of decimal digits. */
  function DigitPrefixLength(s: string): (k: nat)
    ensures k <= |s|
    ensures AllDigits(s[..k])
    ensures k < |s| ==> !IsDigit(s[k])
  {
    if s == [] || !IsDigit(s[0]) then 0
    else
      var k := 1 + DigitPrefixLength(s[1..]);
      assert s[..k] == [s[0]] + s[1..][..k - 1];
      k
  }

  /** Value of a string of decimal digits, most significant digit first. */
  function DigitsValue(s: string): nat
    requires AllDigits(s)
  {
    if s == [] then 0 else 10 * DigitsValue(s[..|s| - 1]) + DigitValue(s[|s| - 1])
  }

  /** `parseInt(s, 10)`: the value of the leading decimal digits, NaN when there are none. */
  function ParseInt(s: string): (r: JsCount)
    ensures r.NaN? <==> s == [] || !IsDigit(s[0])
  {
    var k := DigitPrefixLength(s);
    if k == 0 then NaN else Count(DigitsValue(s[..k]))
  }

  /** `parseInt(field || '0', 10)`: a missing or empty field reads as "0". */
  function ParseCount(field: Option<string>): JsCount
  {
    if field.None? || field.value == "" then ParseInt("0") else ParseInt(field.value)
  }

  /** Decimal text of `n` without leading zeros (`n.toString()`). */
  function NatToDecimal(n: nat): (s: string)
    ensures |s| >= 1 && AllDigits(s)
    ensures |s| > 1 ==> s[0] != '0'
  {
    if n < 10 then [DigitChar(n)] else NatToDecimal(n / 10) + [DigitChar(n % 10)]
  }

  lemma {:induction false} DigitsValueOfDecimal(n: nat)
    ensures DigitsValue(NatToDecimal(n)) == n
  {
    if n >= 10 {
      var s := NatToDecimal(n);
      assert s[..|s| - 1] == NatToDecimal(n / 10);
      DigitsValueOfDecimal(n / 10);
    }
  }

  /** Parsing the decimal text of a count gives the count back, whatever non-digit text follows it. */
  lemma ParseIntOfDecimal(n: nat, rest: string)
    requires rest == [] || !IsDigit(rest[0])
    ensures ParseInt(NatToDecimal(n) + rest) == Count(n)
  {
    var d := NatToDecimal(n);
    var s := d + rest;
    var k := DigitPrefixLength(s);
    assert s[..|d|] == d;
    assert s[..k] == d;
    DigitsValueOfDecimal(n);
  }

  /** What the statistics parser makes of a field: missing or empty is 0, the decimal text of n is n,
      text that does not start with a digit is NaN. */
  lemma ParseCountCases(field: Option<string>, n: nat)
    ensures field.None? || field.value == "" ==> ParseCount(field) == Count(0)
    ensures field == Some(NatToDecimal(n)) ==> ParseCount(field) == Count(n)
    ensures field.Some? && field.value != "" && !IsDigit(field.value[0]) ==> ParseCount(field) == NaN
  {
    ParseIntOfDecimal(0, "");
    assert NatToDecimal(0) + "" == "0";
    ParseIntOfDecimal(n, "");
    assert NatToDecimal(n) + "" == NatToDecimal(n);
  }
}
