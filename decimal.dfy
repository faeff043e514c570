/** Decimal rendering of a natural number, as Rust's `{}` formats an integer,
    with the parse that inverts it. */
module Decimal {

  predicate IsDigit(c: char) {
    '0' <= c <= '9'
  }

  /** Numeric value of a digit character. */
  function DigitValue(c: char): (d: nat)
    requires IsDigit(c)
    ensures d < 10
  {
    (c as int) - ('0' as int)
  }

  function DigitChar(d: nat): (c: char)
    requires d < 10
    ensures IsDigit(c) && (c as int) - ('0' as int) == d
  {
    (('0' as int) + d) as char
  }

  /** Shortest decimal text of `n`, most significant digit first. */
  function Format(n: nat): string
    decreases n
  {
    if n < 10 then [DigitChar(n)] else Format(n / 10) + [DigitChar(n % 10)]
  }

  /** The text is non-empty, all digits, with no leading zero. */
  lemma {:induction false} FormatDigits(n: nat)
    ensures |Format(n)| >= 1
    ensures forall k :: 0 <= k < |Format(n)| ==> IsDigit(Format(n)[k])
    ensures |Format(n)| > 1 ==> Format(n)[0] != '0'
    decreases n
  {
    if n >= 10 {
      FormatDigits(n / 10);
      if |Format(n / 10)| == 1 {
        assert n / 10 > 0;
      }
    }
  }

  /** Value of a string of decimal digits. */
  function Parse(s: string): nat
    requires forall k :: 0 <= k < |s| ==> IsDigit(s[k])
  {
    if s == [] then 0
    else Parse(s[..|s| - 1]) * 10 + DigitValue(s[|s| - 1])
  }

  /** Parsing the formatted text gives the number back. */
  lemma {:induction false} ParseFormat(n: nat)
    ensures (forall k :: 0 <= k < |Format(n)| ==> IsDigit(Format(n)[k])) && Parse(Format(n)) == n
    decreases n
  {
    FormatDigits(n);
    if n >= 10 {
      var s := Format(n);
      FormatDigits(n / 10);
      assert s[..|s| - 1] == Format(n / 10);
      ParseFormat(n / 10);
    }
  }

  /** Different numbers format to different text. */
  lemma FormatInjective(a: nat, b: nat)
    requires Format(a) == Format(b)
    ensures a == b
  {
    ParseFormat(a);
    ParseFormat(b);
  }
}
