/**
 * Decimal rendering of build numbers: Java's `String.valueOf(int)` on the
 * server and JavaScript's `Number.prototype.toString()` in the ingestion
 * script, which agree on integers; and the value of a digit string, which is
 * how a `{build}` path segment becomes a number.
 */
module Decimal {
  import opened Patterns

  function DigitChar(d: int): (c: char)
    requires 0 <= d < 10
    ensures IsDigit(c)
  {
    "0123456789"[d]
  }

  function DigitValue(c: char): (d: int)
    requires IsDigit(c)
    ensures 0 <= d < 10
  {
    c as int - '0' as int
  }

  lemma DigitRoundTrip(d: int)
    requires 0 <= d < 10
    ensures DigitValue(DigitChar(d)) == d
  {
  }

  /** The shortest decimal digits of `n`: no leading zero unless `n` is 0. */
  function NatToDecimal(n: nat): (s: string)
    ensures IsBuildNumber(s)
    ensures s[0] == '0' <==> n == 0
    decreases n
  {
    if n < 10 then [DigitChar(n)]
    else
      var prefix := NatToDecimal(n / 10);
      assert prefix[0] != '0';
      prefix + [DigitChar(n % 10)]
  }

  /** `String.valueOf(n)`: a minus sign before the digits of a negative number. */
  function IntToDecimal(n: int): (s: string)
    ensures s != [] && '/' !in s
    ensures n >= 0 ==> IsBuildNumber(s)
  {
    if n < 0 then "-" + NatToDecimal(-n) else NatToDecimal(n)
  }

  /** The value of a string of decimal digits. */
  function DecimalValue(s: string): (n: nat)
    requires forall i :: 0 <= i < |s| ==> IsDigit(s[i])
    decreases |s|
  {
    if s == [] then 0
    else DecimalValue(s[..|s| - 1]) * 10 + DigitValue(s[|s| - 1])
  }

  /** Reading back the rendered digits gives the number. */
  lemma {:induction false} DecimalRoundTrip(n: nat)
    ensures DecimalValue(NatToDecimal(n)) == n
    decreases n
  {
    if n >= 10 {
      var s := NatToDecimal(n);
      var prefix := NatToDecimal(n / 10);
      assert s[..|s| - 1] == prefix;
      DecimalRoundTrip(n / 10);
      DigitRoundTrip(n % 10);
    } else {
      DigitRoundTrip(n);
    }
  }

  /** Different numbers render differently. */
  lemma NatToDecimalInjective(a: nat, b: nat)
    requires NatToDecimal(a) == NatToDecimal(b)
    ensures a == b
  {
    DecimalRoundTrip(a);
    DecimalRoundTrip(b);
  }

  /** Different numbers render differently, negative ones included. */
  lemma IntToDecimalInjective(a: int, b: int)
    requires IntToDecimal(a) == IntToDecimal(b)
    ensures a == b
  {
    SignOfRendering(a);
    SignOfRendering(b);
    if a < 0 && b < 0 {
      var x, y := NatToDecimal(-a), NatToDecimal(-b);
      assert ("-" + x)[1..] == x && ("-" + y)[1..] == y;
      NatToDecimalInjective(-a, -b);
    } else if a >= 0 && b >= 0 {
      NatToDecimalInjective(a, b);
    }
  }

  lemma SignOfRendering(n: int)
    ensures IntToDecimal(n)[0] == '-' <==> n < 0
  {
    if n >= 0 {
      assert IsDigit(NatToDecimal(n)[0]);
    }
  }

  /** A digit string without a leading zero is the rendering of its value. */
  lemma {:induction false} CanonicalDigits(s: string)
    requires IsBuildNumber(s) && (s[0] == '0' ==> |s| == 1)
    ensures NatToDecimal(DecimalValue(s)) == s
    decreases |s|
  {
    var last := DigitValue(s[|s| - 1]);
    if |s| == 1 {
      assert DecimalValue(s[..0]) == 0;
      assert "0123456789"[last] == s[0];
    } else {
      var prefix := s[..|s| - 1];
      assert prefix[0] == s[0];
      CanonicalDigits(prefix);
      var n := DecimalValue(s);
      assert prefix[0] != '0';
      assert DecimalValue(prefix) >= 1;
      assert n / 10 == DecimalValue(prefix) && n % 10 == last;
      assert "0123456789"[last] == s[|s| - 1];
      assert s == prefix + [s[|s| - 1]];
    }
  }
}
