/**
  Decimal text of integers, and the fixed-point text of a timestamp.

  Timestamps and clock readings are integers counting microseconds. The
  broadcaster prints a packet's timestamp with six decimals (`{:.6f}`), which
  for a whole number of microseconds is exactly: an optional minus sign, the
  whole seconds, a dot, and the microseconds padded to six digits.
*/
module Decimal {
  import opened Wrappers

  const MicrosPerSecond: nat := 1000000

  predicate IsDigit(c: char) { '0' <= c <= '9' }

  predicate AllDigits(s: string) { forall i :: 0 <= i < |s| ==> IsDigit(s[i]) }

  function DigitValue(c: char): (d: nat)
    requires IsDigit(c)
    ensures d < 10
  {
    c as int - '0' as int
  }

  function DigitChar(d: nat): (c: char)
    requires d < 10
    ensures IsDigit(c) && DigitValue(c) == d
  {
    ('0' as int + d) as char
  }

  function Pow10(w: nat): (p: nat)
    ensures p >= 1
  {
    if w == 0 then 1 else 10 * Pow10(w - 1)
  }

  /** The number a string of decimal digits denotes (most significant first). */
  function DigitsValue(s: string): nat
    requires AllDigits(s)
  {
    if s == [] then 0 else 10 * DigitsValue(s[..|s| - 1]) + DigitValue(s[|s| - 1])
  }

  lemma DigitsValueSnoc(s: string, c: char)
    requires AllDigits(s) && IsDigit(c)
    ensures AllDigits(s + [c])
    ensures DigitsValue(s + [c]) == 10 * DigitsValue(s) + DigitValue(c)
  {
    assert (s + [c])[..|s|] == s;
  }

  /** Python's `str(n)` for a natural number: shortest decimal text, no leading zero. */
  function NatText(n: nat): (s: string)
    ensures 1 <= |s| && AllDigits(s)
    ensures |s| > 1 ==> s[0] != '0'
    ensures DigitsValue(s) == n
    decreases n
  {
    if n < 10 then [DigitChar(n)]
    else
      var s := NatText(n / 10) + [DigitChar(n % 10)];
      DigitsValueSnoc(NatText(n / 10), DigitChar(n % 10));
      s
  }

  /** Exactly `w` digits denoting `n`, left-padded with zeros. */
  function FixedDigits(n: nat, w: nat): (s: string)
    requires n < Pow10(w)
    ensures |s| == w && AllDigits(s)
    ensures DigitsValue(s) == n
  {
    if w == 0 then []
    else
      var s := FixedDigits(n / 10, w - 1) + [DigitChar(n % 10)];
      DigitsValueSnoc(FixedDigits(n / 10, w - 1), DigitChar(n % 10));
      s
  }

  /** Characters that can appear in a formatted timestamp. */
  predicate NumberChar(c: char) { IsDigit(c) || c == '-' || c == '.' }

  /** `{:.6f}` of a timestamp held in microseconds; ParseMicros reads it back. */
  function FormatMicros(t: int): (s: string)
    ensures forall i :: 0 <= i < |s| ==> NumberChar(s[i])
  {
    var a: nat := if t < 0 then -t else t;
    if t < 0 then "-" + UnsignedText(a) else UnsignedText(a)
  }

  /** The text of a non-negative timestamp: whole seconds, a dot, six digits. */
  function UnsignedText(a: nat): (u: string)
    ensures |u| > 0 && IsDigit(u[0])
    ensures forall i :: 0 <= i < |u| ==> NumberChar(u[i])
  {
    NatText(a / MicrosPerSecond) + "." + FixedDigits(a % MicrosPerSecond, 6)
  }

  lemma UnsignedRoundTrip(a: nat)
    ensures ParseUnsigned(UnsignedText(a)) == Some(a)
  {
    var q := a / MicrosPerSecond;
    var f := a % MicrosPerSecond;
    assert q * MicrosPerSecond + f == a;
    var w := NatText(q);
    var d := FixedDigits(f, 6);
    var u := w + "." + d;
    assert u == UnsignedText(a);
    assert u[|u| - 7] == '.';
    assert u[..|u| - 7] == w;
    assert u[|u| - 6..] == d;
  }

  /** The formatted timestamp parses back to the same microsecond count. */
  lemma FormatMicrosRoundTrip(t: int)
    ensures ParseMicros(FormatMicros(t)) == Some(t)
  {
    var a: nat := if t < 0 then -t else t;
    var u := UnsignedText(a);
    UnsignedRoundTrip(a);
    if t < 0 {
      assert ("-" + u)[1..] == u;
    }
  }

  /** Reads `<digits>.<six digits>`, the unsigned part of a formatted timestamp. */
  function ParseUnsigned(s: string): Option<int>
  {
    if |s| >= 8 && s[|s| - 7] == '.' && AllDigits(s[..|s| - 7]) && AllDigits(s[|s| - 6..]) then
      Some(DigitsValue(s[..|s| - 7]) * MicrosPerSecond + DigitsValue(s[|s| - 6..]))
    else None
  }

  /** Reads a formatted timestamp back into microseconds. */
  function ParseMicros(s: string): Option<int>
  {
    if |s| > 0 && s[0] == '-' then
      match ParseUnsigned(s[1..])
      case Some(a) => Some(-a)
      case None => None
    else ParseUnsigned(s)
  }
}
