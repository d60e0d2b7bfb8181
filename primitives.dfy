/** Fixed-width integers, the nullable wrapper and the decimal text conversions that the
    .NET runtime provides to the servo programmer (byte.ToString, string interpolation of
    numbers, byte.TryParse). */
module Primitives {

  /** C# `byte`: 0..255. */
  type byte = x: int | 0 <= x < 256

  /** C# `ushort`: 0..65535. */
  type ushort = x: int | 0 <= x < 65536

  /** A value or nothing: stands for a C# nullable reference or an out-parameter that was not set. */
  datatype Option<T> = None | Some(value: T)

  predicate IsDigit(c: char) {
    '0' <= c <= '9'
  }

  predicate AllDigits(s: string) {
    forall i :: 0 <= i < |s| ==> IsDigit(s[i])
  }

  function DigitChar(d: int): (c: char)
    requires 0 <= d < 10
    ensures IsDigit(c) && c as int - '0' as int == d
  {
    (d + '0' as int) as char
  }

  /** The value of a run of decimal digits, most significant first. */
  function DigitsValue(s: string): (v: nat)
    requires AllDigits(s)
  {
    if s == [] then 0
    else DigitsValue(s[..|s| - 1]) * 10 + (s[|s| - 1] as int - '0' as int)
  }

  /** `n.ToString()` for a non-negative integer: shortest decimal form, no sign, no leading zero. */
  function Decimal(n: nat): (s: string)
    ensures 0 < |s|
    ensures AllDigits(s)
    ensures |s| > 1 ==> s[0] != '0'
    decreases n
  {
    if n < 10 then [DigitChar(n)] else Decimal(n / 10) + [DigitChar(n % 10)]
  }

  /** `byte.TryParse(s, out b)`, restricted to plain decimal digits (no sign, no surrounding
      white space): succeeds exactly on a non-empty digit string whose value fits a byte. */
  function TryParseByte(s: string): (r: Option<byte>)
    ensures r.Some? <==> |s| > 0 && AllDigits(s) && DigitsValue(s) < 256
    ensures r.Some? ==> r.value == DigitsValue(s)
  {
    if |s| > 0 && AllDigits(s) && DigitsValue(s) < 256 then Some(DigitsValue(s)) else None
  }

  /** Reading back the decimal form of a number gives the number. */
  lemma {:induction false} DecimalValue(n: nat)
    ensures DigitsValue(Decimal(n)) == n
    decreases n
  {
    if n >= 10 {
      DecimalValue(n / 10);
      var s := Decimal(n);
      assert s[..|s| - 1] == Decimal(n / 10);
    }
  }

  /** Formatting a byte and parsing it back is the identity (`byte.Parse(b.ToString()) == b`). */
  lemma ParseFormattedByte(b: byte)
    ensures TryParseByte(Decimal(b)) == Some(b)
  {
    DecimalValue(b);
  }

  /** Distinct numbers have distinct decimal forms. */
  lemma DecimalInjective(a: nat, b: nat)
    requires Decimal(a) == Decimal(b)
    ensures a == b
  {
    DecimalValue(a);
    DecimalValue(b);
  }
}
