/**
 * The few JVM/Kotlin runtime conversions the SDK relies on: fixed-width integers,
 * decimal `toString()` of Int/Long, `Integer.parseInt`/`Long.parseLong` on radix 10,
 * lowercasing and `startsWith`.
 */
module JvmText {
  import opened Wrappers

  /** Kotlin `Byte`, `Int` and `Long`. */
  newtype int8 = x: int | -0x80 <= x < 0x80
  newtype int32 = x: int | -0x8000_0000 <= x < 0x8000_0000
  newtype int64 = x: int | -0x8000_0000_0000_0000 <= x < 0x8000_0000_0000_0000

  predicate IsDigit(c: char) { '0' <= c <= '9' }

  predicate AllDigits(s: string) { forall i :: 0 <= i < |s| ==> IsDigit(s[i]) }

  function DigitChar(d: nat): (c: char)
    requires d < 10
    ensures IsDigit(c)
  {
    "0123456789"[d]
  }

  function DigitValue(c: char): (d: nat)
    requires IsDigit(c)
    ensures d < 10
  {
    c as int - '0' as int
  }

  /** Decimal digits of a non-negative number, without leading zeros ("0" for zero). */
  function DigitsOf(n: nat): string
    decreases n
  {
    if n < 10 then [DigitChar(n)] else DigitsOf(n / 10) + [DigitChar(n % 10)]
  }

  /** `Int.toString()` / `Long.toString()`: an optional minus sign followed by the digits. */
  function DecimalText(n: int): string
  {
    if n < 0 then "-" + DigitsOf(-n) else DigitsOf(n)
  }

  /** The value of a run of decimal digits, most significant first. */
  function DigitsValue(s: string): nat
    requires AllDigits(s)
    decreases |s|
  {
    if s == [] then 0 else DigitsValue(s[..|s| - 1]) * 10 + DigitValue(s[|s| - 1])
  }

  /**
   * `Integer.parseInt` / `Long.parseLong` in radix 10 before the range check: an optional
   * sign followed by at least one digit; anything else is a NumberFormatException (None).
   */
  function ParseDecimal(s: string): Option<int>
  {
    if s == [] then None
    else if s[0] == '-' || s[0] == '+' then
      var body := s[1..];
      if body != [] && AllDigits(body) then
        Some(if s[0] == '-' then 0 - DigitsValue(body) as int else DigitsValue(body) as int)
      else None
    else if AllDigits(s) then Some(DigitsValue(s))
    else None
  }

  /** `toInt()` on a string: parse, then reject values outside the 32-bit range. */
  function ParseInt32(s: string): Option<int32>
  {
    match ParseDecimal(s)
    case Some(n) => if -0x8000_0000 <= n < 0x8000_0000 then Some(n as int32) else None
    case None => None
  }

  /** `toLong()` on a string: parse, then reject values outside the 64-bit range. */
  function ParseInt64(s: string): Option<int64>
  {
    match ParseDecimal(s)
    case Some(n) =>
      if -0x8000_0000_0000_0000 <= n < 0x8000_0000_0000_0000 then Some(n as int64) else None
    case None => None
  }

  lemma {:induction false} DigitsOfShape(n: nat)
    ensures |DigitsOf(n)| >= 1 && AllDigits(DigitsOf(n))
    ensures DigitsValue(DigitsOf(n)) == n
    decreases n
  {
    if n >= 10 {
      DigitsOfShape(n / 10);
      var s := DigitsOf(n);
      assert s[..|s| - 1] == DigitsOf(n / 10);
    }
  }

  /** The first character of a decimal rendering is a digit or a minus sign. */
  lemma DecimalTextShape(n: int)
    ensures |DecimalText(n)| >= 1
    ensures DecimalText(n)[0] == '-' || IsDigit(DecimalText(n)[0])
  {
    DigitsOfShape(if n < 0 then -n else n);
  }

  /** Every character of a decimal rendering is a digit or a minus sign. */
  lemma DecimalTextChars(n: int)
    ensures forall j :: 0 <= j < |DecimalText(n)| ==> DecimalText(n)[j] == '-' || IsDigit(DecimalText(n)[j])
  {
    DigitsOfShape(if n < 0 then -n else n);
  }

  /** Reading back what `toString()` wrote gives the original number. */
  lemma DecimalRoundTrip(n: int)
    ensures ParseDecimal(DecimalText(n)) == Some(n)
  {
    var m := if n < 0 then -n else n;
    DigitsOfShape(m);
    var s := DecimalText(n);
    if n < 0 {
      assert s[1..] == DigitsOf(m);
    } else {
      assert s[0] != '-' && s[0] != '+';
    }
  }

  lemma Int32RoundTrip(n: int32)
    ensures ParseInt32(DecimalText(n as int)) == Some(n)
  {
    DecimalRoundTrip(n as int);
  }

  lemma Int64RoundTrip(n: int64)
    ensures ParseInt64(DecimalText(n as int)) == Some(n)
  {
    DecimalRoundTrip(n as int);
  }

  /** ASCII lowercasing of one character. */
  function LowerChar(c: char): char
  {
    if 'A' <= c <= 'Z' then (c as int + 32) as char else c
  }

  /**
   * `String.lowercase(...)`, restricted to ASCII letters: no upper-case letter is left,
   * each one becomes the lower-case letter at the same place in the alphabet, and
   * every other character is kept as it is.
   */
  function Lowercase(s: string): (r: string)
    ensures |r| == |s|
    ensures forall i :: 0 <= i < |r| ==> !('A' <= r[i] <= 'Z')
    ensures forall i :: 0 <= i < |s| && 'A' <= s[i] <= 'Z' ==>
      'a' <= r[i] <= 'z' && r[i] as int - 'a' as int == s[i] as int - 'A' as int
    ensures forall i :: 0 <= i < |s| && !('A' <= s[i] <= 'Z') ==> r[i] == s[i]
  {
    seq(|s|, i requires 0 <= i < |s| => LowerChar(s[i]))
  }

  predicate StartsWith(s: string, prefix: string)
  {
    |prefix| <= |s| && s[..|prefix|] == prefix
  }
}
