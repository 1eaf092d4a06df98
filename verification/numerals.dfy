/** Digit classes and positional values of the numeric literals the lexer
    accepts: decimal, octal (after `&`) and hexadecimal (after `$`). */
module Numerals {

  /** The digit runs the lexer scans. */
  datatype Radix = Octal | Decimal | Hexadecimal

  function Base(x: Radix): nat {
    match x
    case Octal => 8
    case Decimal => 10
    case Hexadecimal => 16
  }

  predicate IsDecDigit(c: char) {
    '0' <= c <= '9'
  }

  predicate IsOctDigit(c: char) {
    '0' <= c <= '7'
  }

  /** `isxdigit`: decimal digits and the letters a-f in either case. */
  predicate IsHexDigit(c: char) {
    IsDecDigit(c) || 'a' <= c <= 'f' || 'A' <= c <= 'F'
  }

  predicate IsDigitOf(x: Radix, c: char) {
    match x
    case Octal => IsOctDigit(c)
    case Decimal => IsDecDigit(c)
    case Hexadecimal => IsHexDigit(c)
  }

  /** `tolower` restricted to ASCII letters. */
  function ToLower(c: char): char {
    if 'A' <= c <= 'Z' then (c as int + 32) as char else c
  }

  /** The value of one digit: `c - '0'` for decimal digits and
      `tolower(c) - 'a' + 10` for hexadecimal letters. */
  function DigitValue(c: char): nat
    requires IsHexDigit(c)
    ensures DigitValue(c) < 16
  {
    if IsDecDigit(c) then c as int - '0' as int
    else ToLower(c) as int - 'a' as int + 10
  }

  lemma DigitBelowBase(x: Radix, c: char)
    requires IsDigitOf(x, c)
    ensures IsHexDigit(c) && DigitValue(c) < Base(x)
  {
  }

  predicate AllDigits(x: Radix, s: seq<char>) {
    forall i :: 0 <= i < |s| ==> IsDigitOf(x, s[i])
  }

  /** Reference value of a digit string, most significant digit first:
      the value of all but the last digit, times the base, plus the last. */
  function Value(x: Radix, ds: seq<char>): nat
    requires AllDigits(x, ds)
  {
    if |ds| == 0 then 0
    else Value(x, ds[..|ds| - 1]) * Base(x) + DigitValue(ds[|ds| - 1])
  }

  /** The digit character for `d`, upper-case for hexadecimal letters. */
  function DigitChar(d: nat): (c: char)
    requires d < 16
    ensures IsHexDigit(c) && DigitValue(c) == d
    ensures d < 10 ==> IsDecDigit(c)
    ensures d < 8 ==> IsOctDigit(c)
  {
    if d < 10 then ('0' as int + d) as char else ('A' as int + d - 10) as char
  }

  /** The shortest digit string of `n` in the given radix (no leading zeros). */
  function Numeral(x: Radix, n: nat): (s: seq<char>)
    ensures |s| > 0 && AllDigits(x, s)
    decreases n
  {
    if n < Base(x) then [DigitChar(n)]
    else Numeral(x, n / Base(x)) + [DigitChar(n % Base(x))]
  }

  /** Writing a number and reading it back gives the number. */
  lemma {:induction false} ValueOfNumeral(x: Radix, n: nat)
    ensures Value(x, Numeral(x, n)) == n
    decreases n
  {
    var s := Numeral(x, n);
    if n < Base(x) {
      assert s[..0] == [];
    } else {
      ValueOfNumeral(x, n / Base(x));
      assert s[..|s| - 1] == Numeral(x, n / Base(x));
    }
  }

  /** Lower-casing a hexadecimal digit string does not change its value. */
  lemma {:induction false} ValueIgnoresCase(ds: seq<char>)
    requires AllDigits(Hexadecimal, ds)
    ensures AllDigits(Hexadecimal, LowerAll(ds))
    ensures Value(Hexadecimal, LowerAll(ds)) == Value(Hexadecimal, ds)
    decreases |ds|
  {
    if |ds| > 0 {
      var init := ds[..|ds| - 1];
      ValueIgnoresCase(init);
      assert LowerAll(ds)[..|ds| - 1] == LowerAll(init);
    }
  }

  /** The hexadecimal loop's `tolower`, applied one character at a time. */
  function LowerAll(s: seq<char>): (r: seq<char>)
    ensures |r| == |s|
    ensures forall i :: 0 <= i < |s| ==> r[i] == ToLower(s[i])
    decreases |s|
  {
    if |s| == 0 then [] else LowerAll(s[..|s| - 1]) + [ToLower(s[|s| - 1])]
  }
}
