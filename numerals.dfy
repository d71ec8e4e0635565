/** Base-10 and base-16 numerals for natural numbers, as the report lines print
    offsets, counts and thread numbers (decimal) and oids and tids (hex). */
module Numerals {

  /** The character of digit `d`, lower case for the hex digits a-f. */
  function DigitChar(d: nat): (c: char)
    requires d < 16
  {
    if d < 10 then ('0' as int + d) as char else ('a' as int + d - 10) as char
  }

  /** The value of a digit character; characters that are no digit read as 0. */
  function DigitValue(c: char): nat
  {
    if '0' <= c <= '9' then (c as int) - ('0' as int)
    else if 'a' <= c <= 'f' then (c as int) - ('a' as int) + 10
    else 0
  }

  /** The numeral of `n` in `base`, most significant digit first, without
      leading zeros ("0" for zero). */
  function Numeral(n: nat, base: nat): (s: string)
    requires 2 <= base <= 16
    ensures |s| >= 1
    ensures forall i :: 0 <= i < |s| ==> DigitValue(s[i]) < base && DigitChar(DigitValue(s[i])) == s[i]
    ensures s[0] == '0' <==> n == 0
    ensures n == 0 ==> s == "0"
    decreases n
  {
    if n < base then [DigitChar(n)]
    else
      DivideByBase(n, base);
      Numeral(n / base, base) + [DigitChar(n % base)]
  }

  /** The facts about `n / base` and `n % base` the numeral functions need. */
  lemma DivideByBase(n: nat, base: nat)
    requires 2 <= base <= n
    ensures 0 < n / base < n && n % base < base
    ensures n == (n / base) * base + n % base
  {
  }

  /** The number a string of digits denotes in `base`. */
  function ValueOf(s: string, base: nat): nat
  {
    if s == [] then 0 else ValueOf(s[..|s| - 1], base) * base + DigitValue(s[|s| - 1])
  }

  /** Reading a numeral back gives the number it was written from. */
  lemma {:induction false} NumeralRoundTrip(n: nat, base: nat)
    requires 2 <= base <= 16
    ensures ValueOf(Numeral(n, base), base) == n
  {
    if n >= base {
      var s := Numeral(n, base);
      DivideByBase(n, base);
      assert s[..|s| - 1] == Numeral(n / base, base);
      NumeralRoundTrip(n / base, base);
      assert DigitValue(s[|s| - 1]) == n % base;
    }
  }

  /** A leading zero digit does not change the value of a numeral. */
  lemma {:induction false} LeadingZero(s: string, base: nat)
    ensures ValueOf("0" + s, base) == ValueOf(s, base)
  {
    if s != [] {
      assert ("0" + s)[..|"0" + s| - 1] == "0" + s[..|s| - 1];
      LeadingZero(s[..|s| - 1], base);
    }
  }

  /** Python's "%d" of a non-negative integer. */
  function Decimal(n: nat): string
  {
    Numeral(n, 10)
  }

  /** Different numbers have different decimal numerals. */
  lemma DecimalInjective(m: nat, n: nat)
    ensures Decimal(m) == Decimal(n) ==> m == n
  {
    NumeralRoundTrip(m, 10);
    NumeralRoundTrip(n, 10);
  }
}
