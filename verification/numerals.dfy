/** Decimal and hexadecimal numerals, as `Number.prototype.toString`,
    `BigInt.prototype.toString(16)` and `BigInt("0x…")` read and write them. */
module Numerals {
  import opened Common

  /** The digit for `d` in base 16, lower case (`toString(16)` never writes upper case). */
  function DigitChar(d: nat): (c: char)
    requires d < 16
  {
    if d < 10 then (48 + d) as char else (97 + d - 10) as char
  }

  predicate IsDecimalDigit(c: char) {
    '0' <= c <= '9'
  }

  predicate IsHexDigit(c: char) {
    '0' <= c <= '9' || 'a' <= c <= 'f' || 'A' <= c <= 'F'
  }

  function HexDigitValue(c: char): (v: nat)
    requires IsHexDigit(c)
    ensures v < 16
  {
    if '0' <= c <= '9' then c as int - 48
    else if 'a' <= c <= 'f' then c as int - 97 + 10
    else c as int - 65 + 10
  }

  lemma DigitCharValue(d: nat)
    requires d < 16
    ensures IsHexDigit(DigitChar(d)) && HexDigitValue(DigitChar(d)) == d
    ensures d < 10 ==> IsDecimalDigit(DigitChar(d))
  {
  }

  /** `n.toString()`: decimal digits, no leading zero. */
  function ToDecimal(n: nat): (s: string)
    ensures |s| > 0 && (|s| > 1 ==> s[0] != '0')
    ensures forall i | 0 <= i < |s| :: IsDecimalDigit(s[i])
  {
    DigitCharValue(n % 10);
    if n < 10 then [DigitChar(n)] else ToDecimal(n / 10) + [DigitChar(n % 10)]
  }

  predicate AllDecimalDigits(s: string) {
    forall i | 0 <= i < |s| :: IsDecimalDigit(s[i])
  }

  /** The value of a string of decimal digits, most significant first. */
  function DecimalNat(s: string): nat
    requires AllDecimalDigits(s)
  {
    if s == [] then 0 else 10 * DecimalNat(s[..|s| - 1]) + (s[|s| - 1] as int - 48)
  }

  /** Reading back what `toString()` wrote gives the number again. */
  lemma {:induction false} DecimalRoundTrip(n: nat)
    ensures AllDecimalDigits(ToDecimal(n)) && DecimalNat(ToDecimal(n)) == n
  {
    var s := ToDecimal(n);
    if n < 10 {
      assert s[..|s| - 1] == [];
    } else {
      DecimalRoundTrip(n / 10);
      assert s[..|s| - 1] == ToDecimal(n / 10);
      assert s[|s| - 1] as int - 48 == n % 10;
    }
  }

  /** Distinct numbers have distinct decimal spellings. */
  lemma ToDecimalInjective(m: nat, n: nat)
    requires ToDecimal(m) == ToDecimal(n)
    ensures m == n
  {
    DecimalRoundTrip(m);
    DecimalRoundTrip(n);
  }

  /** `n.toString(16)`: lower-case hexadecimal digits, no leading zero. */
  function ToHex(n: nat): (s: string)
    ensures |s| > 0 && (|s| > 1 ==> s[0] != '0')
    ensures forall i | 0 <= i < |s| :: IsHexDigit(s[i]) && !('A' <= s[i] <= 'F')
  {
    DigitCharValue(n % 16);
    if n < 16 then [DigitChar(n)] else ToHex(n / 16) + [DigitChar(n % 16)]
  }

  predicate AllHexDigits(s: string) {
    forall i | 0 <= i < |s| :: IsHexDigit(s[i])
  }

  /** The value of a string of hexadecimal digits, most significant first. */
  function HexNat(s: string): nat
    requires AllHexDigits(s)
  {
    if s == [] then 0 else 16 * HexNat(s[..|s| - 1]) + HexDigitValue(s[|s| - 1])
  }

  /** The digits after `0x` in `BigInt("0x" + s)`: at least one digit, any case. */
  function HexValue(s: string): (r: Option<nat>)
    ensures r.Some? <==> s != [] && AllHexDigits(s)
  {
    if s != [] && AllHexDigits(s) then Some(HexNat(s)) else None
  }

  /** Reading back what `toString(16)` wrote gives the number again. */
  lemma {:induction false} HexRoundTrip(n: nat)
    ensures HexValue(ToHex(n)) == Some(n)
  {
    var s := ToHex(n);
    DigitCharValue(n % 16);
    if n < 16 {
      assert s[..|s| - 1] == [];
      assert HexNat(s) == 16 * HexNat([]) + HexDigitValue(DigitChar(n));
    } else {
      HexRoundTrip(n / 16);
      assert s[..|s| - 1] == ToHex(n / 16);
      assert s[|s| - 1] == DigitChar(n % 16);
      assert HexNat(s) == 16 * (n / 16) + n % 16;
    }
  }

  /** Distinct numbers have distinct hexadecimal spellings. */
  lemma ToHexInjective(m: nat, n: nat)
    requires ToHex(m) == ToHex(n)
    ensures m == n
  {
    HexRoundTrip(m);
    HexRoundTrip(n);
  }
}
