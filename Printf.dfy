/**
 * The C runtime conversions that the plug-in's format strings use:
 * `%u`, `%d`, `%x`, `%08x` and `%02o`. Digits are written most significant first,
 * hexadecimal letters in lower case.
 */
module Printf {
  import opened Types

  /** The character for digit `d` (0-15). */
  function DigitChar(d: nat): (c: char)
    requires d < 16
  {
    if d < 10 then ('0' as int + d) as char else ('a' as int + d - 10) as char
  }

  /** `n` written in `base` with no leading zeros; zero is written as "0". */
  function Numeral(n: nat, base: nat): (s: string)
    requires 2 <= base <= 16
    ensures 1 <= |s|
    decreases n
  {
    if n < base then [DigitChar(n)] else Numeral(n / base, base) + [DigitChar(n % base)]
  }

  /** A numeral of two or more digits is the numeral of the quotient followed by the last digit. */
  lemma NumeralStep(n: nat, base: nat)
    requires 2 <= base <= 16 && n >= base
    ensures n / base < n && n % base < base
    ensures Numeral(n, base) == Numeral(n / base, base) + [DigitChar(n % base)]
  {
    var q := n / base;
    assert q * base + n % base == n;
    assert q * base == q * 2 + q * (base - 2);
  }

  /** `%u` */
  function Decimal(n: nat): string
  {
    Numeral(n, 10)
  }

  /** `%d` */
  function SignedDecimal(i: int): string
  {
    if i < 0 then "-" + Decimal(-i) else Decimal(i)
  }

  /** `s` right-aligned in a field of `width` characters padded with '0' (the `0` flag). */
  function ZeroPadded(s: string, width: nat): (r: string)
    ensures |r| == if |s| < width then width else |s|
    decreases if |s| < width then width - |s| else 0
  {
    if |s| < width then ZeroPadded(['0'] + s, width) else s
  }

  /** Padding puts nothing after `s`. */
  lemma {:induction false} ZeroPaddedSuffix(s: string, width: nat)
    ensures ZeroPadded(s, width)[|ZeroPadded(s, width)| - |s|..] == s
    decreases if |s| < width then width - |s| else 0
  {
    if |s| < width {
      var t := ['0'] + s;
      ZeroPaddedSuffix(t, width);
      var r := ZeroPadded(t, width);
      var k := |r| - |t|;
      assert r[k + 1..] == r[k..][1..];
    }
  }

  /** Padding puts only zeros before `s`. */
  lemma {:induction false} ZeroPaddedZeros(s: string, width: nat, i: nat)
    requires i < |ZeroPadded(s, width)| - |s|
    ensures ZeroPadded(s, width)[i] == '0'
    decreases if |s| < width then width - |s| else 0
  {
    if |s| < width {
      var t := ['0'] + s;
      var r := ZeroPadded(t, width);
      if i < |r| - |t| {
        ZeroPaddedZeros(t, width, i);
      } else {
        ZeroPaddedSuffix(t, width);
        assert r[i] == r[i..][0];
      }
    }
  }

  /** `%x` */
  function Hex(n: nat): string
  {
    Numeral(n, 16)
  }

  /** `%08x` */
  function Hex8(n: uint32): string
  {
    ZeroPadded(Hex(n), 8)
  }

  /** `%02o` */
  function Octal2(n: nat): string
  {
    ZeroPadded(Numeral(n, 8), 2)
  }

  function Power(base: nat, k: nat): nat
  {
    if k == 0 then 1 else base * Power(base, k - 1)
  }

  /** A numeral of a value below base^k has at most k digits: `%08x` of a uint32 is exactly 8 characters. */
  lemma {:induction false} NumeralFits(n: nat, base: nat, k: nat)
    requires 2 <= base <= 16 && 1 <= k && n < Power(base, k)
    ensures |Numeral(n, base)| <= k
    decreases k
  {
    if n >= base {
      assert n / base < Power(base, k - 1) by {
        assert Power(base, k) == base * Power(base, k - 1);
        DivBelow(n, base, Power(base, k - 1));
      }
      NumeralFits(n / base, base, k - 1);
    }
  }

  lemma DivBelow(n: nat, base: nat, p: nat)
    requires 2 <= base && n < base * p
    ensures n / base < p
  {
  }

  lemma Hex8Width(n: uint32)
    ensures |Hex8(n)| == 8
  {
    assert Power(16, 8) == UINT32_LIMIT;
    NumeralFits(n, 16, 8);
  }
}
