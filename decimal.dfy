/**
 * Rust's `{}` (Display) for integers, as used by `write!` in the date and
 * humidity labels: an optional minus sign, then the decimal digits of the
 * magnitude, most significant first, with no padding and no leading zero.
 */
module Decimal {
  import opened Wrappers
  import opened Heapless

  predicate IsDigit(c: char)
  {
    '0' <= c <= '9'
  }

  predicate IsDigits(s: string)
  {
    forall i :: 0 <= i < |s| ==> IsDigit(s[i])
  }

  function DigitChar(d: nat): (c: char)
    requires d < 10
    ensures IsDigit(c)
  {
    ('0' as int + d) as char
  }

  function DigitValue(c: char): (d: nat)
    requires IsDigit(c)
    ensures d < 10 && DigitChar(d) == c
  {
    c as int - '0' as int
  }

  function Pow10(k: nat): (p: nat)
    ensures p >= 1
  {
    if k == 0 then 1 else 10 * Pow10(k - 1)
  }

  /** The digits `{}` prints for a non-negative integer. */
  function NatToDecimal(n: nat): (s: string)
    ensures |s| >= 1 && IsDigits(s)
    ensures s[0] == '0' ==> n == 0
    decreases n
  {
    if n < 10 then [DigitChar(n)] else NatToDecimal(n / 10) + [DigitChar(n % 10)]
  }

  /** What `{}` prints for an integer. */
  function IntToDecimal(n: int): (s: string)
    ensures |s| >= 1
    ensures s[0] == '-' <==> n < 0
    ensures n < 0 ==> IsDigits(s[1..])
    ensures n >= 0 ==> IsDigits(s)
  {
    if n < 0 then "-" + NatToDecimal(-n) else NatToDecimal(n)
  }

  /** The value of a string of decimal digits, read most significant first. */
  function DigitsValue(s: string): nat
    requires IsDigits(s)
  {
    if s == [] then 0 else 10 * DigitsValue(s[..|s| - 1]) + DigitValue(s[|s| - 1])
  }

  /** Reads back an optionally signed decimal numeral; `None` for anything else. */
  function ParseDecimal(s: string): Option<int>
  {
    if |s| > 0 && s[0] == '-' then
      if 1 < |s| && IsDigits(s[1..]) then Some(-(DigitsValue(s[1..]) as int)) else None
    else if 0 < |s| && IsDigits(s) then Some(DigitsValue(s) as int)
    else None
  }

  lemma {:induction false} NatToDecimalValue(n: nat)
    ensures DigitsValue(NatToDecimal(n)) == n
    decreases n
  {
    var s := NatToDecimal(n);
    if n >= 10 {
      assert s[..|s| - 1] == NatToDecimal(n / 10);
      NatToDecimalValue(n / 10);
    }
  }

  /** Reading back what `{}` printed gives the integer again. */
  lemma IntToDecimalRoundTrip(n: int)
    ensures ParseDecimal(IntToDecimal(n)) == Some(n)
  {
    var s := IntToDecimal(n);
    if n < 0 {
      assert s[1..] == NatToDecimal(-n);
      NatToDecimalValue(-n);
    } else {
      NatToDecimalValue(n);
    }
  }

  /** `n` takes at most `k` digits exactly when it is below 10^k. */
  lemma {:induction false} NatToDecimalLength(n: nat, k: nat)
    requires k >= 1
    ensures |NatToDecimal(n)| <= k <==> n < Pow10(k)
    decreases n
  {
    if n < 10 {
      assert Pow10(k) == 10 * Pow10(k - 1);
    } else if k == 1 {
      assert Pow10(1) == 10;
    } else {
      NatToDecimalLength(n / 10, k - 1);
      assert Pow10(k) == 10 * Pow10(k - 1);
    }
  }

  lemma IntToDecimalAscii(n: int)
    ensures IsAscii(IntToDecimal(n))
    ensures ByteLen(IntToDecimal(n)) == |IntToDecimal(n)|
  {
    var s := IntToDecimal(n);
    assert IsAscii(s) by {
      forall i | 0 <= i < |s| ensures (s[i] as int) < 0x80 {
        if n < 0 && i > 0 {
          assert s[i] == NatToDecimal(-n)[i - 1];
        }
      }
    }
    AsciiByteLen(s);
  }

  lemma Pow10Values()
    ensures Pow10(9) == 1_000_000_000 && Pow10(10) == 10_000_000_000
  {
    assert Pow10(4) == 10_000;
    assert Pow10(8) == 100_000_000;
  }

  predicate IsI32(n: int)
  {
    -0x8000_0000 <= n < 0x8000_0000
  }

  /**
   * An `i32` in decimal fits a 10-byte buffer exactly when it is greater
   * than -1000000000: the only 11-character renderings are ten-digit negatives.
   */
  lemma I32DecimalFitsTen(n: int)
    requires IsI32(n)
    ensures ByteLen(IntToDecimal(n)) <= 10 <==> n > -1_000_000_000
  {
    IntToDecimalAscii(n);
    Pow10Values();
    if n < 0 {
      NatToDecimalLength(-n, 9);
    } else {
      NatToDecimalLength(n, 10);
    }
  }

  /** Any `i32` in decimal takes at most 11 bytes. */
  lemma I32DecimalAtMostEleven(n: int)
    requires IsI32(n)
    ensures ByteLen(IntToDecimal(n)) <= 11
  {
    IntToDecimalAscii(n);
    Pow10Values();
    if n < 0 {
      NatToDecimalLength(-n, 10);
    } else {
      NatToDecimalLength(n, 10);
    }
  }
}
