/**
 * The period key of the expense pages, `YYYY-MM`: the year as JavaScript's
 * `String()` writes it, a dash, and the one-based month padded to two digits
 * with `padStart(2, '0')`. The key is what every expense and period status is
 * stored under, so the lemmas show it identifies year and month uniquely.
 */
module PeriodText {

  /** A month as the page holds it: an index from 0 (January) to 11 (December). */
  type Month = m: int | 0 <= m < 12

  predicate IsDigit(c: char)
  {
    '0' <= c <= '9'
  }

  predicate AllDigits(s: string)
  {
    forall i :: 0 <= i < |s| ==> IsDigit(s[i])
  }

  function DigitChar(d: int): (c: char)
    requires 0 <= d < 10
    ensures IsDigit(c)
  {
    ('0' as int + d) as char
  }

  function DigitValue(c: char): (d: int)
    requires IsDigit(c)
    ensures 0 <= d < 10
  {
    c as int - '0' as int
  }

  /** `String(n)` for a non-negative integer: its decimal digits, with a leading 0 only for 0 itself. */
  function NatToString(n: nat): (s: string)
    ensures 1 <= |s| && AllDigits(s)
    ensures s[0] == '0' <==> n == 0
    decreases n
  {
    if n < 10 then [DigitChar(n)] else NatToString(n / 10) + [DigitChar(n % 10)]
  }

  /** `String(i)` for any integer: a minus sign before the digits of a negative number. */
  function IntToString(i: int): (s: string)
    ensures 1 <= |s|
  {
    if i < 0 then "-" + NatToString(-i) else NatToString(i)
  }

  /** The value of a string of decimal digits (0 for the empty string). */
  function ParseDigits(s: string): nat
    requires AllDigits(s)
    decreases |s|
  {
    if s == [] then 0 else ParseDigits(s[..|s| - 1]) * 10 + DigitValue(s[|s| - 1])
  }

  /** Reading the digits back gives the number: `String()` loses nothing on non-negative integers. */
  lemma {:induction false} ParseNatToString(n: nat)
    ensures ParseDigits(NatToString(n)) == n
    decreases n
  {
    var s := NatToString(n);
    if n < 10 {
      assert s[..|s| - 1] == [];
    } else {
      assert s[..|s| - 1] == NatToString(n / 10);
      ParseNatToString(n / 10);
    }
  }

  lemma NatToStringInjective(a: nat, b: nat)
    ensures NatToString(a) == NatToString(b) ==> a == b
  {
    ParseNatToString(a);
    ParseNatToString(b);
  }

  /** The years from 1000 to 9999 are written with exactly four digits. */
  lemma FourDigitYear(n: nat)
    requires 1000 <= n <= 9999
    ensures |NatToString(n)| == 4
  {
    assert NatToString(n / 1000) == [DigitChar(n / 1000)];
    assert NatToString(n / 100) == NatToString(n / 1000) + [DigitChar(n / 100 % 10)];
    assert NatToString(n / 10) == NatToString(n / 100) + [DigitChar(n / 10 % 10)];
  }

  /**
   * `s.padStart(2, '0')`: a string of at least two characters is left as it
   * is; a shorter one gets zeros in front of it until it has two.
   */
  function PadStart2(s: string): (p: string)
    ensures |s| >= 2 ==> p == s
    ensures |s| < 2 ==> |p| == 2 && p[2 - |s|..] == s && forall i :: 0 <= i < 2 - |s| ==> p[i] == '0'
  {
    if |s| >= 2 then s else seq(2 - |s|, _ => '0') + s
  }

  /** The two-character month part of the key: `String(m + 1).padStart(2, '0')`. */
  function MonthCode(m: Month): string
  {
    PadStart2(IntToString(m + 1))
  }

  const MonthCodes: seq<string> := ["01", "02", "03", "04", "05", "06", "07", "08", "09", "10", "11", "12"]

  /** Month index m is written as the two digits of m + 1. */
  lemma MonthCodeDigits(m: Month)
    ensures MonthCode(m) == [DigitChar((m + 1) / 10), DigitChar((m + 1) % 10)]
  {
    if m + 1 < 10 {
      assert IntToString(m + 1) == [DigitChar(m + 1)];
    } else {
      assert NatToString((m + 1) / 10) == [DigitChar((m + 1) / 10)];
      assert IntToString(m + 1) == [DigitChar((m + 1) / 10), DigitChar((m + 1) % 10)];
    }
  }

  /** The twelve month codes are "01" up to "12", in order. */
  lemma MonthCodesListed(m: Month)
    ensures MonthCode(m) == MonthCodes[m]
  {
    MonthCodeDigits(m);
  }

  lemma MonthCodeInjective(m1: Month, m2: Month)
    ensures MonthCode(m1) == MonthCode(m2) ==> m1 == m2
  {
    MonthCodeDigits(m1);
    MonthCodeDigits(m2);
  }

  /** The period key `${year}-${month code}`. */
  function PeriodOf(year: int, m: Month): (p: string)
    ensures |p| == |IntToString(year)| + 3
    ensures p[|p| - 3] == '-'
  {
    IntToString(year) + "-" + MonthCode(m)
  }

  /** Distinct (non-negative) years or months never share a key. */
  lemma PeriodInjective(y1: nat, m1: Month, y2: nat, m2: Month)
    ensures PeriodOf(y1, m1) == PeriodOf(y2, m2) ==> y1 == y2 && m1 == m2
  {
    var p1 := PeriodOf(y1, m1);
    var p2 := PeriodOf(y2, m2);
    MonthCodeDigits(m1);
    MonthCodeDigits(m2);
    if p1 == p2 {
      assert p1[..|p1| - 3] == NatToString(y1);
      assert p2[..|p2| - 3] == NatToString(y2);
      NatToStringInjective(y1, y2);
      assert p1[|p1| - 2..] == MonthCode(m1);
      assert p2[|p2| - 2..] == MonthCode(m2);
      MonthCodeInjective(m1, m2);
    }
  }

  /** Within one year the twelve months have twelve different keys. */
  lemma MonthsOfYearDistinct(year: int, m1: Month, m2: Month)
    requires m1 != m2
    ensures PeriodOf(year, m1) != PeriodOf(year, m2)
  {
    var p1 := PeriodOf(year, m1);
    var p2 := PeriodOf(year, m2);
    if p1 == p2 {
      assert p1[|p1| - 2..] == MonthCode(m1);
      assert p2[|p2| - 2..] == MonthCode(m2);
      MonthCodeInjective(m1, m2);
    }
  }

  /** A four-digit year gives a seven-character key `YYYY-MM` whose parts read back as year and month. */
  lemma PeriodShape(year: int, m: Month)
    requires 1000 <= year <= 9999
    ensures |PeriodOf(year, m)| == 7
    ensures PeriodOf(year, m)[4] == '-'
    ensures AllDigits(PeriodOf(year, m)[..4]) && ParseDigits(PeriodOf(year, m)[..4]) == year
    ensures PeriodOf(year, m)[5..] == MonthCodes[m]
  {
    var p := PeriodOf(year, m);
    FourDigitYear(year);
    assert p[..4] == NatToString(year);
    ParseNatToString(year);
    MonthCodesListed(m);
    assert p[5..] == MonthCode(m);
  }
}
