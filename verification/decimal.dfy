/** Python's `str` and `int` on non-negative integers: decimal numerals as
    strings of the characters '0'..'9', most significant digit first. */
module Decimal {

  predicate IsDigit(c: char) {
    '0' <= c <= '9'
  }

  predicate IsDigits(s: string) {
    forall i :: 0 <= i < |s| ==> IsDigit(s[i])
  }

  function DigitChar(d: nat): (c: char)
    requires d < 10
    ensures IsDigit(c)
    ensures c == '0' <==> d == 0
  {
    ('0' as int + d) as char
  }

  function DigitValue(c: char): (d: nat)
    requires IsDigit(c)
    ensures d < 10
    ensures DigitChar(d) == c
  {
    (c as int - '0' as int) as nat
  }

  function Pow10(k: nat): (p: nat)
    ensures p >= 1
  {
    if k == 0 then 1 else 10 * Pow10(k - 1)
  }

  /** The number a digit string denotes; the empty string denotes 0. */
  function Value(s: string): (n: nat)
    requires IsDigits(s)
    ensures n < Pow10(|s|)
  {
    if |s| == 0 then 0
    else
      var prefix := Value(s[..|s| - 1]);
      assert prefix * 10 <= (Pow10(|s| - 1) - 1) * 10;
      prefix * 10 + DigitValue(s[|s| - 1])
  }

  /** Python's `str(n)` for n >= 0: no leading zero unless n is 0. */
  function Str(n: nat): (s: string)
    ensures |s| >= 1 && IsDigits(s)
    ensures n >= 1 ==> s[0] != '0'
  {
    if n < 10 then [DigitChar(n)] else Str(n / 10) + [DigitChar(n % 10)]
  }

  /** Python's `int(s)` for a non-empty digit string. */
  function Int(s: string): (n: nat)
    requires |s| >= 1 && IsDigits(s)
    ensures n < Pow10(|s|)
    ensures s[0] != '0' ==> n >= Pow10(|s| - 1)
  {
    LeadingDigitBound(s);
    Value(s)
  }

  /** A numeral without a leading zero has exactly its length in digits. */
  lemma {:induction false} LeadingDigitBound(s: string)
    requires |s| >= 1 && IsDigits(s)
    ensures s[0] != '0' ==> Value(s) >= Pow10(|s| - 1)
  {
    if |s| > 1 {
      var prefix := s[..|s| - 1];
      assert prefix[0] == s[0];
      LeadingDigitBound(prefix);
    } else {
      assert s[0] != '0' ==> DigitValue(s[0]) != 0;
    }
  }

  /** Reading a concatenation: the left part shifted by the right part's
      length, plus the right part. */
  lemma {:induction false} ValueAppend(a: string, b: string)
    requires IsDigits(a) && IsDigits(b)
    ensures IsDigits(a + b)
    ensures Value(a + b) == Value(a) * Pow10(|b|) + Value(b)
  {
    assert IsDigits(a + b);
    if |b| == 0 {
      assert a + b == a;
    } else {
      var b' := b[..|b| - 1];
      ValueAppend(a, b');
      assert (a + b)[..|a + b| - 1] == a + b';
      assert (a + b)[|a + b| - 1] == b[|b| - 1];
      var x, p, y, d := Value(a), Pow10(|b'|), Value(b'), DigitValue(b[|b| - 1]);
      assert Value(a + b) == Value(a + b') * 10 + d;
      assert Value(b) == y * 10 + d;
      assert Pow10(|b|) == p * 10;
      ShiftDigit(x, p, y, d);
    }
  }

  lemma ShiftDigit(x: int, p: int, y: int, d: int)
    ensures (x * p + y) * 10 + d == x * (p * 10) + (y * 10 + d)
  {
  }

  /** `int(str(n)) == n`. */
  lemma {:induction false} IntStr(n: nat)
    ensures Int(Str(n)) == n
  {
    if n >= 10 {
      IntStr(n / 10);
      var s := Str(n);
      assert s[..|s| - 1] == Str(n / 10);
      assert DigitValue(s[|s| - 1]) == n % 10;
    } else {
      assert DigitValue(Str(n)[0]) == n;
    }
  }

  /** `str(n)` has k digits when 10^(k-1) <= n < 10^k. */
  lemma {:induction false} StrLength(n: nat, k: nat)
    requires k >= 1 && Pow10(k - 1) <= n < Pow10(k)
    ensures |Str(n)| == k
  {
    if k > 1 {
      assert Pow10(k - 2) <= n / 10 < Pow10(k - 1) by {
        assert Pow10(k - 1) == 10 * Pow10(k - 2);
        assert Pow10(k) == 10 * Pow10(k - 1);
      }
      StrLength(n / 10, k - 1);
    } else {
      assert n < 10;
    }
  }

  /** Conversely, a positive n lies between the powers of ten its number of
      digits gives (n = 0 is the exception: one digit, below 10^0). */
  lemma {:induction false} StrLengthBounds(n: nat)
    requires n >= 1
    ensures Pow10(|Str(n)| - 1) <= n < Pow10(|Str(n)|)
  {
    if n >= 10 {
      StrLengthBounds(n / 10);
      var k := |Str(n / 10)|;
      assert |Str(n)| == k + 1;
      assert Pow10(k) == 10 * Pow10(k - 1);
      assert Pow10(k + 1) == 10 * Pow10(k);
    }
  }
}
