/** Decimal numerals, as Python's str(n) and int(s) produce and read them
    for non-negative integers (account numbers, card digits, expiry years). */
module Numerals {

  predicate IsDigit(c: char) {
    '0' <= c <= '9'
  }

  predicate IsDigits(s: string) {
    forall i :: 0 <= i < |s| ==> IsDigit(s[i])
  }

  /** The character of a single decimal digit. */
  function DigitChar(d: int): (c: char)
    requires 0 <= d < 10
    ensures IsDigit(c) && c as int - '0' as int == d
  {
    ('0' as int + d) as char
  }

  function DigitValue(c: char): (d: int)
    requires IsDigit(c)
  {
    c as int - '0' as int
  }

  /** str(n): the shortest decimal numeral of n, with no leading zero. */
  function DecimalString(n: nat): (s: string)
    ensures 1 <= |s| && IsDigits(s)
    ensures |s| > 1 ==> s[0] != '0'
    ensures s[|s| - 1] == DigitChar(n % 10)
    decreases n
  {
    if n < 10 then [DigitChar(n)] else DecimalString(n / 10) + [DigitChar(n % 10)]
  }

  /** int(s) for a string of decimal digits. The empty string is only the base of
      the recursion (Python's int('') raises ValueError); every string the accounts
      read back is a non-empty numeral. */
  function DecimalValue(s: string): (n: nat)
    requires IsDigits(s)
    ensures n % 10 == if s == [] then 0 else DigitValue(s[|s| - 1])
    decreases |s|
  {
    if s == [] then 0 else DecimalValue(s[..|s| - 1]) * 10 + DigitValue(s[|s| - 1])
  }

  /** Python's s[-2:]: the last two characters, or the whole string when shorter. */
  function LastTwo(s: string): (t: string)
    ensures |t| == if |s| < 2 then |s| else 2
    ensures t == s[|s| - |t|..]
  {
    if |s| < 2 then s else s[|s| - 2..]
  }

  /** int(str(n)) == n. */
  lemma {:induction false} DecimalRoundTrip(n: nat)
    ensures DecimalValue(DecimalString(n)) == n
    decreases n
  {
    var s := DecimalString(n);
    if n >= 10 {
      assert s[..|s| - 1] == DecimalString(n / 10);
      DecimalRoundTrip(n / 10);
    }
  }

  /** Different numbers have different numerals. */
  lemma DecimalStringInjective(m: nat, n: nat)
    requires m != n
    ensures DecimalString(m) != DecimalString(n)
  {
    DecimalRoundTrip(m);
    DecimalRoundTrip(n);
  }

  lemma TwoDigitRemainder(n: nat)
    ensures (n / 10) % 10 * 10 + n % 10 == n % 100
  {
    var q, r := n / 10, n % 10;
    var p, t := q / 10, q % 10;
    assert n == 100 * p + (10 * t + r);
    assert 0 <= 10 * t + r < 100;
  }

  lemma TwoCharValue(a: char, b: char)
    requires IsDigit(a) && IsDigit(b)
    ensures DecimalValue([a, b]) == DigitValue(a) * 10 + DigitValue(b)
  {
    assert [a, b][..1] == [a];
    assert [a][..0] == [];
    assert DecimalValue([a]) == DigitValue(a);
  }

  lemma LastTwoOfAppend(h: string, c: char)
    requires |h| >= 1
    ensures LastTwo(h + [c]) == [h[|h| - 1], c]
  {
  }

  /** int(str(n)[-2:]) == n % 100: the last two digits of a numeral read back as n mod 100. */
  lemma LastTwoDigits(n: nat)
    ensures IsDigits(LastTwo(DecimalString(n)))
    ensures DecimalValue(LastTwo(DecimalString(n))) == n % 100
  {
    if n < 10 {
      assert DecimalString(n) == [DigitChar(n)];
      assert [DigitChar(n)][..0] == [];
    } else {
      var q, r := n / 10, n % 10;
      var h := DecimalString(q);
      var a, b := DigitChar(q % 10), DigitChar(r);
      assert DecimalString(n) == h + [b];
      LastTwoOfAppend(h, b);
      TwoCharValue(a, b);
      TwoDigitRemainder(n);
    }
  }
}
