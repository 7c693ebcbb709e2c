/**
 * Decimal rendering of indices, as Python's `'{}'.format(i)` does it, and the
 * default display names `"feature i"` and `"class i"` built from it.
 */
module Naming {

  predicate IsDigit(c: char)
  {
    '0' <= c <= '9'
  }

  function DigitChar(d: nat): (c: char)
    requires d < 10
    ensures IsDigit(c)
  {
    ('0' as int + d) as char
  }

  function DigitValue(c: char): nat
    requires IsDigit(c)
  {
    c as int - '0' as int
  }

  /** The decimal digits of `n`, most significant first, without leading zeros. */
  function NatToString(n: nat): (s: string)
    ensures |s| > 0
    ensures forall k :: 0 <= k < |s| ==> IsDigit(s[k])
  {
    if n < 10 then [DigitChar(n)] else NatToString(n / 10) + [DigitChar(n % 10)]
  }

  /** Reads a string of decimal digits back as a number. */
  function ParseNat(s: string): nat
    requires forall k :: 0 <= k < |s| ==> IsDigit(s[k])
  {
    if s == [] then 0 else ParseNat(s[..|s| - 1]) * 10 + DigitValue(s[|s| - 1])
  }

  /** Reading the decimal rendering gives the number back. */
  lemma {:induction false} ParseNatToString(n: nat)
    ensures ParseNat(NatToString(n)) == n
  {
    if n >= 10 {
      var s := NatToString(n / 10);
      ParseNatToString(n / 10);
      assert (s + [DigitChar(n % 10)])[..|s|] == s;
    }
  }

  /** The display name given to unnamed entry `i`: `prefix + " " + str(i)`. */
  function DefaultName(prefix: string, i: nat): string
  {
    prefix + " " + NatToString(i)
  }

  /** Two entries with the same prefix get the same default name only when they are the same entry. */
  lemma DefaultNameInjective(prefix: string, i: nat, j: nat)
    requires DefaultName(prefix, i) == DefaultName(prefix, j)
    ensures i == j
  {
    var p := |prefix| + 1;
    assert NatToString(i) == DefaultName(prefix, i)[p..];
    assert NatToString(j) == DefaultName(prefix, j)[p..];
    ParseNatToString(i);
    ParseNatToString(j);
  }
}
