/** Decimal numerals: how the source prints indices into strings. */
module Decimals {

  function Digit(n: nat): char
    requires n < 10
  {
    '0' + n as char
  }

  function Digits(n: nat): (s: string)
    ensures |s| > 0 && forall c <- s :: '0' <= c <= '9'
  {
    if n < 10 then [Digit(n)] else Digits(n / 10) + [Digit(n % 10)]
  }

  /** The number a string of digits denotes; other characters count for nothing. */
  function Value(s: string): nat {
    if s == [] then 0
    else
      var c := s[|s| - 1];
      Value(s[..|s| - 1]) * 10 + if '0' <= c <= '9' then c as int - '0' as int else 0
  }

  /** Printing and reading a number gives it back, so no two numbers print alike. */
  lemma {:induction false} ValueOfDigits(n: nat)
    ensures Value(Digits(n)) == n
  {
    if n < 10 {
      assert Digits(n)[..0] == [];
    } else {
      ValueOfDigits(n / 10);
      assert Digits(n)[..|Digits(n)| - 1] == Digits(n / 10);
    }
  }

  lemma DigitsOnly(a: string, m: nat, separator: char)
    ensures var s := a + [separator] + Digits(m); forall k | |a| < k < |s| :: '0' <= s[k] <= '9'
  {
    var s := a + [separator] + Digits(m);
    forall k | |a| < k < |s|
      ensures '0' <= s[k] <= '9'
    {
      assert s[k] == Digits(m)[k - |a| - 1] && s[k] in Digits(m);
    }
  }

  /** Where a separator that no digit contains is followed by a number, both parts can be read off. */
  lemma SplitAtNumber(a: string, m: nat, b: string, n: nat, separator: char)
    requires !('0' <= separator <= '9')
    requires a + [separator] + Digits(m) == b + [separator] + Digits(n)
    ensures a == b && m == n
  {
    hide Digits;
    var s := a + [separator] + Digits(m);
    DigitsOnly(a, m, separator);
    DigitsOnly(b, n, separator);
    assert s[|a|] == separator && s[|b|] == separator;
    assert a == s[..|a|] == b;
    assert Digits(m) == s[|a| + 1..] == Digits(n);
    ValueOfDigits(m);
    ValueOfDigits(n);
  }
}
