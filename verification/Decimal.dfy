/** Decimal numerals as strconv prints and reads them. */
module Decimal {

  predicate IsDigit(c: char) {
    '0' <= c <= '9'
  }

  predicate AllDigits(s: string) {
    forall i | 0 <= i < |s| :: IsDigit(s[i])
  }

  function Digit(d: nat): (c: char)
    requires d < 10
    ensures IsDigit(c) && DigitValue(c) == d
  {
    '0' + d as char
  }

  function DigitValue(c: char): (d: nat)
    requires IsDigit(c)
    ensures d < 10 && '0' + d as char == c
  {
    (c as int) - ('0' as int)
  }

  /** The digits of `n`, without leading zeros. */
  function Print(n: nat): (s: string)
    ensures |s| >= 1 && AllDigits(s)
    ensures s[0] == '0' ==> n == 0 && s == "0"
  {
    if n < 10 then [Digit(n)] else Print(n / 10) + [Digit(n % 10)]
  }

  function Value(s: string): nat
    requires AllDigits(s)
  {
    if s == "" then 0 else 10 * Value(s[..|s| - 1]) + DigitValue(s[|s| - 1])
  }

  lemma {:induction false} ValueOfPrint(n: nat)
    ensures Value(Print(n)) == n
  {
    if n < 10 {
      assert Value("") == 0;
      assert [Digit(n)][..0] == "";
    } else {
      ValueOfPrint(n / 10);
      assert Print(n)[..|Print(n)| - 1] == Print(n / 10);
    }
  }

  lemma {:induction false} ValuePositive(s: string)
    requires |s| >= 1 && AllDigits(s) && s[0] != '0'
    ensures Value(s) >= 1
  {
    if |s| == 1 {
      assert Value(s[..0]) == 0;
    } else {
      ValuePositive(s[..|s| - 1]);
    }
  }

  lemma ValueOfOne(c: char)
    requires IsDigit(c)
    ensures AllDigits([c]) && Value([c]) == DigitValue(c)
  {
    assert [c][..0] == "";
  }

  /** A numeral without leading zeros is the only one of its value. */
  lemma {:induction false} PrintOfValue(s: string)
    requires |s| >= 1 && AllDigits(s) && (s[0] == '0' ==> s == "0")
    ensures Print(Value(s)) == s
  {
    var last := s[|s| - 1];
    if |s| == 1 {
      ValueOfOne(s[0]);
    } else {
      var init := s[..|s| - 1];
      ValuePositive(init);
      PrintOfValue(init);
      var v, d := Value(init), DigitValue(last);
      assert Value(s) == 10 * v + d && (10 * v + d) / 10 == v && (10 * v + d) % 10 == d;
      assert s == init + [last];
    }
  }
}
