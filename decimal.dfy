/** How the page turns an integer into the text it shows or compares against:
    JavaScript's String(n) for an integer n, written in plain decimal. */
module Decimal {

  /** The character of decimal digit d. */
  function Digit(d: nat): (ch: char)
    requires d < 10
    ensures '0' <= ch <= '9'
  {
    ('0' as int + d) as char
  }

  /** The decimal digits of n, most significant first, without leading zeros. */
  function NatText(n: nat): (s: string)
    ensures 1 <= |s|
    ensures forall i :: 0 <= i < |s| ==> '0' <= s[i] <= '9'
    ensures s[0] == '0' ==> n == 0
    decreases n
  {
    if n < 10 then [Digit(n)] else NatText(n / 10) + [Digit(n % 10)]
  }

  /** The text of an integer: a minus sign exactly for negative numbers, then its digits. */
  function NumberText(n: int): (s: string)
    ensures 1 <= |s|
    ensures (s[0] == '-') <==> n < 0
    ensures forall i :: 0 < i < |s| ==> '0' <= s[i] <= '9'
    ensures n < 0 ==> 2 <= |s|
  {
    if n < 0 then "-" + NatText(-n) else NatText(n)
  }

  /** The number a digit string spells, most significant digit first. */
  function DigitsValue(s: string): nat
  {
    if s == [] then 0
    else 10 * DigitsValue(s[..|s| - 1]) + (if '0' <= s[|s| - 1] <= '9' then s[|s| - 1] as int - '0' as int else 0)
  }

  /** The digits of n spell n. */
  lemma {:induction false} NatTextValue(n: nat)
    ensures DigitsValue(NatText(n)) == n
    decreases n
  {
    var s := NatText(n);
    if n >= 10 {
      NatTextValue(n / 10);
      assert s[..|s| - 1] == NatText(n / 10);
    }
  }

  /** The text of n is its decimal representation: for a negative n a minus sign followed by the
      digits of -n, otherwise the digits of n. */
  lemma NumberTextValue(n: int)
    ensures var s := NumberText(n);
      if n < 0 then s[0] == '-' && DigitsValue(s[1..]) == -n else DigitsValue(s) == n
  {
    if n < 0 {
      NatTextValue(-n);
      assert NumberText(n)[1..] == NatText(-n);
    } else {
      NatTextValue(n);
    }
  }

  /** Two naturals with the same digits are equal. */
  lemma {:induction false} NatTextInjective(a: nat, b: nat)
    requires NatText(a) == NatText(b)
    ensures a == b
    decreases a
  {
    var s := NatText(a);
    if a < 10 && b < 10 {
      assert Digit(a) == s[0] == Digit(b);
    } else if 10 <= a && 10 <= b {
      assert NatText(a / 10) == s[..|s| - 1] == NatText(b / 10);
      NatTextInjective(a / 10, b / 10);
      assert Digit(a % 10) == s[|s| - 1] == Digit(b % 10);
    }
  }

  /** The text of an integer determines it: equal texts iff equal numbers. */
  lemma NumberTextInjective(a: int, b: int)
    ensures NumberText(a) == NumberText(b) <==> a == b
  {
    if NumberText(a) == NumberText(b) {
      var s := NumberText(a);
      if a < 0 {
        assert b < 0;
        assert NatText(-a) == s[1..] == NatText(-b);
        NatTextInjective(-a, -b);
      } else {
        assert b >= 0;
        NatTextInjective(a, b);
      }
    }
  }

  /** No integer reads as the desert placeholder "--" or as the empty text. */
  lemma NumberTextIsNotPlaceholder(n: int)
    ensures NumberText(n) != "--"
    ensures NumberText(n) != ""
  {
    var s := NumberText(n);
    if n < 0 {
      assert '0' <= s[1] <= '9';
    } else {
      assert '0' <= s[0] <= '9';
    }
  }
}
