/**
 * Decimal text of integers: how a JavaScript template literal renders a number
 * (`${n}`) and how `Number(...)` reads back the decimal text that the
 * PostgreSQL driver returns for BIGINT and COUNT columns.
 */
module Decimal {

  function DigitChar(d: nat): (c: char)
    requires d < 10
    ensures '0' <= c <= '9'
  {
    ['0', '1', '2', '3', '4', '5', '6', '7', '8', '9'][d]
  }

  predicate IsDigit(c: char) { '0' <= c <= '9' }

  function DigitValue(c: char): (d: nat)
    requires IsDigit(c)
    ensures d < 10
  {
    (c as int) - ('0' as int)
  }

  /** Decimal digits of a natural number, most significant first, no leading zeros. */
  function ShowNat(n: nat): (s: string)
    ensures |s| >= 1
    ensures forall i :: 0 <= i < |s| ==> IsDigit(s[i])
    ensures n < 10 <==> |s| == 1
    decreases n
  {
    if n < 10 then [DigitChar(n)] else ShowNat(n / 10) + [DigitChar(n % 10)]
  }

  /** `${n}` for an integer: a minus sign before the digits of a negative number. */
  function Show(n: int): (s: string)
    ensures |s| >= 1
    ensures forall i :: 0 <= i < |s| ==> IsDigit(s[i]) || (i == 0 && s[i] == '-')
  {
    if n < 0 then "-" + ShowNat(-n) else ShowNat(n)
  }

  function ParseNat(s: string): nat
    requires forall i :: 0 <= i < |s| ==> IsDigit(s[i])
    decreases |s|
  {
    if s == [] then 0 else ParseNat(s[..|s| - 1]) * 10 + DigitValue(s[|s| - 1])
  }

  /** `Number(s)` on the canonical decimal text of an integer. */
  function Parse(s: string): int
    requires IsCanonical(s)
  {
    if s[0] == '-' then -(ParseNat(s[1..]) as int) else ParseNat(s)
  }

  /** Text the database driver emits for an integer: optional minus, then digits. */
  predicate IsCanonical(s: string)
  {
    && |s| >= 1
    && (s[0] == '-' ==> |s| >= 2)
    && forall i :: 0 <= i < |s| ==> IsDigit(s[i]) || (i == 0 && s[i] == '-')
  }

  lemma {:induction false} ParseShowNat(n: nat)
    ensures ParseNat(ShowNat(n)) == n
    decreases n
  {
    if n >= 10 {
      var s := ShowNat(n / 10) + [DigitChar(n % 10)];
      assert s[..|s| - 1] == ShowNat(n / 10);
      ParseShowNat(n / 10);
    }
  }

  /** Reading back the rendered text gives the number: the decimal round trip. */
  lemma ParseShow(n: int)
    ensures IsCanonical(Show(n)) && Parse(Show(n)) == n
  {
    var s := Show(n);
    if n < 0 {
      var t := ShowNat(-n);
      assert s == "-" + t;
      assert s[1..] == t;
      assert s[0] == '-' && |s| >= 2;
      ParseShowNat(-n);
    } else {
      assert s == ShowNat(n);
      ParseShowNat(n);
    }
  }

  /** Distinct numbers render as distinct text. */
  lemma ShowInjective(a: int, b: int)
    requires Show(a) == Show(b)
    ensures a == b
  {
    ParseShow(a);
    ParseShow(b);
  }
}
