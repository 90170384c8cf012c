/** Decimal numerals as character strings. */
module Decimal {

  predicate IsDigit(c: char) { '0' <= c <= '9' }

  function DigitRun(s: string): (n: nat)
    ensures n <= |s|
    ensures forall i :: 0 <= i < n ==> IsDigit(s[i])
    ensures n < |s| ==> !IsDigit(s[n])
  {
    if s == "" || !IsDigit(s[0]) then 0 else 1 + DigitRun(s[1..])
  }

  predicate IsNumeral(s: string) {
    s != "" && forall i :: 0 <= i < |s| ==> IsDigit(s[i])
  }

  /** The number a string of digits denotes; the empty string denotes zero. */
  function Value(s: string): nat
    requires forall i :: 0 <= i < |s| ==> IsDigit(s[i])
  {
    if s == "" then 0
    else
      assert IsDigit(s[|s| - 1]);
      Value(s[..|s| - 1]) * 10 + (s[|s| - 1] as int - '0' as int)
  }

  /** The shortest numeral of `n`. */
  function Print(n: nat): (s: string)
    ensures IsNumeral(s)
    ensures Value(s) == n
  {
    var last := [('0' as int + n % 10) as char];
    assert last[..0] == "";
    if n < 10 then last
    else
      var s := Print(n / 10) + last;
      assert s[..|s| - 1] == Print(n / 10);
      s
  }
}
