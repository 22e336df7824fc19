/** Decimal text of numbers, as printed and parsed by the source's runtime library. */
module Decimal {

  import opened Wrappers

  predicate IsDigit(c: char) {
    '0' <= c <= '9'
  }

  predicate AllDigits(s: string) {
    forall i :: 0 <= i < |s| ==> IsDigit(s[i])
  }

  function Digit(n: nat): (c: char)
    requires n < 10
    ensures IsDigit(c)
  {
    '0' + n as char
  }

  function Format(n: nat): string {
    if n < 10 then [Digit(n)] else Format(n / 10) + [Digit(n % 10)]
  }

  function FormatInt(n: int): string {
    if n < 0 then "-" + Format(-n) else Format(n)
  }

  function Value(s: string): nat
    requires AllDigits(s)
  {
    if s == "" then 0 else 10 * Value(s[..|s| - 1]) + (s[|s| - 1] - '0') as nat
  }

  /** Unsigned parse with an upper bound: digits only, at least one, in range. */
  function ParseUint(s: string, max: nat): Option<nat> {
    if s == "" || !AllDigits(s) then None
    else if Value(s) > max then None
    else Some(Value(s))
  }

  lemma {:induction false} FormatIsNumeral(n: nat)
    ensures Format(n) != "" && AllDigits(Format(n)) && Value(Format(n)) == n
  {
    if n >= 10 {
      FormatIsNumeral(n / 10);
      assert Format(n)[..|Format(n)| - 1] == Format(n / 10);
    } else {
      assert Format(n)[..0] == "";
    }
  }

  lemma ParseFormat(n: nat, max: nat)
    ensures ParseUint(Format(n), max) == if n <= max then Some(n) else None
  {
    FormatIsNumeral(n);
  }
}
