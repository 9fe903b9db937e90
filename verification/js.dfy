/**
 * JavaScript truthiness for the kinds of values the core tests with `if (x)`:
 * strings (empty is falsy, every other string, "0" included, is truthy),
 * possibly-missing strings (a missing value is falsy) and integral numbers
 * (0 is falsy).
 */
module Js {
  import opened Wrappers

  predicate StringTruthy(s: string) {
    s != ""
  }

  predicate OptionalTruthy(v: Option<string>) {
    v.Some? && StringTruthy(v.value)
  }

  predicate NumberTruthy(n: int) {
    n != 0
  }

  /** The decimal text `String(n)` gives for a natural number. */
  function NatToString(n: nat): (s: string)
    ensures |s| >= 1
    ensures forall i :: 0 <= i < |s| ==> '0' <= s[i] <= '9'
    decreases n
  {
    var d := [(('0' as int) + n % 10) as char];
    if n < 10 then d else NatToString(n / 10) + d
  }

  /** The decimal text `String(n)` gives for an integer. */
  function IntToString(n: int): (s: string)
    ensures |s| >= 1
  {
    if n < 0 then "-" + NatToString(-n) else NatToString(n)
  }
}
