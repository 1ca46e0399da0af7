/** The few rules of JavaScript evaluation that the modelled handlers rely on. */
module Js {

  datatype Option<T> = None | Some(value: T)

  /** `a || b` where `a` is a string that may be undefined: both undefined and "" are falsy. */
  function Or(a: Option<string>, b: string): (r: string)
    ensures r != "" <==> (a.Some? && a.value != "") || b != ""
  {
    if a.Some? && a.value != "" then a.value else b
  }

  /** `a || b` is a truthy `a` itself, and otherwise `b`; it is never "" when `b` is not. */
  lemma OrPicksTruthy(a: Option<string>, b: string)
    ensures a.Some? && a.value != "" ==> Or(a, b) == a.value
    ensures !(a.Some? && a.value != "") ==> Or(a, b) == b
    ensures b != "" ==> Or(a, b) != ""
  {
  }

  predicate IsDigit(c: char)
  {
    '0' <= c <= '9'
  }

  predicate AllDigits(s: string)
  {
    forall i :: 0 <= i < |s| ==> IsDigit(s[i])
  }

  function Digit(d: nat): (c: char)
    requires d < 10
    ensures IsDigit(c) && c as int - '0' as int == d
  {
    ('0' as int + d) as char
  }

  /** `${n}` for a non-negative integer `n`: its shortest decimal numeral. */
  function Decimal(n: nat): (s: string)
    ensures 1 <= |s| && AllDigits(s)
    ensures |s| > 1 ==> s[0] != '0'
    decreases n
  {
    if n < 10 then [Digit(n)] else Decimal(n / 10) + [Digit(n % 10)]
  }

  /** The number a string of decimal digits denotes (the partner of `Decimal`). */
  function ValueOf(s: string): nat
    requires AllDigits(s)
  {
    if s == [] then 0 else ValueOf(s[..|s| - 1]) * 10 + (s[|s| - 1] as int - '0' as int)
  }

  /** Reading back the numeral `Decimal` writes gives the number again. */
  lemma {:induction false} ValueOfDecimal(n: nat)
    ensures ValueOf(Decimal(n)) == n
  {
    if n >= 10 {
      var s := Decimal(n);
      assert s[..|s| - 1] == Decimal(n / 10);
      ValueOfDecimal(n / 10);
    }
  }

  /** Different numbers are written differently. */
  lemma DecimalInjective(a: nat, b: nat)
    requires Decimal(a) == Decimal(b)
    ensures a == b
  {
    ValueOfDecimal(a);
    ValueOfDecimal(b);
  }
}
