/** Shared by the other modules. */
module Basics {
  datatype Option<+T> = None | Some(value: T)

  function Get<K, V>(m: map<K, V>, k: K): Option<V> {
    if k in m then Some(m[k]) else None
  }

  function Max(a: int, b: int): int {
    if a < b then b else a
  }

  /** JavaScript's truth of a string, null or undefined. */
  predicate Truthy(text: Option<string>) {
    text.Some? && text.value != ""
  }

  predicate StartsWith(s: string, prefix: string) {
    prefix <= s
  }

  function Repeat(c: char, n: nat): (s: string)
    ensures |s| == n && forall i :: 0 <= i < n ==> s[i] == c
  {
    seq(n, _ => c)
  }

  function Digit(d: nat): char
    requires d < 10
  {
    "0123456789"[d]
  }

  function Decimal(n: nat): string {
    if n < 10 then [Digit(n)] else Decimal(n / 10) + [Digit(n % 10)]
  }

  /** The number before the last digit, and the last digit, of a decimal. */
  lemma DecimalEnds(n: nat)
    ensures Decimal(n) != "" && Decimal(n)[|Decimal(n)| - 1] == Digit(n % 10)
    ensures Decimal(n)[..|Decimal(n)| - 1] == if n < 10 then "" else Decimal(n / 10)
  {
  }

  lemma DigitInjective(a: nat, b: nat)
    requires a < 10 && b < 10 && Digit(a) == Digit(b)
    ensures a == b
  {
  }

  lemma {:induction false} DecimalInjective(n: nat, m: nat)
    requires Decimal(n) == Decimal(m)
    ensures n == m
    decreases n
  {
    DecimalEnds(n);
    DecimalEnds(m);
    DigitInjective(n % 10, m % 10);
    if n >= 10 {
      DecimalEnds(n / 10);
      DecimalInjective(n / 10, m / 10);
    } else if m >= 10 {
      DecimalEnds(m / 10);
    }
  }
}
