// Decimal numerals, as printed by SQL and parsed by strconv.ParseInt(s, 10, 64).
module Decimal {
  import opened Prelude

  function DigitChar(d: nat): char
    requires d < 10
  {
    '0' + d as char
  }

  predicate IsDigit(c: char) {
    '0' <= c <= '9'
  }

  function DigitValue(c: char): nat
    requires IsDigit(c)
  {
    (c - '0') as nat
  }

  // The decimal numeral of n, without leading zeros.
  function Print(n: nat): string {
    if n < 10 then [DigitChar(n)] else Print(n / 10) + [DigitChar(n % 10)]
  }

  predicate AllDigits(s: string) {
    forall i | 0 <= i < |s| :: IsDigit(s[i])
  }

  function Value(s: string): nat
    requires AllDigits(s)
  {
    if s == [] then 0 else 10 * Value(s[..|s| - 1]) + DigitValue(s[|s| - 1])
  }

  const INT64_MAX := 0x7FFF_FFFF_FFFF_FFFF

  // strconv.ParseInt in base 10: an optional sign, then at least one digit,
  // within the int64 range.
  function ParseInt(s: string): Option<int> {
    var negative := s != [] && s[0] == '-';
    var digits := if s != [] && (s[0] == '-' || s[0] == '+') then s[1..] else s;
    if digits == [] || !AllDigits(digits) then None
    else
      var n: int := Value(digits);
      var v := if negative then -n else n;
      if -INT64_MAX - 1 <= v <= INT64_MAX then Some(v) else None
  }

  lemma {:induction false} PrintValue(n: nat)
    ensures Print(n) != [] && AllDigits(Print(n)) && Value(Print(n)) == n
  {
    if n < 10 {
      assert Print(n)[..0] == [];
    } else {
      PrintValue(n / 10);
      var s := Print(n);
      assert s[..|s| - 1] == Print(n / 10);
    }
  }

  lemma PrintInjective(m: nat, n: nat)
    requires Print(m) == Print(n)
    ensures m == n
  {
    PrintValue(m);
    PrintValue(n);
  }

  // Digits parse to their value, unless it is too large for an int64.
  lemma ParseDigits(s: string)
    requires s != [] && AllDigits(s)
    ensures ParseInt(s) == if Value(s) <= INT64_MAX then Some(Value(s)) else None
  {
    assert IsDigit(s[0]);
  }

  lemma ParsePrint(n: nat)
    ensures ParseInt(Print(n)) == if n <= INT64_MAX then Some(n) else None
  {
    PrintValue(n);
    ParseDigits(Print(n));
  }
}
