/** Decimal integers as Rust prints them (`to_string`) and parses them (`parse::<i64>`). */
module Decimal {
  import opened Wrappers

  const I64_MIN := -0x8000_0000_0000_0000
  const I64_MAX := 0x7fff_ffff_ffff_ffff

  predicate IsDigit(c: char) { '0' <= c <= '9' }

  predicate AllDigits(s: string) { forall c :: c in s ==> IsDigit(c) }

  function DigitChar(d: nat): (c: char)
    requires d < 10
    ensures IsDigit(c) && c as int - '0' as int == d
  {
    ('0' as int + d) as char
  }

  function PrintNat(n: nat): (s: string)
    ensures s != "" && AllDigits(s)
  {
    if n < 10 then [DigitChar(n)] else PrintNat(n / 10) + [DigitChar(n % 10)]
  }

  function Print(i: int): (s: string)
    ensures s != "" && (forall c :: c in s ==> IsDigit(c) || c == '-')
  {
    if i < 0 then "-" + PrintNat(-i) else PrintNat(i)
  }

  function Value(s: string): nat
    requires AllDigits(s)
  {
    if s == "" then 0
    else
      assert s[|s| - 1] in s;
      10 * Value(s[..|s| - 1]) + (s[|s| - 1] as int - '0' as int)
  }

  /** An optional sign, then at least one digit, within the range of an i64. */
  function ParseI64(s: string): Option<int> {
    var negative := s != "" && s[0] == '-';
    var digits := if s != "" && (s[0] == '-' || s[0] == '+') then s[1..] else s;
    if digits == "" || !AllDigits(digits) then None
    else
      var magnitude: int := Value(digits);
      var i := if negative then -magnitude else magnitude;
      if I64_MIN <= i <= I64_MAX then Some(i) else None
  }

  lemma {:induction false} ValueOfPrintNat(n: nat)
    ensures Value(PrintNat(n)) == n
  {
    if n < 10 {
      assert PrintNat(n)[..0] == "";
    } else {
      ValueOfPrintNat(n / 10);
      assert PrintNat(n)[..|PrintNat(n)| - 1] == PrintNat(n / 10);
    }
  }

  lemma NoSign(n: nat)
    ensures PrintNat(n)[0] != '-' && PrintNat(n)[0] != '+'
  {
    assert PrintNat(n)[0] in PrintNat(n);
  }

  lemma ParsePrint(i: int)
    ensures ParseI64(Print(i)) == if I64_MIN <= i <= I64_MAX then Some(i) else None
  {
    var n: nat := if i < 0 then -i else i;
    ValueOfPrintNat(n);
    NoSign(n);
    assert i < 0 ==> Print(i)[1..] == PrintNat(n);
  }

  lemma PrintInjective(i: int, j: int)
    requires Print(i) == Print(j)
    ensures i == j
  {
    var m: nat, n: nat := if i < 0 then -i else i, if j < 0 then -j else j;
    ValueOfPrintNat(m);
    ValueOfPrintNat(n);
    NoSign(m);
    NoSign(n);
    assert i < 0 ==> Print(i)[1..] == PrintNat(m);
    assert j < 0 ==> Print(j)[1..] == PrintNat(n);
  }
}
