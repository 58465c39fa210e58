/** Decimal text, as Go's strconv and fmt read and write it. */
module Decimal {
  import opened Text

  const MAX_INT64: int := 0x7fff_ffff_ffff_ffff
  const MIN_INT64: int := -0x8000_0000_0000_0000
  const MAX_UINT64: int := 0xffff_ffff_ffff_ffff

  predicate IsDigit(c: char) { '0' <= c <= '9' }

  predicate AllDigits(s: string) {
    forall i :: 0 <= i < |s| ==> IsDigit(s[i])
  }

  function Digit(d: nat): (c: char)
    requires d < 10
    ensures IsDigit(c) && c as int - '0' as int == d
  {
    (d + '0' as int) as char
  }

  /** The number a run of digits spells, most significant digit first. */
  function Value(s: string): nat
    requires AllDigits(s)
  {
    if s == [] then 0 else 10 * Value(s[..|s| - 1]) + (s[|s| - 1] as int - '0' as int)
  }

  /** strconv.Itoa of a natural number. */
  function Itoa(n: nat): (s: string)
    ensures s != [] && AllDigits(s)
  {
    if n < 10 then [Digit(n)] else Itoa(n / 10) + [Digit(n % 10)]
  }

  /** %d of any integer. */
  function Format(n: int): (s: string)
    ensures s != []
  {
    if n < 0 then "-" + Itoa(-n) else Itoa(n)
  }

  lemma {:induction false} ValueOfItoa(n: nat)
    ensures Value(Itoa(n)) == n
  {
    if n < 10 {
      assert Itoa(n)[..0] == [];
    } else {
      ValueOfItoa(n / 10);
      assert Itoa(n)[..|Itoa(n)| - 1] == Itoa(n / 10);
    }
  }

  lemma ItoaInjective(a: nat, b: nat)
    requires Itoa(a) == Itoa(b)
    ensures a == b
  {
    ValueOfItoa(a);
    ValueOfItoa(b);
  }

  lemma DigitsAreNotSpace(s: string)
    requires AllDigits(s)
    ensures NoSpace(s) && ' ' !in s && ',' !in s && ')' !in s && ':' !in s
  {
  }

  /** strconv.Atoi: an optional sign, then digits, within a 64-bit int. */
  function Atoi(s: string): Option<int> {
    if s == [] then None
    else
      var digits := if s[0] == '-' || s[0] == '+' then s[1..] else s;
      if digits == [] || !AllDigits(digits) then None
      else
        var v := (if s[0] == '-' then -1 else 1) * Value(digits);
        if MIN_INT64 <= v <= MAX_INT64 then Some(v) else None
  }

  /** strconv.ParseUint(s, 10, 64): digits only, within 64 bits. */
  function ParseUint(s: string): Option<nat> {
    if s == [] || !AllDigits(s) then None
    else if Value(s) <= MAX_UINT64 then Some(Value(s)) else None
  }

  /** Reading back a printed number, within the range the reader accepts. */
  lemma AtoiOfItoa(n: nat)
    ensures Atoi(Itoa(n)) == if n <= MAX_INT64 then Some(n) else None
  {
    ValueOfItoa(n);
    assert IsDigit(Itoa(n)[0]);
  }

  lemma ParseUintOfItoa(n: nat)
    ensures ParseUint(Itoa(n)) == if n <= MAX_UINT64 then Some(n) else None
  {
    ValueOfItoa(n);
  }

  /** One sign before the digits is read as a sign. */
  lemma AtoiOfSigned(n: nat)
    ensures Atoi("-" + Itoa(n)) == if n <= MAX_INT64 + 1 then Some(0 - n) else None
    ensures Atoi("+" + Itoa(n)) == if n <= MAX_INT64 then Some(n) else None
  {
    ValueOfItoa(n);
    assert ("-" + Itoa(n))[1..] == Itoa(n) && ("+" + Itoa(n))[1..] == Itoa(n);
  }
}
