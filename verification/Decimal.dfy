/** Decimal numerals as `std::to_string` writes and `std::from_chars` reads them. */
module Decimal {
  import opened Utf8
  import opened Wrappers

  function Digit(d: nat): byte
    requires d < 10
  {
    match d
    case 0 => 0x30 case 1 => 0x31 case 2 => 0x32 case 3 => 0x33 case 4 => 0x34
    case 5 => 0x35 case 6 => 0x36 case 7 => 0x37 case 8 => 0x38 case _ => 0x39
  }

  function DigitValue(b: byte): int {
    if b == 0x30 then 0 else if b == 0x31 then 1 else if b == 0x32 then 2 else if b == 0x33 then 3
    else if b == 0x34 then 4 else if b == 0x35 then 5 else if b == 0x36 then 6 else if b == 0x37 then 7
    else if b == 0x38 then 8 else if b == 0x39 then 9 else -1
  }

  const MINUS: byte := 0x2D
  const INT64_LIMIT: int := 0x8000_0000_0000_0000

  /** `std::to_string` of a non-negative number. */
  function Numeral(n: nat): bytes {
    if n < 10 then [Digit(n)] else Numeral(n / 10) + [Digit(n % 10)]
  }

  function SignedNumeral(n: int): bytes {
    if n < 0 then [MINUS] + Numeral(-n) else Numeral(n)
  }

  predicate AllDigits(b: bytes) {
    forall i :: 0 <= i < |b| ==> DigitValue(b[i]) >= 0
  }

  function NumeralValue(b: bytes): nat
    requires AllDigits(b)
  {
    if b == [] then 0 else 10 * NumeralValue(b[..|b| - 1]) + DigitValue(b[|b| - 1])
  }

  /** A 64-bit `std::from_chars` that has to consume all of `b`. */
  function FromChars(b: bytes): Option<int> {
    var negative := b != [] && b[0] == MINUS;
    var digits := if negative then b[1..] else b;
    if digits == [] || !AllDigits(digits) then None
    else if negative then
      (if NumeralValue(digits) as int <= INT64_LIMIT then Some(0 - NumeralValue(digits)) else None)
    else
      (if NumeralValue(digits) < INT64_LIMIT then Some(NumeralValue(digits)) else None)
  }

  lemma {:induction false} NumeralReadsBack(n: nat)
    ensures Numeral(n) != [] && AllDigits(Numeral(n)) && NumeralValue(Numeral(n)) == n
  {
    hide Digit, DigitValue;
    var b := Numeral(n);
    DigitReadsBack(n % 10);
    if n < 10 {
      assert b[..0] == [] && NumeralValue([]) == 0;
    } else {
      NumeralReadsBack(n / 10);
      assert b[..|b| - 1] == Numeral(n / 10);
    }
  }

  lemma DigitReadsBack(d: nat)
    requires d < 10
    ensures DigitValue(Digit(d)) == d
  {
  }

  /** Writing and reading a 64-bit number agree. */
  lemma FromCharsReadsNumeral(n: int)
    requires -INT64_LIMIT <= n < INT64_LIMIT
    ensures FromChars(SignedNumeral(n)) == Some(n)
  {
    hide Numeral, NumeralValue;
    NumeralReadsBack(if n < 0 then -n else n);
    MinusIsNoDigit();
    if n < 0 {
      assert SignedNumeral(n)[1..] == Numeral(-n);
    }
  }

  lemma MinusIsNoDigit()
    ensures DigitValue(MINUS) < 0
  {
  }

  lemma NumeralIsInjective(m: nat, n: nat)
    requires Numeral(m) == Numeral(n)
    ensures m == n
  {
    NumeralReadsBack(m);
    NumeralReadsBack(n);
  }
}
