/** Bytes, Go's int64 and its decimal form: what fmt's %d prints and strconv.ParseInt and Atoi read. */
module Decimal {
  import opened Basics

  type Byte = b: int | 0 <= b < 256
  type Bytes = seq<Byte>

  const MIN_INT64 := -0x8000_0000_0000_0000
  const MAX_INT64 := 0x7FFF_FFFF_FFFF_FFFF
  type Int64 = n: int | MIN_INT64 <= n <= MAX_INT64

  /** A Go string or byte slice: its length is a Go int. */
  type GoBytes = s: Bytes | |s| <= MAX_INT64

  const PLUS: Byte := 43
  const MINUS: Byte := 45
  const ZERO: Byte := 48

  predicate IsDigit(b: Byte) { ZERO <= b < ZERO + 10 }

  predicate AllDigits(s: Bytes) { forall i :: 0 <= i < |s| ==> IsDigit(s[i]) }

  function PrintNat(n: nat): Bytes {
    if n < 10 then [ZERO + n] else PrintNat(n / 10) + [ZERO + n % 10]
  }

  function Print(n: int): Bytes {
    if n < 0 then [MINUS] + PrintNat(-n) else PrintNat(n)
  }

  function NatValue(s: Bytes): nat
    requires AllDigits(s)
  {
    if s == [] then 0 else 10 * NatValue(s[..|s| - 1]) + (s[|s| - 1] - ZERO)
  }

  /** strconv.ParseInt(s, 10, 64): an optional sign, then digits only, within range.
      Leading zeros and a plus sign are accepted. */
  function ParseInt(s: Bytes): Option<Int64> {
    if s == [] then None else
      var signed := s[0] == PLUS || s[0] == MINUS;
      var digits := if signed then s[1..] else s;
      if digits == [] || !AllDigits(digits) then None else
        var n: int := NatValue(digits);
        var value := if s[0] == MINUS then -n else n;
        if MIN_INT64 <= value <= MAX_INT64 then Some(value) else None
  }

  lemma {:induction false} PrintNatReads(n: nat)
    ensures PrintNat(n) != [] && AllDigits(PrintNat(n)) && NatValue(PrintNat(n)) == n
  {
    if n >= 10 {
      PrintNatReads(n / 10);
      var s := PrintNat(n);
      assert s[..|s| - 1] == PrintNat(n / 10);
    }
  }

  /** Reading back what was printed gives the number, over the whole int64 range. */
  lemma ParsePrint(n: Int64)
    ensures ParseInt(Print(n)) == Some(n)
    ensures Print(n) != [] && (IsDigit(Print(n)[0]) || Print(n)[0] == MINUS)
    ensures forall i :: 0 <= i < |Print(n)| ==> IsDigit(Print(n)[i]) || Print(n)[i] == MINUS
  {
    if n < 0 {
      var m: int := n;
      PrintNatReads(-m);
      assert Print(n)[1..] == PrintNat(-m);
    } else {
      PrintNatReads(n);
      assert IsDigit(PrintNat(n)[0]);
    }
  }

  predicate IsNumeral(s: Bytes, sign: Bytes, digits: Bytes, n: int) {
    && s == sign + digits && (sign == [] || sign == [PLUS] || sign == [MINUS])
    && digits != [] && AllDigits(digits)
    && var value: int := NatValue(digits);
       n == if sign == [MINUS] then -value else value
  }

  /** What is read as a number: one or more digits, leading zeros included, after a minus, a plus or no sign. */
  lemma ParsesExactlyWhen(s: Bytes, n: Int64)
    ensures ParseInt(s) == Some(n) <==> exists sign: Bytes, digits: Bytes :: IsNumeral(s, sign, digits, n)
  {
    hide NatValue;
    if ParseInt(s) == Some(n) {
      var signed := s[0] == PLUS || s[0] == MINUS;
      var sign, digits := if signed then s[..1] else [], if signed then s[1..] else s;
      assert s == sign + digits;
      assert IsNumeral(s, sign, digits, n);
    }
    if sign: Bytes, digits: Bytes :| IsNumeral(s, sign, digits, n) {
      assert IsDigit(digits[0]);
      if sign != [] { assert s[1..] == digits; } else { assert s == digits; }
    }
  }
}
