/** Decimal numbers as Go's `strconv` and `fmt` print and read them. */
module GoNumbers {
  import opened Prelude

  predicate IsDigit(c: char) {
    '0' <= c <= '9'
  }

  function Digit(d: int): (c: char)
    requires 0 <= d < 10
    ensures IsDigit(c) && c as int - '0' as int == d
  {
    (d + '0' as int) as char
  }

  predicate AllDigits(s: string) {
    forall i :: 0 <= i < |s| ==> IsDigit(s[i])
  }

  function Digits(n: nat): string {
    if n < 10 then [Digit(n)] else Digits(n / 10) + [Digit(n % 10)]
  }

  function DigitsValue(s: string): nat
    requires AllDigits(s)
  {
    if s == "" then 0 else 10 * DigitsValue(s[..|s| - 1]) + (s[|s| - 1] as int - '0' as int)
  }

  /** `%d`. */
  function Itoa(n: int): string {
    if n < 0 then "-" + Digits(-n) else Digits(n)
  }

  const MAX_INT: int := 0x7FFF_FFFF_FFFF_FFFF

  /** An optional sign and digits, within a 64-bit integer. */
  function Atoi(s: string): Option<int> {
    var digits := if s != "" && (s[0] == '-' || s[0] == '+') then s[1..] else s;
    if digits == "" || !AllDigits(digits) then None
    else
      var magnitude: int := DigitsValue(digits);
      var n := if s[0] == '-' then -magnitude else magnitude;
      if -MAX_INT - 1 <= n <= MAX_INT then Some(n) else None
  }

  lemma {:induction false} DigitsReadBack(n: nat)
    ensures Digits(n) != "" && AllDigits(Digits(n)) && DigitsValue(Digits(n)) == n
  {
    if n >= 10 {
      DigitsReadBack(n / 10);
      assert Digits(n)[..|Digits(n)| - 1] == Digits(n / 10);
    }
  }

  lemma AtoiItoa(n: int)
    requires -MAX_INT - 1 <= n <= MAX_INT
    ensures Atoi(Itoa(n)) == Some(n)
  {
    DigitsReadBack(if n < 0 then -n else n);
    var s := Itoa(n);
    if n < 0 {
      assert s[1..] == Digits(-n);
    } else {
      assert IsDigit(s[0]);
    }
  }

  /** One sign or none, then digits, leading zeros included: nothing else is a number. */
  lemma AtoiReads(s: string, digits: string)
    requires digits != "" && s in {digits, "+" + digits, "-" + digits} && IsDigit(digits[0])
    ensures Atoi(s).Some? ==> AllDigits(digits)
    ensures AllDigits(digits) && DigitsValue(digits) <= MAX_INT ==>
      var magnitude: int := DigitsValue(digits); Atoi(s) == Some(if s[0] == '-' then -magnitude else magnitude)
  {
    if s != digits {
      assert s[1..] == digits;
    }
  }

  lemma ItoaCharacters(n: int)
    ensures Itoa(n) != "" && forall i :: 0 <= i < |Itoa(n)| ==> Itoa(n)[i] == '-' || IsDigit(Itoa(n)[i])
  {
    DigitsReadBack(if n < 0 then -n else n);
  }
}
