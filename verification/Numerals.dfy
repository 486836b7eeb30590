/** Integers as the program prints and reads them, in base ten. */
module Numerals {
  import opened Wrappers

  function Digit(d: nat): char
    requires d < 10
  {
    "0123456789"[d]
  }

  function Digits(n: nat): string {
    if n < 10 then [Digit(n)] else Digits(n / 10) + [Digit(n % 10)]
  }

  /** A 64-bit integer in base ten. */
  function Decimal(n: int): string {
    if n < 0 then "-" + Digits(-n) else Digits(n)
  }

  predicate AllDigits(s: string) {
    forall i :: 0 <= i < |s| ==> '0' <= s[i] <= '9'
  }

  lemma {:induction false} DigitsAreDigits(n: nat)
    ensures AllDigits(Digits(n)) && |Digits(n)| > 0
  {
    if n >= 10 {
      DigitsAreDigits(n / 10);
    }
  }

  lemma {:induction false} DigitInjective(a: nat, b: nat)
    requires a < 10 && b < 10 && Digit(a) == Digit(b)
    ensures a == b
  {
  }

  lemma {:induction false} OneDigit(a: nat)
    ensures |Digits(a)| == 1 <==> a < 10
  {
    if a >= 10 {
      DigitsAreDigits(a / 10);
    }
  }

  lemma {:induction false} DigitsInjective(a: nat, b: nat)
    requires Digits(a) == Digits(b)
    ensures a == b
  {
    OneDigit(a);
    OneDigit(b);
    var s, t := Digits(a), Digits(b);
    DigitInjective(a % 10, b % 10) by {
      assert s[|s|-1] == Digit(a % 10) && t[|t|-1] == Digit(b % 10);
    }
    if a >= 10 {
      assert s[..|s|-1] == Digits(a / 10) && t[..|t|-1] == Digits(b / 10);
      DigitsInjective(a / 10, b / 10);
    }
  }

  function Abs(n: int): nat {
    if n < 0 then -n else n
  }

  lemma {:induction false} SignShows(n: int)
    ensures |Decimal(n)| > 0 && (n < 0 <==> Decimal(n)[0] == '-')
    ensures n < 0 ==> Decimal(n)[1..] == Digits(-n)
  {
    DigitsAreDigits(Abs(n));
  }

  lemma {:induction false} DecimalInjective(a: int, b: int)
    requires Decimal(a) == Decimal(b)
    ensures a == b
  {
    SignShows(a);
    SignShows(b);
    DigitsInjective(Abs(a), Abs(b));
  }

  // ---------- reading ----------

  const MAX_INT := 9223372036854775807

  predicate IsDigit(c: char) {
    '0' <= c <= '9'
  }

  function ValueOf(s: string): nat
    requires AllDigits(s)
  {
    if s == "" then 0 else 10 * ValueOf(s[..|s|-1]) + (s[|s|-1] as int - '0' as int)
  }

  function InRange(n: int): Option<int> {
    if -MAX_INT - 1 <= n <= MAX_INT then Some(n) else None
  }

  /** A signed 64-bit integer: digits, after at most one sign. */
  function Atoi(s: string): Option<int> {
    var signed := s != "" && s[0] in {'+', '-'};
    var digits := if signed then s[1..] else s;
    if digits == "" || !AllDigits(digits) then None
    else
      var v: int := ValueOf(digits);
      InRange(if signed && s[0] == '-' then -v else v)
  }

  lemma {:induction false} ValueOfDigits(n: nat)
    ensures AllDigits(Digits(n)) && ValueOf(Digits(n)) == n
  {
    DigitsAreDigits(n);
    if n >= 10 {
      ValueOfDigits(n / 10);
      assert Digits(n)[..|Digits(n)|-1] == Digits(n / 10);
    }
  }

  /** What is printed is read back, as far as 64 bits go. */
  lemma {:induction false} AtoiReadsDecimal(n: int)
    ensures Atoi(Decimal(n)) == InRange(n)
  {
    SignShows(n);
    ValueOfDigits(Abs(n));
    DigitsAreDigits(Abs(n));
  }

  predicate AllZeros(s: string) {
    forall i :: 0 <= i < |s| ==> s[i] == '0'
  }

  /** Zeros in front of a number change nothing. */
  lemma {:induction false} ZerosAddNothing(zeros: string, s: string)
    requires AllZeros(zeros) && AllDigits(s)
    ensures AllDigits(zeros + s) && ValueOf(zeros + s) == ValueOf(s)
    decreases |s|
  {
    var all := zeros + s;
    if s == "" {
      assert all == zeros;
      ZerosAreNothing(zeros);
    } else {
      ZerosAddNothing(zeros, s[..|s|-1]);
      assert all[..|all|-1] == zeros + s[..|s|-1];
    }
  }

  lemma {:induction false} ZerosAreNothing(zeros: string)
    requires AllZeros(zeros)
    ensures AllDigits(zeros) && ValueOf(zeros) == 0
  {
    if zeros != "" {
      ZerosAreNothing(zeros[..|zeros|-1]);
    }
  }

  /** A sign, or none, and some digits, whose value with that sign is n. */
  predicate Signs(sign: string, digits: string, n: int) {
    && digits != "" && AllDigits(digits)
    && ((sign == "-" && 0 - n == ValueOf(digits)) || ((sign == "" || sign == "+") && n == ValueOf(digits)))
  }

  lemma {:induction false} SignedIsRead(sign: string, digits: string, n: int)
    requires Signs(sign, digits, n)
    ensures Atoi(sign + digits) == InRange(n)
  {
    var s := sign + digits;
    assert '0' <= digits[0] <= '9';
    if sign == "" {
      assert s == digits;
    } else {
      assert s[0] == sign[0] && s[1..] == digits;
    }
  }

  lemma {:induction false} ReadIsSigned(s: string) returns (sign: string, digits: string)
    requires Atoi(s).Some?
    ensures s == sign + digits && Signs(sign, digits, Atoi(s).value)
  {
    sign, digits := "", s;
    if s[0] in {'+', '-'} {
      sign, digits := s[..1], s[1..];
      assert sign == [s[0]];
    }
  }

  /** A text is read as n exactly when it is a sign, or none, and digits that make n, and n fits 64 bits. */
  lemma {:induction false} AtoiExactly(s: string, n: int)
    ensures Atoi(s) == Some(n) <==>
              -MAX_INT - 1 <= n <= MAX_INT && exists sign, digits :: s == sign + digits && Signs(sign, digits, n)
  {
    if sign, digits :| s == sign + digits && Signs(sign, digits, n) {
      SignedIsRead(sign, digits, n);
    }
    if Atoi(s) == Some(n) {
      var sign, digits := ReadIsSigned(s);
    }
  }
}
