// Decimal numerals and the reading of machine integers.
module Decimal {
  import opened Wrappers

  const I64 := 0x8000_0000_0000_0000
  const U64 := 0x1_0000_0000_0000_0000
  const U32 := 0x1_0000_0000

  predicate IsDigit(c: char) {
    '0' <= c <= '9'
  }

  predicate AllDigits(s: string) {
    forall i :: 0 <= i < |s| ==> IsDigit(s[i])
  }

  function DigitChar(n: nat): (c: char)
    requires n < 10
    ensures IsDigit(c)
  {
    n as char + '0'
  }

  function DigitValue(c: char): (n: nat)
    requires IsDigit(c)
    ensures n < 10
  {
    c as int - '0' as int
  }

  function Digits(n: nat): (s: string)
    ensures s != "" && AllDigits(s)
  {
    if n < 10 then [DigitChar(n)] else Digits(n / 10) + [DigitChar(n % 10)]
  }

  // The number that a run of digits stands for.
  function Value(s: string): nat
    requires AllDigits(s)
  {
    if s == "" then 0 else Value(s[..|s| - 1]) * 10 + DigitValue(s[|s| - 1])
  }

  lemma {:induction false} ValueOfDigits(n: nat)
    ensures Value(Digits(n)) == n
  {
    if n >= 10 {
      ValueOfDigits(n / 10);
      assert Digits(n)[..|Digits(n)| - 1] == Digits(n / 10);
    }
  }

  // A numeral padded with zeros on the left.
  function Padded(n: nat, width: nat): (s: string)
    ensures AllDigits(s) && |s| >= width && s != ""
    decreases width
  {
    if |Digits(n)| >= width then Digits(n) else "0" + Padded(n, width - 1)
  }

  lemma {:induction false} ValueOfZero(s: string)
    requires AllDigits(s)
    ensures Value("0" + s) == Value(s)
  {
    var t := "0" + s;
    if s != "" {
      ValueOfZero(s[..|s| - 1]);
      assert t[..|t| - 1] == "0" + s[..|s| - 1];
    }
  }

  lemma {:induction false} ValueOfPadded(n: nat, width: nat)
    ensures Value(Padded(n, width)) == n
    decreases width
  {
    ValueOfDigits(n);
    if |Digits(n)| < width {
      ValueOfPadded(n, width - 1);
      ValueOfZero(Padded(n, width - 1));
    }
  }

  // A numeral below 10 to the width takes exactly the width.
  lemma {:induction false} PaddedWidth(n: nat, width: nat)
    requires width >= 1 && |Digits(n)| <= width
    ensures |Padded(n, width)| == width
    decreases width
  {
    if |Digits(n)| < width { PaddedWidth(n, width - 1); }
  }

  // Reading machine integers: an optional sign, then at least one digit, in range.
  function ParseDigits(s: string, limit: nat): Option<nat> {
    if s != "" && AllDigits(s) && Value(s) < limit then Some(Value(s)) else None
  }

  function ParseU32(s: string): Option<nat> {
    ParseDigits(if s != "" && s[0] == '+' then s[1..] else s, U32)
  }

  function ParseI64(s: string): Option<int> {
    if s != "" && s[0] == '-' then
      match ParseDigits(s[1..], I64 + 1)
      case Some(n) => Some(0 - n as int)
      case None => None
    else ParseDigits(if s != "" && s[0] == '+' then s[1..] else s, I64)
  }

  function ParseU64(s: string): Option<nat> {
    ParseDigits(if s != "" && s[0] == '+' then s[1..] else s, U64)
  }
}
