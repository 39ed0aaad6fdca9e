/** Decimal numbers as Go's strconv writes and reads them. */
module Decimal {
  import opened Wrappers

  function FormatUint(n: nat): (s: string)
    ensures |s| > 0 && AllDigits(s)
  {
    if n < 10 then [Digit(n)] else FormatUint(n / 10) + [Digit(n % 10)]
  }

  function FormatInt(x: int): string {
    if x < 0 then "-" + FormatUint(-x) else FormatUint(x)
  }

  function Digit(d: nat): (c: char)
    requires d < 10
    ensures IsDigit(c) && DigitValue(c) == d
  {
    '0' + d as char
  }

  predicate IsDigit(c: char) { '0' <= c <= '9' }

  function DigitValue(c: char): nat
    requires IsDigit(c)
  {
    (c - '0') as nat
  }

  predicate AllDigits(s: string) {
    forall i :: 0 <= i < |s| ==> IsDigit(s[i])
  }

  function Value(s: string): nat
    requires AllDigits(s)
  {
    if s == "" then 0 else Value(s[..|s| - 1]) * 10 + DigitValue(s[|s| - 1])
  }

  /** A number of at most 64 bits without a sign. */
  function ParseUint(s: string): Option<nat> {
    if s == "" || !AllDigits(s) || Value(s) >= 0x1_0000_0000_0000_0000 then None else Some(Value(s))
  }

  /** A number of at most 64 bits with an optional sign. */
  function ParseInt(s: string): Option<int> {
    var signed := s != "" && s[0] in "+-";
    match ParseUint(if signed then s[1..] else s)
    case None => None
    case Some(magnitude) =>
      var x: int := if signed && s[0] == '-' then 0 - magnitude else magnitude;
      if -0x8000_0000_0000_0000 <= x < 0x8000_0000_0000_0000 then Some(x) else None
  }

  lemma {:induction false} ValueOfFormat(n: nat)
    ensures Value(FormatUint(n)) == n
  {
    if n >= 10 {
      ValueOfFormat(n / 10);
      var s := FormatUint(n);
      assert s[..|s| - 1] == FormatUint(n / 10);
    }
  }

  lemma UintRoundTrip(n: nat)
    ensures n < 0x1_0000_0000_0000_0000 ==> ParseUint(FormatUint(n)) == Some(n)
    ensures n >= 0x1_0000_0000_0000_0000 ==> ParseUint(FormatUint(n)) == None
  {
    ValueOfFormat(n);
  }

  lemma NegativeRoundTrip(n: nat)
    requires n > 0
    ensures n <= 0x8000_0000_0000_0000 <==> ParseInt("-" + FormatUint(n)) == Some(0 - n)
  {
    UintRoundTrip(n);
    var s := "-" + FormatUint(n);
    assert s[0] == '-' && s[1..] == FormatUint(n);
  }

  lemma PositiveRoundTrip(n: nat)
    ensures n < 0x8000_0000_0000_0000 <==> ParseInt(FormatUint(n)) == Some(n)
  {
    UintRoundTrip(n);
    var s := FormatUint(n);
    assert IsDigit(s[0]);
  }

  lemma IntRoundTrip(x: int)
    ensures -0x8000_0000_0000_0000 <= x < 0x8000_0000_0000_0000 <==> ParseInt(FormatInt(x)) == Some(x)
  {
    if x < 0 {
      NegativeRoundTrip(-x);
    } else {
      PositiveRoundTrip(x);
    }
  }
}
