/** Canonical decimal text of integers, as 64-bit values and sequence numbers travel on the wire. */
module Decimal {
  import opened Basics

  const UINT64: nat := 0x1_0000_0000_0000_0000

  predicate IsDigit(c: char) {
    '0' <= c <= '9'
  }

  function DigitValue(c: char): nat
    requires IsDigit(c)
  {
    (c - '0') as int
  }

  function Digit(n: nat): (c: char)
    requires n < 10
    ensures IsDigit(c) && DigitValue(c) == n
  {
    '0' + n as char
  }

  /** Decimal text without leading zeros. */
  function Print(n: nat): string {
    if n < 10 then [Digit(n)] else Print(n / 10) + [Digit(n % 10)]
  }

  predicate AllDigits(text: string) {
    forall i :: 0 <= i < |text| ==> IsDigit(text[i])
  }

  function Parse(text: string): nat
    requires AllDigits(text)
  {
    if text == "" then 0
    else 10 * Parse(text[..|text| - 1]) + DigitValue(text[|text| - 1])
  }

  /** `0`, or digits that do not start with `0`. */
  predicate Canonical(text: string) {
    AllDigits(text) && text != "" && (text[0] == '0' ==> text == "0")
  }

  lemma {:induction false} PrintParses(n: nat)
    ensures Canonical(Print(n)) && Parse(Print(n)) == n
    ensures n > 0 ==> Print(n)[0] != '0'
  {
    if n >= 10 {
      PrintParses(n / 10);
      var text := Print(n);
      assert text[..|text| - 1] == Print(n / 10);
    } else {
      assert Print(n)[..0] == "";
    }
  }

  lemma {:induction false} ParsePrints(text: string)
    requires Canonical(text)
    ensures Print(Parse(text)) == text
    ensures text[0] != '0' ==> Parse(text) > 0
  {
    if |text| == 1 {
      assert text[..0] == "" && text == [text[0]];
    } else {
      var front, last := text[..|text| - 1], text[|text| - 1];
      ParsePrints(front);
      assert Parse(text) / 10 == Parse(front) && Parse(text) % 10 == DigitValue(last);
      assert text == front + [last];
    }
  }

  function Power10(k: nat): nat {
    if k == 0 then 1 else 10 * Power10(k - 1)
  }

  lemma {:induction false} PrintLength(n: nat, k: nat)
    requires k > 0
    ensures |Print(n)| <= k <==> n < Power10(k)
    decreases k
  {
    if k == 1 {
      assert Power10(1) == 10 * Power10(0);
      if n >= 10 { assert |Print(n / 10)| >= 1; }
    } else if n >= 10 {
      PrintLength(n / 10, k - 1);
    } else {
      PowerPositive(k - 1);
    }
  }

  lemma {:induction false} PowerPositive(k: nat)
    ensures Power10(k) >= 1
  {
    if k > 0 { PowerPositive(k - 1); }
  }

  lemma Power10Of19And20()
    ensures Power10(19) == 10_000_000_000_000_000_000 && Power10(20) == 100_000_000_000_000_000_000
  {
    assert Power10(5) == 100_000;
    assert Power10(10) == 10_000_000_000;
    assert Power10(15) == 1_000_000_000_000_000;
    assert Power10(19) == 10_000_000_000_000_000_000;
  }

  /** Text of a signed integer. */
  function PrintInt(i: int): string {
    if i < 0 then "-" + Print(-i) else Print(i)
  }

  /** `0`, or an optional minus sign before digits that do not start with `0`. */
  predicate CanonicalInt(text: string) {
    Canonical(text) || (|text| > 1 && text[0] == '-' && text[1] != '0' && Canonical(text[1..]))
  }

  function ParseInt(text: string): int
    requires CanonicalInt(text)
  {
    if text[0] == '-' then 0 - Parse(text[1..]) else Parse(text)
  }

  lemma PrintIntParses(i: int)
    ensures CanonicalInt(PrintInt(i)) && ParseInt(PrintInt(i)) == i
  {
    PrintParses(if i < 0 then -i else i);
    if i < 0 { assert PrintInt(i)[1..] == Print(-i); }
  }

  lemma ParseIntPrints(text: string)
    requires CanonicalInt(text)
    ensures PrintInt(ParseInt(text)) == text
  {
    if text[0] == '-' {
      ParsePrints(text[1..]);
      assert text == "-" + text[1..];
    } else {
      ParsePrints(text);
    }
  }

  /** Twenty characters hold every int64 and every uint64. */
  lemma TwentyCharactersSuffice(i: int)
    requires -0x8000_0000_0000_0000 <= i < UINT64
    ensures |PrintInt(i)| <= 20
  {
    Power10Of19And20();
    if i < 0 { PrintLength(-i, 19); } else { PrintLength(i, 20); }
  }
}
