/** Validation shared by the guard, the router and the queue. */
module Validation {
  import opened Basics
  import Decimal

  const MAX_SAFE: int := 0x1F_FFFF_FFFF_FFFF

  predicate PositiveLimit(value: int) {
    0 < value <= MAX_SAFE
  }

  /** One to 256 printable characters without spaces. */
  predicate Identifier(text: string) {
    1 <= |text| <= 256 && forall i :: 0 <= i < |text| ==> '!' <= text[i] <= '~'
  }

  /** Parse a canonical uint64; the digit count is limited before the value is. */
  function Sequence(text: string): Result<nat> {
    if !Decimal.Canonical(text) || |text| > 20 then Err("invalid_sequence")
    else if Decimal.Parse(text) >= Decimal.UINT64 then Err("invalid_sequence")
    else Ok(Decimal.Parse(text))
  }

  /** Exactly the prints of 0..2^64-1 are accepted, each as the value it prints. */
  lemma SequenceExactly(text: string, n: nat)
    ensures Sequence(text) == Ok(n) <==> n < Decimal.UINT64 && text == Decimal.Print(n)
  {
    Decimal.PrintParses(n);
    if Decimal.Canonical(text) { Decimal.ParsePrints(text); }
    Decimal.Power10Of19And20();
    Decimal.PrintLength(n, 20);
  }
}
