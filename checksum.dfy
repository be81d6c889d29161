/** The GS1 modulo-10 check digit (GS1 General Specifications, section 7.9):
    the data digits are weighted 3, 1, 3, 1, ... starting from the rightmost
    one, and the check digit brings the weighted sum up to a multiple of ten. */
module Checksum {
  import opened Tables

  predicate AllDigits(s: string) { forall i :: 0 <= i < |s| ==> IsDigit(s[i]) }

  /** Digit d at index i of a string of n data digits, under its GS1 weight:
      3 for the rightmost digit and every second one to its left, 1 for the others. */
  function Weighted(n: int, i: int, d: int): int { if (n - 1 - i) % 2 == 0 then 3 * d else d }

  /** The GS1 weighted sum, accumulated from the left. */
  function WeightedSum(s: string): int
    requires AllDigits(s)
  {
    if s == [] then 0 else Weighted(|s|, 0, Digit(s[0])) + WeightedSum(s[1..])
  }

  /** The check digit of a string of data digits. */
  function CheckDigit(s: string): (r: int)
    requires AllDigits(s)
    ensures 0 <= r <= 9
    ensures (WeightedSum(s) + r) % 10 == 0
  {
    (10 - WeightedSum(s) % 10) % 10
  }

  /** One step of the backward walk of `checksum` at index i: adding the
      digit there to the sum the flag selects extends the weighted sum of the
      suffix by one digit, and the flag then belongs to index i - 1. */
  lemma ChecksumStep(ean: string, i: int, even: bool, esum: int, osum: int)
    requires AllDigits(ean) && 0 <= i < |ean|
    requires even <==> (|ean| - 1 - i) % 2 == 0
    requires 3 * esum + osum == WeightedSum(ean[i + 1..])
    ensures var d := Digit(ean[i]);
      (if even then 3 * (esum + d) + osum else 3 * esum + (osum + d)) == WeightedSum(ean[i..])
    ensures !even <==> (|ean| - 1 - (i - 1)) % 2 == 0
  {
    assert ean[i..][1..] == ean[i + 1..];
  }

  /** `checksum`: walks the string from its last character backwards,
      toggling between the "even" and the "odd" sum. */
  method ComputeChecksum(ean: string) returns (r: int)
    requires AllDigits(ean)
    ensures r == CheckDigit(ean)
  {
    var even := true;
    var esum, osum := 0, 0;
    var i := |ean| - 1;
    while i >= 0
      invariant -1 <= i < |ean|
      invariant even <==> (|ean| - 1 - i) % 2 == 0
      invariant 3 * esum + osum == WeightedSum(ean[i + 1..])
    {
      ChecksumStep(ean, i, even, esum, osum);
      if even {
        esum := esum + Digit(ean[i]);
      } else {
        osum := osum + Digit(ean[i]);
      }
      even := !even;
      i := i - 1;
    }
    assert ean[0..] == ean;
    r := (10 - (3 * esum + osum) % 10) % 10;
  }

  /** Digit d at 0-based position i of EAN-13's twelve data digits read left
      to right, under its weight: 1 at even positions, 3 at odd ones. */
  function PositionWeighted(i: int, d: int): int { if i % 2 == 1 then 3 * d else d }

  /** The weighted sum with left-to-right position weights, the first digit at position `from`. */
  function PositionWeightedSum(s: string, from: int): int
    requires AllDigits(s)
  {
    if s == [] then 0 else PositionWeighted(from, Digit(s[0])) + PositionWeightedSum(s[1..], from + 1)
  }

  /** On a string whose length has the parity of its starting position (so on
      twelve digits starting at 0), right-to-left GS1 weighting and the
      left-to-right position weights agree. */
  lemma {:induction false} WeightsAgree(s: string, from: int)
    requires AllDigits(s)
    requires (|s| + from) % 2 == 0
    ensures WeightedSum(s) == PositionWeightedSum(s, from)
  {
    if s != [] {
      WeightsAgree(s[1..], from + 1);
    }
  }

  /** The check digit of twelve digits completes the left-to-right weighted
      sum to a multiple of ten, and is the only digit that does. */
  lemma TwelveDigitCheck(d: string, c: int)
    requires |d| == 12 && AllDigits(d)
    requires 0 <= c <= 9
    ensures (PositionWeightedSum(d, 0) + c) % 10 == 0 <==> c == CheckDigit(d)
  {
    WeightsAgree(d, 0);
  }

  /** A complete thirteen-digit EAN-13: the check-digit equation of GS1 holds. */
  predicate IsValidEan13(code: string)
  {
    |code| == 13 && AllDigits(code) && (WeightedSum(code[..12]) + Digit(code[12])) % 10 == 0
  }

  /** A thirteen-digit string is a valid EAN-13 exactly when its last digit is
      the check digit of the first twelve. */
  lemma ValidIffCheckDigit(code: string)
    requires |code| == 13 && AllDigits(code)
    ensures IsValidEan13(code) <==> Digit(code[12]) == CheckDigit(code[..12])
  {
  }

  /** Appending the check digit to twelve digits gives a valid EAN-13. */
  lemma AppendCheckDigitValid(d: string)
    requires |d| == 12 && AllDigits(d)
    ensures IsValidEan13(d + [DigitChar(CheckDigit(d))])
  {
    assert (d + [DigitChar(CheckDigit(d))])[..12] == d;
  }
}
