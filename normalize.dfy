/** Input normalisation of the barcode class: `prepareNumber` and `prepareScale`. */
module Normalize {
  import opened Tables

  datatype Result<T, E> = Ok(value: T) | Err(error: E)

  /** The two exceptions `prepareNumber` throws. */
  datatype NumberError = TooLong | NoDigit

  /** The test `preg_match('/[0-9]/', $number)`: some character is a digit. */
  predicate HasDigit(s: string) { exists i :: 0 <= i < |s| && IsDigit(s[i]) }

  function Zeros(n: nat): (z: string)
    ensures |z| == n && forall i :: 0 <= i < n ==> z[i] == '0'
  {
    seq(n, _ => '0')
  }

  /** What `prepareNumber` returns or throws. */
  function Normalized(number: string): Result<string, NumberError>
  {
    if |number| > 13 then Err(TooLong)
    else if !HasDigit(number) then Err(NoDigit)
    else if |number| < 12 then Ok(Zeros(13 - |number|) + number)
    else Ok(number)
  }

  /** `prepareNumber`: the length check, the one-digit check, then the
      do-while loop that prepends a zero and tests the post-decremented counter. */
  method PrepareNumber(number: string) returns (r: Result<string, NumberError>)
    ensures r == Normalized(number)
  {
    var numberLength := |number|;
    if numberLength > 13 {
      return Err(TooLong);
    }
    if !HasDigit(number) {
      return Err(NoDigit);
    }
    var s := number;
    if numberLength < 12 {
      var needZeroLength := 12 - numberLength;
      var more := true;
      while more
        invariant more ==> needZeroLength >= 0
        invariant !more ==> needZeroLength == -1
        invariant s == Zeros(12 - numberLength - needZeroLength) + number
        decreases needZeroLength + 1
      {
        s := ['0'] + s;
        more := needZeroLength != 0;
        needZeroLength := needZeroLength - 1;
      }
    }
    return Ok(s);
  }

  /** `prepareNumber` throws exactly on a string longer than 13 characters or
      one without any digit, and the longer-than-13 test comes first. */
  lemma NormalizedRejects(number: string)
    ensures Normalized(number).Err? <==> (|number| > 13 || !HasDigit(number))
    ensures |number| > 13 ==> Normalized(number) == Err(TooLong)
    ensures |number| <= 13 && !HasDigit(number) ==> Normalized(number) == Err(NoDigit)
  {
  }

  /** The digit check is weak: "12a4" is accepted and padded. */
  lemma WeakDigitCheck()
    ensures Normalized("12a4") == Ok("000000000" + "12a4")
  {
    assert IsDigit("12a4"[0]);
    assert Zeros(9) == "000000000";
  }

  /** An accepted input of 12 or 13 characters is returned unchanged; a
      shorter one gets 13 - L leading zeros, so it comes back with 13. */
  lemma NormalizedShape(number: string)
    requires Normalized(number).Ok?
    ensures var v := Normalized(number).value;
      12 <= |v| <= 13 &&
      (|number| >= 12 ==> v == number) &&
      (|number| < 12 ==> |v| == 13 && v[13 - |number|..] == number &&
                         forall i :: 0 <= i < 13 - |number| ==> v[i] == '0')
  {
  }

  /** Normalising twice is normalising once. */
  lemma {:induction false} NormalizedIdempotent(number: string)
    requires Normalized(number).Ok?
    ensures Normalized(Normalized(number).value) == Normalized(number)
  {
    var v := Normalized(number).value;
    var i :| 0 <= i < |number| && IsDigit(number[i]);
    if |number| < 12 {
      assert v[13 - |number| + i] == number[i];
    }
  }

  /** `prepareScale` on an integer argument: clamp into [2, 12]. */
  function PrepareScale(scale: int): (r: int)
    ensures 2 <= r <= 12
    ensures 2 <= scale <= 12 ==> r == scale
    ensures scale < 2 ==> r == 2
    ensures scale > 12 ==> r == 12
  {
    if scale < 2 then 2
    else if scale > 12 then 12
    else scale
  }

  function Distance(a: int, b: int): nat { if a <= b then b - a else a - b }

  /** The clamped scale is the admissible scale nearest to the requested one. */
  lemma PrepareScaleNearest(scale: int, v: int)
    requires 2 <= v <= 12
    ensures Distance(PrepareScale(scale), scale) <= Distance(v, scale)
  {
  }

  lemma PrepareScaleIdempotent(scale: int)
    ensures PrepareScale(PrepareScale(scale)) == PrepareScale(scale)
  {
  }
}
