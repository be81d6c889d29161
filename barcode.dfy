/** The class `BarcodeEAN13`: its constructor prepares the number and the
    scale, derives the parity key, completes the check digit, encodes the
    bars and draws them and the digits onto a fresh image. */
module Ean13 {
  import opened Tables
  import opened Checksum
  import opened Normalize
  import opened Encoder
  import opened Layout

  /** The image: its size and, in drawing order, every rectangle and glyph
      the drawing calls received. */
  datatype Canvas = Canvas(width: real, height: real, rects: seq<Rect>, glyphs: seq<Glyph>)

  /** Why no barcode was built: one of the two exceptions of `prepareNumber`,
      or a prepared number with a non-digit character, which the tables
      cannot encode. */
  datatype BarcodeError = Rejected(reason: NumberError) | NotAllDigits

  /** The number the constructor keeps: a prepared 12-character number gets
      its check digit appended, a 13-character one is kept as it is. */
  function Completed(prepared: string): (n: string)
    requires 12 <= |prepared| <= 13 && AllDigits(prepared)
    ensures |n| == 13 && AllDigits(n) && n[..|prepared|] == prepared
    ensures |prepared| == 12 ==> Digit(n[12]) == CheckDigit(prepared)
  {
    if |prepared| == 12 then prepared + [DigitChar(CheckDigit(prepared))] else prepared
  }

  class Barcode {
    var number: string
    var scale: int
    var key: string
    var bars: seq<string>
    var width: real
    var height: int
    var image: Canvas

    /** The state the constructor establishes. */
    ghost predicate Valid()
      reads this
    {
      |number| == 13 && AllDigits(number) &&
      2 <= scale <= 12 &&
      key == ParityKey(number[0]) &&
      IsEncoding(number, key, bars) &&
      height == 60 * scale && width == 1.8 * height as real &&
      image == Canvas(width, height as real, BarRects(Concat(bars), Tall(bars), scale), TextGlyphs(number, scale))
    }

    /** `__construct` from the point where `prepareNumber` has succeeded. */
    constructor (prepared: string, requestedScale: int)
      requires 12 <= |prepared| <= 13 && AllDigits(prepared)
      ensures Valid()
      ensures number == Completed(prepared)
      ensures scale == PrepareScale(requestedScale)
      ensures key == ParityKey(prepared[0])
    {
      number := prepared;
      scale := PrepareScale(requestedScale);
      key := ParityKey(prepared[0]);
      new;
      if |number| == 12 {
        var c := ComputeChecksum(number);
        number := number + [DigitChar(c)];
      }
      bars := Encode(number, key);
      CreateImage();
      DrawBars();
      DrawText();
    }

    /** `_createImage`: height 60 * scale, width 1.8 * height, nothing drawn yet. */
    method CreateImage()
      modifies this`height, this`width, this`image
      ensures height == 60 * scale && width == 1.8 * height as real
      ensures image == Canvas(width, height as real, [], [])
    {
      height := scale * 60;
      width := 1.8 * height as real;
      image := Canvas(width, height as real, [], []);
    }

    /** `_drawBars`: the bar rectangles go onto the image. */
    method DrawBars()
      requires height == 60 * scale
      modifies this`image
      ensures image == old(image).(rects := old(image.rects) + BarRects(Concat(bars), Tall(bars), scale))
    {
      var rects := Layout.DrawBars(bars, height, scale);
      image := image.(rects := image.rects + rects);
    }

    /** `_drawText`: the digit placements go onto the image. */
    method DrawText()
      requires height == 60 * scale && width == 1.8 * height as real
      modifies this`image
      ensures image == old(image).(glyphs := old(image.glyphs) + TextGlyphs(number, scale))
    {
      var glyphs := Layout.DrawText(number, width, height, scale);
      image := image.(glyphs := image.glyphs + glyphs);
    }
  }

  /** `new BarcodeEAN13($number, $fontpath, $scale = 2)`: throws what
      `prepareNumber` throws, otherwise builds the barcode. */
  method Create(raw: string, requestedScale: int := 2) returns (r: Result<Barcode, BarcodeError>)
    ensures Normalized(raw).Err? ==> r == Err(Rejected(Normalized(raw).error))
    ensures Normalized(raw).Ok? && !AllDigits(Normalized(raw).value) ==> r == Err(NotAllDigits)
    ensures r.Ok? <==> Normalized(raw).Ok? && AllDigits(Normalized(raw).value)
    ensures r.Ok? ==> fresh(r.value) && r.value.Valid()
    ensures r.Ok? ==> r.value.number == Completed(Normalized(raw).value)
    ensures r.Ok? ==> r.value.scale == PrepareScale(requestedScale)
  {
    var prepared := PrepareNumber(raw);
    if prepared.Err? {
      return Err(Rejected(prepared.error));
    }
    NormalizedShape(raw);
    if !AllDigits(prepared.value) {
      return Err(NotAllDigits);
    }
    var b := new Barcode(prepared.value, requestedScale);
    return Ok(b);
  }

  /** A 12-digit input is kept by `prepareNumber` and completed with its
      check digit into a valid EAN-13. */
  lemma TwelveDigitsCompleted(raw: string)
    requires |raw| == 12 && AllDigits(raw)
    ensures Normalized(raw) == Ok(raw)
    ensures Completed(raw) == raw + [DigitChar(CheckDigit(raw))]
    ensures IsValidEan13(Completed(raw))
  {
    assert IsDigit(raw[0]);
    AppendCheckDigitValid(raw);
  }

  /** A shorter input comes out of `prepareNumber` with 13 characters, so the
      constructor computes no check digit: its last character is the input's. */
  lemma ShortInputNotCompleted(raw: string)
    requires 1 <= |raw| < 12 && AllDigits(raw)
    ensures Normalized(raw).Ok?
    ensures AllDigits(Normalized(raw).value)
    ensures Completed(Normalized(raw).value) == Zeros(13 - |raw|) + raw
    ensures Completed(Normalized(raw).value)[12] == raw[|raw| - 1]
  {
    assert IsDigit(raw[0]);
  }

  /** "12" becomes "0000000000012", which is not a valid EAN-13 (the check
      digit of "000000000001" is 7). */
  lemma ShortInputExample()
    ensures Normalized("12").Ok? && AllDigits(Normalized("12").value)
    ensures Completed(Normalized("12").value) == "0000000000012"
    ensures !IsValidEan13("0000000000012")
  {
    assert IsDigit("12"[0]);
    assert Zeros(11) == "00000000000";
    var code := "0000000000012";
    assert code[..12] == Zeros(11) + "1";
    ZerosPrefixWeightedSum(11, "1");
    assert WeightedSum("1") == 3 by { assert "1"[1..] == []; }
  }

  /** A supplied thirteenth digit is kept without being checked. */
  lemma SuppliedCheckDigitKept(raw: string)
    requires |raw| == 13 && AllDigits(raw)
    ensures Normalized(raw) == Ok(raw)
    ensures Completed(raw) == raw
  {
    assert IsDigit(raw[0]);
  }

  /** So an invalid 13-digit code such as "0000000000001" gets a barcode. */
  lemma InvalidCheckDigitAccepted()
    ensures Normalized("0000000000001") == Ok("0000000000001")
    ensures Completed("0000000000001") == "0000000000001"
    ensures !IsValidEan13("0000000000001")
  {
    assert IsDigit("0000000000001"[0]);
    var code := "0000000000001";
    assert code[..12] == Zeros(12);
    ZerosWeightedSum(12);
  }

  /** Leading zeros add nothing to the weighted sum. */
  lemma {:induction false} ZerosPrefixWeightedSum(n: nat, s: string)
    requires AllDigits(s)
    ensures AllDigits(Zeros(n) + s) && WeightedSum(Zeros(n) + s) == WeightedSum(s)
  {
    var z := Zeros(n) + s;
    assert forall i :: 0 <= i < |z| ==> z[i] == if i < n then '0' else s[i - n];
    if n == 0 {
      assert z == s;
    } else {
      assert z[1..] == Zeros(n - 1) + s;
      ZerosPrefixWeightedSum(n - 1, s);
      assert Digit(z[0]) == 0;
      assert WeightedSum(z) == Weighted(|z|, 0, Digit(z[0])) + WeightedSum(z[1..]);
    }
  }

  lemma {:induction false} ZerosWeightedSum(n: nat)
    ensures AllDigits(Zeros(n)) && WeightedSum(Zeros(n)) == 0
  {
    if n > 0 {
      assert Zeros(n)[1..] == Zeros(n - 1);
      ZerosWeightedSum(n - 1);
    }
  }
}
