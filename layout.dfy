/** The geometry of `_drawBars` and `_drawText`. The image calls are replaced
    by the lists of rectangles and glyph placements they would receive. With
    height = 60 * scale and width = 1.8 * height = 108 * scale, every constant
    is an exact multiple of the scale, so coordinates are exact reals. */
module Layout {
  import opened Tables
  import opened Checksum
  import opened Encoder

  /** The arguments of one `imagefilledrectangle` call: two corners. */
  datatype Rect = Rect(x1: real, y1: real, x2: real, y2: real)

  /** The arguments of one `imagettftext` call: size, baseline origin, text. */
  datatype Glyph = Glyph(size: real, x: real, y: real, text: char)

  /** Guard patterns are recognised by their length alone. */
  predicate IsGuardPattern(p: string) { |p| == 3 || |p| == 5 }

  /** For every module of Concat(bars): whether its pattern is drawn tall. */
  function Tall(bars: seq<string>): (t: seq<bool>)
    ensures |t| == |Concat(bars)|
  {
    if bars == [] then []
    else Tall(bars[..|bars| - 1]) + seq(|bars[|bars| - 1]|, _ => IsGuardPattern(bars[|bars| - 1]))
  }

  /** The left edge of module k. */
  function ModuleX(k: int, scale: int): real
  {
    (11 + k) as real * scale as real
  }

  /** The bar of module k: one module wide, from MAX = 0.025 * height down to
      FLOOR = 0.825 * height, guards another 0.15 * height further. */
  function ModuleRect(k: int, tall: bool, scale: int): Rect
  {
    var s := scale as real;
    Rect(ModuleX(k, scale), 1.5 * s, ModuleX(k, scale) + s, 49.5 * s + (if tall then 9.0 * s else 0.0))
  }

  /** One rectangle per dark module, in module order. */
  function BarRects(bits: string, tall: seq<bool>, scale: int): seq<Rect>
    requires |bits| == |tall|
  {
    if bits == [] then []
    else
      BarRects(bits[..|bits| - 1], tall[..|tall| - 1], scale)
      + (if bits[|bits| - 1] == '1' then [ModuleRect(|bits| - 1, tall[|tall| - 1], scale)] else [])
  }

  lemma ModuleStep(k: int, scale: int)
    ensures ModuleX(k, scale) + scale as real == ModuleX(k + 1, scale)
  {
  }

  /** BarRects grows by at most one rectangle per module. */
  lemma BarRectsSnoc(bits: string, tall: seq<bool>, b: char, t: bool, scale: int)
    requires |bits| == |tall|
    ensures BarRects(bits + [b], tall + [t], scale)
      == BarRects(bits, tall, scale) + (if b == '1' then [ModuleRect(|bits|, t, scale)] else [])
  {
    assert (bits + [b])[..|bits|] == bits;
    assert (tall + [t])[..|tall|] == tall;
  }

  /** Concat and Tall of one more pattern. */
  lemma ModulesSnoc(bars: seq<string>, p: int)
    requires 0 <= p < |bars|
    ensures Concat(bars[..p + 1]) == Concat(bars[..p]) + bars[p]
    ensures Tall(bars[..p + 1]) == Tall(bars[..p]) + seq(|bars[p]|, _ => IsGuardPattern(bars[p]))
  {
    assert bars[..p + 1][..p] == bars[..p];
  }

  /** `_drawBars`: a cursor that starts at 0.2 * height - WIDTH and moves one
      module per bit; a rectangle for every '1'. */
  method DrawBars(bars: seq<string>, height: int, scale: int) returns (rects: seq<Rect>)
    requires height == 60 * scale
    ensures rects == BarRects(Concat(bars), Tall(bars), scale)
  {
    var MAX := height as real * 0.025;
    var FLOOR := height as real * 0.825;
    var WIDTH := scale as real;
    var x := height as real * 0.2 - WIDTH;
    rects := [];
    ghost var bits: string, flags: seq<bool> := [], [];
    for p := 0 to |bars|
      invariant bits == Concat(bars[..p]) && flags == Tall(bars[..p])
      invariant rects == BarRects(bits, flags, scale)
      invariant x == ModuleX(|bits|, scale)
    {
      var bar := bars[p];
      var tall := 0.0;
      if |bar| == 3 || |bar| == 5 {
        tall := height as real * 0.15;
      }
      rects, x := DrawPattern(bar, MAX, FLOOR + tall, scale, rects, x, bits, flags);
      ModulesSnoc(bars, p);
      bits, flags := bits + bar, flags + seq(|bar|, _ => IsGuardPattern(bar));
    }
    assert bars[..|bars|] == bars;
  }

  /** The inner loop of `_drawBars`: the bits of one pattern, one module each,
      from the cursor x0 on; rects0 are the rectangles drawn so far. */
  method DrawPattern(bar: string, top: real, bottom: real, scale: int, rects0: seq<Rect>, x0: real,
                     ghost bits0: string, ghost flags0: seq<bool>) returns (rects: seq<Rect>, x: real)
    requires |bits0| == |flags0| && rects0 == BarRects(bits0, flags0, scale)
    requires x0 == ModuleX(|bits0|, scale) && top == 1.5 * scale as real
    requires bottom == 49.5 * scale as real + (if IsGuardPattern(bar) then 9.0 * scale as real else 0.0)
    ensures rects == BarRects(bits0 + bar, flags0 + seq(|bar|, _ => IsGuardPattern(bar)), scale)
    ensures x == ModuleX(|bits0| + |bar|, scale)
  {
    var WIDTH := scale as real;
    rects, x := rects0, x0;
    ghost var guard := IsGuardPattern(bar);
    ghost var bits, flags := bits0, flags0;
    for i := 1 to |bar| + 1
      invariant |bits| == |flags|
      invariant rects == BarRects(bits, flags, scale)
      invariant bits == bits0 + bar[..i - 1]
      invariant flags == flags0 + seq(i - 1, _ => guard)
      invariant x == ModuleX(|bits|, scale)
    {
      BarRectsSnoc(bits, flags, bar[i - 1], guard, scale);
      if bar[i - 1] == '1' {
        rects := rects + [Rect(x, top, x + WIDTH, bottom)];
      }
      ModuleStep(|bits|, scale);
      x := x + WIDTH;
      assert bar[..i] == bar[..i - 1] + [bar[i - 1]];
      bits, flags := bits + [bar[i - 1]], flags + [guard];
    }
    assert bar[..|bar|] == bar;
  }

  /** A rectangle is emitted for exactly the dark modules: one per '1'. */
  lemma {:induction false} BarRectsCount(bits: string, tall: seq<bool>, scale: int)
    requires |bits| == |tall|
    ensures |BarRects(bits, tall, scale)| == CountOnes(bits)
  {
    if bits != [] {
      var n := |bits| - 1;
      BarRectsCount(bits[..n], tall[..n], scale);
      CountOnesAppend(bits[..n], bits[n]);
      assert bits[..n] + [bits[n]] == bits;
    }
  }

  /** The rectangles are the bars of the dark modules and nothing else. */
  lemma {:induction false} BarRectsMembers(bits: string, tall: seq<bool>, scale: int, r: Rect)
    requires |bits| == |tall|
    ensures r in BarRects(bits, tall, scale) <==>
      exists k :: 0 <= k < |bits| && bits[k] == '1' && r == ModuleRect(k, tall[k], scale)
  {
    if bits != [] {
      var n := |bits| - 1;
      BarRectsMembers(bits[..n], tall[..n], scale, r);
      if r in BarRects(bits, tall, scale) && r !in BarRects(bits[..n], tall[..n], scale) {
        assert bits[n] == '1' && r == ModuleRect(n, tall[n], scale);
      }
      if exists k :: 0 <= k < |bits| && bits[k] == '1' && r == ModuleRect(k, tall[k], scale) {
        var k :| 0 <= k < |bits| && bits[k] == '1' && r == ModuleRect(k, tall[k], scale);
        if k < n {
          assert bits[..n][k] == '1' && tall[..n][k] == tall[k];
        }
      }
    }
  }

  lemma {:induction false} TallAppend(a: seq<string>, b: seq<string>)
    ensures Tall(a + b) == Tall(a) + Tall(b)
  {
    if b == [] {
      assert a + b == a;
    } else {
      assert (a + b)[..|a + b| - 1] == a + b[..|b| - 1];
      TallAppend(a, b[..|b| - 1]);
    }
  }

  lemma {:induction false} TallSevens(ps: seq<string>)
    requires forall i :: 0 <= i < |ps| ==> |ps[i]| == 7
    ensures forall k :: 0 <= k < |Tall(ps)| ==> !Tall(ps)[k]
  {
    if ps != [] {
      TallSevens(ps[..|ps| - 1]);
    }
  }

  lemma TallSingle(p: string)
    ensures Tall([p]) == seq(|p|, _ => IsGuardPattern(p))
  {
    assert [p][..0] == [];
  }

  /** Of an encoded number, exactly the guard modules 0-2, 45-49 and 92-94
      are drawn tall. */
  lemma TallModulesOfEncoding(number: string, key: string, bars: seq<string>)
    requires |number| == 13 && AllDigits(number) && IsKey(key)
    requires IsEncoding(number, key, bars)
    ensures |Tall(bars)| == 95
    ensures forall k :: 0 <= k < 95 ==> (Tall(bars)[k] <==> k < 3 || 45 <= k < 50 || 92 <= k)
  {
    EncodingModules(number, key, bars);
    var data1, data2 := bars[1..7], bars[8..14];
    assert bars == [bars[0]] + data1 + [bars[7]] + data2 + [bars[14]];
    TallAppend([bars[0]] + data1 + [bars[7]] + data2, [bars[14]]);
    TallAppend([bars[0]] + data1 + [bars[7]], data2);
    TallAppend([bars[0]] + data1, [bars[7]]);
    TallAppend([bars[0]], data1);
    TallSingle(bars[0]);
    TallSingle(bars[7]);
    TallSingle(bars[14]);
    assert forall i :: 0 <= i < 6 ==> |data2[i]| == 7 by {
      assert forall i :: 0 <= i < 6 ==> data2[i] == RightPattern(number[i + 7]);
    }
    TallSevens(data1);
    TallSevens(data2);
    EncodingSplit(number, key, bars);
  }

  /** Non-negative scaling is monotone. */
  lemma ScaleMonotone(a: real, b: real, scale: int)
    requires a <= b && scale >= 0
    ensures a * scale as real <= b * scale as real
  {
    assert (b - a) * scale as real >= 0.0;
  }

  /** The bar of any of the 95 modules lies in [11 * s, 106 * s] horizontally
      and in [1.5 * s, 58.5 * s] vertically. */
  lemma ModuleRectBounds(k: int, tall: bool, scale: int)
    requires 0 <= k < 95 && scale >= 0
    ensures 11.0 * scale as real <= ModuleRect(k, tall, scale).x1
    ensures ModuleRect(k, tall, scale).x2 == ModuleRect(k, tall, scale).x1 + scale as real
    ensures ModuleRect(k, tall, scale).x2 <= 106.0 * scale as real
    ensures ModuleRect(k, tall, scale).y1 == 1.5 * scale as real
    ensures ModuleRect(k, tall, scale).y2 == (if tall then 58.5 else 49.5) * scale as real
    ensures ModuleRect(k, tall, scale).y2 <= 60.0 * scale as real
  {
    var s := scale as real;
    ScaleMonotone(11.0, (11 + k) as real, scale);
    ScaleMonotone((11 + k) as real, 105.0, scale);
    ScaleMonotone(58.5, 60.0, scale);
  }

  /** Of an encoded number at scale s: every rectangle is the bar of a dark
      module somewhere in [11 * s, 106 * s], so inside the 108 * s wide canvas;
      it runs from 1.5 * s down to 49.5 * s, or 58.5 * s for a guard module,
      still inside the 60 * s high canvas. */
  lemma EncodedBarsInCanvas(number: string, key: string, bars: seq<string>, scale: int, r: Rect)
    requires |number| == 13 && AllDigits(number) && IsKey(key)
    requires IsEncoding(number, key, bars)
    requires scale >= 0
    requires r in BarRects(Concat(bars), Tall(bars), scale)
    ensures |Concat(bars)| == 95
    ensures exists k :: 0 <= k < 95 && Concat(bars)[k] == '1' && r.x1 == ModuleX(k, scale)
    ensures 11.0 * scale as real <= r.x1 && r.x2 == r.x1 + scale as real && r.x2 <= 106.0 * scale as real
    ensures r.y1 == 1.5 * scale as real
    ensures r.y2 == 49.5 * scale as real || r.y2 == 58.5 * scale as real
    ensures r.y2 <= 60.0 * scale as real
  {
    EncodingModules(number, key, bars);
    BarRectsMembers(Concat(bars), Tall(bars), scale, r);
    var k :| 0 <= k < 95 && Concat(bars)[k] == '1' && r == ModuleRect(k, Tall(bars)[k], scale);
    ModuleRectBounds(k, Tall(bars)[k], scale);
  }

  /** A bar reaches below FLOOR exactly when its module belongs to a guard. */
  lemma EncodedTallBars(number: string, key: string, bars: seq<string>, scale: int, k: int)
    requires |number| == 13 && AllDigits(number) && IsKey(key)
    requires IsEncoding(number, key, bars)
    requires scale > 0
    requires 0 <= k < |Concat(bars)| && Concat(bars)[k] == '1'
    ensures k < 95
    ensures ModuleRect(k, Tall(bars)[k], scale) in BarRects(Concat(bars), Tall(bars), scale)
    ensures ModuleRect(k, Tall(bars)[k], scale).y2 > 49.5 * scale as real <==> k < 3 || 45 <= k < 50 || 92 <= k
  {
    TallModulesOfEncoding(number, key, bars);
    BarRectsMembers(Concat(bars), Tall(bars), scale, ModuleRect(k, Tall(bars)[k], scale));
    assert 9.0 * scale as real > 0.0;
  }

  /** The left edge of digit i in units of the scale: 0.05 * width = 5.4,
      then one font size (7) per digit plus half a font size after digit 0
      and after digit 6. */
  function TextOffset(i: int): real
  {
    5.4 + 7.0 * i as real + (if i >= 1 then 3.5 else 0.0) + (if i >= 7 then 3.5 else 0.0)
  }

  function TextX(i: int, scale: int): real
  {
    TextOffset(i) * scale as real
  }

  /** One placement per digit, font size 7 * scale, baseline 0.96 * height. */
  function TextGlyphs(number: string, scale: int): seq<Glyph>
  {
    seq(|number|, i requires 0 <= i < |number| => Glyph(7.0 * scale as real, TextX(i, scale), 57.6 * scale as real, number[i]))
  }

  /** `_drawText`: a cursor from 0.05 * width advancing by the kerning, and by
      half the kerning more after digits 0 and 6. */
  method DrawText(number: string, width: real, height: int, scale: int) returns (glyphs: seq<Glyph>)
    requires height == 60 * scale && width == 1.8 * height as real
    ensures glyphs == TextGlyphs(number, scale)
  {
    var x := width * 0.05;
    var y := height as real * 0.96;
    var fontsize := (scale * 7) as real;
    var kerning := fontsize * 1.0;
    glyphs := [];
    for i := 0 to |number|
      invariant |glyphs| == i
      invariant forall j :: 0 <= j < i ==> glyphs[j] == TextGlyphs(number, scale)[j]
      invariant x == TextX(i, scale)
    {
      glyphs := glyphs + [Glyph(fontsize, x, y, number[i])];
      if i == 0 || i == 6 {
        x := x + kerning * 0.5;
      }
      x := x + kerning;
    }
  }

  /** Consecutive digits are 10.5 * scale apart after digits 0 and 6 and
      7 * scale apart otherwise. */
  lemma TextStep(i: int, scale: int)
    requires 0 <= i
    ensures TextX(i + 1, scale) - TextX(i, scale) == (if i == 0 || i == 6 then 10.5 else 7.0) * scale as real
  {
    assert TextX(i + 1, scale) - TextX(i, scale) == (TextOffset(i + 1) - TextOffset(i)) * scale as real;
  }

  /** Placements run strictly left to right. */
  lemma TextOrdered(i: int, j: int, scale: int)
    requires 0 <= i < j && scale > 0
    ensures TextX(i, scale) < TextX(j, scale)
  {
    var d := TextOffset(j) - TextOffset(i);
    assert d >= 7.0;
    assert TextX(j, scale) - TextX(i, scale) == d * scale as real;
    ScaleMonotone(7.0, d, scale);
  }

  /** The digit strip: 13 placements on one baseline, starting at 0.05 * width,
      strictly left to right with the steps of TextStep, the last one ending
      inside the canvas. */
  lemma TextLayout(number: string, scale: int)
    requires |number| == 13 && scale > 0
    ensures |TextGlyphs(number, scale)| == 13
    ensures forall i :: 0 <= i < 13 ==>
      TextGlyphs(number, scale)[i].text == number[i] &&
      TextGlyphs(number, scale)[i].y == 0.96 * (60 * scale) as real &&
      TextGlyphs(number, scale)[i].size == 7.0 * scale as real
    ensures TextGlyphs(number, scale)[0].x == 0.05 * (108 * scale) as real
    ensures forall i :: 0 <= i < 12 ==>
      TextGlyphs(number, scale)[i + 1].x - TextGlyphs(number, scale)[i].x
        == (if i == 0 || i == 6 then 10.5 else 7.0) * scale as real
    ensures forall i, j :: 0 <= i < j < 13 ==> TextGlyphs(number, scale)[i].x < TextGlyphs(number, scale)[j].x
    ensures TextGlyphs(number, scale)[12].x + 7.0 * scale as real < (108 * scale) as real
  {
    var g := TextGlyphs(number, scale);
    forall i | 0 <= i < 12
      ensures g[i + 1].x - g[i].x == (if i == 0 || i == 6 then 10.5 else 7.0) * scale as real
    {
      TextStep(i, scale);
    }
    forall i, j | 0 <= i < j < 13 ensures g[i].x < g[j].x {
      TextOrdered(i, j, scale);
    }
    assert g[12].x + 7.0 * scale as real == (TextOffset(12) + 7.0) * scale as real;
    ScaleMonotone(TextOffset(12) + 7.0, 107.0, scale);
  }
}
