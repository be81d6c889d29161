/** `_encode`: the sequence of bar patterns of a 13-digit number, and the
    shape of the 95-module symbol they spell. */
module Encoder {
  import opened Tables
  import opened Checksum

  /** A parity key as PARITY_KEY holds them: six bits. */
  predicate IsKey(key: string) { |key| == 6 && IsBits(key) }

  /** The fifteen patterns of an EAN-13 symbol: start guard, six left-hand
      digits encoded under the parity key, middle guard, six right-hand
      digits, end guard. */
  predicate IsEncoding(number: string, key: string, bars: seq<string>)
    requires |number| == 13 && AllDigits(number) && IsKey(key)
  {
    |bars| == 15 &&
    bars[0] == START_GUARD && bars[7] == MIDDLE_GUARD && bars[14] == END_GUARD &&
    (forall i :: 1 <= i <= 6 ==> bars[i] == LeftPattern(key[i - 1], number[i])) &&
    (forall i :: 7 <= i <= 12 ==> bars[i + 1] == RightPattern(number[i]))
  }

  /** `_encode` on a 13-digit number: a start guard, then one pattern per
      digit after the first, the middle guard after the sixth, and an end guard. */
  method Encode(number: string, key: string) returns (barcode: seq<string>)
    requires |number| == 13 && AllDigits(number) && IsKey(key)
    ensures IsEncoding(number, key, barcode)
  {
    barcode := [START_GUARD];
    for i := 1 to |number|
      invariant |barcode| == if i <= 6 then i else i + 1
      invariant barcode[0] == START_GUARD
      invariant forall j :: 1 <= j < i && j <= 6 ==> barcode[j] == LeftPattern(key[j - 1], number[j])
      invariant i > 6 ==> barcode[7] == MIDDLE_GUARD
      invariant forall j :: 7 <= j < i ==> barcode[j + 1] == RightPattern(number[j])
    {
      if i < 7 {
        barcode := barcode + [LeftPattern(key[i - 1], number[i])];
      } else {
        barcode := barcode + [RightPattern(number[i])];
      }
      if i == 6 {
        barcode := barcode + [MIDDLE_GUARD];
      }
    }
    barcode := barcode + [END_GUARD];
  }

  /** The module string of a pattern sequence: the patterns concatenated. */
  function Concat(bars: seq<string>): string
  {
    if bars == [] then [] else Concat(bars[..|bars| - 1]) + bars[|bars| - 1]
  }

  lemma {:induction false} ConcatAppend(a: seq<string>, b: seq<string>)
    ensures Concat(a + b) == Concat(a) + Concat(b)
  {
    if b == [] {
      assert a + b == a;
    } else {
      assert (a + b)[..|a + b| - 1] == a + b[..|b| - 1];
      ConcatAppend(a, b[..|b| - 1]);
    }
  }

  lemma {:induction false} ConcatSevens(ps: seq<string>)
    requires forall i :: 0 <= i < |ps| ==> |ps[i]| == 7
    ensures |Concat(ps)| == 7 * |ps|
  {
    if ps != [] {
      ConcatSevens(ps[..|ps| - 1]);
    }
  }

  /** The pattern sequence split at the guards. */
  lemma EncodingSplit(number: string, key: string, bars: seq<string>)
    requires |number| == 13 && AllDigits(number) && IsKey(key)
    requires IsEncoding(number, key, bars)
    ensures Concat(bars) == START_GUARD + Concat(bars[1..7]) + MIDDLE_GUARD + Concat(bars[8..14]) + END_GUARD
    ensures |Concat(bars[1..7])| == 42 && |Concat(bars[8..14])| == 42
  {
    assert bars == [bars[0]] + bars[1..7] + [bars[7]] + bars[8..14] + [bars[14]];
    ConcatAppend([bars[0]] + bars[1..7] + [bars[7]] + bars[8..14], [bars[14]]);
    ConcatAppend([bars[0]] + bars[1..7] + [bars[7]], bars[8..14]);
    ConcatAppend([bars[0]] + bars[1..7], [bars[7]]);
    ConcatAppend([bars[0]], bars[1..7]);
    assert Concat([bars[0]]) == bars[0] by { assert [bars[0]][..0] == []; }
    assert Concat([bars[7]]) == bars[7] by { assert [bars[7]][..0] == []; }
    assert Concat([bars[14]]) == bars[14] by { assert [bars[14]][..0] == []; }
    ConcatSevens(bars[1..7]);
    assert forall i :: 0 <= i < 6 ==> bars[8..14][i] == RightPattern(number[i + 7]);
    ConcatSevens(bars[8..14]);
  }

  /** An encoded number spans 95 modules: "101" at both ends and "01010" at
      modules 45 to 49. */
  lemma EncodingModules(number: string, key: string, bars: seq<string>)
    requires |number| == 13 && AllDigits(number) && IsKey(key)
    requires IsEncoding(number, key, bars)
    ensures |Concat(bars)| == 95
    ensures Concat(bars)[..3] == "101" && Concat(bars)[92..] == "101"
    ensures Concat(bars)[45..50] == "01010"
  {
    EncodingSplit(number, key, bars);
  }

  /** Under the key of a leading 0 every left-hand digit uses the odd set. */
  lemma LeadingZeroAllOdd(number: string, bars: seq<string>)
    requires |number| == 13 && AllDigits(number) && number[0] == '0'
    requires IsEncoding(number, ParityKey(number[0]), bars)
    ensures ParityKey(number[0]) == "000000"
    ensures forall i :: 1 <= i <= 6 ==> bars[i] == LeftPattern('0', number[i])
  {
  }

  /** Different numbers give different symbols: the pattern sequence, under
      the key of the leading digit, determines all thirteen digits. */
  lemma EncodingInjective(n1: string, n2: string, bars: seq<string>)
    requires |n1| == 13 && AllDigits(n1) && |n2| == 13 && AllDigits(n2)
    requires IsEncoding(n1, ParityKey(n1[0]), bars) && IsEncoding(n2, ParityKey(n2[0]), bars)
    ensures n1 == n2
  {
    var k1, k2 := ParityKey(n1[0]), ParityKey(n2[0]);
    forall j | 0 <= j < 6 ensures k1[j] == k2[j] && n1[j + 1] == n2[j + 1] {
      LeftPatternInjective(k1[j], n1[j + 1], k2[j], n2[j + 1]);
    }
    assert k1 == k2;
    ParityKeyInjective(n1[0], n2[0]);
    forall i | 7 <= i <= 12 ensures n1[i] == n2[i] {
      RightPatternInjective(n1[i], n2[i]);
    }
    assert forall i :: 0 <= i < 13 ==> n1[i] == n2[i];
  }
}
