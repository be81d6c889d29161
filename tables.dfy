/** The static lookup tables of the EAN-13 symbology (character sets A, B and C
    of ISO/IEC 15420), as the class keeps them, with the structural facts that
    make the symbology decodable. */
module Tables {

  predicate IsDigit(c: char) { '0' <= c <= '9' }

  /** The value of a decimal digit character. */
  function Digit(c: char): (d: int)
    requires IsDigit(c)
    ensures 0 <= d <= 9
  {
    c as int - '0' as int
  }

  /** The value of a digit character, as ten cases. */
  lemma DigitCases(c: char)
    requires IsDigit(c)
    ensures var d := Digit(c); d == 0 || d == 1 || d == 2 || d == 3 || d == 4 || d == 5 || d == 6 || d == 7 || d == 8 || d == 9
  {
  }

  /** The character of a digit value: PHP's int-to-string conversion of 0..9. */
  function DigitChar(d: int): (c: char)
    requires 0 <= d <= 9
    ensures IsDigit(c) && Digit(c) == d
  {
    ('0' as int + d) as char
  }

  predicate IsBit(c: char) { c == '0' || c == '1' }

  predicate IsBits(s: string) { forall i :: 0 <= i < |s| ==> IsBit(s[i]) }

  /** PARITY_KEY: for each leading digit, which of the six left-hand digits use
      the even (set B) encoding. */
  const PARITY_KEY: seq<string> := [
    "000000", "001011", "001101", "001110", "010011",
    "011001", "011100", "010101", "010110", "011010"
  ]

  /** LEFT_PARITY[0]: odd encoding (set A); LEFT_PARITY[1]: even encoding (set B). */
  const LEFT_PARITY: seq<seq<string>> := [
    [ "0001101", "0011001", "0010011", "0111101", "0100011",
      "0110001", "0101111", "0111011", "0110111", "0001011" ],
    [ "0100111", "0110011", "0011011", "0100001", "0011101",
      "0111001", "0000101", "0010001", "0001001", "0010111" ]
  ]

  /** RIGHT_PARITY: the right-hand encoding (set C). */
  const RIGHT_PARITY: seq<string> := [
    "1110010", "1100110", "1101100", "1000010", "1011100",
    "1001110", "1010000", "1000100", "1001000", "1110100"
  ]

  const START_GUARD: string := "101"
  const MIDDLE_GUARD: string := "01010"
  const END_GUARD: string := "101"

  /** PARITY_KEY indexed by a digit character. */
  function ParityKey(c: char): (key: string)
    requires IsDigit(c)
    ensures |key| == 6 && IsBits(key)
    ensures key[0] == '0'
  {
    var d := Digit(c);
    DigitCases(c);
    PARITY_KEY[d]
  }

  /** LEFT_PARITY indexed by a parity-key character and a digit character. */
  function LeftPattern(parity: char, c: char): (p: string)
    requires IsBit(parity) && IsDigit(c)
    ensures |p| == 7 && IsBits(p)
    ensures p[0] == '0' && p[6] == '1'
  {
    var d := Digit(c);
    DigitCases(c);
    LEFT_PARITY[if parity == '0' then 0 else 1][d]
  }

  /** RIGHT_PARITY indexed by a digit character. */
  function RightPattern(c: char): (p: string)
    requires IsDigit(c)
    ensures |p| == 7 && IsBits(p)
    ensures p[0] == '1' && p[6] == '0'
  {
    var d := Digit(c);
    DigitCases(c);
    RIGHT_PARITY[d]
  }

  function Complement(b: char): char { if b == '1' then '0' else '1' }

  function Reverse(s: string): (r: string)
    ensures |r| == |s|
    ensures forall i :: 0 <= i < |s| ==> r[i] == s[|s| - 1 - i]
  {
    seq(|s|, i requires 0 <= i < |s| => s[|s| - 1 - i])
  }

  function CountOnes(s: string): nat
  {
    if s == [] then 0 else One(s[0]) + CountOnes(s[1..])
  }

  function One(b: char): nat { if b == '1' then 1 else 0 }

  lemma {:induction false} CountOnesAppend(s: string, c: char)
    ensures CountOnes(s + [c]) == CountOnes(s) + One(c)
  {
    if s != [] {
      assert (s + [c])[1..] == s[1..] + [c];
      CountOnesAppend(s[1..], c);
    }
  }

  /** A module-wise complement turns every dark module light and back. */
  lemma {:induction false} CountOnesComplement(p: string, q: string)
    requires |p| == |q| && forall i :: 0 <= i < |p| ==> q[i] == Complement(p[i])
    ensures CountOnes(p) + CountOnes(q) == |p|
  {
    if p != [] {
      assert forall i :: 0 <= i < |p| - 1 ==> q[1..][i] == Complement(p[1..][i]);
      CountOnesComplement(p[1..], q[1..]);
    }
  }

  /** The complement of a seven-module pattern with odd parity has even parity. */
  lemma ComplementOfOddIsEven(p: string, q: string)
    requires |p| == 7 && |q| == 7 && forall i :: 0 <= i < 7 ==> q[i] == Complement(p[i])
    requires CountOnes(p) % 2 == 1
    ensures CountOnes(q) % 2 == 0
  {
    CountOnesComplement(p, q);
    var n, m := CountOnes(p), CountOnes(q);
    assert n + m == 7;
  }

  /** Reading a pattern backwards keeps its dark modules. */
  lemma {:induction false} CountOnesReverse(s: string)
    ensures CountOnes(Reverse(s)) == CountOnes(s)
  {
    if s != [] {
      var n := |s| - 1;
      var r := Reverse(s);
      assert r[1..] == Reverse(s[..n]);
      CountOnesReverse(s[..n]);
      CountOnesAppend(s[..n], s[n]);
      assert s[..n] + [s[n]] == s;
    }
  }

  /** CountOnes of a seven-module pattern, spelled out module by module. */
  lemma CountOnesSeven(s: string)
    requires |s| == 7
    ensures CountOnes(s) == One(s[0]) + One(s[1]) + One(s[2]) + One(s[3]) + One(s[4]) + One(s[5]) + One(s[6])
  {
    var t := s;
    for k := 0 to 7
      invariant |t| == 7 - k && t == s[k..]
      invariant CountOnes(s) == (if k > 0 then One(s[0]) else 0) + (if k > 1 then One(s[1]) else 0)
        + (if k > 2 then One(s[2]) else 0) + (if k > 3 then One(s[3]) else 0) + (if k > 4 then One(s[4]) else 0)
        + (if k > 5 then One(s[5]) else 0) + (if k > 6 then One(s[6]) else 0) + CountOnes(t)
    {
      t := t[1..];
    }
  }

  /** Set C is the module-wise complement of set A. */
  lemma RightIsComplementOfOdd(c: char)
    requires IsDigit(c)
    ensures forall i :: 0 <= i < 7 ==> RightPattern(c)[i] == Complement(LeftPattern('0', c)[i])
  {
    DigitCases(c);
  }

  /** Set B is set C read backwards. */
  lemma EvenIsReversedRight(c: char)
    requires IsDigit(c)
    ensures LeftPattern('1', c) == Reverse(RightPattern(c))
  {
    DigitCases(c);
  }

  /** Set A has an odd number of dark modules per digit; this is the "odd
      parity" the PARITY_KEY refers to. */
  lemma OddSetParity(c: char)
    requires IsDigit(c)
    ensures CountOnes(LeftPattern('0', c)) % 2 == 1
  {
    CountOnesSeven(LeftPattern('0', c));
    DigitCases(c);
  }

  /** Set B has an even number of dark modules per digit, being set C reversed. */
  lemma EvenSetParity(c: char)
    requires IsDigit(c)
    ensures CountOnes(LeftPattern('1', c)) % 2 == 0
  {
    var r := RightPattern(c);
    EvenIsReversedRight(c);
    RightSetParity(c);
    CountOnesReverse(r);
  }

  /** Set C has an even number of dark modules per digit: it complements the
      odd set A on seven modules. */
  lemma RightSetParity(c: char)
    requires IsDigit(c)
    ensures CountOnes(RightPattern(c)) % 2 == 0
  {
    RightIsComplementOfOdd(c);
    OddSetParity(c);
    ComplementOfOddIsEven(LeftPattern('0', c), RightPattern(c));
  }

  /** A left-hand pattern determines both its parity and its digit. */
  lemma LeftPatternInjective(q1: char, c1: char, q2: char, c2: char)
    requires IsBit(q1) && IsDigit(c1) && IsBit(q2) && IsDigit(c2)
    requires LeftPattern(q1, c1) == LeftPattern(q2, c2)
    ensures q1 == q2 && c1 == c2
  {
    DigitCases(c1);
    DigitCases(c2);
  }

  /** A right-hand pattern determines its digit. */
  lemma RightPatternInjective(c1: char, c2: char)
    requires IsDigit(c1) && IsDigit(c2)
    requires RightPattern(c1) == RightPattern(c2)
    ensures c1 == c2
  {
    DigitCases(c1);
    DigitCases(c2);
  }

  /** The parity key determines the leading digit. */
  lemma ParityKeyInjective(c1: char, c2: char)
    requires IsDigit(c1) && IsDigit(c2)
    requires ParityKey(c1) == ParityKey(c2)
    ensures c1 == c2
  {
    DigitCases(c1);
    DigitCases(c2);
  }
}
