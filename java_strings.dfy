/**
 * java.lang.String.compareTo, the order of the plugin TreeSet. Java strings
 * are sequences of UTF-16 code units, while a Dafny string is a sequence of
 * Unicode scalar values, so the comparison runs on the UTF-16 encoding.
 * A Java string holding an unpaired surrogate has no Dafny counterpart.
 */
module JavaStrings {

  /** A UTF-16 code unit: a Java char. */
  type Unit = x: int | 0 <= x < 0x1_0000

  /** A unit of a surrogate pair's first half. */
  predicate HighSurrogate(u: Unit)
  {
    0xD800 <= u < 0xDC00
  }

  /**
   * The UTF-16 encoding of one character: the character itself below
   * U+10000, otherwise a high surrogate followed by a low surrogate.
   */
  function EncodeChar(c: char): (u: seq<Unit>)
    ensures 1 <= |u| <= 2
    ensures |u| == 2 <==> HighSurrogate(u[0])
    ensures |u| == 1 <==> c as int < 0x1_0000
  {
    var v := c as int;
    if v < 0x1_0000 then [v]
    else [0xD800 + (v - 0x1_0000) / 0x400, 0xDC00 + (v - 0x1_0000) % 0x400]
  }

  /** The UTF-16 code units of a string, as String.toCharArray gives them. */
  function Utf16(s: string): (u: seq<Unit>)
    ensures |s| <= |u| <= 2 * |s|
  {
    if s == [] then [] else EncodeChar(s[0]) + Utf16(s[1..])
  }

  /** Distinct characters have distinct encodings. */
  lemma EncodeCharInjective(c: char, d: char)
    requires EncodeChar(c) == EncodeChar(d)
    ensures c == d
  {
    var u := EncodeChar(c);
    if |u| == 2 {
      var x, y := c as int - 0x1_0000, d as int - 0x1_0000;
      assert x / 0x400 == y / 0x400 && x % 0x400 == y % 0x400;
      assert x == (x / 0x400) * 0x400 + x % 0x400;
      assert y == (y / 0x400) * 0x400 + y % 0x400;
    }
  }

  /** Distinct strings have distinct encodings: a first unit tells whether a pair follows. */
  lemma {:induction false} Utf16Injective(a: string, b: string)
    ensures Utf16(a) == Utf16(b) ==> a == b
    decreases |a|
  {
    if Utf16(a) == Utf16(b) && a != [] && b != [] {
      var ea, eb := EncodeChar(a[0]), EncodeChar(b[0]);
      assert Utf16(a) == ea + Utf16(a[1..]);
      assert Utf16(b) == eb + Utf16(b[1..]);
      assert ea[0] == Utf16(a)[0] == eb[0];
      assert ea == Utf16(a)[..|ea|] == eb;
      EncodeCharInjective(a[0], b[0]);
      assert Utf16(a[1..]) == Utf16(a)[|ea|..] == Utf16(b[1..]);
      Utf16Injective(a[1..], b[1..]);
      assert a == [a[0]] + a[1..] && b == [b[0]] + b[1..];
    }
  }

  /**
   * String.compareTo on the code units: the difference of the first pair of
   * differing units, or, when one is a prefix of the other, the difference
   * of the lengths.
   */
  function CompareUnits(a: seq<Unit>, b: seq<Unit>): (r: int)
    ensures r == 0 <==> a == b
    decreases |a|
  {
    if a == [] || b == [] then |a| - |b|
    else if a[0] != b[0] then a[0] - b[0]
    else
      assert a == [a[0]] + a[1..] && b == [b[0]] + b[1..];
      CompareUnits(a[1..], b[1..])
  }

  /** String.compareTo: zero exactly for equal strings. */
  function CompareTo(a: string, b: string): (r: int)
    ensures r == 0 <==> a == b
  {
    Utf16Injective(a, b);
    CompareUnits(Utf16(a), Utf16(b))
  }

  /** a sorts strictly before b. */
  predicate Less(a: string, b: string)
  {
    CompareTo(a, b) < 0
  }

  lemma {:induction false} CompareUnitsAntisymmetric(a: seq<Unit>, b: seq<Unit>)
    ensures CompareUnits(b, a) == -CompareUnits(a, b)
    decreases |a|
  {
    if a != [] && b != [] && a[0] == b[0] {
      CompareUnitsAntisymmetric(a[1..], b[1..]);
    }
  }

  lemma {:induction false} CompareUnitsTransitive(a: seq<Unit>, b: seq<Unit>, c: seq<Unit>)
    requires CompareUnits(a, b) < 0 && CompareUnits(b, c) < 0
    ensures CompareUnits(a, c) < 0
    decreases |a|
  {
    if a != [] && b != [] && c != [] && a[0] == b[0] && b[0] == c[0] {
      CompareUnitsTransitive(a[1..], b[1..], c[1..]);
    }
  }

  /** Swapping the arguments negates the result, so the order is asymmetric. */
  lemma CompareToAntisymmetric(a: string, b: string)
    ensures CompareTo(b, a) == -CompareTo(a, b)
  {
    CompareUnitsAntisymmetric(Utf16(a), Utf16(b));
  }

  /** The order is transitive. */
  lemma LessTransitive(a: string, b: string, c: string)
    requires Less(a, b) && Less(b, c)
    ensures Less(a, c)
  {
    CompareUnitsTransitive(Utf16(a), Utf16(b), Utf16(c));
  }

  /** Distinct strings are always comparable one way or the other. */
  lemma LessTotal(a: string, b: string)
    requires a != b
    ensures Less(a, b) || Less(b, a)
  {
    CompareToAntisymmetric(a, b);
  }

  /**
   * The order is by code unit, not by code point: a character above U+FFFF
   * starts with a high surrogate and so sorts before U+FFFF.
   */
  lemma SupplementaryBeforeLastBmp()
    ensures Less("\U{10000}", "\U{FFFF}")
    ensures '\U{10000}' as int > '\U{FFFF}' as int
  {
    assert Utf16("\U{10000}") == [0xD800, 0xDC00];
    assert Utf16("\U{FFFF}") == [0xFFFF];
  }
}
