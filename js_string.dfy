/**
 * JavaScript strings.  A JavaScript string is a sequence of UTF-16 code
 * units, and `length`, `slice` and `indexOf` count and cut code units, not
 * characters: a character beyond U+FFFF takes two of them.
 */
module JsStrings {

  /** One UTF-16 code unit. */
  newtype CodeUnit = u: int | 0 <= u < 0x1_0000

  type JsString = seq<CodeUnit>

  predicate IsHighSurrogate(u: CodeUnit)
  {
    0xD800 <= u < 0xDC00
  }

  predicate IsLowSurrogate(u: CodeUnit)
  {
    0xDC00 <= u < 0xE000
  }

  /** The UTF-16 encoding of one character: one unit below U+10000, otherwise a surrogate pair. */
  function EncodeChar(c: char): (units: JsString)
    ensures 1 <= |units| <= 2
    ensures |units| == 2 <==> c as int >= 0x1_0000
    ensures |units| == 1 ==> units[0] as int == c as int
    ensures |units| == 2 ==> IsHighSurrogate(units[0]) && IsLowSurrogate(units[1])
  {
    var v := c as int;
    if v < 0x1_0000 then [v as CodeUnit]
    else
      var w := v - 0x1_0000;
      [(0xD800 + w / 0x400) as CodeUnit, (0xDC00 + w % 0x400) as CodeUnit]
  }

  /** The JavaScript string holding the characters of `s`. */
  function Utf16(s: string): (r: JsString)
    ensures |r| >= |s|
    decreases |s|
  {
    if s == [] then [] else EncodeChar(s[0]) + Utf16(s[1..])
  }

  /**
   * A string of `n` copies of one character beyond U+FFFF is `2 * n` code
   * units long, alternating high and low surrogates.
   */
  lemma {:induction false} Utf16OfAstralRun(c: char, n: nat)
    requires c as int >= 0x1_0000
    ensures |Utf16(seq(n, _ => c))| == 2 * n
    ensures forall k :: 0 <= k < n ==>
      IsHighSurrogate(Utf16(seq(n, _ => c))[2 * k]) && IsLowSurrogate(Utf16(seq(n, _ => c))[2 * k + 1])
  {
    if n > 0 {
      var s := seq(n, _ => c);
      assert s[0] == c && s[1..] == seq(n - 1, _ => c);
      Utf16OfAstralRun(c, n - 1);
      var tail := Utf16(seq(n - 1, _ => c));
      assert Utf16(s) == EncodeChar(c) + tail;
      forall k | 1 <= k < n
        ensures IsHighSurrogate(Utf16(s)[2 * k]) && IsLowSurrogate(Utf16(s)[2 * k + 1])
      {
        assert Utf16(s)[2 * k] == tail[2 * (k - 1)];
        assert Utf16(s)[2 * k + 1] == tail[2 * (k - 1) + 1];
      }
    }
  }
}
