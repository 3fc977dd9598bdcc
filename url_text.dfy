/**
 * String helpers the two card components share: the 30-code-unit
 * truncation both write out, and JavaScript's `String.prototype.replace`
 * with a string pattern, which replaces the first occurrence only.
 */
module UrlText {
  import opened JsStrings

  /** The longest string, in code units, kept as it is. */
  const MaxLength: nat := 30
  /** Code units kept in front of the ellipsis. */
  const KeptLength: nat := 27
  /** `'...'`. */
  const Ellipsis: JsString := [0x2E, 0x2E, 0x2E]

  /**
   * `s.length > 30 ? `${s.slice(0, 27)}...` : s`.  Lengths are in code
   * units, so the cut may fall between the two halves of a surrogate pair.
   */
  function Truncated(s: JsString): (r: JsString)
    ensures |r| <= MaxLength
    ensures |s| <= MaxLength ==> r == s
    ensures |s| > MaxLength ==>
      |r| == MaxLength && r[..KeptLength] == s[..KeptLength] && r[KeptLength..] == Ellipsis
  {
    if |s| > MaxLength then s[..KeptLength] + Ellipsis else s
  }

  /** Truncating twice is truncating once. */
  lemma TruncatedIdempotent(s: JsString)
    ensures Truncated(Truncated(s)) == Truncated(s)
  {
  }

  /**
   * Sixteen characters beyond U+FFFF are 32 code units, so they are cut:
   * the last unit kept is a high surrogate whose low half is dropped.
   */
  lemma TruncationCanSplitSurrogatePair()
    ensures var s := Utf16(seq(16, _ => '\U{1F600}'));
      && |s| == 32
      && Truncated(s) != s
      && IsHighSurrogate(Truncated(s)[KeptLength - 1])
      && Truncated(s)[KeptLength] == 0x2E
  {
    Utf16OfAstralRun('\U{1F600}', 16);
    var s := Utf16(seq(16, _ => '\U{1F600}'));
    assert IsHighSurrogate(s[2 * 13]);
  }

  predicate OccursAt(s: JsString, pat: JsString, i: int)
  {
    0 <= i && i + |pat| <= |s| && s[i..i + |pat|] == pat
  }

  lemma OccursAtTail(s: JsString, pat: JsString, j: int)
    requires |s| > 0 && j >= 1
    ensures OccursAt(s, pat, j) <==> OccursAt(s[1..], pat, j - 1)
  {
    if j + |pat| <= |s| {
      assert s[1..][j - 1..j - 1 + |pat|] == s[j..j + |pat|];
    }
  }

  /** `s.indexOf(pat)`: the first position where `pat` occurs, or -1. */
  function IndexOf(s: JsString, pat: JsString): (i: int)
    ensures i == -1 || OccursAt(s, pat, i)
    ensures forall j :: 0 <= j && (i == -1 || j < i) ==> !OccursAt(s, pat, j)
    decreases |s|
  {
    if |s| < |pat| then -1
    else if s[..|pat|] == pat then 0
    else
      var k := IndexOf(s[1..], pat);
      forall j | 1 <= j && (k == -1 || j < k + 1)
        ensures !OccursAt(s, pat, j)
      {
        OccursAtTail(s, pat, j);
      }
      if k == -1 then -1
      else
        OccursAtTail(s, pat, k + 1);
        k + 1
  }

  /** `s.replace(pat, rep)` with a string pattern and a replacement without `$` patterns. */
  function ReplaceFirst(s: JsString, pat: JsString, rep: JsString): (r: JsString)
    ensures IndexOf(s, pat) == -1 ==> r == s
    ensures IndexOf(s, pat) >= 0 ==>
      var i := IndexOf(s, pat);
      && |r| == |s| - |pat| + |rep|
      && r[..i] == s[..i]
      && r[i..i + |rep|] == rep
      && r[i + |rep|..] == s[i + |pat|..]
  {
    var i := IndexOf(s, pat);
    if i == -1 then s else s[..i] + rep + s[i + |pat|..]
  }
}
