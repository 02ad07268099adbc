/** ASCII case folding and substring search: the two string primitives the
    condition selectors are built from (Python's `str.lower` and `in`). */
module Text {

  /** Lower-cases one ASCII letter; every other character is left alone. */
  function LowerChar(c: char): (r: char)
    ensures !('A' <= r <= 'Z')
    ensures 'A' <= c <= 'Z' ==> r as int == c as int + 32
    ensures !('A' <= c <= 'Z') ==> r == c
  {
    if 'A' <= c <= 'Z' then (c as int + 32) as char else c
  }

  /** `s.lower()`, restricted to ASCII letters. */
  function Lower(s: string): (r: string)
    ensures |r| == |s|
    ensures forall i :: 0 <= i < |s| ==> r[i] == LowerChar(s[i])
    ensures forall i :: 0 <= i < |r| ==> !('A' <= r[i] <= 'Z')
  {
    if s == [] then [] else [LowerChar(s[0])] + Lower(s[1..])
  }

  /** Folding twice is folding once. */
  lemma LowerIdempotent(s: string)
    ensures Lower(Lower(s)) == Lower(s)
  {
  }

  /** `pat in text` in Python: does `pat` occur in `text` as a contiguous
      substring? Tries every start position from left to right. */
  predicate Contains(text: string, pat: string): (found: bool)
    ensures pat <= text ==> found
    ensures found ==> |pat| <= |text|
    decreases |text|
  {
    pat <= text || (|text| > 0 && Contains(text[1..], pat))
  }

  /** `pat` occurs in `text` starting at index `i`. */
  ghost predicate OccursAt(text: string, pat: string, i: int)
  {
    0 <= i && i + |pat| <= |text| && text[i..i + |pat|] == pat
  }

  lemma OccursAtShift(text: string, pat: string, i: int)
    requires |text| > 0 && 0 <= i
    ensures OccursAt(text[1..], pat, i) <==> OccursAt(text, pat, i + 1)
  {
    if i + |pat| <= |text| - 1 {
      assert text[1..][i..i + |pat|] == text[i + 1..i + 1 + |pat|];
    }
  }

  /** The search agrees with the definition of a substring occurrence. */
  lemma {:induction false} ContainsIff(text: string, pat: string)
    ensures Contains(text, pat) <==> exists i :: OccursAt(text, pat, i)
    decreases |text|
  {
    if pat <= text {
      assert text[0..|pat|] == pat;
      assert OccursAt(text, pat, 0);
    } else if |text| == 0 {
    } else {
      ContainsIff(text[1..], pat);
      if Contains(text, pat) {
        var i :| OccursAt(text[1..], pat, i);
        OccursAtShift(text, pat, i);
      }
      if exists i :: OccursAt(text, pat, i) {
        var i :| OccursAt(text, pat, i);
        if i > 0 {
          OccursAtShift(text, pat, i - 1);
        }
      }
    }
  }

  /** An occurrence survives extending the text on either side. */
  lemma ContainsInContext(pre: string, pat: string, post: string)
    ensures Contains(pre + pat + post, pat)
  {
    var text := pre + pat + post;
    assert text[|pre|..|pre| + |pat|] == pat;
    assert OccursAt(text, pat, |pre|);
    ContainsIff(text, pat);
  }
}
