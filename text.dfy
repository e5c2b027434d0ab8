/** Substring search, the `String.prototype.includes` the request classifier relies on. */
module Text {

  /** `s.includes(pat)`: `pat` occurs somewhere in `s`; the empty pattern occurs in every string. */
  predicate Includes(s: string, pat: string): (b: bool)
    ensures |pat| == 0 ==> b
    ensures b ==> |pat| <= |s|
    decreases |s|
  {
    if |pat| > |s| then false
    else if s[..|pat|] == pat then true
    else Includes(s[1..], pat)
  }

  /** Reference definition: `pat` starts at position `i` of `s`. */
  ghost predicate OccursAt(s: string, pat: string, i: int)
  {
    0 <= i && i + |pat| <= |s| && s[i..i + |pat|] == pat
  }

  /** Shifting by one character moves every occurrence one position to the right. */
  lemma OccursAtTail(s: string, pat: string, j: int)
    requires |s| > 0 && 0 <= j
    ensures OccursAt(s[1..], pat, j) <==> OccursAt(s, pat, j + 1)
  {
    if 0 <= j && j + |pat| <= |s| - 1 {
      assert s[1..][j..j + |pat|] == s[j + 1..j + 1 + |pat|];
    }
  }

  /** The recursive search agrees with the positional definition, in both directions. */
  lemma {:induction false} IncludesIff(s: string, pat: string)
    ensures Includes(s, pat) <==> exists i :: OccursAt(s, pat, i)
    decreases |s|
  {
    if |pat| > |s| {
      assert forall i :: !OccursAt(s, pat, i);
    } else if s[..|pat|] == pat {
      assert OccursAt(s, pat, 0);
    } else {
      assert !OccursAt(s, pat, 0);
      IncludesIff(s[1..], pat);
      if Includes(s[1..], pat) {
        var j :| OccursAt(s[1..], pat, j);
        OccursAtTail(s, pat, j);
      } else {
        forall i | OccursAt(s, pat, i)
          ensures false
        {
          assert i != 0;
          OccursAtTail(s, pat, i - 1);
        }
      }
    }
  }

  /** A pattern with a character the string lacks cannot occur in it. */
  lemma MissingCharExcludes(s: string, pat: string, c: char)
    requires c in pat && c !in s
    ensures !Includes(s, pat)
  {
    IncludesIff(s, pat);
  }

  /** A string includes itself surrounded by anything: the witness of a positive match. */
  lemma IncludesInfix(pre: string, pat: string, post: string)
    ensures Includes(pre + pat + post, pat)
  {
    var s := pre + pat + post;
    assert s[|pre|..|pre| + |pat|] == pat;
    assert OccursAt(s, pat, |pre|);
    IncludesIff(s, pat);
  }
}
