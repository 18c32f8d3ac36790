/** Case-insensitive substring search, as the trackers' search boxes do it with
    `toLowerCase()` and `includes()`. */
module Text {

  /** ASCII lower-casing of one character. */
  function LowerChar(c: char): (r: char)
    ensures 'A' <= c <= 'Z' ==> 'a' <= r <= 'z'
    ensures !('A' <= c <= 'Z') ==> r == c
  {
    if 'A' <= c <= 'Z' then (c as int + 32) as char else c
  }

  /** ASCII lower-casing of a string, character by character. */
  function Lower(s: string): (r: string)
    ensures |r| == |s|
    ensures forall i :: 0 <= i < |s| ==> r[i] == LowerChar(s[i])
  {
    if s == [] then [] else [LowerChar(s[0])] + Lower(s[1..])
  }

  /** `needle` occurs in `hay` starting at position `i`. */
  predicate OccursAt(hay: string, needle: string, i: int)
  {
    0 <= i && i + |needle| <= |hay| && hay[i..i + |needle|] == needle
  }

  /** `hay.includes(needle)`: some suffix of `hay` starts with `needle`. */
  predicate Contains(hay: string, needle: string)
  {
    needle <= hay || (hay != [] && Contains(hay[1..], needle))
  }

  /** An occurrence at any position is found by `Contains`. */
  lemma {:induction false} OccursImpliesContains(hay: string, needle: string, i: int)
    requires OccursAt(hay, needle, i)
    ensures Contains(hay, needle)
    decreases i
  {
    if i > 0 {
      assert hay[1..][i - 1..i - 1 + |needle|] == hay[i..i + |needle|];
      OccursImpliesContains(hay[1..], needle, i - 1);
    }
  }

  /** Whatever `Contains` finds is an occurrence at some position. */
  lemma {:induction false} ContainsImpliesOccurs(hay: string, needle: string) returns (i: int)
    requires Contains(hay, needle)
    ensures OccursAt(hay, needle, i)
  {
    if needle <= hay {
      i := 0;
    } else {
      var j := ContainsImpliesOccurs(hay[1..], needle);
      assert hay[1..][j..j + |needle|] == hay[j + 1..j + 1 + |needle|];
      i := j + 1;
    }
  }

  /** `Contains` holds exactly when `needle` occurs somewhere in `hay`. */
  lemma ContainsIffOccurs(hay: string, needle: string)
    ensures Contains(hay, needle) <==> exists i :: OccursAt(hay, needle, i)
  {
    if Contains(hay, needle) {
      var i := ContainsImpliesOccurs(hay, needle);
    }
    forall i | OccursAt(hay, needle, i) ensures Contains(hay, needle) {
      OccursImpliesContains(hay, needle, i);
    }
  }

  /** `text.toLowerCase().includes(term.toLowerCase())`. */
  predicate MatchesIgnoringCase(text: string, term: string)
  {
    Contains(Lower(text), Lower(term))
  }

  /** The empty search term matches every text. */
  lemma EmptyTermMatches(text: string)
    ensures MatchesIgnoringCase(text, "")
  {
  }

  /** Lower-casing twice is lower-casing once. */
  lemma {:induction false} LowerIdempotent(s: string)
    ensures Lower(Lower(s)) == Lower(s)
  {
    assert forall i :: 0 <= i < |s| ==> Lower(Lower(s))[i] == Lower(s)[i];
  }

  /** Case does not matter on either side of the search: lower-casing the
      text or the term beforehand changes no answer. */
  lemma SearchIgnoresCase(text: string, term: string)
    ensures MatchesIgnoringCase(Lower(text), term) == MatchesIgnoringCase(text, term)
    ensures MatchesIgnoringCase(text, Lower(term)) == MatchesIgnoringCase(text, term)
  {
    LowerIdempotent(text);
    LowerIdempotent(term);
  }
}
