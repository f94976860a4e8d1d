/** The string matching behind every search box: JavaScript's
    `toLowerCase` (restricted to ASCII letters) and `String.prototype.includes`. */
module Text {

  /** Lower-cases one character. Only 'A'..'Z' are folded; every other
      character, accented letters included, is left as it is. */
  function Lower(c: char): (r: char)
    ensures 'A' <= c <= 'Z' ==> 'a' <= r <= 'z' && r as int - c as int == 32
    ensures !('A' <= c <= 'Z') ==> r == c
  {
    if 'A' <= c <= 'Z' then (c as int + 32) as char else c
  }

  /** Lower-cases a string character by character. */
  function LowerStr(s: string): (r: string)
    ensures |r| == |s|
    ensures forall i :: 0 <= i < |s| ==> r[i] == Lower(s[i])
  {
    seq(|s|, i requires 0 <= i < |s| => Lower(s[i]))
  }

  /** `needle` is a prefix of `hay`. */
  predicate IsPrefix(needle: string, hay: string) {
    |needle| <= |hay| && hay[..|needle|] == needle
  }

  /** `hay.includes(needle)`: `needle` occurs as a contiguous block of `hay`. */
  predicate Includes(needle: string, hay: string)
    decreases |hay|
  {
    IsPrefix(needle, hay) || (|hay| > 0 && Includes(needle, hay[1..]))
  }

  /** Reference definition of `includes`: some window of `hay` equals `needle`. */
  ghost predicate OccursAt(needle: string, hay: string, k: int) {
    0 <= k && k + |needle| <= |hay| && hay[k..k + |needle|] == needle
  }

  /** The recursive scan finds `needle` exactly when some window holds it. */
  lemma {:induction false} IncludesIffOccurs(needle: string, hay: string)
    ensures Includes(needle, hay) <==> exists k :: OccursAt(needle, hay, k)
    decreases |hay|
  {
    if Includes(needle, hay) {
      if IsPrefix(needle, hay) {
        assert OccursAt(needle, hay, 0);
      } else {
        IncludesIffOccurs(needle, hay[1..]);
        var k :| OccursAt(needle, hay[1..], k);
        assert hay[1..][k..k + |needle|] == hay[k + 1..k + 1 + |needle|];
        assert OccursAt(needle, hay, k + 1);
      }
    }
    forall k | OccursAt(needle, hay, k)
      ensures Includes(needle, hay)
    {
      if k == 0 {
        assert IsPrefix(needle, hay);
      } else {
        assert hay[1..][k - 1..k - 1 + |needle|] == hay[k..k + |needle|];
        assert OccursAt(needle, hay[1..], k - 1);
        IncludesIffOccurs(needle, hay[1..]);
      }
    }
  }

  /** Every character of an included string occurs in the string that includes it. */
  lemma {:induction false} IncludedCharsOccur(needle: string, hay: string, ch: char)
    requires Includes(needle, hay) && ch in needle
    ensures ch in hay
    decreases |hay|
  {
    if IsPrefix(needle, hay) {
      var i :| 0 <= i < |needle| && needle[i] == ch;
      assert hay[i] == ch;
    } else {
      IncludedCharsOccur(needle, hay[1..], ch);
    }
  }

  /** A lower-case letter appears in a lower-cased string only if it, or its
      upper-case form, appeared in the original. */
  lemma LowerLetterOrigin(s: string, ch: char)
    requires 'a' <= ch <= 'z' && ch in LowerStr(s)
    ensures ch in s || (ch as int - 32) as char in s
  {
    var i :| 0 <= i < |s| && LowerStr(s)[i] == ch;
    assert s[i] == ch || s[i] == (ch as int - 32) as char;
  }

  /** The empty string occurs in every string, so an empty search keeps everything. */
  lemma EmptyIncludedEverywhere(hay: string)
    ensures Includes("", hay)
  {
    assert IsPrefix("", hay);
  }

  /** The drop-down value that switches a category, specialty or modality
      filter off. */
  const Wildcard: string := "all"

  /** The search predicate shared by every list screen: the lower-cased term
      occurs in the lower-cased first or second field. */
  predicate MatchesSearch(term: string, first: string, second: string) {
    Includes(LowerStr(term), LowerStr(first)) || Includes(LowerStr(term), LowerStr(second))
  }

  /** An empty search term matches every pair of fields. */
  lemma EmptySearchMatchesAll(first: string, second: string)
    ensures MatchesSearch("", first, second)
  {
    assert LowerStr("") == "";
    EmptyIncludedEverywhere(LowerStr(first));
  }

  /** A search term holding a letter that neither field contains, in either
      case, matches neither field. */
  lemma AbsentLetterBlocksMatch(term: string, first: string, second: string, ch: char)
    requires 'a' <= ch <= 'z' && ch in LowerStr(term)
    requires ch !in first && (ch as int - 32) as char !in first
    requires ch !in second && (ch as int - 32) as char !in second
    ensures !MatchesSearch(term, first, second)
  {
    if Includes(LowerStr(term), LowerStr(first)) {
      IncludedCharsOccur(LowerStr(term), LowerStr(first), ch);
      LowerLetterOrigin(first, ch);
    }
    if Includes(LowerStr(term), LowerStr(second)) {
      IncludedCharsOccur(LowerStr(term), LowerStr(second), ch);
      LowerLetterOrigin(second, ch);
    }
  }

  /** Matching ignores the case of ASCII letters in the search term. */
  lemma SearchIgnoresCase(term: string, first: string, second: string)
    ensures MatchesSearch(LowerStr(term), first, second) <==> MatchesSearch(term, first, second)
  {
    LowerIdempotent(term);
  }

  lemma LowerIdempotent(s: string)
    ensures LowerStr(LowerStr(s)) == LowerStr(s)
  {
  }
}
