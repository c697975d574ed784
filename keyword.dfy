/** Keyword matching (`occurrences` and the keyword-presence flags) and keyword density. */
module Keyword {
  import opened Common

  /** A character of the regex class `\w` when the `u` flag is absent: `[A-Za-z0-9_]`. */
  predicate IsWordChar(c: char) {
    ('a' <= c <= 'z') || ('A' <= c <= 'Z') || ('0' <= c <= '9') || c == '_'
  }

  predicate WordCharAt(s: string, i: int) {
    0 <= i < |s| && IsWordChar(s[i])
  }

  /** The assertion `\b` holds at position `i` (between `s[i - 1]` and `s[i]`): exactly one of the
      two neighbours is a word character, a position outside the text counting as none. */
  predicate Boundary(s: string, i: int) {
    WordCharAt(s, i - 1) != WordCharAt(s, i)
  }

  /** The literal `term` appears at `i` when characters are compared after the regex
      engine's case canonicalisation `canon` (the `i` flag). */
  predicate SameAt(s: string, term: string, canon: char -> char, i: int) {
    0 <= i && i + |term| <= |s| && forall k :: 0 <= k < |term| ==> canon(s[i + k]) == canon(term[k])
  }

  /** `\b<term>\b` matches at `i`, with the term's special characters escaped, so taken literally. */
  predicate MatchAt(s: string, term: string, canon: char -> char, i: int) {
    SameAt(s, term, canon, i) && Boundary(s, i) && Boundary(s, i + |term|)
  }

  /** The start positions of the matches that a global search (`text.match(re)` with the `g`
      flag) reports from position `p` on: the leftmost match, then the next search starts where
      that match ends. */
  function MatchPositions(s: string, term: string, canon: char -> char, p: nat): seq<nat>
    requires |term| > 0
    decreases |s| - p
  {
    if p + |term| > |s| then []
    else if MatchAt(s, term, canon, p) then [p] + MatchPositions(s, term, canon, p + |term|)
    else MatchPositions(s, term, canon, p + 1)
  }

  /** Some reported match covers position `i`. */
  predicate Covered(r: seq<nat>, i: int, len: nat) {
    exists k :: 0 <= k < |r| && r[k] <= i < r[k] + len
  }

  /** Every reported position is a match at or after `p`. */
  lemma {:induction false} MatchPositionsSound(s: string, term: string, canon: char -> char, p: nat)
    requires |term| > 0
    ensures forall k :: 0 <= k < |MatchPositions(s, term, canon, p)| ==>
              p <= MatchPositions(s, term, canon, p)[k] && MatchAt(s, term, canon, MatchPositions(s, term, canon, p)[k])
    decreases |s| - p
  {
    if p + |term| <= |s| {
      if MatchAt(s, term, canon, p) {
        MatchPositionsSound(s, term, canon, p + |term|);
        var rest := MatchPositions(s, term, canon, p + |term|);
        assert forall k :: 1 <= k < |[p] + rest| ==> ([p] + rest)[k] == rest[k - 1];
      } else {
        MatchPositionsSound(s, term, canon, p + 1);
      }
    }
  }

  /** Reported matches do not overlap and come in increasing order. */
  lemma {:induction false} MatchPositionsDisjoint(s: string, term: string, canon: char -> char, p: nat)
    requires |term| > 0
    ensures forall k :: 0 <= k < |MatchPositions(s, term, canon, p)| - 1 ==>
              MatchPositions(s, term, canon, p)[k] + |term| <= MatchPositions(s, term, canon, p)[k + 1]
    decreases |s| - p
  {
    if p + |term| <= |s| {
      if MatchAt(s, term, canon, p) {
        MatchPositionsDisjoint(s, term, canon, p + |term|);
        MatchPositionsSound(s, term, canon, p + |term|);
        var rest := MatchPositions(s, term, canon, p + |term|);
        var r := [p] + rest;
        assert forall k :: 1 <= k < |r| ==> r[k] == rest[k - 1];
        if rest != [] {
          assert r[0] + |term| <= r[1];
        }
      } else {
        MatchPositionsDisjoint(s, term, canon, p + 1);
      }
    }
  }

  /** No match is skipped: every match at or after `p` lies inside a reported one (it is either
      reported itself or overlaps the reported match to its left). */
  lemma {:induction false} MatchPositionsComplete(s: string, term: string, canon: char -> char, p: nat, i: int)
    requires |term| > 0
    requires p <= i && MatchAt(s, term, canon, i)
    ensures Covered(MatchPositions(s, term, canon, p), i, |term|)
    decreases |s| - p
  {
    var r := MatchPositions(s, term, canon, p);
    if MatchAt(s, term, canon, p) {
      if i < p + |term| {
        assert r[0] == p;
      } else {
        MatchPositionsComplete(s, term, canon, p + |term|, i);
        var rest := MatchPositions(s, term, canon, p + |term|);
        var k :| 0 <= k < |rest| && rest[k] <= i < rest[k] + |term|;
        assert r[k + 1] == rest[k];
      }
    } else {
      MatchPositionsComplete(s, term, canon, p + 1, i);
    }
  }

  /** `occurrences(text, term)`: the number of matches of the global, case-insensitive pattern
      `\b<term>\b`; 0 when the text or the term is empty. */
  function Occurrences(text: string, term: string, canon: char -> char): nat {
    if text == [] || term == [] then 0 else |MatchPositions(text, term, canon, 0)|
  }

  /** Matches do not overlap, so there are at most |text| / |term| of them. */
  lemma {:induction false} MatchPositionsBound(s: string, term: string, canon: char -> char, p: nat)
    requires |term| > 0 && p <= |s|
    ensures |MatchPositions(s, term, canon, p)| * |term| <= |s| - p
    decreases |s| - p
  {
    if p + |term| <= |s| {
      if MatchAt(s, term, canon, p) {
        MatchPositionsBound(s, term, canon, p + |term|);
        var n := |MatchPositions(s, term, canon, p + |term|)|;
        assert (n + 1) * |term| == n * |term| + |term|;
      } else {
        MatchPositionsBound(s, term, canon, p + 1);
      }
    }
  }

  lemma OccurrencesBound(text: string, term: string, canon: char -> char)
    requires term != []
    ensures Occurrences(text, term, canon) * |term| <= |text|
  {
    if text != [] {
      MatchPositionsBound(text, term, canon, 0);
    }
  }

  /** There is at least one occurrence exactly when the pattern matches somewhere. */
  lemma OccurrencesPositiveIffMatch(text: string, term: string, canon: char -> char)
    requires term != []
    ensures Occurrences(text, term, canon) > 0 <==> exists i :: 0 <= i <= |text| && MatchAt(text, term, canon, i)
  {
    if text == [] {
      return;
    }
    var r := MatchPositions(text, term, canon, 0);
    MatchPositionsSound(text, term, canon, 0);
    if r != [] {
      assert MatchAt(text, term, canon, r[0]);
    }
    if i :| 0 <= i <= |text| && MatchAt(text, term, canon, i) {
      MatchPositionsComplete(text, term, canon, 0, i);
    }
  }

  /** The count depends on the term only through its canonical form: case does not matter. */
  lemma {:induction false} MatchPositionsCaseInsensitive(s: string, t1: string, t2: string, canon: char -> char, p: nat)
    requires |t1| == |t2| > 0
    requires forall k :: 0 <= k < |t1| ==> canon(t1[k]) == canon(t2[k])
    ensures MatchPositions(s, t1, canon, p) == MatchPositions(s, t2, canon, p)
    decreases |s| - p
  {
    if p + |t1| <= |s| {
      assert MatchAt(s, t1, canon, p) == MatchAt(s, t2, canon, p);
      if MatchAt(s, t1, canon, p) {
        MatchPositionsCaseInsensitive(s, t1, t2, canon, p + |t1|);
      } else {
        MatchPositionsCaseInsensitive(s, t1, t2, canon, p + 1);
      }
    }
  }

  lemma OccurrencesCaseInsensitive(text: string, t1: string, t2: string, canon: char -> char)
    requires |t1| == |t2|
    requires forall k :: 0 <= k < |t1| ==> canon(t1[k]) == canon(t2[k])
    ensures Occurrences(text, t1, canon) == Occurrences(text, t2, canon)
  {
    if text != [] && t1 != [] {
      MatchPositionsCaseInsensitive(text, t1, t2, canon, 0);
    }
  }

  /** A term inside a longer word does not count: "cat" does not occur in "category". */
  lemma NoMatchInsideWord(canon: char -> char)
    ensures Occurrences("category", "cat", canon) == 0
  {
    var s := "category";
    forall i | 0 <= i <= |s|
      ensures !MatchAt(s, "cat", canon, i)
    {
      if 0 < i < |s| {
        assert WordCharAt(s, i - 1) && WordCharAt(s, i);
      } else if i == 0 {
        assert WordCharAt(s, 2) && WordCharAt(s, 3);
      }
    }
    OccurrencesPositiveIffMatch(s, "cat", canon);
  }

  /** Because `\b` only knows ASCII word characters, a keyword ending in an accented letter never
      matches at the end of a word: "café" does not occur in "um café quente" (under any case
      canonicalisation that keeps ' ' and 'c' apart). */
  lemma AccentedKeywordNeverMatches(canon: char -> char)
    requires canon(' ') != canon('c')
    ensures Occurrences("um café quente", "café", canon) == 0
  {
    var s, t := "um café quente", "café";
    forall i | 0 <= i <= |s|
      ensures !MatchAt(s, t, canon, i)
    {
      if i == 2 {
        assert s[2] == ' ' && t[0] == 'c';
      } else if i == 0 || i == 3 || i == 6 || i == 8 {
        assert !Boundary(s, i + 4);
      } else if i < |s| {
        assert !Boundary(s, i);
      }
    }
    OccurrencesPositiveIffMatch(s, t, canon);
  }

  // ---------------------------------------------------------------------------
  // Keyword-presence flags
  // ---------------------------------------------------------------------------

  /** A keyword without any of the characters the escaping in `occurrences` protects. */
  predicate PlainKeyword(kw: string) {
    forall i :: 0 <= i < |kw| ==> kw[i] !in ".*+?^${}()|[]\\"
  }

  /** `new RegExp('\\b' + kw + '\\b', 'i').test(text)` for a plain keyword: some match exists. */
  predicate HasKeyword(text: string, kw: string, canon: char -> char) {
    exists i | 0 <= i <= |text| :: MatchAt(text, kw, canon, i)
  }

  /** The presence flag the analysis computes. The keyword is compiled without escaping; for a
      keyword with metacharacters the outcome is the regex engine's, given as `patternTest`. */
  function KeywordFlag(text: string, kw: string, canon: char -> char, patternTest: string -> bool): bool {
    if PlainKeyword(kw) then HasKeyword(text, kw, canon) else patternTest(text)
  }

  /** For a plain non-empty keyword the flag agrees with the occurrence count. */
  lemma FlagAgreesWithOccurrences(text: string, kw: string, canon: char -> char, patternTest: string -> bool)
    requires PlainKeyword(kw) && kw != []
    ensures KeywordFlag(text, kw, canon, patternTest) <==> Occurrences(text, kw, canon) > 0
  {
    if text != [] {
      OccurrencesPositiveIffMatch(text, kw, canon);
    }
  }

  // ---------------------------------------------------------------------------
  // Density
  // ---------------------------------------------------------------------------

  /** `words ? (occ / words) * 100 : 0`, as an exact real. */
  function Density(occ: nat, words: nat): (d: real)
    ensures words == 0 ==> d == 0.0
    ensures words > 0 ==> d * (words as real) == (occ as real) * 100.0
    ensures d >= 0.0
  {
    if words == 0 then 0.0 else (occ as real / words as real) * 100.0
  }
}
