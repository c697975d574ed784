/** Text normalisation (`cleanText`) and word counting (`countWords`). */
module Text {
  import opened Common

  // ---------------------------------------------------------------------------
  // Whitespace, trimming and collapsing
  // ---------------------------------------------------------------------------

  /** The characters of a JavaScript `\s` class, which are also the ones `String.prototype.trim`
      removes: the WhiteSpace and LineTerminator code points. */
  predicate IsSpace(c: char) {
    || c == '\t' || c == '\n' || c == '\U{0B}' || c == '\U{0C}' || c == '\r' || c == ' '
    || c == '\U{A0}' || c == '\U{1680}' || ('\U{2000}' <= c <= '\U{200A}')
    || c == '\U{2028}' || c == '\U{2029}' || c == '\U{202F}' || c == '\U{205F}'
    || c == '\U{3000}' || c == '\U{FEFF}'
  }

  /** Drops the leading whitespace. */
  function TrimStart(s: string): (r: string)
    ensures r == [] || !IsSpace(r[0])
    ensures |r| <= |s| && r == s[|s| - |r|..]
    ensures forall i :: 0 <= i < |s| - |r| ==> IsSpace(s[i])
  {
    if s != [] && IsSpace(s[0]) then TrimStart(s[1..]) else s
  }

  /** Drops the trailing whitespace. */
  function TrimEnd(s: string): (r: string)
    ensures r == [] || !IsSpace(r[|r| - 1])
    ensures r <= s
    ensures forall i :: |r| <= i < |s| ==> IsSpace(s[i])
  {
    if s != [] && IsSpace(s[|s| - 1]) then TrimEnd(s[..|s| - 1]) else s
  }

  /** `String.prototype.trim` */
  function Trim(s: string): string {
    TrimEnd(TrimStart(s))
  }

  /** `s.replace(/\s+/g, ' ')`: every maximal run of whitespace becomes a single space. */
  function Collapse(s: string): string
    decreases |s|
  {
    if s == [] then []
    else if IsSpace(s[0]) then " " + Collapse(TrimStart(s))
    else [s[0]] + Collapse(s[1..])
  }

  /** `cleanText`: collapse the whitespace runs, then trim. */
  function CleanText(s: string): string {
    Trim(Collapse(s))
  }

  // ---------------------------------------------------------------------------
  // The reference view: a text is its list of whitespace-free fields
  // ---------------------------------------------------------------------------

  predicate IsField(w: string) {
    w != [] && forall i :: 0 <= i < |w| ==> !IsSpace(w[i])
  }

  /** The longest whitespace-free prefix. */
  function Word(s: string): (w: string)
    ensures w <= s
    ensures forall i :: 0 <= i < |w| ==> !IsSpace(w[i])
    ensures |w| == |s| || IsSpace(s[|w|])
  {
    if s == [] || IsSpace(s[0]) then [] else [s[0]] + Word(s[1..])
  }

  /** The maximal whitespace-free runs of `s`, in order. */
  function Fields(s: string): (ws: seq<string>)
    ensures forall k :: 0 <= k < |ws| ==> IsField(ws[k])
    decreases |s|
  {
    if s == [] then []
    else if IsSpace(s[0]) then Fields(s[1..])
    else var w := Word(s); [w] + Fields(s[|w|..])
  }

  /** A normalised text: no whitespace at either end, no whitespace other than ' ', and never two
      whitespace characters side by side. */
  predicate Normalized(r: string) {
    && (r == [] || (!IsSpace(r[0]) && !IsSpace(r[|r| - 1])))
    && (forall i :: 0 <= i < |r| && IsSpace(r[i]) ==> r[i] == ' ')
    && (forall i :: 0 <= i < |r| - 1 ==> !IsSpace(r[i]) || !IsSpace(r[i + 1]))
  }

  lemma {:induction false} CollapseField(w: string, rest: string)
    requires forall i :: 0 <= i < |w| ==> !IsSpace(w[i])
    ensures Collapse(w + rest) == w + Collapse(rest)
  {
    if w != [] {
      var s := w + rest;
      assert s[0] == w[0] && s[1..] == w[1..] + rest;
      CollapseField(w[1..], rest);
      ConcatAssoc([w[0]], w[1..], Collapse(rest));
      calc {
        Collapse(s);
        [w[0]] + Collapse(w[1..] + rest);
        [w[0]] + (w[1..] + Collapse(rest));
        [w[0]] + w[1..] + Collapse(rest);
        { assert w == [w[0]] + w[1..]; }
        w + Collapse(rest);
      }
    } else {
      assert w + rest == rest;
    }
  }

  lemma {:induction false} FieldsTrimStart(s: string)
    ensures Fields(TrimStart(s)) == Fields(s)
  {
    if s != [] && IsSpace(s[0]) {
      FieldsTrimStart(s[1..]);
    }
  }

  lemma {:induction false} NoFieldsAllSpace(s: string)
    ensures Fields(s) == [] ==> forall i :: 0 <= i < |s| ==> IsSpace(s[i])
  {
    if s != [] && IsSpace(s[0]) {
      NoFieldsAllSpace(s[1..]);
      assert forall i :: 1 <= i < |s| ==> s[i] == s[1..][i - 1];
    }
  }

  lemma TrimStartSpace(x: string)
    ensures TrimStart(" " + x) == TrimStart(x)
  {
    assert (" " + x)[1..] == x;
  }

  lemma TrimEndSpace(x: string)
    ensures TrimEnd(x + " ") == TrimEnd(x)
  {
    assert (x + " ")[..|x|] == x;
  }

  function Lead(s: string): string {
    if s != [] && IsSpace(s[0]) then " " else ""
  }

  function Tail(s: string): string {
    if Fields(s) != [] && IsSpace(s[|s| - 1]) then " " else ""
  }

  /** Collapsing keeps every field and puts exactly one space between neighbours, plus one space
      at either end where the text had whitespace there. */
  lemma {:induction false} CollapseShape(s: string)
    ensures Collapse(s) == Lead(s) + Join(Fields(s), " ") + Tail(s)
    decreases |s|, 1
  {
    if s == [] {
    } else if IsSpace(s[0]) {
      CollapseShapeSpace(s);
    } else {
      CollapseShapeField(s);
    }
  }

  lemma {:induction false} CollapseShapeSpace(s: string)
    requires s != [] && IsSpace(s[0])
    ensures Collapse(s) == Lead(s) + Join(Fields(s), " ") + Tail(s)
    decreases |s|, 0
  {
    var t := TrimStart(s);
    CollapseShape(t);
    FieldsTrimStart(s);
    var fs := Fields(s);
    if fs != [] {
      assert t != [];
      assert t[|t| - 1] == s[|s| - 1];
    }
    var j, tl := Join(fs, " "), Tail(s);
    var c := Collapse(t);
    assert Lead(t) == [];
    assert Tail(t) == tl;
    assert c == j + tl by {
      assert c == [] + j + tl;
      assert [] + j == j;
    }
    assert Collapse(s) == " " + c;
    assert Lead(s) == " ";
    ConcatAssoc(" ", j, tl);
  }

  lemma ConcatAssoc(a: string, b: string, c: string)
    ensures a + (b + c) == a + b + c
  {
  }

  lemma {:induction false} CollapseShapeField(s: string)
    requires s != [] && !IsSpace(s[0])
    ensures Collapse(s) == Lead(s) + Join(Fields(s), " ") + Tail(s)
    decreases |s|, 0
  {
    var w := Word(s);
    var rest := s[|w|..];
    assert s == w + rest;
    CollapseField(w, rest);
    CollapseShape(rest);
    assert Fields(s) == [w] + Fields(rest);
    assert Lead(s) == "";
    if rest == [] {
      LastFieldAtEnd(s, w);
    } else if Fields(rest) == [] {
      SpacesAfterLastField(s, w, rest);
    } else {
      FieldThenMore(s, w, rest);
    }
  }

  lemma LastFieldAtEnd(s: string, w: string)
    requires w == Word(s) && s == w && s != []
    requires Fields(s) == [w] + Fields([])
    ensures Collapse(s) == w + Collapse([])
    ensures Join(Fields(s), " ") == w && Tail(s) == ""
  {
    assert Collapse(w) == Collapse(w + []) by { assert w + [] == w; }
    CollapseField(w, []);
  }

  lemma SpacesAfterLastField(s: string, w: string, rest: string)
    requires s == w + rest && w != [] && !IsSpace(s[0]) && rest != [] && IsSpace(rest[0])
    requires Fields(s) == [w] + Fields(rest) && Fields(rest) == []
    requires Collapse(s) == w + Collapse(rest)
    requires Collapse(rest) == Lead(rest) + Join(Fields(rest), " ") + Tail(rest)
    ensures Collapse(s) == Lead(s) + Join(Fields(s), " ") + Tail(s)
  {
    assert Tail(s) == " " by {
      NoFieldsAllSpace(rest);
      assert s[|s| - 1] == rest[|rest| - 1];
    }
    assert Collapse(rest) == " " by {
      assert Lead(rest) == " " && Tail(rest) == "" && Join(Fields(rest), " ") == "";
    }
    assert Join(Fields(s), " ") == w by {
      assert Fields(s) == [w];
    }
    assert Lead(s) == "";
  }

  lemma FieldThenMore(s: string, w: string, rest: string)
    requires s == w + rest && w != [] && !IsSpace(s[0]) && rest != [] && IsSpace(rest[0])
    requires Fields(s) == [w] + Fields(rest) && Fields(rest) != []
    requires Collapse(s) == w + Collapse(rest)
    requires Collapse(rest) == Lead(rest) + Join(Fields(rest), " ") + Tail(rest)
    ensures Collapse(s) == Lead(s) + Join(Fields(s), " ") + Tail(s)
  {
    var fs, tl := Fields(rest), Tail(s);
    assert s[|s| - 1] == rest[|rest| - 1];
    assert Tail(rest) == tl && Lead(rest) == " " && Lead(s) == "";
    assert ([w] + fs)[1..] == fs;
    var jf := Join(fs, " ");
    assert Join(Fields(s), " ") == w + " " + jf;
    assert Collapse(rest) == " " + jf + tl;
    ConcatAssoc(w, " " + jf, tl);
    ConcatAssoc(w, " ", jf);
    assert Collapse(s) == w + " " + jf + tl;
    assert Lead(s) + (w + " " + jf) == w + " " + jf;
  }

  lemma {:induction false} JoinFieldsNormalized(ws: seq<string>)
    requires forall k :: 0 <= k < |ws| ==> IsField(ws[k])
    ensures ws == [] <==> Join(ws, " ") == []
    ensures Normalized(Join(ws, " "))
  {
    if |ws| == 1 {
    } else if |ws| > 1 {
      var w, j := ws[0], Join(ws[1..], " ");
      JoinFieldsNormalized(ws[1..]);
      var r := w + " " + j;
      assert Join(ws, " ") == r;
      assert r[|r| - 1] == j[|j| - 1];
      forall i | 0 <= i < |r| && IsSpace(r[i])
        ensures r[i] == ' '
      {
        if i > |w| { assert r[i] == j[i - |w| - 1]; }
      }
      forall i | 0 <= i < |r| - 1
        ensures !IsSpace(r[i]) || !IsSpace(r[i + 1])
      {
        if i > |w| {
          assert r[i] == j[i - |w| - 1] && r[i + 1] == j[i - |w|];
        } else if i == |w| {
          assert r[i + 1] == j[0];
        }
      }
    }
  }

  /** `cleanText` against its reference: the fields of the text separated by single spaces. */
  lemma CleanTextIsJoinedFields(s: string)
    ensures CleanText(s) == Join(Fields(s), " ")
  {
    var j := Join(Fields(s), " ");
    CollapseShape(s);
    JoinFieldsNormalized(Fields(s));
    TrimPadded(Lead(s), j, Tail(s));
  }

  /** Trimming removes at most one padding space on either side of a normalised text. */
  lemma TrimPadded(lead: string, j: string, tail: string)
    requires lead == "" || lead == " "
    requires tail == "" || tail == " "
    requires Normalized(j) && (j == [] ==> tail == "")
    ensures Trim(lead + j + tail) == j
  {
    var t := j + tail;
    assert lead + j + tail == lead + t;
    if lead == " " {
      TrimStartSpace(t);
    } else {
      assert lead + t == t;
    }
    assert TrimStart(t) == t;
    if tail == " " {
      TrimEndSpace(j);
    } else {
      assert t == j;
    }
  }

  /** The result of `cleanText` is normalised and has the same fields as its input. */
  lemma CleanTextNormalized(s: string)
    ensures Normalized(CleanText(s))
    ensures Fields(CleanText(s)) == Fields(s)
  {
    CleanTextIsJoinedFields(s);
    JoinFieldsNormalized(Fields(s));
    FieldsOfJoin(Fields(s));
  }

  lemma {:induction false} WordOfField(w: string, rest: string)
    requires forall i :: 0 <= i < |w| ==> !IsSpace(w[i])
    requires rest == [] || IsSpace(rest[0])
    ensures Word(w + rest) == w
  {
    if w != [] {
      assert (w + rest)[1..] == w[1..] + rest;
      WordOfField(w[1..], rest);
    }
  }

  /** Splitting a space-joined list of fields gives the list back. */
  lemma {:induction false} FieldsOfJoin(ws: seq<string>)
    requires forall k :: 0 <= k < |ws| ==> IsField(ws[k])
    ensures Fields(Join(ws, " ")) == ws
  {
    if |ws| == 1 {
      var w := ws[0];
      WordOfField(w, []);
      assert w + [] == w;
      assert w[|w|..] == [];
      assert Fields(w) == [w] + Fields([]);
    } else if |ws| > 1 {
      var w, j := ws[0], Join(ws[1..], " ");
      var s := w + " " + j;
      assert s == w + (" " + j);
      WordOfField(w, " " + j);
      assert s[|w|..] == " " + j;
      assert (" " + j)[1..] == j;
      FieldsOfJoin(ws[1..]);
    }
  }

  /** Applying `cleanText` twice is the same as applying it once. */
  lemma CleanTextIdempotent(s: string)
    ensures CleanText(CleanText(s)) == CleanText(s)
  {
    CleanTextNormalized(s);
    CleanTextIsJoinedFields(CleanText(s));
    CleanTextIsJoinedFields(s);
  }

  /** A normalised text is determined by its fields, so the result of `cleanText` is the only
      normalised text with the fields of the input. */
  lemma {:induction false} NormalizedIsJoinedFields(r: string)
    requires Normalized(r)
    ensures r == Join(Fields(r), " ")
    decreases |r|
  {
    if r != [] {
      var w := Word(r);
      var rest := r[|w|..];
      assert r == w + rest;
      assert Fields(r) == [w] + Fields(rest);
      if rest != [] {
        assert rest[0] == r[|w|];
        assert |w| > 0;
        assert |w| + 1 < |r|;
        var tail := rest[1..];
        assert tail == r[|w| + 1..];
        assert Normalized(tail) by {
          forall i | 0 <= i < |tail| - 1
            ensures !IsSpace(tail[i]) || !IsSpace(tail[i + 1])
          {
            assert tail[i] == r[|w| + 1 + i] && tail[i + 1] == r[|w| + 2 + i];
          }
          assert tail[|tail| - 1] == r[|r| - 1];
        }
        NormalizedIsJoinedFields(tail);
        assert Fields(rest) == Fields(tail);
        assert tail != [] && !IsSpace(tail[0]);
        assert Fields(tail) != [];
        assert rest == " " + tail;
        assert ([w] + Fields(tail))[1..] == Fields(tail);
      } else {
        assert Fields(rest) == [];
      }
    }
  }

  // ---------------------------------------------------------------------------
  // Word counting
  // ---------------------------------------------------------------------------

  /** The end of the run of letters that starts at `i`. */
  function RunEnd(s: string, isLetter: char -> bool, i: nat): (j: nat)
    requires i <= |s|
    ensures i <= j <= |s|
    ensures forall k :: i <= k < j ==> isLetter(s[k])
    ensures j == |s| || !isLetter(s[j])
    decreases |s| - i
  {
    if i < |s| && isLetter(s[i]) then RunEnd(s, isLetter, i + 1) else i
  }

  /** Matches of the global pattern `/\p{L}+/g` found from position `i` on: skip to the next
      letter, consume the whole run of letters, and search again after it. */
  function MatchesFrom(s: string, isLetter: char -> bool, i: nat): nat
    requires i <= |s|
    decreases |s| - i
  {
    if i == |s| then 0
    else if !isLetter(s[i]) then MatchesFrom(s, isLetter, i + 1)
    else 1 + MatchesFrom(s, isLetter, RunEnd(s, isLetter, i))
  }

  /** The match count inside `countWords`: 0 for the empty text, otherwise the number of matches
      of `/\p{L}+/g`, on a text already lower-cased (the analysis lower-cases the raw body
      first). `isLetter` stands for the Unicode property `\p{L}`. */
  function CountWords(text: string, isLetter: char -> bool): nat {
    if text == [] then 0 else MatchesFrom(text, isLetter, 0)
  }

  /** Position `i` starts a maximal run of letters. */
  predicate RunStart(s: string, isLetter: char -> bool, i: int) {
    0 <= i < |s| && isLetter(s[i]) && (i == 0 || !isLetter(s[i - 1]))
  }

  /** The number of positions at or after `i` where a run of letters starts. */
  function RunStartsFrom(s: string, isLetter: char -> bool, i: nat): nat
    requires i <= |s|
    decreases |s| - i
  {
    if i == |s| then 0
    else (if RunStart(s, isLetter, i) then 1 else 0) + RunStartsFrom(s, isLetter, i + 1)
  }

  lemma {:induction false} NoStartInsideRun(s: string, isLetter: char -> bool, k: nat, e: nat)
    requires 0 < k <= e <= |s|
    requires forall m :: k - 1 <= m < e ==> isLetter(s[m])
    ensures RunStartsFrom(s, isLetter, k) == RunStartsFrom(s, isLetter, e)
    decreases e - k
  {
    if k < e {
      assert !RunStart(s, isLetter, k);
      NoStartInsideRun(s, isLetter, k + 1, e);
    }
  }

  lemma {:induction false} MatchesAreRunStarts(s: string, isLetter: char -> bool, i: nat)
    requires i <= |s|
    requires i == 0 || i == |s| || !isLetter(s[i - 1]) || !isLetter(s[i])
    ensures MatchesFrom(s, isLetter, i) == RunStartsFrom(s, isLetter, i)
    decreases |s| - i
  {
    if i < |s| {
      if !isLetter(s[i]) {
        MatchesAreRunStarts(s, isLetter, i + 1);
      } else {
        var e := RunEnd(s, isLetter, i);
        assert RunStart(s, isLetter, i);
        NoStartInsideRun(s, isLetter, i + 1, e);
        MatchesAreRunStarts(s, isLetter, e);
      }
    }
  }

  /** `countWords` counts exactly the maximal runs of letters. */
  lemma CountWordsIsRunCount(text: string, isLetter: char -> bool)
    ensures CountWords(text, isLetter) == RunStartsFrom(text, isLetter, 0)
  {
    MatchesAreRunStarts(text, isLetter, 0);
  }

  lemma {:induction false} NoMatchIffNoLetter(s: string, isLetter: char -> bool, i: nat)
    requires i <= |s|
    ensures MatchesFrom(s, isLetter, i) == 0 <==> forall k :: i <= k < |s| ==> !isLetter(s[k])
    decreases |s| - i
  {
    if i < |s| && !isLetter(s[i]) {
      NoMatchIffNoLetter(s, isLetter, i + 1);
    }
  }

  /** The word count is zero exactly when the text holds no letter (the empty text included). */
  lemma NoWordsIffNoLetters(text: string, isLetter: char -> bool)
    ensures CountWords(text, isLetter) == 0 <==> forall k :: 0 <= k < |text| ==> !isLetter(text[k])
  {
    NoMatchIffNoLetter(text, isLetter, 0);
  }
}
