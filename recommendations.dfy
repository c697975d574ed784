/** The recommendation list: a fixed, ordered table of condition-to-message rules over the same
    signals the scorer reads, and the top-three summary built from it. */
module Recommendations {
  import opened Common
  import opened Scorer

  /** The recommendation rules, one per `rec.push`. */
  datatype Advice =
    | KeywordInTitle | KeywordInH1 | KeywordInMeta | LongerContent | AdjustDensity
    | AddAltText | DefineCanonical | AddOpenGraph | FixBrokenLinks

  /** The rules in declaration order. */
  const Advices: seq<Advice> := [
    KeywordInTitle, KeywordInH1, KeywordInMeta, LongerContent, AdjustDensity,
    AddAltText, DefineCanonical, AddOpenGraph, FixBrokenLinks]

  /** The position of a rule in the declaration order. */
  function Rank(a: Advice): nat {
    match a
    case KeywordInTitle => 0
    case KeywordInH1 => 1
    case KeywordInMeta => 2
    case LongerContent => 3
    case AdjustDensity => 4
    case AddAltText => 5
    case DefineCanonical => 6
    case AddOpenGraph => 7
    case FixBrokenLinks => 8
  }

  /** The condition under which a rule's message is pushed. */
  predicate Fires(a: Advice, sig: Signals) {
    match a
    case KeywordInTitle => !sig.titleHasKW
    case KeywordInH1 => !sig.h1HasKW
    case KeywordInMeta => !sig.metaDescriptionHasKW
    case LongerContent => sig.wordCount < 800
    case AdjustDensity => sig.keywordDensity < 0.5 || sig.keywordDensity > 2.5
    case AddAltText => sig.imagesMissingAlt > 0
    case DefineCanonical => sig.canonical == ""
    case AddOpenGraph => !sig.openGraphPresent
    case FixBrokenLinks => sig.linksQuebrados > 0
  }

  /** The message each rule pushes, verbatim. */
  function Message(a: Advice): string {
    match a
    case KeywordInTitle => "Inclua a palavra-chave no t\U{ED}tulo (45\U{2013}65 caracteres)."
    case KeywordInH1 => "Inclua a palavra-chave no H1."
    case KeywordInMeta => "Inclua a palavra-chave na meta description (120\U{2013}170 caracteres)."
    case LongerContent => "Amplie o conte\U{FA}do para pelo menos 800\U{2013}1200 palavras."
    case AdjustDensity => "Ajuste a densidade da palavra\U{2011}chave para ~0,5%\U{2013}2,5%."
    case AddAltText => "Adicione atributos ALT descritivos \U{E0}s imagens."
    case DefineCanonical => "Defina uma tag canonical."
    case AddOpenGraph => "Implemente meta tags Open Graph."
    case FixBrokenLinks => "Corrija links quebrados e revise redirecionamentos."
  }

  /** The rule itself if its condition holds, else nothing. */
  function Fired(a: Advice, sig: Signals): seq<Advice> {
    if Fires(a, sig) then [a] else []
  }

  /** The rules of a list whose condition holds, in list order (the last rule of the list is
      evaluated last). */
  function Triggered(advs: seq<Advice>, sig: Signals): seq<Advice> {
    if advs == [] then [] else Triggered(advs[..|advs| - 1], sig) + Fired(advs[|advs| - 1], sig)
  }

  function Messages(advs: seq<Advice>): seq<string> {
    if advs == [] then [] else [Message(advs[0])] + Messages(advs[1..])
  }

  /** The recommendation list the rule table defines: the messages of the rules that fire, in
      declaration order. */
  function Recommendations(sig: Signals): seq<string> {
    Messages(Triggered(Advices, sig))
  }

  lemma {:induction false} MessagesAppend(a: seq<Advice>, b: seq<Advice>)
    ensures Messages(a + b) == Messages(a) + Messages(b)
  {
    if a == [] {
      assert a + b == b;
    } else {
      assert (a + b)[1..] == a[1..] + b;
      MessagesAppend(a[1..], b);
    }
  }

  /** Pushing the message of one more rule. */
  lemma Push(fired: seq<Advice>, a: Advice)
    ensures Messages(fired + [a]) == Messages(fired) + [Message(a)]
  {
    MessagesAppend(fired, [a]);
  }

  /** Evaluating one more rule at the end of a list. */
  lemma TriggeredSnoc(advs: seq<Advice>, a: Advice, sig: Signals)
    ensures Triggered(advs + [a], sig) == Triggered(advs, sig) + Fired(a, sig)
  {
    assert (advs + [a])[..|advs|] == advs;
  }

  /** The rule table, rule by rule. */
  lemma TriggeredOfTable(sig: Signals)
    ensures Triggered(Advices, sig) ==
      [] + Fired(KeywordInTitle, sig) + Fired(KeywordInH1, sig) + Fired(KeywordInMeta, sig)
      + Fired(LongerContent, sig) + Fired(AdjustDensity, sig) + Fired(AddAltText, sig)
      + Fired(DefineCanonical, sig) + Fired(AddOpenGraph, sig) + Fired(FixBrokenLinks, sig)
  {
    var t0: seq<Advice> := [];
    var t1 := t0 + [KeywordInTitle];
    var t2 := t1 + [KeywordInH1];
    var t3 := t2 + [KeywordInMeta];
    var t4 := t3 + [LongerContent];
    var t5 := t4 + [AdjustDensity];
    var t6 := t5 + [AddAltText];
    var t7 := t6 + [DefineCanonical];
    var t8 := t7 + [AddOpenGraph];
    assert Advices == t8 + [FixBrokenLinks];
    TriggeredSnoc(t0, KeywordInTitle, sig);
    TriggeredSnoc(t1, KeywordInH1, sig);
    TriggeredSnoc(t2, KeywordInMeta, sig);
    TriggeredSnoc(t3, LongerContent, sig);
    TriggeredSnoc(t4, AdjustDensity, sig);
    TriggeredSnoc(t5, AddAltText, sig);
    TriggeredSnoc(t6, DefineCanonical, sig);
    TriggeredSnoc(t7, AddOpenGraph, sig);
    TriggeredSnoc(t8, FixBrokenLinks, sig);
  }

  /** The three keyword-placement rules. `fired` lists the rules pushed so far and `rec` holds their messages. */
  method AdviseKeywords(sig: Signals, rec0: seq<string>, ghost fired0: seq<Advice>)
    returns (rec: seq<string>, ghost fired: seq<Advice>)
    requires rec0 == Messages(fired0)
    ensures rec == Messages(fired)
    ensures fired == fired0 + Fired(KeywordInTitle, sig) + Fired(KeywordInH1, sig) + Fired(KeywordInMeta, sig)
  {
    rec, fired := rec0, fired0;
    if !sig.titleHasKW {
      Push(fired, KeywordInTitle);
      rec := rec + [Message(KeywordInTitle)];
    } else {
      assert fired + [] == fired;
    }
    fired := fired + Fired(KeywordInTitle, sig);
    if !sig.h1HasKW {
      Push(fired, KeywordInH1);
      rec := rec + [Message(KeywordInH1)];
    } else {
      assert fired + [] == fired;
    }
    fired := fired + Fired(KeywordInH1, sig);
    if !sig.metaDescriptionHasKW {
      Push(fired, KeywordInMeta);
      rec := rec + [Message(KeywordInMeta)];
    } else {
      assert fired + [] == fired;
    }
    fired := fired + Fired(KeywordInMeta, sig);
  }

  /** The word-count, density and alt-text rules. `fired` lists the rules pushed so far and `rec` holds their messages. */
  method AdviseContent(sig: Signals, rec0: seq<string>, ghost fired0: seq<Advice>)
    returns (rec: seq<string>, ghost fired: seq<Advice>)
    requires rec0 == Messages(fired0)
    ensures rec == Messages(fired)
    ensures fired == fired0 + Fired(LongerContent, sig) + Fired(AdjustDensity, sig) + Fired(AddAltText, sig)
  {
    rec, fired := rec0, fired0;
    if sig.wordCount < 800 {
      Push(fired, LongerContent);
      rec := rec + [Message(LongerContent)];
    } else {
      assert fired + [] == fired;
    }
    fired := fired + Fired(LongerContent, sig);
    if sig.keywordDensity < 0.5 || sig.keywordDensity > 2.5 {
      Push(fired, AdjustDensity);
      rec := rec + [Message(AdjustDensity)];
    } else {
      assert fired + [] == fired;
    }
    fired := fired + Fired(AdjustDensity, sig);
    if sig.imagesMissingAlt > 0 {
      Push(fired, AddAltText);
      rec := rec + [Message(AddAltText)];
    } else {
      assert fired + [] == fired;
    }
    fired := fired + Fired(AddAltText, sig);
  }

  /** The canonical, Open Graph and broken-link rules. `fired` lists the rules pushed so far and `rec` holds their messages. */
  method AdviseMarkupAndLinks(sig: Signals, rec0: seq<string>, ghost fired0: seq<Advice>)
    returns (rec: seq<string>, ghost fired: seq<Advice>)
    requires rec0 == Messages(fired0)
    ensures rec == Messages(fired)
    ensures fired == fired0 + Fired(DefineCanonical, sig) + Fired(AddOpenGraph, sig) + Fired(FixBrokenLinks, sig)
  {
    rec, fired := rec0, fired0;
    if sig.canonical == "" {
      Push(fired, DefineCanonical);
      rec := rec + [Message(DefineCanonical)];
    } else {
      assert fired + [] == fired;
    }
    fired := fired + Fired(DefineCanonical, sig);
    if !sig.openGraphPresent {
      Push(fired, AddOpenGraph);
      rec := rec + [Message(AddOpenGraph)];
    } else {
      assert fired + [] == fired;
    }
    fired := fired + Fired(AddOpenGraph, sig);
    if sig.linksQuebrados > 0 {
      Push(fired, FixBrokenLinks);
      rec := rec + [Message(FixBrokenLinks)];
    } else {
      assert fired + [] == fired;
    }
    fired := fired + Fired(FixBrokenLinks, sig);
  }

  /** The recommendation block: one `rec.push` per rule whose condition holds, in declaration
      order. */
  method Recommend(sig: Signals) returns (rec: seq<string>)
    ensures rec == Recommendations(sig)
  {
    ghost var fired: seq<Advice>;
    rec, fired := AdviseKeywords(sig, [], []);
    rec, fired := AdviseContent(sig, rec, fired);
    rec, fired := AdviseMarkupAndLinks(sig, rec, fired);
    TriggeredOfTable(sig);
  }
  // ---------------------------------------------------------------------------
  // Properties of the recommendation list
  // ---------------------------------------------------------------------------

  /** A rule is among the triggered ones exactly when it is in the list and fires. */
  lemma {:induction false} TriggeredMembers(advs: seq<Advice>, a: Advice, sig: Signals)
    ensures a in Triggered(advs, sig) <==> a in advs && Fires(a, sig)
  {
    if advs != [] {
      var init := advs[..|advs| - 1];
      TriggeredMembers(init, a, sig);
      assert advs == init + [advs[|advs| - 1]];
    }
  }

  /** Triggering keeps a list's order: it picks a subsequence. */
  lemma {:induction false} TriggeredIncreasing(advs: seq<Advice>, sig: Signals)
    requires forall i, j :: 0 <= i < j < |advs| ==> Rank(advs[i]) < Rank(advs[j])
    ensures |Triggered(advs, sig)| <= |advs|
    ensures forall i, j :: 0 <= i < j < |Triggered(advs, sig)| ==>
      Rank(Triggered(advs, sig)[i]) < Rank(Triggered(advs, sig)[j])
  {
    if advs != [] {
      var init, last := advs[..|advs| - 1], advs[|advs| - 1];
      TriggeredIncreasing(init, sig);
      var t := Triggered(init, sig);
      forall k | 0 <= k < |t|
        ensures Rank(t[k]) < Rank(last)
      {
        TriggeredMembers(init, t[k], sig);
        var m :| 0 <= m < |init| && init[m] == t[k];
      }
    }
  }

  /** Every rule is in the table, and the table lists the rules by rank. */
  lemma TableInRankOrder()
    ensures forall a :: a in Advices
    ensures forall i :: 0 <= i < |Advices| ==> Rank(Advices[i]) == i
  {
    forall i | 0 <= i < |Advices|
      ensures Rank(Advices[i]) == i
    {
      if i < 3 {
      } else if i < 6 {
      } else {
      }
    }
    forall a
      ensures a in Advices
    {
      assert Advices[Rank(a)] == a;
    }
  }

  /** The messages of a list of rules, position by position. */
  lemma {:induction false} MessagesAt(advs: seq<Advice>)
    ensures |Messages(advs)| == |advs|
    ensures forall i :: 0 <= i < |advs| ==> Messages(advs)[i] == Message(advs[i])
  {
    if advs != [] {
      MessagesAt(advs[1..]);
    }
  }

  /** What tells the messages apart: their length and their next-to-last character. */
  function Signature(a: Advice): (nat, char) {
    match a
    case KeywordInTitle => (52, ')')
    case KeywordInH1 => (29, '1')
    case KeywordInMeta => (64, ')')
    case LongerContent => (52, 's')
    case AdjustDensity => (52, '%')
    case AddAltText => (46, 's')
    case DefineCanonical => (25, 'l')
    case AddOpenGraph => (32, 'h')
    case FixBrokenLinks => (51, 's')
  }

  lemma SignatureOfMessage(a: Advice)
    ensures |Message(a)| >= 2 && Signature(a) == (|Message(a)|, Message(a)[|Message(a)| - 2])
  {
    match a
    case KeywordInTitle =>
    case KeywordInH1 =>
    case KeywordInMeta =>
    case LongerContent =>
    case AdjustDensity =>
    case AddAltText =>
    case DefineCanonical =>
    case AddOpenGraph =>
    case FixBrokenLinks =>
  }

  /** Different rules push different messages. */
  lemma MessageInjective(a: Advice, b: Advice)
    requires a != b
    ensures Message(a) != Message(b)
  {
    SignatureOfMessage(a);
    SignatureOfMessage(b);
    assert Signature(a) != Signature(b);
  }

  /** The list holds the messages of the rules that fire, one each, in declaration order, so
      it has at most nine entries. */
  lemma RecommendationsInOrder(sig: Signals)
    ensures |Recommendations(sig)| == |Triggered(Advices, sig)| <= 9
    ensures forall i :: 0 <= i < |Recommendations(sig)| ==>
      Recommendations(sig)[i] == Message(Triggered(Advices, sig)[i])
    ensures forall i, j :: 0 <= i < j < |Triggered(Advices, sig)| ==>
      Rank(Triggered(Advices, sig)[i]) < Rank(Triggered(Advices, sig)[j])
  {
    TableInRankOrder();
    TriggeredIncreasing(Advices, sig);
    MessagesAt(Triggered(Advices, sig));
  }

  /** A message in the list belongs to a rule that fires. */
  lemma RecommendationSound(sig: Signals, a: Advice)
    requires Message(a) in Recommendations(sig)
    ensures Fires(a, sig)
  {
    var t := Triggered(Advices, sig);
    MessagesAt(t);
    var i :| 0 <= i < |t| && Recommendations(sig)[i] == Message(a);
    if t[i] != a {
      MessageInjective(t[i], a);
    }
    TriggeredMembers(Advices, a, sig);
  }

  /** A rule that fires has its message in the list. */
  lemma RecommendationComplete(sig: Signals, a: Advice)
    requires Fires(a, sig)
    ensures Message(a) in Recommendations(sig)
  {
    var t := Triggered(Advices, sig);
    TableInRankOrder();
    TriggeredMembers(Advices, a, sig);
    MessagesAt(t);
    var i :| 0 <= i < |t| && t[i] == a;
    assert Recommendations(sig)[i] == Message(a);
  }

  /** A rule's message is in the list exactly when its condition holds. */
  lemma RecommendationIff(sig: Signals, a: Advice)
    ensures Message(a) in Recommendations(sig) <==> Fires(a, sig)
  {
    if Message(a) in Recommendations(sig) {
      RecommendationSound(sig, a);
    }
    if Fires(a, sig) {
      RecommendationComplete(sig, a);
    }
  }

  /** No message appears twice. */
  lemma RecommendationsDistinct(sig: Signals)
    ensures NoDuplicates(Recommendations(sig))
  {
    var t := Triggered(Advices, sig);
    RecommendationsInOrder(sig);
    forall i, j | 0 <= i < j < |t|
      ensures Recommendations(sig)[i] != Recommendations(sig)[j]
    {
      MessageInjective(t[i], t[j]);
    }
  }

  // ---------------------------------------------------------------------------
  // The top-three summary
  // ---------------------------------------------------------------------------

  /** `rec.slice(0, 3).join(' | ')` */
  function Summary(rec: seq<string>): string {
    Join(rec[..if |rec| < 3 then |rec| else 3], " | ")
  }

  /** The summary, case by case: empty, the only message, or the first two or three joined. */
  lemma SummaryCases(rec: seq<string>)
    ensures |rec| == 0 ==> Summary(rec) == ""
    ensures |rec| == 1 ==> Summary(rec) == rec[0]
    ensures |rec| == 2 ==> Summary(rec) == rec[0] + " | " + rec[1]
    ensures |rec| >= 3 ==> Summary(rec) == rec[0] + " | " + rec[1] + " | " + rec[2]
  {
    var top := rec[..if |rec| < 3 then |rec| else 3];
    JoinSmall(top, " | ");
  }

  /** Joining a prefix of the parts gives a prefix of the joined whole. */
  lemma {:induction false} JoinPrefix(parts: seq<string>, sep: string, k: nat)
    requires k <= |parts|
    ensures Join(parts[..k], sep) <= Join(parts, sep)
  {
    if k > 0 && |parts| > 1 {
      if k == 1 {
        assert parts[..1] == [parts[0]];
      } else {
        JoinPrefix(parts[1..], sep, k - 1);
        assert parts[..k][1..] == parts[1..][..k - 1];
        var rest, full := Join(parts[1..][..k - 1], sep), Join(parts[1..], sep);
        assert Join(parts[..k], sep) == parts[0] + sep + rest;
        assert full[..|rest|] == rest;
        assert (parts[0] + sep + full)[..|parts[0] + sep + rest|] == parts[0] + sep + rest;
      }
    } else if k > 0 {
      assert parts[..k] == parts;
    }
  }

  /** The summary starts the full list joined the same way. */
  lemma SummaryIsPrefix(rec: seq<string>)
    ensures Summary(rec) <= Join(rec, " | ")
  {
    JoinPrefix(rec, " | ", if |rec| < 3 then |rec| else 3);
  }

  // ---------------------------------------------------------------------------
  // Recommendations against score rules
  // ---------------------------------------------------------------------------

  /** Seven recommendations fire exactly when their score rule withholds its points. */
  lemma PairedWithScoreRules(sig: Signals)
    ensures Fires(KeywordInTitle, sig) <==> !Holds(TitleHasKeyword, sig)
    ensures Fires(KeywordInH1, sig) <==> !Holds(H1HasKeyword, sig)
    ensures Fires(KeywordInMeta, sig) <==> !Holds(MetaHasKeyword, sig)
    ensures Fires(AdjustDensity, sig) <==> !Holds(DensityInRange, sig)
    ensures Fires(AddAltText, sig) <==> !Holds(AllImagesHaveAlt, sig)
    ensures Fires(DefineCanonical, sig) <==> !Holds(HasCanonical, sig)
    ensures Fires(AddOpenGraph, sig) <==> !Holds(HasOpenGraph, sig)
  {
  }

  /** The content rule is stricter than the score's: under 500 words the advice always fires,
      and it still fires between 500 and 799 words, where the points are awarded. */
  lemma ContentAdviceStricter(sig: Signals)
    ensures !Holds(LongContent, sig) ==> Fires(LongerContent, sig)
    ensures 500 <= sig.wordCount < 800 ==> Holds(LongContent, sig) && Fires(LongerContent, sig)
  {
  }
}
