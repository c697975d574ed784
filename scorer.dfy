/** The scorer: a fixed table of additive rules over the aggregated page signals, clamped to
    0..100. */
module Scorer {
  import opened Common

  /** The fields of the final report that the score and the recommendations read. */
  datatype Signals = Signals(
    titleHasKW: bool,
    h1HasKW: bool,
    urlHasKW: bool,
    metaDescriptionHasKW: bool,
    titleLength: nat,
    metaDescriptionLength: nat,
    wordCount: nat,
    keywordDensity: real,
    imagesMissingAlt: nat,
    h2Count: nat,
    h3Count: nat,
    canonical: string,
    robotsMeta: string,
    schemaOrgPresent: bool,
    openGraphPresent: bool,
    linksInternos: nat,
    linksExternos: nat,
    linksNofollow: nat,
    linksQuebrados: nat)

  /** The scoring rules, one per `if` of `score`. */
  datatype Rule =
    | TitleHasKeyword | H1HasKeyword | UrlHasKeyword | MetaHasKeyword
    | TitleLengthInRange | MetaLengthInRange | LongContent | DensityInRange
    | AllImagesHaveAlt | HasSubheadings | HasCanonical | RobotsAllowIndexing
    | HasStructuredData | HasOpenGraph | ManyInternalLinks | HasExternalLinks
    | NofollowRateInRange

  /** The rules in the order `score` evaluates them. */
  const Rules: seq<Rule> := [
    TitleHasKeyword, H1HasKeyword, UrlHasKeyword, MetaHasKeyword,
    TitleLengthInRange, MetaLengthInRange, LongContent, DensityInRange,
    AllImagesHaveAlt, HasSubheadings, HasCanonical, RobotsAllowIndexing,
    HasStructuredData, HasOpenGraph, ManyInternalLinks, HasExternalLinks,
    NofollowRateInRange]

  function Weight(r: Rule): nat {
    match r
    case TitleHasKeyword => 12
    case H1HasKeyword => 10
    case UrlHasKeyword => 6
    case MetaHasKeyword => 6
    case TitleLengthInRange => 8
    case MetaLengthInRange => 6
    case LongContent => 8
    case DensityInRange => 6
    case AllImagesHaveAlt => 6
    case HasSubheadings => 6
    case HasCanonical => 6
    case RobotsAllowIndexing => 4
    case HasStructuredData => 4
    case HasOpenGraph => 4
    case ManyInternalLinks => 6
    case HasExternalLinks => 4
    case NofollowRateInRange => 4
  }

  predicate InRange(v: int, a: int, b: int) {
    a <= v <= b
  }

  /** `/(noindex|nofollow)/i.test(robotsMeta)`. The needles are ASCII, and a case-insensitive
      regex without the `u` flag never folds a non-ASCII character to an ASCII one, so ASCII
      lower-casing decides the test. */
  predicate BlocksRobots(robotsMeta: string) {
    Contains(Lower(robotsMeta), "noindex") || Contains(Lower(robotsMeta), "nofollow")
  }

  /** `linksExternos ? (linksNofollow / Math.max(1, linksExternos)) * 100 : 0`. The numerator
      counts the nofollow links among all links, internal ones included. */
  function NofollowRate(sig: Signals): real {
    if sig.linksExternos == 0 then 0.0
    else (sig.linksNofollow as real / sig.linksExternos as real) * 100.0
  }

  /** The condition of each rule. */
  predicate Holds(r: Rule, sig: Signals) {
    match r
    case TitleHasKeyword => sig.titleHasKW
    case H1HasKeyword => sig.h1HasKW
    case UrlHasKeyword => sig.urlHasKW
    case MetaHasKeyword => sig.metaDescriptionHasKW
    case TitleLengthInRange => InRange(sig.titleLength, 45, 65)
    case MetaLengthInRange => InRange(sig.metaDescriptionLength, 120, 170)
    case LongContent => sig.wordCount >= 500
    case DensityInRange => 0.5 <= sig.keywordDensity <= 2.5
    case AllImagesHaveAlt => sig.imagesMissingAlt == 0
    case HasSubheadings => sig.h2Count + sig.h3Count > 0
    case HasCanonical => sig.canonical != ""
    case RobotsAllowIndexing => !BlocksRobots(sig.robotsMeta)
    case HasStructuredData => sig.schemaOrgPresent
    case HasOpenGraph => sig.openGraphPresent
    case ManyInternalLinks => sig.linksInternos >= 10
    case HasExternalLinks => sig.linksExternos >= 1
    case NofollowRateInRange => 20.0 <= NofollowRate(sig) <= 90.0
  }

  function Contribution(r: Rule, sig: Signals): nat {
    if Holds(r, sig) then Weight(r) else 0
  }

  /** The points a list of rules awards. */
  function Points(rules: seq<Rule>, sig: Signals): nat {
    if rules == [] then 0 else Contribution(rules[0], sig) + Points(rules[1..], sig)
  }

  /** `Math.max(0, Math.min(100, Math.round(s)))` on an integer `s`. */
  function Clamp(x: int): (r: int)
    ensures 0 <= r <= 100
    ensures 0 <= x <= 100 ==> r == x
    ensures x > 100 ==> r == 100
    ensures x < 0 ==> r == 0
  {
    if x < 0 then 0 else if x > 100 then 100 else x
  }

  /** The score the rule table defines. */
  function ScoreOf(sig: Signals): int {
    Clamp(Points(Rules, sig))
  }

  /** Four rules in front of a list add their contributions one by one. */
  lemma PointsOfFour(a: Rule, b: Rule, c: Rule, d: Rule, rest: seq<Rule>, sig: Signals)
    ensures Points([a, b, c, d] + rest, sig) ==
      Contribution(a, sig) + Contribution(b, sig) + Contribution(c, sig) + Contribution(d, sig)
      + Points(rest, sig)
  {
    var s1, s2, s3 := [b, c, d] + rest, [c, d] + rest, [d] + rest;
    assert [a, b, c, d] + rest == [a] + s1 && s1 == [b] + s2 && s2 == [c] + s3;
    PointsCons(d, rest, sig);
    PointsCons(c, s3, sig);
    PointsCons(b, s2, sig);
    PointsCons(a, s1, sig);
  }

  lemma PointsCons(a: Rule, rest: seq<Rule>, sig: Signals)
    ensures Points([a] + rest, sig) == Contribution(a, sig) + Points(rest, sig)
  {
    assert ([a] + rest)[1..] == rest;
  }

  /** The rule table, rule by rule. */
  lemma PointsOfRules(sig: Signals)
    ensures Points(Rules, sig) ==
      Contribution(TitleHasKeyword, sig) + Contribution(H1HasKeyword, sig)
      + Contribution(UrlHasKeyword, sig) + Contribution(MetaHasKeyword, sig)
      + Contribution(TitleLengthInRange, sig) + Contribution(MetaLengthInRange, sig)
      + Contribution(LongContent, sig) + Contribution(DensityInRange, sig)
      + Contribution(AllImagesHaveAlt, sig) + Contribution(HasSubheadings, sig)
      + Contribution(HasCanonical, sig) + Contribution(RobotsAllowIndexing, sig)
      + Contribution(HasStructuredData, sig) + Contribution(HasOpenGraph, sig)
      + Contribution(ManyInternalLinks, sig) + Contribution(HasExternalLinks, sig)
      + Contribution(NofollowRateInRange, sig)
  {
    var last := [NofollowRateInRange];
    var r3 := [HasStructuredData, HasOpenGraph, ManyInternalLinks, HasExternalLinks] + last;
    var r2 := [AllImagesHaveAlt, HasSubheadings, HasCanonical, RobotsAllowIndexing] + r3;
    var r1 := [TitleLengthInRange, MetaLengthInRange, LongContent, DensityInRange] + r2;
    assert Rules == [TitleHasKeyword, H1HasKeyword, UrlHasKeyword, MetaHasKeyword] + r1;
    PointsOfFour(TitleHasKeyword, H1HasKeyword, UrlHasKeyword, MetaHasKeyword, r1, sig);
    PointsOfFour(TitleLengthInRange, MetaLengthInRange, LongContent, DensityInRange, r2, sig);
    PointsOfFour(AllImagesHaveAlt, HasSubheadings, HasCanonical, RobotsAllowIndexing, r3, sig);
    PointsOfFour(HasStructuredData, HasOpenGraph, ManyInternalLinks, HasExternalLinks, last, sig);
    assert Points(last, sig) == Contribution(NofollowRateInRange, sig) + Points([], sig);
  }

  /** The first four `if`s of `score`: the keyword-placement rules. */
  method AddKeywordPoints(sig: Signals, s0: int) returns (s: int)
    ensures s == s0 + Contribution(TitleHasKeyword, sig) + Contribution(H1HasKeyword, sig)
      + Contribution(UrlHasKeyword, sig) + Contribution(MetaHasKeyword, sig)
  {
    s := s0;
    if sig.titleHasKW { s := s + 12; }
    if sig.h1HasKW { s := s + 10; }
    if sig.urlHasKW { s := s + 6; }
    if sig.metaDescriptionHasKW { s := s + 6; }
  }

  /** The length, word-count and density rules. */
  method AddContentPoints(sig: Signals, s0: int) returns (s: int)
    ensures s == s0 + Contribution(TitleLengthInRange, sig) + Contribution(MetaLengthInRange, sig)
      + Contribution(LongContent, sig) + Contribution(DensityInRange, sig)
  {
    s := s0;
    if InRange(sig.titleLength, 45, 65) { s := s + 8; }
    if InRange(sig.metaDescriptionLength, 120, 170) { s := s + 6; }
    if sig.wordCount >= 500 { s := s + 8; }
    if sig.keywordDensity >= 0.5 && sig.keywordDensity <= 2.5 { s := s + 6; }
  }

  /** The image, heading, canonical and robots rules. */
  method AddMarkupPoints(sig: Signals, s0: int) returns (s: int)
    ensures s == s0 + Contribution(AllImagesHaveAlt, sig) + Contribution(HasSubheadings, sig)
      + Contribution(HasCanonical, sig) + Contribution(RobotsAllowIndexing, sig)
  {
    s := s0;
    if sig.imagesMissingAlt == 0 { s := s + 6; }
    if sig.h2Count + sig.h3Count > 0 { s := s + 6; }
    if sig.canonical != "" { s := s + 6; }
    if !BlocksRobots(sig.robotsMeta) { s := s + 4; }
  }

  /** The structured-data, Open Graph and link rules, ending with the nofollow rate. */
  method AddLinkPoints(sig: Signals, s0: int) returns (s: int)
    ensures s == s0 + Contribution(HasStructuredData, sig) + Contribution(HasOpenGraph, sig)
      + Contribution(ManyInternalLinks, sig) + Contribution(HasExternalLinks, sig)
      + Contribution(NofollowRateInRange, sig)
  {
    s := s0;
    if sig.schemaOrgPresent { s := s + 4; }
    if sig.openGraphPresent { s := s + 4; }
    if sig.linksInternos >= 10 { s := s + 6; }
    if sig.linksExternos >= 1 { s := s + 4; }
    var nofollowRate := NofollowRate(sig);
    if nofollowRate >= 20.0 && nofollowRate <= 90.0 { s := s + 4; }
  }

  /** `score`: starts from 0, adds each rule's weight when its condition holds, in table order,
      then clamps. */
  method Score(sig: Signals) returns (s: int)
    ensures s == ScoreOf(sig)
    ensures 0 <= s <= 100
  {
    s := AddKeywordPoints(sig, 0);
    s := AddContentPoints(sig, s);
    s := AddMarkupPoints(sig, s);
    s := AddLinkPoints(sig, s);
    PointsOfRules(sig);
    s := Clamp(s);
  }

  // ---------------------------------------------------------------------------
  // Properties of the rule table
  // ---------------------------------------------------------------------------

  /** A page on which every rule holds. */
  const FullMarks: Signals := Signals(
    true, true, true, true, 50, 150, 600, 1.0, 0, 1, 0, "https://example.com/", "",
    true, true, 10, 2, 1, 0)

  lemma FullMarksHoldsAll(r: Rule)
    ensures Holds(r, FullMarks)
  {
    if r == RobotsAllowIndexing {
      assert !Contains("", "noindex") && !Contains("", "nofollow");
    } else if r == NofollowRateInRange {
      assert NofollowRate(FullMarks) == 50.0;
    }
  }

  /** The cap is reached: a page satisfying every rule has a raw sum of 106 and scores 100. */
  lemma EveryRuleHoldsScoresFull(sig: Signals)
    requires forall r :: Holds(r, sig)
    ensures Points(Rules, sig) == 106 && ScoreOf(sig) == 100
  {
    PointsOfRules(sig);
  }

  /** The raw sum lies in 0..106, and the score is that sum capped at 100. */
  lemma ScoreIsCappedSum(sig: Signals)
    ensures 0 <= Points(Rules, sig) <= 106
    ensures ScoreOf(sig) == if Points(Rules, sig) > 100 then 100 else Points(Rules, sig)
  {
    forall r
      ensures Holds(r, FullMarks)
    {
      FullMarksHoldsAll(r);
    }
    PointsMonotone(Rules, sig, FullMarks);
    EveryRuleHoldsScoresFull(FullMarks);
  }

  /** Turning rule conditions on never lowers the points of a list of rules. */
  lemma {:induction false} PointsMonotone(rules: seq<Rule>, s1: Signals, s2: Signals)
    requires forall r :: r in rules && Holds(r, s1) ==> Holds(r, s2)
    ensures Points(rules, s1) <= Points(rules, s2)
  {
    if rules != [] {
      PointsMonotone(rules[1..], s1, s2);
    }
  }

  /** `score` is monotone in the set of conditions that hold. */
  lemma ScoreMonotone(s1: Signals, s2: Signals)
    requires forall r :: Holds(r, s1) ==> Holds(r, s2)
    ensures ScoreOf(s1) <= ScoreOf(s2)
  {
    PointsMonotone(Rules, s1, s2);
  }

  /** Points of a concatenation add up. */
  lemma {:induction false} PointsAppend(a: seq<Rule>, b: seq<Rule>, sig: Signals)
    ensures Points(a + b, sig) == Points(a, sig) + Points(b, sig)
  {
    if a != [] {
      assert (a + b)[1..] == a[1..] + b;
      PointsAppend(a[1..], b, sig);
    } else {
      assert a + b == b;
    }
  }

  /** Taking one rule out of a list leaves its contribution aside. */
  lemma PointsRemove(b: seq<Rule>, i: nat, sig: Signals)
    requires i < |b|
    ensures Points(b, sig) == Contribution(b[i], sig) + Points(b[..i] + b[i + 1..], sig)
  {
    assert b == b[..i] + ([b[i]] + b[i + 1..]);
    PointsAppend(b[..i], [b[i]] + b[i + 1..], sig);
    assert ([b[i]] + b[i + 1..])[1..] == b[i + 1..];
    PointsAppend(b[..i], b[i + 1..], sig);
  }

  lemma MultisetRemove(b: seq<Rule>, i: nat)
    requires i < |b|
    ensures multiset(b) == multiset{b[i]} + multiset(b[..i] + b[i + 1..])
  {
    assert b == b[..i] + [b[i]] + b[i + 1..];
  }

  /** The order of evaluation does not matter: any rearrangement of the rules awards the same. */
  lemma {:induction false} PointsPermutation(a: seq<Rule>, b: seq<Rule>, sig: Signals)
    requires multiset(a) == multiset(b)
    ensures Points(a, sig) == Points(b, sig)
    decreases |a|
  {
    if a != [] {
      assert a[0] in multiset(b);
      var i :| 0 <= i < |b| && b[i] == a[0];
      assert a == [a[0]] + a[1..];
      assert multiset(a) == multiset{a[0]} + multiset(a[1..]);
      MultisetRemove(b, i);
      assert multiset(a[1..]) == multiset(a) - multiset{a[0]};
      assert multiset(b[..i] + b[i + 1..]) == multiset(b) - multiset{b[i]};
      PointsRemove(b, i, sig);
      PointsPermutation(a[1..], b[..i] + b[i + 1..], sig);
    } else {
      assert |multiset(b)| == 0;
    }
  }

  /** How often a rule occurs in a list. */
  function Count(rules: seq<Rule>, r: Rule): nat {
    if rules == [] then 0 else (if rules[0] == r then 1 else 0) + Count(rules[1..], r)
  }

  /** Switching on one rule, with nothing else changing, adds its weight once per occurrence. */
  lemma {:induction false} PointsFlip(rules: seq<Rule>, r: Rule, s1: Signals, s2: Signals)
    requires forall q :: q in rules && q != r ==> Holds(q, s1) == Holds(q, s2)
    requires !Holds(r, s1) && Holds(r, s2)
    ensures Points(rules, s2) == Points(rules, s1) + Count(rules, r) * Weight(r)
  {
    if rules != [] {
      PointsFlip(rules[1..], r, s1, s2);
    }
  }

  // ---------------------------------------------------------------------------
  // The nofollow-rate rule
  // ---------------------------------------------------------------------------

  /** The +4 for the nofollow rate is awarded exactly when there are external links and
      nofollow links make up between 20 and 90 per cent of their number. */
  lemma NofollowRuleIff(sig: Signals)
    ensures Holds(NofollowRateInRange, sig) <==>
      sig.linksExternos > 0
      && 20 * sig.linksExternos <= 100 * sig.linksNofollow <= 90 * sig.linksExternos
  {
    if sig.linksExternos > 0 {
      PercentCompare(sig.linksNofollow, sig.linksExternos, 20);
      PercentCompare(sig.linksNofollow, sig.linksExternos, 90);
    }
  }

  /** For `e > 0`, a bound compares with the percentage `n / e * 100` as `bound * e` compares
      with `100 * n`. */
  lemma PercentCompare(n: nat, e: nat, bound: int)
    requires e > 0
    ensures (bound as real <= (n as real / e as real) * 100.0) <==> bound * e <= 100 * n
    ensures ((n as real / e as real) * 100.0 <= bound as real) <==> 100 * n <= bound * e
  {
    var rate := (n as real / e as real) * 100.0;
    assert rate * e as real == (100 * n) as real;
    assert (bound * e) as real == bound as real * e as real;
    RealScale(rate, e as real, bound as real);
  }

  /** For a positive `e`, comparing `rate` with a bound is comparing `rate * e` with `bound * e`. */
  lemma RealScale(rate: real, e: real, bound: real)
    requires e > 0.0
    ensures rate <= bound <==> rate * e <= bound * e
    ensures bound <= rate <==> bound * e <= rate * e
  {
    if rate <= bound {
      assert (bound - rate) * e >= 0.0;
    } else {
      assert (rate - bound) * e > 0.0;
    }
  }

  /** The rate written with `Math.max(1, linksExternos)` alone, without the zero guard:
      `linksNofollow / max(1, linksExternos) * 100`. */
  function NofollowRateMaxForm(sig: Signals): real {
    var d := if sig.linksExternos > 1 then sig.linksExternos else 1;
    (sig.linksNofollow as real / d as real) * 100.0
  }

  /** The two forms award the +4 in the same cases: with no external links the max form gives
      0 or at least 100, both outside 20..90. */
  lemma NofollowFormsAgree(sig: Signals)
    ensures (20.0 <= NofollowRateMaxForm(sig) <= 90.0) <==> Holds(NofollowRateInRange, sig)
  {
    if sig.linksExternos == 0 {
      assert NofollowRateMaxForm(sig) == sig.linksNofollow as real * 100.0;
    }
  }

  /** The robots test ignores ASCII case: attributes that agree up to it are treated alike. */
  lemma RobotsCaseInsensitive(a: string, b: string)
    requires |a| == |b| && forall i :: 0 <= i < |a| ==> AsciiLower(a[i]) == AsciiLower(b[i])
    ensures BlocksRobots(a) <==> BlocksRobots(b)
  {
    assert Lower(a) == Lower(b);
  }

  /** "NoIndex, Follow" and "index, NOFOLLOW" keep the page out of the index; "index, follow"
      does not. */
  lemma RobotsExamples()
    ensures BlocksRobots("NoIndex, Follow") && BlocksRobots("index, NOFOLLOW")
    ensures !BlocksRobots("index, follow")
  {
    var a, b, c := "NoIndex, Follow", "index, NOFOLLOW", "index, follow";
    assert OccursAt(Lower(a), "noindex", 0) by {
      assert Lower(a)[..7] == "noindex";
    }
    assert OccursAt(Lower(b), "nofollow", 7) by {
      assert Lower(b)[7..15] == "nofollow";
    }
    assert Lower(c) == c;
    NeedleAbsent(c, "noindex");
    NeedleAbsent(c, "nofollow");
  }

  /** Neither needle occurs in "index, follow": its only 'n' is followed by 'd'. */
  lemma NeedleAbsent(c: string, needle: string)
    requires c == "index, follow" && |needle| >= 2 && needle[0] == 'n' && needle[1] == 'o'
    ensures !Contains(c, needle)
  {
    forall i | 0 <= i && i + |needle| <= |c|
      ensures !OccursAt(c, needle, i)
    {
      if i == 1 {
        assert c[i..i + |needle|][1] == c[2] != 'o';
      } else {
        assert c[i..i + |needle|][0] == c[i] != 'n';
      }
    }
  }

  // ---------------------------------------------------------------------------
  // Scenarios
  // ---------------------------------------------------------------------------

  /** 12 internal links and 2 external ones with 1 nofollow link: a 50% rate, so both the rate
      rule and the internal-count rule award their points. */
  lemma HalfNofollowScenario(sig: Signals)
    requires sig.linksInternos == 12 && sig.linksExternos == 2 && sig.linksNofollow == 1
    ensures NofollowRate(sig) == 50.0
    ensures Holds(NofollowRateInRange, sig) && Holds(ManyInternalLinks, sig)
  {
    NofollowRuleIff(sig);
  }

  /** A 15-character title misses the 45..65 range; a 150-character meta description with the
      keyword earns both meta rules; one image without alt text loses the alt rule. */
  lemma LengthScenarios(sig: Signals)
    requires sig.titleLength == 15 && sig.metaDescriptionLength == 150
    requires sig.metaDescriptionHasKW && sig.imagesMissingAlt == 1
    ensures !Holds(TitleLengthInRange, sig)
    ensures Contribution(MetaHasKeyword, sig) + Contribution(MetaLengthInRange, sig) == 12
    ensures !Holds(AllImagesHaveAlt, sig)
  {
  }
}
