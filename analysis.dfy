/** One analysis request end to end: from the fetched page to the report with its signals, link
    list, score, recommendations and top-three summary. */
module Analysis {
  import opened Common
  import opened Text
  import opened Keyword
  import opened Scorer
  import opened Recommendations
  import opened Links

  /** What the DOM queries read from the fetched page. `h1Texts` holds the text content of each
      `<h1>`; the strings are "" where the element or attribute is absent. */
  datatype Page = Page(
    title: string,
    metaDescription: string,
    canonical: string,
    robotsMeta: string,
    h1Texts: seq<string>,
    h2Count: nat,
    h3Count: nat,
    bodyText: string,
    imagesMissingAlt: nat,
    anchors: seq<Anchor>,
    schemaOrgPresent: bool,
    openGraphPresent: bool,
    twitterCardsPresent: bool)

  /** What the runtime decides and the model takes as given:
      `isLetter` is the class `\p{L}`, `toLowerCase` is `String.prototype.toLowerCase`,
      `canon` the case canonicalisation of the `i` flag, `patternCompiles(kw)` whether the
      unescaped pattern `\b<kw>\b` of a keyword containing metacharacters is a valid regex,
      `patternTest(kw, text)` the outcome of testing that pattern, `resolve` is
      `new URL(href, pageUrl).href` (`None` when it throws), `hostname` the host name of an
      absolute URL, and `probe` the outcome of probing a URL. */
  datatype Env = Env(
    isLetter: char -> bool,
    toLowerCase: string -> string,
    canon: char -> char,
    patternCompiles: string -> bool,
    patternTest: (string, string) -> bool,
    resolve: string -> Option<string>,
    hostname: string -> string,
    probe: string -> Probe)

  datatype Report = Report(
    url: string,
    keyword: string,
    title: string,
    metaDescription: string,
    h1Text: string,
    h1Count: nat,
    twitterCardsPresent: bool,
    signals: Signals,
    score: int,
    recommendations: seq<string>,
    summary: string,
    links: seq<EnrichedLink>)

  /** The response: a report, the 400 answer for a missing parameter, or the 500 answer when
      fetching or parsing the page throws. */
  datatype Outcome = Done(report: Report) | MissingParameters | Failed

  // ---------------------------------------------------------------------------
  // Rounding the density
  // ---------------------------------------------------------------------------

  /** `Number(x.toFixed(2))` on an exact real: the multiple of 0.01 nearest to `x`, halves
      rounded up. */
  function Round2(x: real): (r: real)
    ensures (r * 100.0).Floor as real == r * 100.0
    ensures r - 0.005 <= x < r + 0.005
    ensures x >= 0.0 ==> r >= 0.0
  {
    var f := (x * 100.0 + 0.5).Floor;
    assert f as real / 100.0 * 100.0 == f as real;
    f as real / 100.0
  }

  lemma Round2Zero()
    ensures Round2(0.0) == 0.0
  {
    assert (0.0 * 100.0 + 0.5).Floor == 0;
  }

  // ---------------------------------------------------------------------------
  // The report, as a function of the request
  // ---------------------------------------------------------------------------

  /** `h1Els.map(h => cleanText(h))` */
  function CleanedAll(texts: seq<string>): (r: seq<string>)
    ensures |r| == |texts| && forall i :: 0 <= i < |texts| ==> r[i] == CleanText(texts[i])
  {
    seq(|texts|, i requires 0 <= i < |texts| => CleanText(texts[i]))
  }

  /** `h1Els.map(h => cleanText(h)).join(' | ')` */
  function H1Text(h1Texts: seq<string>): string {
    Join(CleanedAll(h1Texts), " | ")
  }

  function HasKW(text: string, keyword: string, env: Env): bool {
    KeywordFlag(text, keyword, env.canon, t => env.patternTest(keyword, t))
  }

  /** The presence pattern `\b<keyword>\b` compiles. For a plain keyword it holds only `\b` and
      literal characters, so it always compiles. */
  predicate KeywordCompiles(keyword: string, env: Env) {
    PlainKeyword(keyword) || env.patternCompiles(keyword)
  }

  /** `countWords(bodyText)`: the emptiness test comes before lower-casing. */
  function WordsOf(page: Page, env: Env): nat {
    if page.bodyText == [] then 0 else CountWords(env.toLowerCase(page.bodyText), env.isLetter)
  }

  /** `words ? (kwOcc / words) * 100 : 0`, before rounding. */
  function RawDensity(page: Page, keyword: string, env: Env): real {
    Density(Occurrences(page.bodyText, keyword, env.canon), WordsOf(page, env))
  }

  /** The status table the probing loop builds: each listed URL with its probe's outcome. */
  function StatusTable(uniq: seq<string>, probe: string -> Probe): map<string, Probe> {
    map h | h in uniq :: probe(h)
  }

  /** The classified links of the page. */
  function PageLinks(url: string, page: Page, env: Env): seq<EnrichedLink> {
    var links := BuildLinks(page.anchors, env.resolve);
    EnrichAll(links, StatusTable(UniqueHrefs(links), env.probe), StripWww(env.hostname(url)), env.hostname)
  }

  /** The fields of the final report that `score` and the recommendations read. */
  function SignalsOf(url: string, keyword: string, page: Page, env: Env, es: seq<EnrichedLink>): Signals {
    Signals(
      HasKW(page.title, keyword, env),
      HasKW(H1Text(page.h1Texts), keyword, env),
      HasKW(url, keyword, env),
      HasKW(page.metaDescription, keyword, env),
      Utf16Length(page.title),
      Utf16Length(page.metaDescription),
      WordsOf(page, env),
      Round2(RawDensity(page, keyword, env)),
      page.imagesMissingAlt,
      page.h2Count,
      page.h3Count,
      page.canonical,
      page.robotsMeta,
      page.schemaOrgPresent,
      page.openGraphPresent,
      Internos(es),
      Externos(es),
      Nofollows(es),
      Quebrados(es))
  }

  function ReportOf(url: string, keyword: string, page: Page, env: Env): Report {
    var es := PageLinks(url, page, env);
    var sig := SignalsOf(url, keyword, page, env, es);
    var rec := Recommendations.Recommendations(sig);
    Report(url, keyword, page.title, page.metaDescription, H1Text(page.h1Texts), |page.h1Texts|,
           page.twitterCardsPresent, sig, ScoreOf(sig), rec, Summary(rec), es)
  }

  function Expected(url: string, keyword: string, page: Option<Page>, env: Env): Outcome {
    if url == "" || keyword == "" then MissingParameters
    else if page.None? || !KeywordCompiles(keyword, env) then Failed
    else Done(ReportOf(url, keyword, page.value, env))
  }

  // ---------------------------------------------------------------------------
  // The request handler
  // ---------------------------------------------------------------------------

  /** The analysis of one request. `page` is the fetched and parsed page, `None` when fetching
      or parsing threw. A keyword pattern that does not compile throws once the report object
      is built, after the probing; the catch turns it into the 500 answer. */
  method Analyze(url: string, keyword: string, page: Option<Page>, env: Env) returns (o: Outcome)
    ensures o == Expected(url, keyword, page, env)
    ensures o.Done? ==> 0 <= o.report.score <= 100
  {
    if url == "" || keyword == "" {
      return MissingParameters;
    }
    if page.None? {
      return Failed;
    }
    var p := page.value;
    var links := BuildLinks(p.anchors, env.resolve);
    var uniq := UniqueHrefs(links);
    var statuses := CheckAll(uniq, env.probe);
    assert statuses == StatusTable(uniq, env.probe);
    var es := EnrichAll(links, statuses, StripWww(env.hostname(url)), env.hostname);
    if !KeywordCompiles(keyword, env) {
      return Failed;
    }
    var sig := SignalsOf(url, keyword, p, env, es);
    var score := Score(sig);
    var rec := Recommend(sig);
    o := Done(Report(url, keyword, p.title, p.metaDescription, H1Text(p.h1Texts), |p.h1Texts|,
                     p.twitterCardsPresent, sig, score, rec, Summary(rec), es));
  }

  /** The h1 text: "" without headings, the one heading cleaned, or the first heading cleaned,
      the separator and the h1 text of the others. */
  lemma H1TextSpec(h1Texts: seq<string>)
    ensures h1Texts == [] ==> H1Text(h1Texts) == ""
    ensures |h1Texts| == 1 ==> H1Text(h1Texts) == CleanText(h1Texts[0])
    ensures |h1Texts| > 1 ==> H1Text(h1Texts) == CleanText(h1Texts[0]) + " | " + H1Text(h1Texts[1..])
  {
    if |h1Texts| > 1 {
      assert CleanedAll(h1Texts)[1..] == CleanedAll(h1Texts[1..]);
    }
  }

  /** The page's word count: 0 for an empty body, otherwise the number of runs of letters in
      the lower-cased body; 0 exactly when the body is empty or its lower-cased form has no
      letter. */
  lemma WordsOfSpec(page: Page, env: Env)
    ensures var low := env.toLowerCase(page.bodyText);
              (page.bodyText == [] ==> WordsOf(page, env) == 0)
              && (page.bodyText != [] ==> WordsOf(page, env) == RunStartsFrom(low, env.isLetter, 0))
              && (WordsOf(page, env) == 0 <==>
                    page.bodyText == [] || forall k :: 0 <= k < |low| ==> !env.isLetter(low[k]))
  {
    var low := env.toLowerCase(page.bodyText);
    CountWordsIsRunCount(low, env.isLetter);
    NoWordsIffNoLetters(low, env.isLetter);
  }

  /** The density before rounding: 0 without words, otherwise the keyword's occurrences per
      hundred words of the body. */
  lemma RawDensitySpec(page: Page, keyword: string, env: Env)
    ensures var occ, words := Occurrences(page.bodyText, keyword, env.canon), WordsOf(page, env);
              RawDensity(page, keyword, env) >= 0.0
              && (words == 0 ==> RawDensity(page, keyword, env) == 0.0)
              && (words > 0 ==> RawDensity(page, keyword, env) * (words as real) == (occ as real) * 100.0)
  {
  }

  /** The three answers: 400 exactly when a parameter is missing, 500 exactly when the page
      could not be had or the keyword pattern does not compile, a report otherwise. */
  lemma OutcomeCases(url: string, keyword: string, page: Option<Page>, env: Env)
    ensures Expected(url, keyword, page, env) == MissingParameters <==> url == "" || keyword == ""
    ensures Expected(url, keyword, page, env) == Failed <==>
              url != "" && keyword != "" && (page.None? || !KeywordCompiles(keyword, env))
    ensures Expected(url, keyword, page, env).Done? <==>
              url != "" && keyword != "" && page.Some? && KeywordCompiles(keyword, env)
  {
  }

  /** A plain keyword never makes a fetched page fail. */
  lemma PlainKeywordReported(url: string, keyword: string, page: Page, env: Env)
    requires url != "" && keyword != "" && PlainKeyword(keyword)
    ensures Expected(url, keyword, Some(page), env) == Done(ReportOf(url, keyword, page, env))
  {
  }

  /** "c++" is not plain; when the engine refuses its pattern (nothing to repeat), the request
      fails although the page was fetched. */
  lemma UncompilableKeywordFails(url: string, page: Page, env: Env)
    requires url != "" && !env.patternCompiles("c++")
    ensures Expected(url, "c++", Some(page), env) == Failed
  {
    assert "c++"[1] == '+';
  }

  // ---------------------------------------------------------------------------
  // Properties of the report
  // ---------------------------------------------------------------------------

  /** The score is the capped rule sum of the report's own signals. */
  lemma ReportScore(url: string, keyword: string, page: Page, env: Env)
    ensures var r := ReportOf(url, keyword, page, env);
              r.score == ScoreOf(r.signals)
              && 0 <= r.score <= 100
              && r.score == (if Points(Rules, r.signals) > 100 then 100 else Points(Rules, r.signals))
  {
    ScoreIsCappedSum(ReportOf(url, keyword, page, env).signals);
  }

  /** The link counts agree with the link list: every link is internal or external, no more
      links are broken or nofollow than there are links, and never more links than anchors. */
  lemma ReportLinkCounts(url: string, keyword: string, page: Page, env: Env)
    ensures var r := ReportOf(url, keyword, page, env);
              r.signals.linksInternos + r.signals.linksExternos == |r.links|
              && r.signals.linksQuebrados <= |r.links|
              && r.signals.linksNofollow <= |r.links|
              && |r.links| <= |page.anchors|
  {
    CountsSpec(PageLinks(url, page, env));
    BuildLinksMembers(page.anchors, env.resolve);
  }

  /** Each link's verdict comes from probing its destination when that destination made the
      list, and is "not broken, no status" otherwise. */
  lemma ReportLinkVerdicts(url: string, keyword: string, page: Page, env: Env)
    ensures var links := BuildLinks(page.anchors, env.resolve);
            var r := ReportOf(url, keyword, page, env);
              forall i :: 0 <= i < |r.links| ==>
                r.links[i].link == links[i]
                && (links[i].destination in UniqueHrefs(links) ==>
                      r.links[i].broken == !env.probe(links[i].destination).ok)
                && (links[i].destination !in UniqueHrefs(links) ==>
                      !r.links[i].broken && r.links[i].status == NoStatus)
  {
  }

  /** "Fix broken links" is recommended exactly when some link of the list is broken, for
      signals that count the list's broken links. */
  lemma BrokenAdviceOf(sig: Signals, es: seq<EnrichedLink>)
    requires sig.linksQuebrados == Quebrados(es)
    ensures Message(FixBrokenLinks) in Recommendations.Recommendations(sig) <==>
              exists i :: 0 <= i < |es| && es[i].broken
  {
    RecommendationIff(sig, FixBrokenLinks);
    CountsSpec(es);
  }

  lemma BrokenLinkAdvice(url: string, keyword: string, page: Page, env: Env)
    ensures var r := ReportOf(url, keyword, page, env);
              Message(FixBrokenLinks) in r.recommendations <==> exists i :: 0 <= i < |r.links| && r.links[i].broken
  {
    var r := ReportOf(url, keyword, page, env);
    BrokenAdviceOf(r.signals, r.links);
  }

  /** A page without letters has word count 0 and density 0, so the density advice fires. */
  lemma NoWordsNoDensity(url: string, keyword: string, page: Page, env: Env)
    requires page.bodyText == [] || CountWords(env.toLowerCase(page.bodyText), env.isLetter) == 0
    ensures var r := ReportOf(url, keyword, page, env);
              r.signals.wordCount == 0 && r.signals.keywordDensity == 0.0
              && Message(AdjustDensity) in r.recommendations
  {
    var r := ReportOf(url, keyword, page, env);
    assert RawDensity(page, keyword, env) == 0.0;
    Round2Zero();
    assert r.signals.keywordDensity == Round2(0.0);
    DensityAdviceOf(r.signals);
  }

  /** A density outside 0.5..2.5 gets the density advice. */
  lemma DensityAdviceOf(sig: Signals)
    requires sig.keywordDensity < 0.5 || sig.keywordDensity > 2.5
    ensures Message(AdjustDensity) in Recommendations.Recommendations(sig)
  {
    RecommendationIff(sig, AdjustDensity);
  }

  lemma NikePlain()
    ensures PlainKeyword("nike")
  {
    assert "nike" == ['n', 'i', 'k', 'e'];
  }

  /** "nike" is plain and occurs in "Buy Nike Shoes" at position 4, under a case folding that
      identifies 'N' and 'n'; the title is 14 code units long. */
  lemma NikeInTitle(t: string, canon: char -> char)
    requires t == "Buy Nike Shoes" && canon('N') == canon('n')
    ensures PlainKeyword("nike") && HasKeyword(t, "nike", canon)
    ensures Utf16Length(t) == 14
  {
    var kw := "nike";
    NikePlain();
    assert MatchAt(t, kw, canon, 4) by {
      assert t[3] == ' ' && t[4] == 'N' && t[5] == 'i' && t[6] == 'k' && t[7] == 'e' && t[8] == ' ';
      assert kw[0] == 'n' && kw[1] == 'i' && kw[2] == 'k' && kw[3] == 'e';
    }
    assert InBmp(t);
  }

  /** The title "Buy Nike Shoes" with keyword "nike", under a case folding that identifies 'N' and
      'n': the title has the keyword, but its 14 code units miss the 45..65 range. */
  lemma NikeTitleScenario(url: string, page: Page, env: Env)
    requires page.title == "Buy Nike Shoes"
    requires env.canon('N') == env.canon('n')
    ensures var r := ReportOf(url, "nike", page, env);
              r.signals.titleHasKW && r.signals.titleLength == 14
              && !Holds(TitleLengthInRange, r.signals)
  {
    NikeInTitle(page.title, env.canon);
    var es := PageLinks(url, page, env);
    assert ReportOf(url, "nike", page, env).signals == SignalsOf(url, "nike", page, env, es);
    TitleSignals(url, "nike", page, env, es);
  }

  /** The title flag of the signals is the keyword test on the title, and the title length its
      UTF-16 length. */
  lemma TitleSignals(url: string, keyword: string, page: Page, env: Env, es: seq<EnrichedLink>)
    requires PlainKeyword(keyword)
    ensures var sig := SignalsOf(url, keyword, page, env, es);
              (sig.titleHasKW <==> HasKeyword(page.title, keyword, env.canon))
              && sig.titleLength == Utf16Length(page.title)
  {
  }

  /** The meta-description fields of the signals: the keyword test on the description, its UTF-16
      length, and the count of images without alt text. */
  lemma MetaSignals(url: string, keyword: string, page: Page, env: Env, es: seq<EnrichedLink>)
    requires PlainKeyword(keyword)
    ensures var sig := SignalsOf(url, keyword, page, env, es);
              (sig.metaDescriptionHasKW <==> HasKeyword(page.metaDescription, keyword, env.canon))
              && sig.metaDescriptionLength == Utf16Length(page.metaDescription)
              && sig.imagesMissingAlt == page.imagesMissingAlt
  {
  }

  /** "Nike " followed by 145 more BMP characters holds "nike" at its start, under a folding that
      identifies 'N' and 'n', and is 150 code units long. */
  lemma NikeLeads(t: string, rest: string, canon: char -> char)
    requires t == "Nike " + rest && |rest| == 145 && InBmp(rest) && canon('N') == canon('n')
    ensures HasKeyword(t, "nike", canon) && Utf16Length(t) == 150
  {
    assert MatchAt(t, "nike", canon, 0) by {
      assert t[0] == 'N' && t[1] == 'i' && t[2] == 'k' && t[3] == 'e' && t[4] == ' ';
      assert "nike"[0] == 'n' && "nike"[1] == 'i' && "nike"[2] == 'k' && "nike"[3] == 'e';
    }
    assert InBmp(t) by {
      forall i | 0 <= i < |t|
        ensures t[i] as int <= 0xFFFF
      {
        if i >= 5 {
          assert t[i] == rest[i - 5];
        }
      }
    }
  }

  /** A 150-unit meta description opening with "Nike " earns both meta rules for the keyword
      "nike", and one image without alt text loses the alt rule. */
  lemma MetaAndAltScenario(url: string, rest: string, page: Page, env: Env)
    requires page.metaDescription == "Nike " + rest && |rest| == 145 && InBmp(rest)
    requires env.canon('N') == env.canon('n') && page.imagesMissingAlt == 1
    ensures var r := ReportOf(url, "nike", page, env);
              r.signals.metaDescriptionHasKW && r.signals.metaDescriptionLength == 150
              && Contribution(MetaHasKeyword, r.signals) + Contribution(MetaLengthInRange, r.signals) == 12
              && !Holds(AllImagesHaveAlt, r.signals)
  {
    NikeLeads(page.metaDescription, rest, env.canon);
    NikePlain();
    var es := PageLinks(url, page, env);
    assert ReportOf(url, "nike", page, env).signals == SignalsOf(url, "nike", page, env, es);
    MetaAndAltPoints(url, "nike", page, env, es);
  }

  lemma MetaAndAltPoints(url: string, keyword: string, page: Page, env: Env, es: seq<EnrichedLink>)
    requires PlainKeyword(keyword)
    requires HasKeyword(page.metaDescription, keyword, env.canon)
    requires Utf16Length(page.metaDescription) == 150 && page.imagesMissingAlt == 1
    ensures var sig := SignalsOf(url, keyword, page, env, es);
              sig.metaDescriptionHasKW && sig.metaDescriptionLength == 150
              && Contribution(MetaHasKeyword, sig) + Contribution(MetaLengthInRange, sig) == 12
              && !Holds(AllImagesHaveAlt, sig)
  {
    MetaSignals(url, keyword, page, env, es);
    var sig := SignalsOf(url, keyword, page, env, es);
    assert Holds(MetaHasKeyword, sig) && Holds(MetaLengthInRange, sig);
    assert Contribution(MetaHasKeyword, sig) == 6 && Contribution(MetaLengthInRange, sig) == 6;
  }

  /** The summary holds the first (up to) three recommendations, and at most nine are given,
      each once. */
  lemma ReportRecommendations(url: string, keyword: string, page: Page, env: Env)
    ensures var r := ReportOf(url, keyword, page, env);
              |r.recommendations| <= 9
              && NoDuplicates(r.recommendations)
              && r.summary <= Join(r.recommendations, " | ")
              && (|r.recommendations| >= 3 ==>
                    r.summary == r.recommendations[0] + " | " + r.recommendations[1] + " | " + r.recommendations[2])
  {
    var r := ReportOf(url, keyword, page, env);
    RecommendationsInOrder(r.signals);
    RecommendationsDistinct(r.signals);
    SummaryIsPrefix(r.recommendations);
    SummaryCases(r.recommendations);
  }
}
