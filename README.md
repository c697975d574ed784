# On-page SEO analysis, modelled in Dafny

The modelled service receives an URL and a keyword. It fetches the page and reads its SEO
signals: title, meta description, headings, body text, images, canonical, robots and markup
flags. It also turns the page's anchors into a classified list of links and probes each distinct
destination once. The signals are combined into a score from 0 to 100, and an ordered list of
advice is produced, with a top-three summary.

This project models that request handler (`POST` in `app/api/analisar/route.ts`) and proves
what it promises:

- `common.dfy`: string helpers with JavaScript's meaning (`startsWith`, `includes`, `join`, `slice`, `.length` in UTF-16 units) and `FilterMap`, which is `map(...).filter(Boolean)`.
- `text.dfy`: `cleanText`, which collapses whitespace and trims, and `countWords`, which counts maximal runs of letters. Each is proved against an independent reference view: the list of whitespace-free fields for `cleanText`, the positions where a run of letters starts for `countWords`.
- `keyword.dfy`: `occurrences`, which finds the non-overlapping matches of `\b<term>\b` left to right, case-insensitively. It also holds the keyword-presence flags and the density.
- `scorer.dfy`: `score`. The source's chain of `s +=` steps is a method, proved equal to a rule table of 17 weighted conditions. The table's properties are proved: the bounds, the clamp, monotonicity, independence of order, and the nofollow rule.
- `recommendations.dfy`: the chain of `rec.push` steps is a method, proved equal to a rule list. A message appears exactly when its rule fires, in declaration order, at most once each. The module also has the top-three summary.
- `links.dfy`: the link pipeline:
  - the anchor filter and the `rel` flags;
  - anchor-text truncation;
  - the de-duplicated, capped probe list in first-discovery order;
  - the probing loop, which fills the status table;
  - internal/external classification after removing one leading `www.`;
  - the broken verdict with its default for unprobed links;
  - the four aggregate counts.
- `analysis.dfy`: the whole request as one method, `Analyze`. It is proved equal to a function of the request, and report-wide properties are proved about that function.

The fetched page is an input to the model. The model takes the fields the DOM queries read from
the page, with absent attributes read as `""`. What the JavaScript runtime decides is also a
parameter:

- the letter class `\p{L}`;
- `toLowerCase`;
- the case folding of the regex `i` flag;
- for a keyword containing regex metacharacters, whether its unescaped pattern compiles and what testing it gives;
- URL resolution, where a throw is `None`;
- host names;
- the outcome of probing a URL.

Behaviour of the code worth knowing, where it may surprise:

- **Density.** The density is `words ? occ / words * 100 : 0`, not `occ / max(1, words) * 100`. The two differ when the body has no letters but the keyword still matches: for a body `"123"` with keyword `"123"` the code yields 0.
- **Nofollow count.** The nofollow rate divides the number of nofollow links among *all* links, internal ones included, by the number of external links.
- **`rel` flags.** The flags are substring tests on the lower-cased `rel` attribute, not token tests: `rel="nofollowed"` sets `nofollow`.
- **Anchor text limit.** Anchor text is cut at 200 UTF-16 code units, not 200 characters.
- **Skipped hrefs.** Only an empty href and an href starting with exactly `#` or `javascript:` are skipped, and the prefix tests are case-sensitive. `JavaScript:` is kept, and so is an href with leading blanks.
- **Keyword flags.** The flags compile the keyword into a pattern *without* escaping it. `occurrences` escapes it, so only for a keyword free of regex metacharacters is the agreement of the flag and the count guaranteed (`Keyword.FlagAgreesWithOccurrences`).
- **Score rounding.** The score's rounding step is the identity, because the sum is an integer.

## Model

| member | source | states |
|---|---|---|
| Text.CleanText | app/api/analisar/route.ts:13-15 | `cleanText`: whitespace runs collapsed to one space, then trimmed; its properties are stated by `Text.CleanTextIsJoinedFields`, `Text.CleanTextNormalized` and `Text.CleanTextIdempotent` |
| Text.CleanTextIsJoinedFields | app/api/analisar/route.ts:13-15 | `cleanText(s)` is the whitespace-free fields of `s` joined by single spaces |
| Text.CleanTextNormalized | app/api/analisar/route.ts:13-15 | the result has no whitespace at either end, no whitespace other than ' ', never two spaces in a row, and the same fields as the input |
| Text.CleanTextIdempotent | app/api/analisar/route.ts:13-15 | cleaning is idempotent |
| Text.NormalizedIsJoinedFields | app/api/analisar/route.ts:13-15 | a normalised text is the join of its own fields (the reference view is exact) |
| Text.CountWords | app/api/analisar/route.ts:19-20 | the `\p{L}+` match count of lines 19-20 on a text already lower-cased, 0 for the empty text; `Text.CountWordsIsRunCount` equates it with the number of runs of letters and `Text.NoWordsIffNoLetters` makes it 0 exactly when no letter occurs |
| Text.CountWordsIsRunCount | app/api/analisar/route.ts:17-21 | the number of matches of the global letter-run pattern is the number of positions where a maximal run of letters starts; 0 for the empty text |
| Text.NoWordsIffNoLetters | app/api/analisar/route.ts:17-21 | the count is 0 exactly when the text holds no letter |
| Keyword.MatchPositions | app/api/analisar/route.ts:23-27 | the positions the global search reports; `Keyword.MatchPositionsSound`, `Keyword.MatchPositionsDisjoint` and `Keyword.MatchPositionsComplete` make them matches, in increasing order without overlap, covering every match |
| Keyword.Occurrences | app/api/analisar/route.ts:23-27 | `occurrences`: 0 for an empty text or term, otherwise the number of reported matches; bounded by `Keyword.OccurrencesBound`, positive exactly when a match exists by `Keyword.OccurrencesPositiveIffMatch`, independent of the term's case by `Keyword.OccurrencesCaseInsensitive` |
| Keyword.MatchPositionsSound | app/api/analisar/route.ts:23-27 | every reported position is a match of `\b<term>\b` |
| Keyword.MatchPositionsDisjoint | app/api/analisar/route.ts:23-27 | reported matches come in increasing order and do not overlap |
| Keyword.MatchPositionsComplete | app/api/analisar/route.ts:23-27 | every match starts inside (overlaps) a reported one, so the global search skips none |
| Keyword.OccurrencesBound | app/api/analisar/route.ts:23-27 | occurrences × term length ≤ text length |
| Keyword.OccurrencesPositiveIffMatch | app/api/analisar/route.ts:23-27 | for any text, the empty one included, the count is positive exactly when the pattern matches somewhere |
| Keyword.OccurrencesCaseInsensitive | app/api/analisar/route.ts:23-27 | terms equal up to case folding have the same count |
| Keyword.NoMatchInsideWord | app/api/analisar/route.ts:23-27 | "cat" occurs 0 times in "category" |
| Keyword.AccentedKeywordNeverMatches | app/api/analisar/route.ts:23-27 | with ASCII `\b`, "café" occurs 0 times in "um café quente" |
| Keyword.KeywordFlag | app/api/analisar/route.ts:137-144 | the presence flag of the unescaped pattern; `Keyword.FlagAgreesWithOccurrences` ties it to `occurrences` for a plain keyword |
| Keyword.FlagAgreesWithOccurrences | app/api/analisar/route.ts:137-144 | for a keyword without metacharacters, the presence flag is set exactly when the occurrence count is positive |
| Keyword.Density | app/api/analisar/route.ts:95 | density is 0 when there are no words, otherwise density × words = occurrences × 100; never negative |
| Scorer.Clamp | app/api/analisar/route.ts:51 | the result lies in 0..100, equals the input inside that range, is 100 above it and 0 below it |
| Scorer.AddKeywordPoints | app/api/analisar/route.ts:33-36 | the four keyword steps add exactly the contributions of their rules |
| Scorer.AddContentPoints | app/api/analisar/route.ts:37-40 | the length, word-count and density steps add exactly their rules' contributions |
| Scorer.AddMarkupPoints | app/api/analisar/route.ts:41-44 | the alt, subheading, canonical and robots steps add exactly their rules' contributions |
| Scorer.BlocksRobots | app/api/analisar/route.ts:44 | `/(noindex\|nofollow)/i.test(robotsMeta)`; `Scorer.RobotsCaseInsensitive` and `Scorer.RobotsExamples` state it |
| Scorer.RobotsCaseInsensitive | app/api/analisar/route.ts:44 | attributes equal up to ASCII case are both blocked or both not |
| Scorer.RobotsExamples | app/api/analisar/route.ts:44 | `NoIndex, Follow` and `index, NOFOLLOW` block indexing, `index, follow` does not |
| Scorer.AddLinkPoints | app/api/analisar/route.ts:45-50 | the markup, link-count and nofollow-rate steps add exactly their rules' contributions |
| Scorer.Score | app/api/analisar/route.ts:29-52 | the computed score is the capped rule-table sum and lies in 0..100 |
| Scorer.PointsOfRules | app/api/analisar/route.ts:33-50 | the table awards the sum of the 17 contributions |
| Scorer.EveryRuleHoldsScoresFull | app/api/analisar/route.ts:33-51 | when every rule holds, the raw sum is 106 and the score 100 |
| Scorer.ScoreIsCappedSum | app/api/analisar/route.ts:29-52 | the raw sum lies in 0..106 and the score is min(100, sum) |
| Scorer.FullMarksHoldsAll | app/api/analisar/route.ts:33-50 | there are signals under which every rule holds (so 106 is reached) |
| Scorer.PointsMonotone | app/api/analisar/route.ts:33-50 | turning conditions on never lowers the points of a rule list |
| Scorer.ScoreMonotone | app/api/analisar/route.ts:29-52 | the score is monotone in the set of satisfied conditions |
| Scorer.PointsAppend | app/api/analisar/route.ts:33-50 | the points of a concatenation are the sum of the parts' points |
| Scorer.PointsPermutation | app/api/analisar/route.ts:33-50 | reordering the rules does not change the points |
| Scorer.PointsFlip | app/api/analisar/route.ts:33-50 | making one rule hold adds its weight once per occurrence and nothing else |
| Scorer.NofollowRate | app/api/analisar/route.ts:49 | the guarded nofollow rate; `Scorer.NofollowRuleIff` and `Scorer.NofollowFormsAgree` state the rule it decides |
| Scorer.NofollowRuleIff | app/api/analisar/route.ts:49-50 | the nofollow rule holds exactly when there is an external link and 20·ext ≤ 100·nofollow ≤ 90·ext |
| Scorer.NofollowFormsAgree | app/api/analisar/route.ts:49 | the rate written with `Math.max(1, linksExternos)` alone, without the zero guard, decides the 20..90 rule exactly as the guarded rate does |
| Scorer.HalfNofollowScenario | app/api/analisar/route.ts:47-50 | 12 internal, 2 external and 1 nofollow link give rate 50, and both link rules award points |
| Scorer.LengthScenarios | app/api/analisar/route.ts:36-41 | a 15-unit title misses the title-length range, a 150-unit description with keyword earns 12, and one image without alt loses the alt points |
| Recommendations.AdviseKeywords | app/api/analisar/route.ts:171-173 | the three keyword pushes append exactly the messages of the rules that fire |
| Recommendations.AdviseContent | app/api/analisar/route.ts:174-176 | the content, density and alt pushes append exactly the messages of the rules that fire |
| Recommendations.AdviseMarkupAndLinks | app/api/analisar/route.ts:177-179 | the canonical, Open Graph and broken-link pushes append exactly the messages of the rules that fire |
| Recommendations.Recommend | app/api/analisar/route.ts:170-179 | the pushed list is the messages of the firing rules, in declaration order |
| Recommendations.TriggeredOfTable | app/api/analisar/route.ts:170-179 | the firing rules of the table, one by one |
| Recommendations.TriggeredMembers | app/api/analisar/route.ts:170-179 | a rule is selected exactly when it is listed and fires |
| Recommendations.TriggeredIncreasing | app/api/analisar/route.ts:170-179 | selection keeps the rule order and never adds rules |
| Recommendations.TableInRankOrder | app/api/analisar/route.ts:170-179 | the table lists all nine rules, in declaration order |
| Recommendations.SignatureOfMessage | app/api/analisar/route.ts:171-179 | each message has the length and next-to-last character of its rule's signature |
| Recommendations.MessageInjective | app/api/analisar/route.ts:171-179 | different rules push different messages |
| Recommendations.RecommendationsInOrder | app/api/analisar/route.ts:170-179 | at most nine messages, the i-th being the message of the i-th firing rule, rules in increasing order |
| Recommendations.RecommendationSound | app/api/analisar/route.ts:170-179 | a message in the list belongs to a rule that fires |
| Recommendations.RecommendationComplete | app/api/analisar/route.ts:170-179 | the message of every firing rule is in the list |
| Recommendations.RecommendationIff | app/api/analisar/route.ts:170-179 | a message is in the list exactly when its rule fires |
| Recommendations.RecommendationsDistinct | app/api/analisar/route.ts:170-179 | no message appears twice |
| Recommendations.Summary | app/api/analisar/route.ts:212 | `rec.slice(0,3).join(' \| ')`; `Recommendations.SummaryCases` and `Recommendations.SummaryIsPrefix` state it |
| Recommendations.SummaryCases | app/api/analisar/route.ts:212 | the summary is empty, the only message, or the first two or three messages joined by " \| " |
| Recommendations.SummaryIsPrefix | app/api/analisar/route.ts:212 | the summary is a prefix of the whole list joined by " \| " |
| Recommendations.PairedWithScoreRules | app/api/analisar/route.ts:171-178 | seven messages fire exactly when the matching score rule withholds its points |
| Recommendations.ContentAdviceStricter | app/api/analisar/route.ts:174 | content short of the score threshold always gets the advice, and 500..799 words get both the points and the advice |
| Common.Utf16Length | app/api/analisar/route.ts:136 | `.length` lies between the character count and twice it, and equals the character count inside the BMP |
| Common.JoinLength | app/api/analisar/route.ts:91 | a joined list is as long as its parts plus one separator between neighbours |
| Common.FilterMapAppend | app/api/analisar/route.ts:101-114 | `map(...).filter(Boolean)` commutes with concatenation |
| Common.FilterMapMembers | app/api/analisar/route.ts:101-114 | the survivors are exactly the non-null results, never more than the inputs |
| Links.TakeUnits | app/api/analisar/route.ts:108 | the truncated text is a prefix of at most 200 UTF-16 units, the whole text when it fits, and the longest such prefix |
| Links.TakeUnitsBmp | app/api/analisar/route.ts:108 | inside the BMP this is the first 200 characters |
| Links.ToLink | app/api/analisar/route.ts:101-114 | one anchor to its link or to nothing; `Links.ToLinkSpec` states the exact condition and every field |
| Links.BuildLinks | app/api/analisar/route.ts:101-114 | the anchors' links in document order; stated by `Links.BuildLinksAppend`, `Links.BuildLinksMembers` and `Links.AnchorTextsBounded` |
| Links.ToLinkSpec | app/api/analisar/route.ts:102-113 | an anchor is kept exactly when its href is not empty, `#…` or `javascript:…` and resolves; the kept link points to the resolved URL, its text is the longest prefix of the trimmed text within 200 UTF-16 units, and its flags are the substring tests |
| Links.BuildLinksAppend | app/api/analisar/route.ts:101-114 | links keep the anchors' page order |
| Links.BuildLinksMembers | app/api/analisar/route.ts:101-114 | a link is in the list exactly when some anchor maps to it; never more links than anchors |
| Links.AnchorTextsBounded | app/api/analisar/route.ts:108 | every link text fits in 200 UTF-16 units |
| Links.Skipped | app/api/analisar/route.ts:103 | the empty href, a `#` prefix and a `javascript:` prefix; `Links.SkippedExamples` and `Links.ToLinkSpec` state it |
| Links.RelHas | app/api/analisar/route.ts:106-112 | the substring test on the lower-cased `rel`; `Links.RelExamples` and `Links.ToLinkSpec` state it |
| Links.RelExamples | app/api/analisar/route.ts:106-112 | `NoFollow` and `nofollowed` set nofollow, `follow` does not, `UGC` sets ugc |
| Links.SkippedExamples | app/api/analisar/route.ts:103 | "", "#top" and "javascript:void(0)" are skipped; "JavaScript:void(0)" and "/contato" are not |
| Links.FirstIndex | app/api/analisar/route.ts:117 | the position where a value first occurs |
| Links.Distinct | app/api/analisar/route.ts:117 | `Array.from(new Set(s))`; `Links.DistinctSpec` states no repeats, the same elements and first-insertion order |
| Links.UniqueHrefs | app/api/analisar/route.ts:117 | the probe list; `Links.UniqueHrefsSpec` states its bound, order and completeness |
| Links.DistinctSpec | app/api/analisar/route.ts:117 | `Array.from(new Set(s))` holds every element of `s` exactly once, in first-discovery order |
| Links.UniqueHrefsSpec | app/api/analisar/route.ts:117 | the probe list has no repeats and at most 200 URLs, is a prefix of the first-discovery order, lists only destinations of links, and holds every destination when there are at most 200 of them |
| Links.CheckAll | app/api/analisar/route.ts:118-122 | the table's keys are exactly the listed URLs, each mapped to its probe's outcome |
| Links.StripWww | app/api/analisar/route.ts:116 | one leading "www." is removed when present, otherwise the host is unchanged |
| Links.Lookup | app/api/analisar/route.ts:124-128 | a destination's status and verdict from the table, with the default for an unprobed one; stated through `Links.EnrichSpec` |
| Links.Enrich | app/api/analisar/route.ts:124-128 | one link classified and given its verdict; `Links.EnrichSpec` and `Links.SameDestinationSameVerdict` state both |
| Links.EnrichAll | app/api/analisar/route.ts:124-129 | one enriched link per link, in order, each the link's own enrichment; `Links.EnrichSpec` and `Links.CapAndVerdicts` state the verdicts |
| Links.EnrichSpec | app/api/analisar/route.ts:124-129 | internal exactly when the host without one leading "www." is the page's; broken exactly when probed and the probe failed; status empty when unprobed or the probe's status is 0 |
| Links.SameDestinationSameVerdict | app/api/analisar/route.ts:124-129 | links sharing a destination share classification, status and verdict |
| Links.WwwStrippedOnce | app/api/analisar/route.ts:126-127 | "www.www.example.com" is not "example.com" after stripping, "www.example.com" is |
| Links.CapAndVerdicts | app/api/analisar/route.ts:117-129 | a link beyond the cap gets no status and is not broken; with at most 200 destinations every link was probed; with more, some link was not |
| Links.CountWhereSplit | app/api/analisar/route.ts:158-159 | a condition and its negation split the list |
| Links.CountWhereZero | app/api/analisar/route.ts:161 | a filtered count is 0 exactly when no element passes |
| Links.Internos | app/api/analisar/route.ts:158 | the internal links counted; stated by `Links.CountsSpec` |
| Links.Externos | app/api/analisar/route.ts:159 | the external links counted; stated by `Links.CountsSpec` |
| Links.Nofollows | app/api/analisar/route.ts:160 | the nofollow links counted, internal ones included; stated by `Links.CountsSpec` |
| Links.Quebrados | app/api/analisar/route.ts:161 | the broken links counted; stated by `Links.CountsSpec` |
| Links.CountsSpec | app/api/analisar/route.ts:158-161 | internal + external = number of links; nofollow and broken counts are at most that; broken = 0 exactly when no link is broken |
| Analysis.Round2 | app/api/analisar/route.ts:148 | the density is rounded to the nearest multiple of 0.01, halves up, and stays non-negative |
| Analysis.Round2Zero | app/api/analisar/route.ts:148 | zero rounds to zero |
| Analysis.WordsOf | app/api/analisar/route.ts:17-21 | `countWords(bodyText)`: 0 for an empty raw body, otherwise the match count on the lower-cased body; `Analysis.WordsOfSpec` states it |
| Analysis.WordsOfSpec | app/api/analisar/route.ts:17-21 | 0 for an empty body, otherwise the number of runs of letters in the lower-cased body, and 0 exactly when the body is empty or the lower-cased body has no letter |
| Analysis.RawDensity | app/api/analisar/route.ts:95 | the density before rounding; `Analysis.RawDensitySpec` and `Keyword.Density` state it |
| Analysis.RawDensitySpec | app/api/analisar/route.ts:95 | the unrounded density is never negative, 0 without words, and otherwise density × words = occurrences × 100 |
| Analysis.H1Text | app/api/analisar/route.ts:91 | the cleaned h1 texts joined by the separator; `Analysis.H1TextSpec` states it case by case |
| Analysis.H1TextSpec | app/api/analisar/route.ts:91 | no headings give "", one heading its cleaned text, more headings the first cleaned, the separator, then the rest |
| Analysis.SignalsOf | app/api/analisar/route.ts:131-167 | the signals the score and the advice read; `Analysis.TitleSignals` and `Analysis.NikeTitleScenario` state the title fields |
| Analysis.ReportOf | app/api/analisar/route.ts:131-167 | the report of one request; `Analysis.ReportScore`, `Analysis.ReportLinkCounts`, `Analysis.ReportLinkVerdicts`, `Analysis.BrokenLinkAdvice` and `Analysis.ReportRecommendations` state its properties |
| Analysis.Expected | app/api/analisar/route.ts:70-233 | the answer to one request; `Analysis.OutcomeCases` states its three cases and `Analysis.Analyze` is proved equal to it |
| Analysis.Analyze | app/api/analisar/route.ts:70-179 | a missing url or keyword gives the 400 answer, a failed fetch or a keyword pattern that does not compile the 500 answer, otherwise the report of the request, with a score in 0..100 |
| Analysis.OutcomeCases | app/api/analisar/route.ts:70-233 | the 400 answer exactly when a parameter is missing, the 500 answer exactly when the page could not be had or the keyword pattern does not compile, a report otherwise |
| Analysis.PlainKeywordReported | app/api/analisar/route.ts:137-144 | a plain keyword never makes a fetched page fail |
| Analysis.UncompilableKeywordFails | app/api/analisar/route.ts:137-144 | the keyword `c++`, whose pattern the engine refuses, makes the request fail although the page was fetched |
| Analysis.TitleSignals | app/api/analisar/route.ts:136-137 | for a plain keyword the title flag is the keyword test on the title and the title length its UTF-16 length |
| Analysis.NikeInTitle | app/api/analisar/route.ts:136-137 | `nike` is plain and occurs in `Buy Nike Shoes` when case is folded; the title is 14 code units |
| Analysis.NikeTitleScenario | app/api/analisar/route.ts:136-137 | for the page titled `Buy Nike Shoes` and the keyword `nike`, the report's title flag holds and its 14-unit title misses the 45..65 range |
| Analysis.MetaSignals | app/api/analisar/route.ts:138-140 | for a plain keyword the description flag is the keyword test on the description, its length the UTF-16 length, and the image count is read from the page |
| Analysis.NikeLeads | app/api/analisar/route.ts:138-140 | a description of `Nike ` and 145 more BMP characters holds `nike` when case is folded, and is 150 code units |
| Analysis.MetaAndAltPoints | app/api/analisar/route.ts:36-41 | a description with the keyword and 150 units earns 6 + 6 points, and one image without alt text fails the alt rule |
| Analysis.MetaAndAltScenario | app/api/analisar/route.ts:36-41 | for a page whose 150-unit description opens with `Nike ` and which has one image without alt text, the report earns both meta rules for `nike` and fails the alt rule |
| Analysis.ReportScore | app/api/analisar/route.ts:167 | the report's score is the capped rule sum of its own signals |
| Analysis.ReportLinkCounts | app/api/analisar/route.ts:158-161 | the report's counts agree with its link list, which is no longer than the anchor list |
| Analysis.ReportLinkVerdicts | app/api/analisar/route.ts:117-129 | each reported link is broken exactly when its destination was probed and failed, and is unknown and not broken when beyond the cap |
| Analysis.BrokenAdviceOf | app/api/analisar/route.ts:179 | with the broken count of a list, the broken-link advice fires exactly when some link is broken |
| Analysis.BrokenLinkAdvice | app/api/analisar/route.ts:179 | the report advises fixing links exactly when one of its links is broken |
| Analysis.NoWordsNoDensity | app/api/analisar/route.ts:93-95 | an empty body, or one without letters, has word count and density 0 and gets the density advice |
| Analysis.DensityAdviceOf | app/api/analisar/route.ts:175 | a density outside 0.5..2.5 gets the density advice |
| Analysis.ReportRecommendations | app/api/analisar/route.ts:170-179 | at most nine distinct messages; the summary is a prefix of the full join, the first three when there are three or more |

## Left out

- Network and time. The page fetch (line 75), `headOrGet` (lines 54-68) with its HEAD-then-GET fallback and 8-second timeout, and `new Date()` are not modelled. The fetched page and each probe's `{status, ok}` are inputs.
- Concurrency. The probing loop awaits each probe in turn, so sequential application is exact.
- HTML parsing. JSDOM and the DOM queries (lines 77-99, 152-154) are not modelled. Their results are the fields of `Analysis.Page`.
- Unicode runtime tables. URL parsing (`new URL`), host names, `\p{L}`, `toLowerCase` and the regex `i` case folding are parameters, not definitions.
- Persistence, the report identifier and the CSV row. `ensureDir`, the JSON file written under `/tmp/reports` and the HTTP responses are not modelled. Of the CSV row (lines 181-213) only the top-3 join is modelled; the other fields copy report fields.
- The report-reading route `app/api/relatorio/[id]/route.ts` and the UI are not part of this model.
- Keyword.KeywordFlag: a keyword containing regex metacharacters is compiled unescaped at lines 137-144. Whether that compiles and what the test gives are parameters (`patternCompiles`, `patternTest`), since the model has no regex engine.
- Analysis.Round2: works on exact reals. The binary floating-point value of the density, which can round a decimal tie the other way, is not modelled.
- Links.TakeUnits: when unit 200 falls inside a surrogate pair, JavaScript keeps the lone high surrogate. The model stops before the pair, because a Dafny string cannot hold a lone surrogate.
- Common.Lower: lower-cases ASCII letters only. This is exact for the `rel` test: `toLowerCase` maps a non-ASCII character to an ASCII letter only for 'i' and 'k', and no `rel` needle contains either. It is exact for the robots test too, for another reason: without the `u` flag, case folding under `i` never maps a non-ASCII character to an ASCII one.
- Analysis.Analyze: the 500 answer for a throw of `new URL` after the fetch is not modelled. `url` was already fetched, and every link destination is an `href` that `new URL` produced, so `hostname` is taken as total on them.
