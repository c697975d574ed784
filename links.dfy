/** The link pipeline of the analysis: anchors become links, their destinations are
    de-duplicated into the probe list, the probe results are collected in a status table, every
    link is classified as internal or external and given its HTTP verdict, and the classified
    links are counted. */
module Links {
  import opened Common
  import opened Text

  // ---------------------------------------------------------------------------
  // From anchors to links
  // ---------------------------------------------------------------------------

  /** An `<a href>` element of the page: its `href` attribute, its `rel` attribute ("" when the
      attribute is absent) and its text content ("" when there is none). */
  datatype Anchor = Anchor(href: string, rel: string, text: string)

  /** A kept link: the trimmed and truncated anchor text, the absolute destination and the three
      `rel` flags. */
  datatype Link = Link(anchorText: string, destination: string, nofollow: bool, ugc: bool, sponsored: bool)

  /** The most UTF-16 code units of anchor text a link keeps. */
  const AnchorTextLimit: nat := 200

  /** Hrefs dropped before resolution: the empty href, a fragment and a `javascript:` URL. The
      two prefix tests are case-sensitive. */
  predicate Skipped(href: string) {
    href == "" || StartsWith(href, "#") || StartsWith(href, "javascript:")
  }

  /** `s.slice(0, n)` with `n` counted in UTF-16 code units: the longest prefix of `s` that
      fits in `n` units. */
  function TakeUnits(s: string, n: nat): (r: string)
    ensures r <= s
    ensures Utf16Length(r) <= n
    ensures Utf16Length(s) <= n ==> r == s
    ensures r != s ==> Utf16Length(r) + Units(s[|r|]) > n
  {
    if s == [] || Units(s[0]) > n then []
    else [s[0]] + TakeUnits(s[1..], n - Units(s[0]))
  }

  /** On text inside the Basic Multilingual Plane, counting code units is counting characters. */
  lemma TakeUnitsBmp(s: string, n: nat)
    requires InBmp(s)
    ensures TakeUnits(s, n) == Take(s, n)
  {
    TakeUnitsBmpLength(s, n);
    var r := TakeUnits(s, n);
    if |s| > n {
      assert r == s[..n];
    }
  }

  lemma {:induction false} TakeUnitsBmpLength(s: string, n: nat)
    requires InBmp(s)
    ensures |TakeUnits(s, n)| == if |s| <= n then |s| else n
  {
    if s != [] && n > 0 {
      var t := s[1..];
      assert InBmp(t) by {
        assert forall i :: 0 <= i < |t| ==> t[i] == s[i + 1];
      }
      TakeUnitsBmpLength(t, n - 1);
      assert Units(s[0]) == 1;
    }
  }

  /** The `rel` flags. The source lower-cases the attribute with `toLowerCase` and searches for
      "nofollow", "ugc" and "sponsored". None of these contains 'i' or 'k', the only ASCII
      letters a non-ASCII character lower-cases into, so lower-casing ASCII letters alone
      decides the same tests. */
  predicate RelHas(rel: string, flag: string) {
    Contains(Lower(rel), flag)
  }

  /** One anchor of the map callback: `None` for a skipped or unresolvable href. `resolve` is
      `new URL(href, base).href`, `None` where that constructor throws. */
  function ToLink(a: Anchor, resolve: string -> Option<string>): Option<Link> {
    if Skipped(a.href) then None
    else match resolve(a.href)
      case None => None
      case Some(abs) =>
        Some(Link(TakeUnits(Trim(a.text), AnchorTextLimit), abs,
                  RelHas(a.rel, "nofollow"), RelHas(a.rel, "ugc"), RelHas(a.rel, "sponsored")))
  }

  /** `aEls.map(...).filter(Boolean)`: the links of the anchors that are kept, in page order. */
  function BuildLinks(anchors: seq<Anchor>, resolve: string -> Option<string>): seq<Link> {
    FilterMap(anchors, a => ToLink(a, resolve))
  }

  /** An anchor is kept exactly when its href is not skipped and resolves; the kept link points
      to the resolved URL, its text is the longest prefix of the trimmed text within the limit,
      and each flag is the substring test on the lower-cased `rel`. */
  lemma ToLinkSpec(a: Anchor, resolve: string -> Option<string>)
    ensures ToLink(a, resolve).Some? <==> !Skipped(a.href) && resolve(a.href).Some?
    ensures ToLink(a, resolve).Some? ==>
              var l := ToLink(a, resolve).value;
              l.destination == resolve(a.href).value
              && l.anchorText <= Trim(a.text)
              && Utf16Length(l.anchorText) <= AnchorTextLimit
              && (Utf16Length(Trim(a.text)) <= AnchorTextLimit ==> l.anchorText == Trim(a.text))
              && (l.anchorText != Trim(a.text) ==>
                    Utf16Length(l.anchorText) + Units(Trim(a.text)[|l.anchorText|]) > AnchorTextLimit)
              && (l.nofollow <==> RelHas(a.rel, "nofollow"))
              && (l.ugc <==> RelHas(a.rel, "ugc"))
              && (l.sponsored <==> RelHas(a.rel, "sponsored"))
  {
  }

  /** The link list of a concatenation is the concatenation of the link lists: links keep the
      anchors' page order. */
  lemma BuildLinksAppend(a: seq<Anchor>, b: seq<Anchor>, resolve: string -> Option<string>)
    ensures BuildLinks(a + b, resolve) == BuildLinks(a, resolve) + BuildLinks(b, resolve)
  {
    FilterMapAppend(a, b, a => ToLink(a, resolve));
  }

  /** Every link comes from a kept anchor, every kept anchor yields a link, and there are never
      more links than anchors. */
  lemma BuildLinksMembers(anchors: seq<Anchor>, resolve: string -> Option<string>)
    ensures |BuildLinks(anchors, resolve)| <= |anchors|
    ensures forall l :: l in BuildLinks(anchors, resolve) <==>
              exists a :: a in anchors && ToLink(a, resolve) == Some(l)
  {
    FilterMapMembers(anchors, a => ToLink(a, resolve));
  }

  /** Every kept anchor text fits in the limit. */
  lemma AnchorTextsBounded(anchors: seq<Anchor>, resolve: string -> Option<string>)
    ensures forall l :: l in BuildLinks(anchors, resolve) ==> Utf16Length(l.anchorText) <= AnchorTextLimit
  {
    BuildLinksMembers(anchors, resolve);
    forall l | l in BuildLinks(anchors, resolve)
      ensures Utf16Length(l.anchorText) <= AnchorTextLimit
    {
      var a :| a in anchors && ToLink(a, resolve) == Some(l);
      ToLinkSpec(a, resolve);
    }
  }

  /** A fragment, a `javascript:` URL and an empty href are dropped whatever the resolver does,
      while `JavaScript:` (not lower-case) is not skipped. */
  lemma SkippedExamples()
    ensures Skipped("") && Skipped("#top") && Skipped("javascript:void(0)")
    ensures !Skipped("JavaScript:void(0)") && !Skipped("/contato")
  {
    assert "#top"[..1] == "#";
    assert "javascript:void(0)"[..11] == "javascript:";
    assert "JavaScript:void(0)"[0] != "javascript:"[0];
  }

  /** The flags are substring tests on the lower-cased attribute: "NoFollow" and "nofollowed" set
      `nofollow`, "follow" does not, and "UGC" sets `ugc`. */
  lemma RelExamples()
    ensures RelHas("NoFollow", "nofollow") && RelHas("nofollowed", "nofollow")
    ensures !RelHas("follow", "nofollow") && RelHas("UGC", "ugc")
  {
    assert OccursAt(Lower("NoFollow"), "nofollow", 0) by {
      assert Lower("NoFollow") == "nofollow";
    }
    assert OccursAt(Lower("nofollowed"), "nofollow", 0) by {
      assert Lower("nofollowed")[..8] == "nofollow";
    }
    assert OccursAt(Lower("UGC"), "ugc", 0) by {
      assert Lower("UGC") == "ugc";
    }
  }

  // ---------------------------------------------------------------------------
  // The probe list
  // ---------------------------------------------------------------------------

  /** The most distinct destinations probed. */
  const ProbeCap: nat := 200

  function Destinations(links: seq<Link>): (d: seq<string>)
    ensures |d| == |links|
    ensures forall i :: 0 <= i < |links| ==> d[i] == links[i].destination
  {
    seq(|links|, i requires 0 <= i < |links| => links[i].destination)
  }

  /** `Array.from(new Set(s))`: the elements of `s` in the order a `Set` keeps them, the order
      in which each is first inserted. */
  function Distinct<T(==)>(s: seq<T>): seq<T> {
    if s == [] then []
    else
      var d := Distinct(s[..|s| - 1]);
      if s[|s| - 1] in d then d else d + [s[|s| - 1]]
  }

  /** The position where `x` first occurs in `s`. */
  function FirstIndex<T(==)>(s: seq<T>, x: T): (i: nat)
    requires x in s
    ensures i < |s| && s[i] == x
    ensures forall j :: 0 <= j < i ==> s[j] != x
  {
    if s[0] == x then 0 else 1 + FirstIndex(s[1..], x)
  }

  lemma FirstIndexUnique<T>(s: seq<T>, x: T, i: nat)
    requires i < |s| && s[i] == x
    requires forall j :: 0 <= j < i ==> s[j] != x
    ensures FirstIndex(s, x) == i
  {
  }

  /** `Distinct(s)` holds every element of `s` once, and lists them in order of first
      occurrence. */
  lemma {:induction false} DistinctSpec<T>(s: seq<T>)
    ensures NoDuplicates(Distinct(s))
    ensures |Distinct(s)| <= |s|
    ensures forall x :: x in Distinct(s) <==> x in s
    ensures forall i, j :: 0 <= i < j < |Distinct(s)| ==>
              FirstIndex(s, Distinct(s)[i]) < FirstIndex(s, Distinct(s)[j])
  {
    if s != [] {
      var init, x := s[..|s| - 1], s[|s| - 1];
      assert s == init + [x];
      DistinctSpec(init);
      var d := Distinct(init);
      forall y | y in init
        ensures FirstIndex(s, y) == FirstIndex(init, y)
      {
        FirstIndexUnique(s, y, FirstIndex(init, y));
      }
      if x !in d {
        FirstIndexUnique(s, x, |init|);
        var d' := d + [x];
        forall i, j | 0 <= i < j < |d'|
          ensures FirstIndex(s, d'[i]) < FirstIndex(s, d'[j])
        {
          if j < |d| {
            assert d'[i] == d[i] && d'[j] == d[j];
          } else {
            assert d'[i] == d[i] && d[i] in d;
          }
        }
      }
    }
  }

  /** `Array.from(new Set(links.map(l => l.destino_href))).slice(0, 200)` */
  function UniqueHrefs(links: seq<Link>): seq<string> {
    var d := Distinct(Destinations(links));
    if |d| <= ProbeCap then d else d[..ProbeCap]
  }

  /** The probe list has no repeated URL, at most 200 entries, only destinations of the links,
      and is a prefix of the destinations in order of first discovery; it holds all of them
      when there are at most 200 distinct ones and exactly 200 otherwise. */
  lemma UniqueHrefsSpec(links: seq<Link>)
    ensures NoDuplicates(UniqueHrefs(links))
    ensures |UniqueHrefs(links)| <= ProbeCap
    ensures UniqueHrefs(links) <= Distinct(Destinations(links))
    ensures forall h :: h in UniqueHrefs(links) ==> exists l :: l in links && l.destination == h
    ensures |Distinct(Destinations(links))| <= ProbeCap ==>
              forall l :: l in links ==> l.destination in UniqueHrefs(links)
    ensures |Distinct(Destinations(links))| > ProbeCap ==> |UniqueHrefs(links)| == ProbeCap
  {
    var dests := Destinations(links);
    DistinctSpec(dests);
    var d := Distinct(dests);
    var u := UniqueHrefs(links);
    forall h | h in u
      ensures exists l :: l in links && l.destination == h
    {
      assert h in d;
      var i :| 0 <= i < |dests| && dests[i] == h;
      assert links[i] in links;
    }
    forall l | l in links && |d| <= ProbeCap
      ensures l.destination in u
    {
      var i :| 0 <= i < |links| && links[i] == l;
      assert dests[i] in dests;
    }
  }

  // ---------------------------------------------------------------------------
  // The status table
  // ---------------------------------------------------------------------------

  /** What one `headOrGet` call returned: the final HTTP status (0 when the request failed or
      timed out) and whether it was a success. */
  datatype Probe = Probe(status: int, ok: bool)

  /** The sequential loop that probes every URL of the list, in order, and records the result
      under the URL. `probe(h)` is the outcome of probing `h`. */
  method CheckAll(uniq: seq<string>, probe: string -> Probe) returns (statuses: map<string, Probe>)
    ensures statuses.Keys == Elements(uniq)
    ensures forall h :: h in statuses ==> statuses[h] == probe(h)
  {
    statuses := map[];
    for k := 0 to |uniq|
      invariant statuses.Keys == Elements(uniq[..k])
      invariant forall h :: h in statuses ==> statuses[h] == probe(h)
    {
      assert uniq[..k + 1] == uniq[..k] + [uniq[k]];
      statuses := statuses[uniq[k] := probe(uniq[k])];
    }
    assert uniq[..|uniq|] == uniq;
  }

  // ---------------------------------------------------------------------------
  // Classification and verdicts
  // ---------------------------------------------------------------------------

  datatype Kind = Interno | Externo

  /** The `status_http` field: a status code, or the empty string. */
  datatype HttpStatus = NoStatus | Code(code: int)

  datatype EnrichedLink = EnrichedLink(link: Link, kind: Kind, status: HttpStatus, broken: bool)

  /** `host.replace(/^www\./, '')`: one leading "www." removed, if present. */
  function StripWww(host: string): (h: string)
    ensures StartsWith(host, "www.") ==> host == "www." + h
    ensures !StartsWith(host, "www.") ==> h == host
  {
    if StartsWith(host, "www.") then host[4..] else host
  }

  /** The entry of the status table for a destination, or `{status: '', ok: true}` when the
      destination was not probed. */
  function Lookup(statuses: map<string, Probe>, dest: string): (HttpStatus, bool) {
    if dest in statuses then
      var st := statuses[dest];
      (if st.status == 0 then NoStatus else Code(st.status), st.ok)
    else (NoStatus, true)
  }

  /** The per-link step of `links.map(...)`. `pageHost` is the page's host with "www." removed;
      `hostname` is the `hostname` of a URL that `new URL` produced. */
  function Enrich(l: Link, statuses: map<string, Probe>, pageHost: string, hostname: string -> string): EnrichedLink {
    var (status, ok) := Lookup(statuses, l.destination);
    var kind := if StripWww(hostname(l.destination)) == pageHost then Interno else Externo;
    EnrichedLink(l, kind, status, !ok)
  }

  function EnrichAll(links: seq<Link>, statuses: map<string, Probe>, pageHost: string, hostname: string -> string): (es: seq<EnrichedLink>)
    ensures |es| == |links|
    ensures forall i :: 0 <= i < |links| ==> es[i] == Enrich(links[i], statuses, pageHost, hostname)
  {
    seq(|links|, i requires 0 <= i < |links| => Enrich(links[i], statuses, pageHost, hostname))
  }

  /** A link's verdict: it is internal exactly when its host, with one leading "www." removed,
      is the page's; it is broken exactly when its destination was probed and the probe failed;
      its status is the probed code, empty for an unprobed destination or a failed request. */
  lemma EnrichSpec(l: Link, statuses: map<string, Probe>, pageHost: string, hostname: string -> string)
    ensures var e := Enrich(l, statuses, pageHost, hostname);
              e.link == l
              && (e.kind == Interno <==> StripWww(hostname(l.destination)) == pageHost)
              && (e.broken <==> l.destination in statuses && !statuses[l.destination].ok)
              && (e.status == NoStatus <==> l.destination !in statuses || statuses[l.destination].status == 0)
              && (e.status.Code? ==> e.status.code == statuses[l.destination].status)
  {
  }

  /** Links with the same destination get the same classification, status and verdict. */
  lemma SameDestinationSameVerdict(l1: Link, l2: Link, statuses: map<string, Probe>, pageHost: string, hostname: string -> string)
    requires l1.destination == l2.destination
    ensures var e1, e2 := Enrich(l1, statuses, pageHost, hostname), Enrich(l2, statuses, pageHost, hostname);
              e1.kind == e2.kind && e1.status == e2.status && e1.broken == e2.broken
  {
  }

  /** Only one "www." is removed: "www.www.example.com" is external on "example.com", while
      "www.example.com" is internal on it. */
  lemma WwwStrippedOnce()
    ensures StripWww("www.www.example.com") == "www.example.com"
    ensures StripWww("www.www.example.com") != StripWww("example.com")
    ensures StripWww("www.example.com") == StripWww("example.com")
  {
    assert "www.www.example.com"[..4] == "www.";
    assert "www.example.com"[..4] == "www.";
    assert "example.com"[..4][0] != "www."[0];
  }

  /** With the table built from the probe list, a link whose destination fell beyond the cap
      keeps the default entry: no status and not broken; when there are at most 200 distinct
      destinations every link's verdict is its probe's. */
  lemma CapAndVerdicts(links: seq<Link>, statuses: map<string, Probe>, pageHost: string, hostname: string -> string)
    requires statuses.Keys == Elements(UniqueHrefs(links))
    ensures forall l :: l in links && l.destination !in UniqueHrefs(links) ==>
              Enrich(l, statuses, pageHost, hostname).status == NoStatus && !Enrich(l, statuses, pageHost, hostname).broken
    ensures |Distinct(Destinations(links))| <= ProbeCap ==>
              forall l :: l in links ==> l.destination in statuses
    ensures |Distinct(Destinations(links))| > ProbeCap ==>
              exists l :: l in links && l.destination !in statuses
  {
    UniqueHrefsSpec(links);
    var dests := Destinations(links);
    var d := Distinct(dests);
    DistinctSpec(dests);
    if |d| > ProbeCap {
      var h := d[ProbeCap];
      assert forall k :: 0 <= k < ProbeCap ==> d[..ProbeCap][k] != h;
      assert h in dests;
      var i :| 0 <= i < |dests| && dests[i] == h;
      assert links[i] in links && links[i].destination !in statuses;
    }
  }

  // ---------------------------------------------------------------------------
  // Aggregate counts
  // ---------------------------------------------------------------------------

  /** `es.filter(p).length` */
  function CountWhere(es: seq<EnrichedLink>, p: EnrichedLink -> bool): (n: nat)
    ensures n <= |es|
  {
    if es == [] then 0 else (if p(es[0]) then 1 else 0) + CountWhere(es[1..], p)
  }

  predicate IsInterno(e: EnrichedLink) { e.kind == Interno }
  predicate IsExterno(e: EnrichedLink) { e.kind == Externo }
  predicate IsNofollow(e: EnrichedLink) { e.link.nofollow }
  predicate IsBroken(e: EnrichedLink) { e.broken }

  function Internos(es: seq<EnrichedLink>): nat { CountWhere(es, IsInterno) }
  function Externos(es: seq<EnrichedLink>): nat { CountWhere(es, IsExterno) }
  /** Counts every nofollow link, internal ones included. */
  function Nofollows(es: seq<EnrichedLink>): nat { CountWhere(es, IsNofollow) }
  function Quebrados(es: seq<EnrichedLink>): nat { CountWhere(es, IsBroken) }

  /** A predicate and its negation split the list. */
  lemma {:induction false} CountWhereSplit(es: seq<EnrichedLink>, p: EnrichedLink -> bool, q: EnrichedLink -> bool)
    requires forall e :: p(e) != q(e)
    ensures CountWhere(es, p) + CountWhere(es, q) == |es|
  {
    if es != [] {
      CountWhereSplit(es[1..], p, q);
    }
  }

  /** `CountWhere` is zero exactly when no element satisfies the predicate. */
  lemma {:induction false} CountWhereZero(es: seq<EnrichedLink>, p: EnrichedLink -> bool)
    ensures CountWhere(es, p) == 0 <==> forall i :: 0 <= i < |es| ==> !p(es[i])
  {
    if es != [] {
      CountWhereZero(es[1..], p);
      assert forall i :: 1 <= i < |es| ==> es[1..][i - 1] == es[i];
    }
  }

  /** Every link is internal or external, never both; the other counts are bounded by the
      number of links; nothing is broken exactly when no link's verdict is broken. */
  lemma CountsSpec(es: seq<EnrichedLink>)
    ensures Internos(es) + Externos(es) == |es|
    ensures Nofollows(es) <= |es| && Quebrados(es) <= |es|
    ensures Quebrados(es) == 0 <==> forall i :: 0 <= i < |es| ==> !es[i].broken
  {
    CountWhereSplit(es, IsInterno, IsExterno);
    CountWhereZero(es, IsBroken);
  }
}
