/** `web_research_report` of src/agents/search/tools.py over a given search
    response: result ordering, the per-result source lines, quotes and
    bullets, and the assembled Markdown report. */
module SearchReport {
  import opened Text
  import opened Json
  import opened SearchText

  /** What stays abstract: `str()` of a non-string value, the lowercased
      network location `_domain_of` reads with `urlparse`, and `float()` on
      a string. */
  datatype SearchEnv = SearchEnv(show: Json -> string, domainOf: Json -> string, parseFloat: string -> Option<real>)

  /** What the loop reads from one result. */
  datatype Entry = Entry(title: string, url: string, dom: string, text: string)

  function EntryOf(r: map<string, Json>, env: SearchEnv): Entry {
    var title := Or(Or(Get(r, "title"), Get(r, "name")), JStr("Sans titre"));
    var url := Or(Or(Get(r, "url"), Get(r, "link")), JStr(""));
    var dom := env.domainOf(url);
    Entry(Str(title, env.show), Str(url, env.show), if dom != "" then dom else "source", FirstMeaningfulText(r))
  }

  const QuoteChars: nat := 700
  const AnswerChars: nat := 550
  const BulletChars: nat := 220

  function SourceLine(idx: nat, e: Entry): string {
    NatToString(idx) + ". **" + e.title + "** — _" + e.dom + "_  \n   " + e.url
  }

  function QuoteBlock(idx: nat, e: Entry): string {
    "### [" + NatToString(idx) + "] " + e.title + " (" + e.dom + ")\n\n> "
    + ClipForQuote(e.text, QuoteChars) + "\n\nLien : " + e.url + "\n"
  }

  function BulletLine(idx: nat, e: Entry): string {
    "- (" + NatToString(idx) + ") " + BulletFromText(e.text, BulletChars) + "  \n"
  }

  /** The three lists the loop fills. */
  datatype Sections = Sections(sources: seq<string>, quotes: seq<string>, bullets: seq<string>)

  /** The source lines after the loop has seen `rs`, numbering from 1. */
  function SourcesOf(rs: seq<map<string, Json>>, env: SearchEnv): seq<string> {
    if rs == [] then []
    else SourcesOf(rs[..|rs| - 1], env) + [SourceLine(|rs|, EntryOf(rs[|rs| - 1], env))]
  }

  predicate HasText(r: map<string, Json>, env: SearchEnv) {
    EntryOf(r, env).text != ""
  }

  /** The quote blocks after the loop has seen `rs`. */
  function QuotesOf(rs: seq<map<string, Json>>, env: SearchEnv): seq<string> {
    if rs == [] then []
    else
      QuotesOf(rs[..|rs| - 1], env)
      + (if HasText(rs[|rs| - 1], env) then [QuoteBlock(|rs|, EntryOf(rs[|rs| - 1], env))] else [])
  }

  /** The bullets after the loop has seen `rs`. */
  function BulletsOf(rs: seq<map<string, Json>>, quoteOnly: bool, env: SearchEnv): seq<string> {
    if rs == [] then []
    else
      BulletsOf(rs[..|rs| - 1], quoteOnly, env)
      + (if HasText(rs[|rs| - 1], env) && !quoteOnly then [BulletLine(|rs|, EntryOf(rs[|rs| - 1], env))] else [])
  }

  function SectionsOf(rs: seq<map<string, Json>>, quoteOnly: bool, env: SearchEnv): Sections {
    Sections(SourcesOf(rs, env), QuotesOf(rs, env), BulletsOf(rs, quoteOnly, env))
  }

  /** The `for idx, r in enumerate(results, start=1)` loop. */
  method CollectSections(rs: seq<map<string, Json>>, quoteOnly: bool, env: SearchEnv)
    returns (sources: seq<string>, quotes: seq<string>, bullets: seq<string>)
    ensures Sections(sources, quotes, bullets) == SectionsOf(rs, quoteOnly, env)
  {
    sources, quotes, bullets := [], [], [];
    var i := 0;
    while i < |rs|
      invariant 0 <= i <= |rs|
      invariant sources == SourcesOf(rs[..i], env)
      invariant quotes == QuotesOf(rs[..i], env)
      invariant bullets == BulletsOf(rs[..i], quoteOnly, env)
    {
      assert rs[..i + 1][..i] == rs[..i];
      var idx := i + 1;
      var e := EntryOf(rs[i], env);
      sources := sources + [SourceLine(idx, e)];
      if e.text != "" {
        quotes := quotes + [QuoteBlock(idx, e)];
        if !quoteOnly {
          bullets := bullets + [BulletLine(idx, e)];
        }
      }
      i := i + 1;
    }
    assert rs[..i] == rs;
  }

  /** Every result gets one source line, numbered from 1 in list order. */
  lemma {:induction false} SourcesNumbered(rs: seq<map<string, Json>>, env: SearchEnv)
    ensures |SourcesOf(rs, env)| == |rs|
    ensures forall i :: 0 <= i < |rs| ==> SourcesOf(rs, env)[i] == SourceLine(i + 1, EntryOf(rs[i], env))
  {
    if rs != [] {
      var init := rs[..|rs| - 1];
      SourcesNumbered(init, env);
      var s0 := SourcesOf(init, env);
      var last := SourceLine(|rs|, EntryOf(rs[|rs| - 1], env));
      assert SourcesOf(rs, env) == s0 + [last];
      forall i | 0 <= i < |rs| ensures SourcesOf(rs, env)[i] == SourceLine(i + 1, EntryOf(rs[i], env)) {
        if i < |init| {
          assert init[i] == rs[i];
        }
      }
    }
  }

  /** A quote block exists exactly for the results with text, and bullets
      only when quotes are not the only content, one per quote. */
  lemma {:induction false} QuotesAndBullets(rs: seq<map<string, Json>>, quoteOnly: bool, env: SearchEnv)
    ensures QuotesOf(rs, env) == [] <==> forall i :: 0 <= i < |rs| ==> !HasText(rs[i], env)
    ensures |QuotesOf(rs, env)| <= |rs|
    ensures quoteOnly ==> BulletsOf(rs, quoteOnly, env) == []
    ensures !quoteOnly ==> |BulletsOf(rs, quoteOnly, env)| == |QuotesOf(rs, env)|
  {
    if rs != [] {
      var init := rs[..|rs| - 1];
      QuotesAndBullets(init, quoteOnly, env);
      if QuotesOf(rs, env) == [] {
        assert QuotesOf(init, env) == [];
        forall i | 0 <= i < |rs| ensures !HasText(rs[i], env) {
          if i < |init| { assert init[i] == rs[i]; }
        }
      } else if QuotesOf(init, env) != [] {
        var k :| 0 <= k < |init| && HasText(init[k], env);
        assert rs[k] == init[k];
      }
    }
  }

  /** Each source line opens with its number. */
  lemma SourceLineNumbered(idx: nat, e: Entry)
    ensures StartsWith(SourceLine(idx, e), NatToString(idx) + ". **")
  {
    var p := NatToString(idx) + ". **";
    assert SourceLine(idx, e)[..|p|] == p;
  }

  // ---- assembly ----

  const ReportTitle := "# Réponse"
  const AnswerTitle := "## Résumé rapide (synthèse Tavily)"
  const SourcesTitle := "## Sources consultées"
  const QuotesTitle := "## Extraits clés (citations)"
  const PointsTitle := "## Points à retenir " + "(formulations prudentes)"
  const NoSources := "_Aucune source exploitable " + "n’a été trouvée pour cette requête._"

  function Heading(query: string): string {
    ReportTitle + "\n\n**Requête :** _" + query
    + "_\n\n> Ce rapport compile **uniquement** des informations extraites des sources citées ci-dessous. Aucune information n’est inventée."
  }

  /** `answer_md`: the dedented block, stripped, around the clipped answer
      (which, being normalised, holds no newline and ends in no whitespace),
      or "" without a non-blank string answer. */
  function AnswerMd(data: map<string, Json>): string {
    var ans := Get(data, "answer");
    if ans.JStr? && Strip(ans.s) != "" then AnswerTitle + "\n> " + ClipForQuote(ans.s, AnswerChars) else ""
  }

  function SourcesPart(s: Sections): string {
    SourcesTitle + "\n" + Join(s.sources, "\n")
  }

  function QuotesPart(s: Sections): string {
    QuotesTitle + "\n" + Join(s.quotes, "\n\n")
  }

  function PointsPart(s: Sections): string {
    PointsTitle + "\n" + Join(s.bullets, "\n")
  }

  /** `md_parts`. */
  function ReportParts(heading: string, answer: string, s: Sections, quoteOnly: bool): seq<string> {
    [heading]
    + (if answer != "" then [answer] else [])
    + (if s.sources != [] then [SourcesPart(s)] else [])
    + (if s.quotes != [] then [QuotesPart(s)] else [])
    + (if !quoteOnly && s.bullets != [] then [PointsPart(s)] else [])
    + (if s.sources == [] && s.quotes == [] then [NoSources] else [])
  }

  /** The tool's outcome: the Markdown, or an exception. */
  datatype Report = Report(md: string) | Raised

  predicate AllObjects(rs: seq<Json>) {
    forall i :: 0 <= i < |rs| ==> rs[i].JObj?
  }

  function FieldsOf(rs: seq<Json>): (ds: seq<map<string, Json>>)
    requires AllObjects(rs)
    ensures |ds| == |rs| && forall i :: 0 <= i < |rs| ==> ds[i] == rs[i].fields
  {
    if rs == [] then [] else FieldsOf(rs[..|rs| - 1]) + [rs[|rs| - 1].fields]
  }

  /** The results the loop runs over: sorted by `_score`, highest first,
      then cut to `max_results`; `None` when a result is not a dict, since
      `_score` then raises. */
  function Ranked(data: Json, maxResults: int, env: SearchEnv): Option<seq<map<string, Json>>> {
    var rs := EnsureList(data);
    if !AllObjects(rs) then None
    else
      var key := (r: Json) => Score(r, env.parseFloat);
      var sorted := SortDesc(rs, key);
      SortDescCorrect(rs, key);
      assert AllObjects(sorted) by {
        forall i | 0 <= i < |sorted| ensures sorted[i].JObj? {
          assert sorted[i] in multiset(rs);
        }
      }
      Some(FieldsOf(SliceTo(sorted, maxResults)))
  }

  /** `web_research_report(query, max_results, quote_only, include_answer)`
      given the search response `data`. */
  function ReportOf(query: string, maxResults: int, quoteOnly: bool, includeAnswer: bool, data: Json, env: SearchEnv): Report {
    match Ranked(data, maxResults, env)
    case None => Raised
    case Some(rs) =>
      if includeAnswer && !data.JObj? then Raised
      else
        var answer := if includeAnswer then AnswerMd(data.fields) else "";
        Report(Strip(Join(ReportParts(Heading(query), answer, SectionsOf(rs, quoteOnly, env), quoteOnly), "\n\n")))
  }

  /** The tool body after the search call: rank, loop, assemble. */
  method WebResearchReport(query: string, maxResults: int, quoteOnly: bool, includeAnswer: bool, data: Json, env: SearchEnv)
    returns (r: Report)
    ensures r == ReportOf(query, maxResults, quoteOnly, includeAnswer, data, env)
  {
    var ranked := Ranked(data, maxResults, env);
    if ranked.None? {
      return Raised;
    }
    var sources, quotes, bullets := CollectSections(ranked.value, quoteOnly, env);
    var answer := "";
    if includeAnswer {
      if !data.JObj? {
        return Raised;
      }
      answer := AnswerMd(data.fields);
    }
    var md := AssembleReport(Heading(query), answer, Sections(sources, quotes, bullets), quoteOnly);
    r := Report(md);
  }

  /** Building `md_parts` and joining it. */
  method AssembleReport(heading: string, answer: string, sections: Sections, quoteOnly: bool) returns (md: string)
    ensures md == Strip(Join(ReportParts(heading, answer, sections, quoteOnly), "\n\n"))
  {
    var parts := [heading];
    parts := parts + (if answer != "" then [answer] else []);
    parts := parts + (if sections.sources != [] then [SourcesPart(sections)] else []);
    parts := parts + (if sections.quotes != [] then [QuotesPart(sections)] else []);
    parts := parts + (if !quoteOnly && sections.bullets != [] then [PointsPart(sections)] else []);
    parts := parts + (if sections.sources == [] && sections.quotes == [] then [NoSources] else []);
    md := Strip(Join(parts, "\n\n"));
  }

  /** The tool raises exactly when a result is not a dict or the answer is
      asked of a response that is not a dict. */
  lemma RaisesIff(query: string, maxResults: int, quoteOnly: bool, includeAnswer: bool, data: Json, env: SearchEnv)
    ensures ReportOf(query, maxResults, quoteOnly, includeAnswer, data, env).Raised?
      <==> !AllObjects(EnsureList(data)) || (includeAnswer && !data.JObj?)
  {
  }

  /** The report always opens with "# Réponse". */
  lemma ReportStartsWithHeading(heading: string, answer: string, s: Sections, quoteOnly: bool)
    requires StartsWith(heading, ReportTitle)
    ensures StartsWith(Strip(Join(ReportParts(heading, answer, s, quoteOnly), "\n\n")), ReportTitle)
  {
    var parts := ReportParts(heading, answer, s, quoteOnly);
    var j := Join(parts, "\n\n");
    JoinStartsWith(parts, "\n\n");
    assert j[..|ReportTitle|] == heading[..|ReportTitle|];
    assert ReportTitle[0] == '#' && ReportTitle[|ReportTitle| - 1] == 'e';
    StripKeepsPrefix(j, ReportTitle);
  }

  /** The heading block opens with the report title. */
  lemma HeadingOpensWithTitle(query: string)
    ensures StartsWith(Heading(query), ReportTitle)
  {
    assert Heading(query)[..|ReportTitle|] == ReportTitle;
  }

  /** The parts that open with a section title. */
  predicate HasSection(parts: seq<string>, title: string) {
    exists k :: 0 <= k < |parts| && StartsWith(parts[k], title)
  }

  /** Which sections the report holds: the sources and the "no source"
      notice exclude each other, quotes need text, and the points section
      needs `quote_only` off and text. */
  lemma SectionsPresent(heading: string, answer: string, s: Sections, quoteOnly: bool)
    requires StartsWith(heading, ReportTitle)
    requires answer == "" || StartsWith(answer, AnswerTitle)
    ensures var parts := ReportParts(heading, answer, s, quoteOnly);
      (HasSection(parts, SourcesTitle) <==> s.sources != [])
      && (HasSection(parts, QuotesTitle) <==> s.quotes != [])
      && (HasSection(parts, PointsTitle) <==> !quoteOnly && s.bullets != [])
      && (NoSources in parts <==> s.sources == [] && s.quotes == [])
  {
    var parts := ReportParts(heading, answer, s, quoteOnly);
    Leads(s);
    forall t | t in {SourcesTitle, QuotesTitle, PointsTitle} && HasSection(parts, t)
      ensures t == SourcesTitle ==> s.sources != []
      ensures t == QuotesTitle ==> s.quotes != []
      ensures t == PointsTitle ==> !quoteOnly && s.bullets != []
    {
      var k :| 0 <= k < |parts| && StartsWith(parts[k], t);
      assert parts[k][..4] == t[..4] by {
        assert parts[k][..4] == parts[k][..|t|][..4];
      }
      PartLead(heading, answer, s, quoteOnly, parts[k]);
    }
    if s.sources != [] {
      PartPresent(parts, SourcesPart(s), SourcesTitle);
    }
    if s.quotes != [] {
      PartPresent(parts, QuotesPart(s), QuotesTitle);
    }
    if !quoteOnly && s.bullets != [] {
      PartPresent(parts, PointsPart(s), PointsTitle);
    }
    if NoSources in parts {
      PartLead(heading, answer, s, quoteOnly, NoSources);
    }
  }

  /** The first four characters of each kind of part. */
  lemma Leads(s: Sections)
    ensures |ReportTitle| >= 4 && ReportTitle[..4] == "# Ré"
    ensures StartsWith(SourcesPart(s), SourcesTitle) && SourcesTitle[..4] == "## S"
    ensures StartsWith(QuotesPart(s), QuotesTitle) && QuotesTitle[..4] == "## E"
    ensures StartsWith(PointsPart(s), PointsTitle) && PointsTitle[..4] == "## P"
    ensures |AnswerTitle| >= 4 && AnswerTitle[..4] == "## R"
    ensures |NoSources| >= 4 && NoSources[..4] == "_Auc"
  {
    assert SourcesPart(s)[..|SourcesTitle|] == SourcesTitle;
    assert QuotesPart(s)[..|QuotesTitle|] == QuotesTitle;
    assert PointsPart(s)[..|PointsTitle|] == PointsTitle;
    assert PointsTitle[..4] == "## Points à retenir "[..4];
    assert NoSources[..4] == "_Aucune source exploitable "[..4];
  }

  /** A part's first four characters tell which part it is. */
  lemma PartLead(heading: string, answer: string, s: Sections, quoteOnly: bool, p: string)
    requires StartsWith(heading, ReportTitle)
    requires answer == "" || StartsWith(answer, AnswerTitle)
    requires p in ReportParts(heading, answer, s, quoteOnly)
    ensures |p| >= 4
    ensures p[..4] == "## S" ==> s.sources != []
    ensures p[..4] == "## E" ==> s.quotes != []
    ensures p[..4] == "## P" ==> !quoteOnly && s.bullets != []
    ensures p[..4] == "_Auc" ==> s.sources == [] && s.quotes == []
  {
    PartsOrigin(heading, answer, s, quoteOnly, p);
    Leads(s);
    if p == heading {
      assert p[..4] == ReportTitle[..4];
    } else if p == answer && answer != "" {
      assert p[..4] == AnswerTitle[..4];
    } else if p == SourcesPart(s) {
      assert p[..4] == SourcesTitle[..4];
    } else if p == QuotesPart(s) {
      assert p[..4] == QuotesTitle[..4];
    } else if p == PointsPart(s) {
      assert p[..4] == PointsTitle[..4];
    }
  }

  lemma PartPresent(parts: seq<string>, p: string, title: string)
    requires p in parts && StartsWith(p, title)
    ensures HasSection(parts, title)
  {
    var k :| 0 <= k < |parts| && parts[k] == p;
  }

  /** Where each part comes from. */
  lemma PartsOrigin(heading: string, answer: string, s: Sections, quoteOnly: bool, p: string)
    requires p in ReportParts(heading, answer, s, quoteOnly)
    ensures p == heading || (p == answer && answer != "")
      || (p == SourcesPart(s) && s.sources != [])
      || (p == QuotesPart(s) && s.quotes != [])
      || (p == PointsPart(s) && !quoteOnly && s.bullets != [])
      || (p == NoSources && s.sources == [] && s.quotes == [])
  {
  }
}
