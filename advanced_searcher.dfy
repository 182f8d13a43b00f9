/**
 * The advanced searcher: which search results are training opportunities, what a
 * lead record takes from a result (organization, estimated deadline, tier), the
 * extraction loop, the search over the query list and the final de-duplication and
 * sort.
 *
 * The search engines enter as the parsed results they give for a query; the
 * environment's API keys as the constructor's `env`; today's day number and its
 * date text as `today` and `dateText`.
 */
module AdvancedSearcher {
  import opened Wrappers
  import opened Strings
  import opened Collections
  import opened Ordering
  import opened Tiers
  import opened Runs

  /** A parsed search result; each of its entries may be missing. */
  datatype SearchHit = SearchHit(title: Option<string>, snippet: Option<string>, link: Option<string>)

  /** `result.get('title', '')`. */
  function TitleOf(h: SearchHit): string {
    h.title.GetOr("")
  }

  /** `result.get('snippet', '')`. */
  function SnippetOf(h: SearchHit): string {
    h.snippet.GetOr("")
  }

  /** The lowered title and snippet the opportunity test reads. */
  function HitText(h: SearchHit): string {
    Lower(TitleOf(h) + " " + SnippetOf(h))
  }

  /** The lowered snippet the deadline and tier rules read. */
  function LowSnippet(h: SearchHit): string {
    Lower(SnippetOf(h))
  }

  // ---------------------------------------------------------------------------
  // The opportunity test
  // ---------------------------------------------------------------------------

  /** The indicators as written; the fifth, "RFP", is upper case. */
  const IndicatorsAsWritten: seq<string> := [
    "grant recipient", "awarded funding", "training program", "seeking providers", "RFP", "tender",
    "mandatory training", "digital transformation", "system implementation", "compliance deadline",
    "certification required"]

  /** The indicators with the fifth lowered to "rfp", as the test on lowered text needs. */
  const Indicators: seq<string> := IndicatorsAsWritten[4 := "rfp"]

  /** `_is_training_opportunity` as written. */
  predicate IsTrainingOpportunityAsWritten(h: SearchHit) {
    ContainsAny(HitText(h), IndicatorsAsWritten)
  }

  /** `_is_training_opportunity` with the indicator that can match. */
  predicate IsTrainingOpportunity(h: SearchHit) {
    ContainsAny(HitText(h), Indicators)
  }

  /** The text tested is lowered, so "RFP" never occurs in it. */
  lemma RfpNeverMatches(h: SearchHit)
    ensures !Contains(HitText(h), IndicatorsAsWritten[4])
  {
    LowerMissesUpper(TitleOf(h) + " " + SnippetOf(h), "RFP", 0);
  }

  /** The intended test accepts what the written one accepts and, besides, every text mentioning an rfp. */
  lemma IntendedTestExtends(h: SearchHit)
    ensures IsTrainingOpportunity(h) <==> IsTrainingOpportunityAsWritten(h) || Contains(HitText(h), "rfp")
  {
    RfpNeverMatches(h);
    assert forall k :: 0 <= k < |Indicators| && k != 4 ==> Indicators[k] == IndicatorsAsWritten[k];
    assert Indicators[4] == "rfp";
    if IsTrainingOpportunity(h) && !Contains(HitText(h), "rfp") {
      var k :| 0 <= k < |Indicators| && Contains(HitText(h), Indicators[k]);
      assert Contains(HitText(h), IndicatorsAsWritten[k]);
    }
    if IsTrainingOpportunityAsWritten(h) {
      var k :| 0 <= k < |IndicatorsAsWritten| && Contains(HitText(h), IndicatorsAsWritten[k]);
      assert Contains(HitText(h), Indicators[k]);
    }
  }

  /** A result titled "RFP" and nothing else is missed as written and found as intended. */
  lemma RfpTitleMissedAsWritten()
    ensures !IsTrainingOpportunityAsWritten(SearchHit(Some("RFP"), None, None))
    ensures IsTrainingOpportunity(SearchHit(Some("RFP"), None, None))
  {
    var h := SearchHit(Some("RFP"), None, None);
    assert HitText(h) == "rfp ";
    assert OccursAt(HitText(h), "rfp", 0);
    RfpNeverMatches(h);
    forall k | 0 <= k < |IndicatorsAsWritten| && k != 4
      ensures !Contains(HitText(h), IndicatorsAsWritten[k])
    {
      assert |IndicatorsAsWritten[k]| > 4;
    }
    IntendedTestExtends(h);
  }

  // ---------------------------------------------------------------------------
  // What a lead record takes from a result
  // ---------------------------------------------------------------------------

  /** `_extract_organization`: the stripped text before the first hyphen of the title, if it has one. */
  function ExtractOrganization(h: SearchHit): (r: string)
    ensures '-' in TitleOf(h) ==> r == Strip(Before(TitleOf(h), '-')) && '-' !in r
    ensures '-' !in TitleOf(h) ==> r == "Unknown Organization"
  {
    var title := TitleOf(h);
    if '-' in title then
      var r := Strip(Split(title, '-')[0]);
      assert forall k :: 0 <= k < |r| ==> r[k] in Before(title, '-');
      r
    else "Unknown Organization"
  }

  const UrgentWords: seq<string> := ["urgent", "immediate", "asap"]
  const SoonWords: seq<string> := ["deadline", "by july", "summer"]

  /** The offset `_estimate_deadline` picks: 14, 30, 60 or 45 days, by the first keyword group that matches. */
  function DeadlineDays(h: SearchHit): (days: int)
    ensures days == 14 <==> ContainsAny(LowSnippet(h), UrgentWords)
    ensures days == 30 <==> !ContainsAny(LowSnippet(h), UrgentWords) && ContainsAny(LowSnippet(h), SoonWords)
    ensures days == 60 <==> !ContainsAny(LowSnippet(h), UrgentWords) && !ContainsAny(LowSnippet(h), SoonWords)
                            && (Contains(LowSnippet(h), "q3") || Contains(LowSnippet(h), "fall"))
    ensures days == 14 || days == 30 || days == 60 || days == 45
  {
    var s := LowSnippet(h);
    if ContainsAny(s, UrgentWords) then 14
    else if ContainsAny(s, SoonWords) then 30
    else if Contains(s, "q3") || Contains(s, "fall") then 60
    else 45
  }

  /** `_estimate_deadline`: the date that many days from today. */
  function EstimateDeadline(h: SearchHit, today: int, dateText: int -> string): (s: string)
    ensures s in {dateText(today + 14), dateText(today + 30), dateText(today + 60), dateText(today + 45)}
    ensures ContainsAny(LowSnippet(h), UrgentWords) ==> s == dateText(today + 14)
    ensures !ContainsAny(LowSnippet(h), UrgentWords) && ContainsAny(LowSnippet(h), SoonWords) ==> s == dateText(today + 30)
    ensures !ContainsAny(LowSnippet(h), UrgentWords) && !ContainsAny(LowSnippet(h), SoonWords)
            && (Contains(LowSnippet(h), "q3") || Contains(LowSnippet(h), "fall"))
            ==> s == dateText(today + 60)
    ensures !ContainsAny(LowSnippet(h), UrgentWords) && !ContainsAny(LowSnippet(h), SoonWords)
            && !Contains(LowSnippet(h), "q3") && !Contains(LowSnippet(h), "fall")
            ==> s == dateText(today + 45)
  {
    dateText(today + DeadlineDays(h))
  }

  const Tier1Words: seq<string> := ["urgent", "immediate", "deadline approaching"]
  const Tier2Words: seq<string> := ["new", "announced", "launching"]

  /** `_calculate_tier`: the Tier 1 words first, then the Tier 2 words, else Tier 3. */
  function CalculateTier(h: SearchHit): (t: Tier)
    ensures t == Urgent <==> ContainsAny(LowSnippet(h), Tier1Words)
    ensures t == HighPriority <==> !ContainsAny(LowSnippet(h), Tier1Words) && ContainsAny(LowSnippet(h), Tier2Words)
  {
    var s := LowSnippet(h);
    if ContainsAny(s, Tier1Words) then Urgent
    else if ContainsAny(s, Tier2Words) then HighPriority
    else Standard
  }

  /** An urgent or immediate snippet is both Tier 1 and given the nearest deadline. */
  lemma UrgentSnippetIsSoonest(h: SearchHit)
    requires Contains(LowSnippet(h), "urgent") || Contains(LowSnippet(h), "immediate")
    ensures CalculateTier(h) == Urgent && DeadlineDays(h) == 14
  {
    if Contains(LowSnippet(h), "urgent") {
      assert Contains(LowSnippet(h), UrgentWords[0]) && Contains(LowSnippet(h), Tier1Words[0]);
    } else {
      assert Contains(LowSnippet(h), UrgentWords[1]) && Contains(LowSnippet(h), Tier1Words[1]);
    }
  }

  /** "new" is matched as a substring, so a snippet about news, with no Tier 1 word, is Tier 2. */
  lemma NewsIsHighPriority(h: SearchHit)
    requires Contains(LowSnippet(h), "news") && !ContainsAny(LowSnippet(h), Tier1Words)
    ensures CalculateTier(h) == HighPriority
  {
    assert OccursAt("news", "new", 0);
    ContainsTransitive(LowSnippet(h), "news", "new");
    assert Contains(LowSnippet(h), Tier2Words[0]);
  }

  /** A lead record. */
  datatype Lead = Lead(organization: string, opportunity: string, deadline: string, tier: string, contact: string,
                       source: string, status: string, notes: string, dateFound: string)

  function OpportunityOf(l: Lead): string {
    l.opportunity
  }

  /**
   * The record of a result, `contactOf` giving its contact. The entries are built in
   * order: `result['title']` raises KeyError on a result without a title, and
   * `result['link']` on one without a link.
   */
  function LeadOf(h: SearchHit, contactOf: SearchHit -> string, today: int, dateText: int -> string): (r: Result<Lead>)
    ensures r.Ok? <==> h.title.Some? && h.link.Some?
    ensures r.Err? ==> r.error == KeyError
    ensures r.Ok? ==> r.value.status == "New" && |r.value.notes| <= 200 && r.value.opportunity == h.title.value
                      && r.value.tier == Label(CalculateTier(h)) && r.value.source == h.link.value
    ensures r.Ok? ==> r.value.organization == ExtractOrganization(h) && r.value.deadline == EstimateDeadline(h, today, dateText)
                      && r.value.contact == contactOf(h) && r.value.notes == Take(SnippetOf(h), 200)
                      && r.value.dateFound == dateText(today)
  {
    if h.title.None? || h.link.None? then Err(KeyError)
    else
      Ok(Lead(ExtractOrganization(h), h.title.value, EstimateDeadline(h, today, dateText), Label(CalculateTier(h)),
              contactOf(h), h.link.value, "New", Take(SnippetOf(h), 200), dateText(today)))
  }

  /** As written: after the title, the record calls `_extract_contact`, which the class does not define. */
  function LeadOfAsWritten(h: SearchHit): (r: Result<Lead>)
    ensures r.Err?
  {
    if h.title.None? then Err(KeyError) else Err(AttributeError)
  }

  /** The intended record builder, with the contact, the clock and the date formatting fixed. */
  function LeadWith(contactOf: SearchHit -> string, today: int, dateText: int -> string): SearchHit -> Result<Lead> {
    (h: SearchHit) => LeadOf(h, contactOf, today, dateText)
  }

  /** `extract_training_leads` with the opportunity test `p` and the record builder `build`. */
  function ExtractWith(hits: seq<SearchHit>, p: SearchHit -> bool, build: SearchHit -> Result<Lead>): Result<seq<Lead>> {
    MapAll(Filter(hits, p), build)
  }

  /** As written, extraction raises as soon as any result passes the test, so all it can return is no leads. */
  lemma ExtractAsWrittenRaises(hits: seq<SearchHit>)
    ensures ExtractWith(hits, IsTrainingOpportunityAsWritten, LeadOfAsWritten).Ok?
            <==> forall i :: 0 <= i < |hits| ==> !IsTrainingOpportunityAsWritten(hits[i])
    ensures ExtractWith(hits, IsTrainingOpportunityAsWritten, LeadOfAsWritten).Ok?
            ==> ExtractWith(hits, IsTrainingOpportunityAsWritten, LeadOfAsWritten).value == []
  {
    var passed := Filter(hits, IsTrainingOpportunityAsWritten);
    FilterSpec(hits, IsTrainingOpportunityAsWritten);
    MapAllOk(passed, LeadOfAsWritten);
    if passed != [] {
      assert LeadOfAsWritten(passed[0]).Err?;
      SubsequenceElements(passed, hits, 0);
    }
  }

  /** The loop of `extract_training_leads`: the records of the results passing `p` appended in order, the first raise ending it. */
  method ExtractPassing(hits: seq<SearchHit>, p: SearchHit -> bool, build: SearchHit -> Result<Lead>)
    returns (r: Result<seq<Lead>>)
    ensures r == ExtractWith(hits, p, build)
  {
    var leads: seq<Lead> := [];
    for i := 0 to |hits|
      invariant MapAll(Filter(hits[..i], p), build) == Ok(leads)
    {
      FilteredRunStep(hits, p, build, i, leads);
      if p(hits[i]) {
        var lead := build(hits[i]);
        if lead.Err? {
          return Err(lead.error);
        }
        leads := leads + [lead.value];
      }
    }
    assert hits[..|hits|] == hits;
    r := Ok(leads);
  }

  /** The records of the passing results: one per result, in order, when each has its title and link. */
  lemma RecordsOf(passed: seq<SearchHit>, contactOf: SearchHit -> string, today: int, dateText: int -> string)
    ensures var r := MapAll(passed, LeadWith(contactOf, today, dateText));
            (r.Ok? <==> forall i :: 0 <= i < |passed| ==> passed[i].title.Some? && passed[i].link.Some?)
            && (r.Err? ==> r.error == KeyError)
            && (r.Ok? ==> forall j :: 0 <= j < |r.value| ==>
                            r.value[j].status == "New" && |r.value[j].notes| <= 200
                            && r.value[j].opportunity == passed[j].title.value)
            && (r.Ok? ==> forall j :: 0 <= j < |r.value| ==> r.value[j] == LeadOf(passed[j], contactOf, today, dateText).value)
  {
    var build := LeadWith(contactOf, today, dateText);
    var r := MapAll(passed, build);
    MapAllOk(passed, build);
    MapAllValues(passed, build);
    assert forall i :: 0 <= i < |passed| ==> build(passed[i]) == LeadOf(passed[i], contactOf, today, dateText);
    if r.Err? {
      var i :| 0 <= i < |passed| && build(passed[i]) == Err(r.error);
    }
  }

  /** The intended extraction: one record per result passing `p`, in order, when each has its title and link. */
  function ExtractLeads(hits: seq<SearchHit>, p: SearchHit -> bool, contactOf: SearchHit -> string, today: int,
                        dateText: int -> string): (r: Result<seq<Lead>>)
    ensures var passed := Filter(hits, p);
            (r.Ok? <==> forall i :: 0 <= i < |passed| ==> passed[i].title.Some? && passed[i].link.Some?)
            && (r.Err? ==> r.error == KeyError)
            && (r.Ok? ==> |r.value| == |passed| && |r.value| == CountWhere(hits, p))
            && (r.Ok? ==> forall j :: 0 <= j < |r.value| ==>
                            r.value[j].status == "New" && |r.value[j].notes| <= 200
                            && r.value[j].opportunity == passed[j].title.value)
            && (r.Ok? ==> forall j :: 0 <= j < |r.value| ==> r.value[j] == LeadOf(passed[j], contactOf, today, dateText).value)
  {
    var build := LeadWith(contactOf, today, dateText);
    RecordsOf(Filter(hits, p), contactOf, today, dateText);
    assert ExtractWith(hits, p, build) == MapAll(Filter(hits, p), build);
    ExtractWith(hits, p, build)
  }

  // ---------------------------------------------------------------------------
  // De-duplication and sort
  // ---------------------------------------------------------------------------

  /** The map `{'Tier 1 - Urgent': 0, ...}`; a tier outside it has no rank and pandas puts it last. */
  function MappedRank(tier: string): (n: int)
    ensures 0 <= n <= 3
  {
    if tier == Label(Urgent) then 0
    else if tier == Label(HighPriority) then 1
    else if tier == Label(Standard) then 2
    else 3
  }

  lemma MappedRankOfLabel(t: Tier)
    ensures MappedRank(Label(t)) == Rank(t)
  {
    var labels := [Label(Urgent), Label(HighPriority), Label(Standard)];
    assert labels[0][5] == '1' && labels[1][5] == '2' && labels[2][5] == '3';
  }

  /** The sort key `['tier_rank', 'deadline']`. */
  function LeadOrder(l: Lead): Key {
    Key(MappedRank(l.tier), l.deadline)
  }

  /** `_deduplicate_and_sort`: no leads stay none; otherwise the first lead of each title, by tier rank and deadline. */
  function DeduplicateAndSort(leads: seq<Lead>): (r: seq<Lead>)
    ensures leads == [] ==> r == []
    ensures Sorted(r, LeadOrder) && DistinctKeys(r, OpportunityOf)
    ensures multiset(r) == multiset(DedupBy(leads, OpportunityOf))
    ensures Keys(r, OpportunityOf) == Keys(leads, OpportunityOf)
  {
    if leads == [] then []
    else
      var unique := DedupBy(leads, OpportunityOf);
      var r := SortBy(unique, LeadOrder);
      SortByKeepsDistinctKeys(unique, LeadOrder, OpportunityOf);
      MultisetKeys(r, unique, OpportunityOf);
      r
  }

  /** Two lists with the same elements have the same keys. */
  lemma MultisetKeys(a: seq<Lead>, b: seq<Lead>, key: Lead -> string)
    requires multiset(a) == multiset(b)
    ensures Keys(a, key) == Keys(b, key)
  {
    forall k | k in Keys(a, key)
      ensures k in Keys(b, key)
    {
      var i :| 0 <= i < |a| && key(a[i]) == k;
      assert a[i] in multiset(b);
      var j :| 0 <= j < |b| && b[j] == a[i];
    }
    forall k | k in Keys(b, key)
      ensures k in Keys(a, key)
    {
      var j :| 0 <= j < |b| && key(b[j]) == k;
      assert b[j] in multiset(a);
      var i :| 0 <= i < |a| && a[i] == b[j];
    }
  }

  // ---------------------------------------------------------------------------
  // The search
  // ---------------------------------------------------------------------------

  /** The search queries, the four groups (grant recipients, digital transformations, compliance mandates, sector-specific) in order. */
  const SearchQueries: seq<string> := [
    "\"grant recipient\" training \"professional development\" site:canada.ca 2024",
    "ESDC \"skills development\" \"funding awarded\" 2024",
    "\"Indigenous Services Canada\" grant training \"capacity building\"",
    "\"Government of Canada\" \"digital transformation\" \"employee training\"",
    "CRA \"modernization\" \"staff training\" announcement",
    "\"Service Canada\" \"new system\" training rollout",
    "AODA \"compliance training\" deadline 2024 Ontario",
    "\"mandatory training\" \"all staff\" government Canada 2024",
    "\"Truth and Reconciliation\" training requirement government",
    "healthcare \"training mandate\" Ontario 2024",
    "\"emergency services\" certification training Canada",
    "education \"professional development\" requirement 2024"]

  /** An API key is used when it is set and not empty. */
  predicate Usable(key: Option<string>) {
    key.Some? && key.value != ""
  }

  /** The results for one query: Google's when its key is usable, then Bing's when its key is. */
  function ResultsFor(query: string, googleKey: Option<string>, bingKey: Option<string>,
                      google: string -> seq<SearchHit>, bing: string -> seq<SearchHit>): (r: seq<SearchHit>)
    ensures !Usable(googleKey) && !Usable(bingKey) ==> r == []
    ensures |r| == (if Usable(googleKey) then |google(query)| else 0) + (if Usable(bingKey) then |bing(query)| else 0)
  {
    (if Usable(googleKey) then google(query) else []) + (if Usable(bingKey) then bing(query) else [])
  }

  /** The leads `extract` finds in every query's results in turn, the first raise ending the search. */
  function SearchAll(queries: seq<string>, results: string -> seq<SearchHit>,
                     extract: seq<SearchHit> -> Result<seq<Lead>>): (r: Result<seq<Lead>>)
    ensures r.Ok? <==> forall i :: 0 <= i < |queries| ==> extract(results(queries[i])).Ok?
  {
    if queries == [] then Ok([])
    else
      var n := |queries| - 1;
      var before :- SearchAll(queries[..n], results, extract);
      var leads :- extract(results(queries[n]));
      assert forall i :: 0 <= i < n ==> queries[..n][i] == queries[i];
      Ok(before + leads)
  }

  /** A search that raises on no query finds the concatenation of every query's leads, in query order. */
  lemma {:induction false} SearchAllIsConcatenation(queries: seq<string>, results: string -> seq<SearchHit>,
                                                    extract: seq<SearchHit> -> Result<seq<Lead>>)
    requires SearchAll(queries, results, extract).Ok?
    ensures SearchAll(queries, results, extract).value
            == FlatMap(queries, (q: string) => if extract(results(q)).Ok? then extract(results(q)).value else [])
  {
    if queries != [] {
      var n := |queries| - 1;
      SearchAllIsConcatenation(queries[..n], results, extract);
    }
  }

  /** A lead is found exactly when the extraction from some query's results holds it. */
  lemma SearchAllExact(queries: seq<string>, results: string -> seq<SearchHit>,
                       extract: seq<SearchHit> -> Result<seq<Lead>>)
    requires SearchAll(queries, results, extract).Ok?
    ensures forall x :: x in SearchAll(queries, results, extract).value
                        <==> exists i :: 0 <= i < |queries| && x in extract(results(queries[i])).value
  {
    var f := (q: string) => if extract(results(q)).Ok? then extract(results(q)).value else [];
    SearchAllIsConcatenation(queries, results, extract);
    FlatMapExact(queries, f);
    assert forall i :: 0 <= i < |queries| ==> f(queries[i]) == extract(results(queries[i])).value;
  }

  /** A search that raised on the first `i` queries raises on all of them. */
  lemma {:induction false} SearchStops(queries: seq<string>, results: string -> seq<SearchHit>,
                                       extract: seq<SearchHit> -> Result<seq<Lead>>, i: nat)
    requires i <= |queries| && SearchAll(queries[..i], results, extract).Err?
    ensures SearchAll(queries, results, extract) == SearchAll(queries[..i], results, extract)
  {
    if i < |queries| {
      var n := |queries| - 1;
      assert queries[..n][..i] == queries[..i];
      SearchStops(queries[..n], results, extract, i);
    } else {
      assert queries[..i] == queries;
    }
  }

  /** One more query: its leads are appended, or its raise ends the whole search. */
  lemma SearchAllStep(queries: seq<string>, results: string -> seq<SearchHit>,
                      extract: seq<SearchHit> -> Result<seq<Lead>>, i: nat, all: seq<Lead>)
    requires i < |queries| && SearchAll(queries[..i], results, extract) == Ok(all)
    ensures extract(results(queries[i])).Ok?
            ==> SearchAll(queries[..i + 1], results, extract) == Ok(all + extract(results(queries[i])).value)
    ensures extract(results(queries[i])).Err?
            ==> SearchAll(queries, results, extract) == Err(extract(results(queries[i])).error)
  {
    assert queries[..i + 1][..i] == queries[..i];
    if extract(results(queries[i])).Err? {
      SearchStops(queries, results, extract, i + 1);
    }
  }

  /** With no usable key every query has no results, and an extraction that finds nothing in none makes the search find nothing. */
  lemma {:induction false} NoKeysFindNothing(queries: seq<string>, googleKey: Option<string>, bingKey: Option<string>,
                                             google: string -> seq<SearchHit>, bing: string -> seq<SearchHit>,
                                             extract: seq<SearchHit> -> Result<seq<Lead>>)
    requires !Usable(googleKey) && !Usable(bingKey) && extract([]) == Ok([])
    ensures SearchAll(queries, (q: string) => ResultsFor(q, googleKey, bingKey, google, bing), extract) == Ok([])
  {
    if queries != [] {
      NoKeysFindNothing(queries[..|queries| - 1], googleKey, bingKey, google, bing, extract);
    }
  }

  /** The intended extraction finds nothing in no results. */
  lemma ExtractNothing(p: SearchHit -> bool, contactOf: SearchHit -> string, today: int, dateText: int -> string)
    ensures ExtractLeads([], p, contactOf, today, dateText) == Ok([])
  {
  }

  class AdvancedTrainingLeadSearcher {
    const googleApiKey: Option<string>
    const googleCx: Option<string>
    const bingApiKey: Option<string>
    const searchQueries: seq<string>
    /** The opportunity test the searcher applies: the one whose indicators can all match. */
    const isOpportunity: SearchHit -> bool

    /** The keys read from the environment `env`. */
    constructor(env: string -> Option<string>)
      ensures googleApiKey == env("GOOGLE_API_KEY") && googleCx == env("GOOGLE_SEARCH_ENGINE_ID")
      ensures bingApiKey == env("BING_API_KEY") && isOpportunity == IsTrainingOpportunity
      ensures searchQueries == SearchQueries
    {
      googleApiKey := env("GOOGLE_API_KEY");
      googleCx := env("GOOGLE_SEARCH_ENGINE_ID");
      bingApiKey := env("BING_API_KEY");
      isOpportunity := IsTrainingOpportunity;
      searchQueries := SearchQueries;
    }

    /** `extract_training_leads`, the contact drawn from `contactOf`. */
    method ExtractTrainingLeads(hits: seq<SearchHit>, contactOf: SearchHit -> string, today: int,
                                dateText: int -> string) returns (r: Result<seq<Lead>>)
      ensures r == ExtractLeads(hits, isOpportunity, contactOf, today, dateText)
    {
      r := ExtractPassing(hits, isOpportunity, LeadWith(contactOf, today, dateText));
    }

    /** One query's results: Google's when its key is usable, then Bing's when its key is. */
    method SearchQuery(query: string, google: string -> seq<SearchHit>, bing: string -> seq<SearchHit>)
      returns (results: seq<SearchHit>)
      ensures results == ResultsFor(query, googleApiKey, bingApiKey, google, bing)
    {
      results := [];
      if Usable(googleApiKey) {
        results := results + google(query);
      }
      if Usable(bingApiKey) {
        results := results + bing(query);
      }
    }

    /** `run_comprehensive_search`: every query's leads appended in turn, then the de-duplication and sort. */
    method RunComprehensiveSearch(google: string -> seq<SearchHit>, bing: string -> seq<SearchHit>,
                                  contactOf: SearchHit -> string, today: int, dateText: int -> string)
      returns (r: Result<seq<Lead>>)
      ensures var found := SearchAll(searchQueries, (q: string) => ResultsFor(q, googleApiKey, bingApiKey, google, bing),
                                     (hs: seq<SearchHit>) => ExtractLeads(hs, isOpportunity, contactOf, today, dateText));
              r == (if found.Ok? then Ok(DeduplicateAndSort(found.value)) else Err(found.error))
    {
      var results := (q: string) => ResultsFor(q, googleApiKey, bingApiKey, google, bing);
      var extract := (hs: seq<SearchHit>) => ExtractLeads(hs, isOpportunity, contactOf, today, dateText);
      var queries := searchQueries;
      var all: seq<Lead> := [];
      for i := 0 to |queries|
        invariant SearchAll(queries[..i], results, extract) == Ok(all)
      {
        var hits := SearchQuery(queries[i], google, bing);
        var leads := ExtractTrainingLeads(hits, contactOf, today, dateText);
        assert leads == extract(results(queries[i]));
        SearchAllStep(queries, results, extract, i, all);
        if leads.Err? {
          return Err(leads.error);
        }
        all := all + leads.value;
      }
      assert queries[..|queries|] == queries;
      r := Ok(DeduplicateAndSort(all));
    }
  }
}
