/**
 * The public-sector scraper: the urgency tier of a procurement notice from its
 * deadline, the tender notices of the Buy and Sell search, the fixed MERX and news
 * records, and their concatenation de-duplicated on the opportunity title.
 *
 * Clock readings are seconds since a midnight; `now` serves every date written
 * into a record and `later` the tier's own reading of the clock. A calendar day is
 * a day number, written out by `dateText`.
 */
module PublicSectorScraper {
  import opened Wrappers
  import opened Strings
  import opened Collections
  import opened Tiers

  const SecondsPerDay: int := 86400

  /** The calendar day of a clock reading. */
  function DayOf(t: int): int {
    t / SecondsPerDay
  }

  /** A deadline text: the date of a calendar day, or one that `strptime` rejects. */
  datatype DeadlineText = Dated(day: int) | Unparsable(text: string)

  function DeadlineString(d: DeadlineText, dateText: int -> string): string {
    match d
    case Dated(day) => dateText(day)
    case Unparsable(text) => text
  }

  /** `_extract_deadline`: what the deadline patterns find, else the day 30 days from now. */
  function ExtractDeadline(found: Option<DeadlineText>, now: int): (d: DeadlineText)
    ensures found.Some? ==> d == found.value
    ensures found.None? ==> d == Dated(DayOf(now) + 30)
  {
    found.GetOr(Dated(DayOf(now) + 30))
  }

  /** `(deadline - datetime.now()).days`: the whole days, rounded down, from `now` to the deadline's midnight. */
  function DaysUntil(day: int, now: int): (n: int)
    ensures n * SecondsPerDay <= day * SecondsPerDay - now < (n + 1) * SecondsPerDay
  {
    (day * SecondsPerDay - now) / SecondsPerDay
  }

  /** The tier of a day count; `None` is a deadline that does not parse. */
  function TierOfDays(days: Option<int>): (t: Tier)
    ensures t == Urgent <==> days.Some? && days.value <= 14
    ensures t == HighPriority <==> days.Some? && 14 < days.value <= 30
    ensures t == Standard <==> days.None? || days.value > 30
  {
    match days
    case None => Standard
    case Some(n) => if n <= 14 then Urgent else if n <= 30 then HighPriority else Standard
  }

  /** A later deadline is never more urgent. */
  lemma TierOfDaysMonotone(d1: int, d2: int)
    requires d1 <= d2
    ensures Rank(TierOfDays(Some(d1))) <= Rank(TierOfDays(Some(d2)))
  {
  }

  /** `_calculate_tier`: the deadline extracted again, at `now`, and its day count at `later`. */
  function CalculateTier(found: Option<DeadlineText>, now: int, later: int): (t: Tier)
    ensures found.Some? && found.value.Unparsable? ==> t == Standard
    ensures found.Some? && found.value.Dated? ==> t == TierOfDays(Some(DaysUntil(found.value.day, later)))
    ensures found.None? ==> t == TierOfDays(Some(DaysUntil(DayOf(now) + 30, later)))
  {
    match ExtractDeadline(found, now)
    case Dated(day) => TierOfDays(Some(DaysUntil(day, later)))
    case Unparsable(_) => TierOfDays(None)
  }

  /** Read on the same day, the default deadline is 29 or 30 days away. */
  lemma DefaultDeadlineDays(now: int, later: int)
    requires now <= later && DayOf(later) == DayOf(now)
    ensures 29 <= DaysUntil(DayOf(now) + 30, later) <= 30
  {
  }

  /** So a notice without a deadline is always Tier 2, the clock moving less than two weeks between the readings. */
  lemma DefaultDeadlineIsTier2(now: int, later: int)
    requires now <= later < now + 14 * SecondsPerDay
    ensures CalculateTier(None, now, later) == HighPriority
  {
    var n := DaysUntil(DayOf(now) + 30, later);
    assert DayOf(now) * SecondsPerDay <= now;
    assert 15 * SecondsPerDay < (DayOf(now) + 30) * SecondsPerDay - later by {
      assert now < (DayOf(now) + 1) * SecondsPerDay;
    }
    assert 14 < n && n <= 30;
  }

  /** A deadline found but not a date is Tier 3. */
  lemma UnparsableIsStandard(text: string, now: int, later: int)
    ensures CalculateTier(Some(Unparsable(text)), now, later) == Standard
  {
  }

  /** A lead record. */
  datatype Lead = Lead(organization: string, opportunity: string, deadline: string, tier: string, contact: string,
                       source: string, status: string, notes: string, dateFound: string)

  function OpportunityOf(l: Lead): string {
    l.opportunity
  }

  /** A search result's link: none, or an anchor with or without an `href`. */
  datatype Anchor = NoAnchor | Anchor(href: Option<string>)

  /** A search result: the text of its title element if there is one, its link, and the deadline its text gives. */
  datatype SearchResult = SearchResult(title: Option<string>, anchor: Anchor, deadline: Option<DeadlineText>)

  /** The answer to one keyword's request: it raised (timeout, connection), or a status and the results on the page. */
  datatype Response = Raised | Response(statusCode: int, results: seq<SearchResult>)

  /** A titled result whose anchor has no `href` raises KeyError while its record is built. */
  predicate Raises(r: SearchResult) {
    r.title.Some? && r.anchor == Anchor(None)
  }

  const TenderOrganization: string := "Government of Canada"
  const TenderContact: string := "See source link"

  /** The fixed entries of a tender-notice record. */
  predicate IsTenderNotice(l: Lead) {
    l.organization == TenderOrganization && l.contact == TenderContact && l.status == "New" && l.notes == ""
  }

  function SourceOf(a: Anchor): string {
    match a
    case Anchor(Some(h)) => "https://buyandsell.gc.ca" + h
    case _ => ""
  }

  /** The record of a titled result. */
  function TenderLead(r: SearchResult, now: int, later: int, dateText: int -> string): (l: Lead)
    requires r.title.Some? && !Raises(r)
    ensures IsTenderNotice(l) && l.opportunity == Strip(r.title.value)
    ensures l.tier == Label(CalculateTier(r.deadline, now, later))
  {
    Lead(TenderOrganization, Strip(r.title.value), DeadlineString(ExtractDeadline(r.deadline, now), dateText),
         Label(CalculateTier(r.deadline, now, later)), TenderContact, SourceOf(r.anchor), "New", "",
         dateText(DayOf(now)))
  }

  /** Where the loop over a page's results stops: the first result that raises, else the end. */
  function FirstRaise(rs: seq<SearchResult>): (n: nat)
    ensures n <= |rs|
    ensures forall i :: 0 <= i < n ==> !Raises(rs[i])
    ensures n < |rs| ==> Raises(rs[n])
  {
    if rs == [] then 0 else if Raises(rs[0]) then 0 else 1 + FirstRaise(rs[1..])
  }

  /** A result that yields a record: it has a title and does not raise. */
  predicate Titled(r: SearchResult) {
    r.title.Some? && !Raises(r)
  }

  /** The records of the titled results, in order. */
  function TitledLeads(rs: seq<SearchResult>, now: int, later: int, dateText: int -> string): (r: seq<Lead>)
    requires forall i :: 0 <= i < |rs| ==> !Raises(rs[i])
    ensures |r| <= |rs|
    ensures forall j :: 0 <= j < |r| ==> IsTenderNotice(r[j])
  {
    if rs == [] then []
    else
      var n := |rs| - 1;
      assert forall i :: 0 <= i < n ==> rs[..n][i] == rs[i];
      TitledLeads(rs[..n], now, later, dateText) + TitledLead(rs[n], now, later, dateText)
  }

  /** The record of one result that does not raise: one when it has a title, none otherwise. */
  function TitledLead(x: SearchResult, now: int, later: int, dateText: int -> string): (r: seq<Lead>)
    requires !Raises(x)
    ensures |r| <= 1
    ensures forall j :: 0 <= j < |r| ==> IsTenderNotice(r[j])
  {
    if x.title.Some? then [TenderLead(x, now, later, dateText)] else []
  }

  /** The record of a titled result, as a function of the result. */
  function TenderLeadOf(now: int, later: int, dateText: int -> string): (f: SearchResult --> Lead)
    ensures forall x :: Titled(x) ==> f.requires(x) && f(x) == TenderLead(x, now, later, dateText)
  {
    (x: SearchResult) requires Titled(x) => TenderLead(x, now, later, dateText)
  }

  /** Over results none of which raises, the records are the titled results' records. */
  lemma {:induction false} TitledLeadsKeep(rs: seq<SearchResult>, now: int, later: int, dateText: int -> string)
    requires forall i :: 0 <= i < |rs| ==> !Raises(rs[i])
    ensures TitledLeads(rs, now, later, dateText) == KeepMap(rs, Titled, TenderLeadOf(now, later, dateText))
  {
    if rs != [] {
      var n := |rs| - 1;
      assert forall i :: 0 <= i < n ==> rs[..n][i] == rs[i];
      TitledLeadsKeep(rs[..n], now, later, dateText);
    }
  }

  /**
   * Over results none of which raises, the records are those of the titled results,
   * one each and in their order.
   */
  lemma TitledLeadsSpec(rs: seq<SearchResult>, now: int, later: int, dateText: int -> string)
    requires forall i :: 0 <= i < |rs| ==> !Raises(rs[i])
    ensures var t := Filter(rs, Titled);
            var r := TitledLeads(rs, now, later, dateText);
            |r| == |t| && forall j :: 0 <= j < |t| ==> r[j] == TenderLead(t[j], now, later, dateText)
  {
    var f := TenderLeadOf(now, later, dateText);
    TitledLeadsKeep(rs, now, later, dateText);
    forall j | 0 <= j < |Filter(rs, Titled)|
      ensures TitledLeads(rs, now, later, dateText)[j] == TenderLead(Filter(rs, Titled)[j], now, later, dateText)
    {
      KeepMapAt(rs, Titled, f, j);
    }
  }

  /** One keyword's records: none unless the request answered 200, then the first ten results up to a raise. */
  function KeywordLeads(resp: Response, now: int, later: int, dateText: int -> string): (r: seq<Lead>)
    ensures |r| <= 10
    ensures forall j :: 0 <= j < |r| ==> IsTenderNotice(r[j])
    ensures resp.Raised? || resp.statusCode != 200 ==> r == []
  {
    if resp.Raised? || resp.statusCode != 200 then []
    else
      var rs := Prefix(resp.results, 10);
      TitledLeads(rs[..FirstRaise(rs)], now, later, dateText)
  }

  /** `scrape_buyandsell` over the given keywords, each answered by `fetch`. */
  function BuyAndSellLeads(keywords: seq<string>, fetch: string -> Response, now: int, later: int,
                           dateText: int -> string): (r: seq<Lead>)
    ensures |r| <= 10 * |keywords|
    ensures forall j :: 0 <= j < |r| ==> IsTenderNotice(r[j])
  {
    if keywords == [] then []
    else
      BuyAndSellLeads(keywords[..|keywords| - 1], fetch, now, later, dateText)
      + KeywordLeads(fetch(keywords[|keywords| - 1]), now, later, dateText)
  }

  /**
   * An answered keyword's records are those of the titled results among its first ten,
   * in order, up to the first that raises.
   */
  lemma KeywordLeadsSpec(resp: Response, now: int, later: int, dateText: int -> string)
    requires resp.Response? && resp.statusCode == 200
    ensures var rs := Prefix(resp.results, 10);
            var t := Filter(rs[..FirstRaise(rs)], Titled);
            var r := KeywordLeads(resp, now, later, dateText);
            |r| == |t| && forall j :: 0 <= j < |t| ==> r[j] == TenderLead(t[j], now, later, dateText)
  {
    var rs := Prefix(resp.results, 10);
    TitledLeadsSpec(rs[..FirstRaise(rs)], now, later, dateText);
  }

  /** One keyword's records, as a function of the keyword. */
  function KeywordOf(fetch: string -> Response, now: int, later: int, dateText: int -> string): string -> seq<Lead> {
    k => KeywordLeads(fetch(k), now, later, dateText)
  }

  /** The Buy and Sell records are the keywords' own records, concatenated in keyword order. */
  lemma {:induction false} BuyAndSellIsConcatenation(keywords: seq<string>, fetch: string -> Response, now: int,
                                                     later: int, dateText: int -> string)
    ensures BuyAndSellLeads(keywords, fetch, now, later, dateText) == FlatMap(keywords, KeywordOf(fetch, now, later, dateText))
  {
    if keywords != [] {
      BuyAndSellIsConcatenation(keywords[..|keywords| - 1], fetch, now, later, dateText);
    }
  }

  /** So a record is a Buy and Sell record exactly when some keyword's request yields it. */
  lemma BuyAndSellExact(keywords: seq<string>, fetch: string -> Response, now: int, later: int,
                        dateText: int -> string)
    ensures forall l :: l in BuyAndSellLeads(keywords, fetch, now, later, dateText) <==>
              exists i :: 0 <= i < |keywords| && l in KeywordLeads(fetch(keywords[i]), now, later, dateText)
  {
    var f := KeywordOf(fetch, now, later, dateText);
    BuyAndSellIsConcatenation(keywords, fetch, now, later, dateText);
    FlatMapExact(keywords, f);
    assert forall i :: 0 <= i < |keywords| ==> f(keywords[i]) == KeywordLeads(fetch(keywords[i]), now, later, dateText);
  }

  lemma BuyAndSellStep(keywords: seq<string>, fetch: string -> Response, now: int, later: int,
                       dateText: int -> string, i: nat)
    requires i < |keywords|
    ensures BuyAndSellLeads(keywords[..i + 1], fetch, now, later, dateText)
            == BuyAndSellLeads(keywords[..i], fetch, now, later, dateText)
               + KeywordLeads(fetch(keywords[i]), now, later, dateText)
  {
    assert keywords[..i + 1][..i] == keywords[..i];
  }

  lemma TitledLeadsStep(rs: seq<SearchResult>, now: int, later: int, dateText: int -> string, j: nat)
    requires j < |rs| && forall i :: 0 <= i <= j ==> !Raises(rs[i])
    ensures TitledLeads(rs[..j + 1], now, later, dateText)
            == TitledLeads(rs[..j], now, later, dateText)
               + (if rs[j].title.Some? then [TenderLead(rs[j], now, later, dateText)] else [])
  {
    assert rs[..j + 1][..j] == rs[..j];
  }

  /** The MERX placeholder records, with deadlines 21 and 14 days ahead. */
  function MerxLeads(now: int, dateText: int -> string): (r: seq<Lead>)
    ensures |r| == 2
    ensures forall j :: 0 <= j < 2 ==> r[j].tier == Label(Urgent) && r[j].status == "New" && r[j].notes == ""
  {
    var today := DayOf(now);
    [Lead(HealthOrganization, HealthTitle, dateText(today + 21), Label(Urgent), HealthContact, HealthSource, "New", "",
          dateText(today)),
     Lead(TorontoOrganization, TorontoTitle, dateText(today + 14), Label(Urgent), TorontoContact, TorontoSource, "New",
          "", dateText(today))]
  }

  /** The news placeholder record, with its deadline 30 days ahead. */
  function NewsLeads(now: int, dateText: int -> string): (r: seq<Lead>)
    ensures |r| == 1 && r[0].tier == Label(HighPriority) && r[0].status == "New"
  {
    var today := DayOf(now);
    [Lead(NewsOrganization, NewsTitle, dateText(today + 30), Label(HighPriority), NewsContact, NewsSource, "New",
          NewsNotes, dateText(today))]
  }

  /**
   * The first MERX record's fixed label is not the tier `_calculate_tier` gives its own
   * deadline: 21 days ahead, read later the same day, is Tier 2.
   */
  lemma MerxLabelNotFromDeadline(now: int, later: int, dateText: int -> string)
    requires now <= later && DayOf(later) == DayOf(now)
    ensures MerxLeads(now, dateText)[0].tier == Label(Urgent)
    ensures TierOfDays(Some(DaysUntil(DayOf(now) + 21, later))) == HighPriority
  {
    var n := DaysUntil(DayOf(now) + 21, later);
    assert DayOf(later) * SecondsPerDay <= later < (DayOf(later) + 1) * SecondsPerDay;
    assert 20 <= n <= 21;
  }

  const HealthOrganization: string := "Ontario Ministry of Health"
  const HealthTitle: string := "Healthcare Professional Training Services RFP"
  const HealthContact: string := "procurement@health.gov.on.ca"
  const HealthSource: string := "https://www.merx.com/sample-rfp-12345"
  const TorontoOrganization: string := "City of Toronto"
  const TorontoTitle: string := "Diversity & Inclusion Training for Municipal Staff"
  const TorontoContact: string := "purchasing@toronto.ca"
  const TorontoSource: string := "https://www.merx.com/sample-rfp-12346"
  const NewsOrganization: string := "Indigenous Services Canada"
  const NewsTitle: string := "New funding for Indigenous youth skills training announced"
  const NewsContact: string := "Contact ISC regional office"
  const NewsSource: string := "https://www.canada.ca/en/indigenous-services-canada/news/sample"
  const NewsNotes: string := "Federal funding announcement - follow up for training provider opportunities"

  /** `drop_duplicates(subset=['opportunity'], keep='first')`, skipped on no records. */
  function Deduplicate(all: seq<Lead>): (r: seq<Lead>)
    ensures all == [] ==> r == []
    ensures DistinctKeys(r, OpportunityOf) && Keys(r, OpportunityOf) == Keys(all, OpportunityOf)
    ensures Subsequence(r, all)
    ensures forall j :: 0 <= j < |r| ==>
              exists i :: 0 <= i < |all| && all[i] == r[j] && forall i' :: 0 <= i' < i ==> all[i'].opportunity != all[i].opportunity
  {
    if all == [] then []
    else
      DedupSubsequence(all, OpportunityOf);
      DedupFirstOfKey(all, OpportunityOf);
      DedupBy(all, OpportunityOf)
  }

  /** The Buy and Sell, MERX and news records in that order, as `get_all_leads` extends its list. */
  function Gathered(buyAndSell: seq<Lead>, now: int, dateText: int -> string): seq<Lead> {
    buyAndSell + MerxLeads(now, dateText) + NewsLeads(now, dateText)
  }

  /** `get_all_leads`: the gathered records, de-duplicated. */
  function AllLeads(buyAndSell: seq<Lead>, now: int, dateText: int -> string): seq<Lead> {
    Deduplicate(Gathered(buyAndSell, now, dateText))
  }

  /**
   * The aggregate keeps a subsequence of the gathered records with distinct titles, and
   * every title of the three sources, the fixed ones included, is among its records.
   */
  lemma AllLeadsSpec(buyAndSell: seq<Lead>, now: int, dateText: int -> string)
    ensures var all := Gathered(buyAndSell, now, dateText);
            var r := AllLeads(buyAndSell, now, dateText);
            Subsequence(r, all) && DistinctKeys(r, OpportunityOf)
            && (forall i :: 0 <= i < |all| ==> all[i].opportunity in Keys(r, OpportunityOf))
  {
    DeduplicateCovers(Gathered(buyAndSell, now, dateText));
  }

  /** Each record of the aggregate is the first gathered record with its title (`keep='first'`). */
  lemma AllLeadsKeepFirst(buyAndSell: seq<Lead>, now: int, dateText: int -> string, j: int)
    requires 0 <= j < |AllLeads(buyAndSell, now, dateText)|
    ensures exists i :: 0 <= i < |Gathered(buyAndSell, now, dateText)|
              && Gathered(buyAndSell, now, dateText)[i] == AllLeads(buyAndSell, now, dateText)[j]
              && forall i' :: 0 <= i' < i ==>
                   Gathered(buyAndSell, now, dateText)[i'].opportunity != Gathered(buyAndSell, now, dateText)[i].opportunity
  {
    DeduplicateCovers(Gathered(buyAndSell, now, dateText));
  }

  /** The records `Deduplicate` keeps, and every title of the input among their titles. */
  lemma DeduplicateCovers(all: seq<Lead>)
    ensures var r := Deduplicate(all);
            Subsequence(r, all) && DistinctKeys(r, OpportunityOf)
            && (forall i :: 0 <= i < |all| ==> all[i].opportunity in Keys(r, OpportunityOf))
            && (forall j :: 0 <= j < |r| ==>
                  exists i :: 0 <= i < |all| && all[i] == r[j]
                              && forall i' :: 0 <= i' < i ==> all[i'].opportunity != all[i].opportunity)
  {
    forall i | 0 <= i < |all|
      ensures all[i].opportunity in Keys(all, OpportunityOf)
    {
      assert OpportunityOf(all[i]) in Keys(all, OpportunityOf);
    }
  }

  class CanadianPublicSectorScraper {
    const trainingKeywords: seq<string>

    constructor()
      ensures trainingKeywords == TrainingKeywords
    {
      trainingKeywords := TrainingKeywords;
    }

    /** One keyword's request: the loop over the first ten results, left at the first raise. */
    method ScrapeKeyword(resp: Response, now: int, later: int, dateText: int -> string) returns (leads: seq<Lead>)
      ensures leads == KeywordLeads(resp, now, later, dateText)
    {
      leads := [];
      if resp.Raised? || resp.statusCode != 200 {
        return;
      }
      var rs := Prefix(resp.results, 10);
      var n := FirstRaise(rs);
      var j := 0;
      while j < |rs|
        invariant j <= n
        invariant leads == TitledLeads(rs[..j], now, later, dateText)
        decreases |rs| - j
      {
        var result := rs[j];
        if result.title.Some? && result.anchor == Anchor(None) {
          break;
        }
        TitledLeadsStep(rs, now, later, dateText, j);
        if result.title.Some? {
          leads := leads + [TenderLead(result, now, later, dateText)];
        }
        j := j + 1;
      }
      assert j == n;
    }

    /** `scrape_buyandsell`: the first three keywords in turn. */
    method ScrapeBuyAndSell(fetch: string -> Response, now: int, later: int, dateText: int -> string)
      returns (leads: seq<Lead>)
      ensures leads == BuyAndSellLeads(Prefix(trainingKeywords, 3), fetch, now, later, dateText)
      ensures |leads| <= 30
    {
      var keywords := Prefix(trainingKeywords, 3);
      leads := [];
      for i := 0 to |keywords|
        invariant leads == BuyAndSellLeads(keywords[..i], fetch, now, later, dateText)
      {
        var found := ScrapeKeyword(fetch(keywords[i]), now, later, dateText);
        BuyAndSellStep(keywords, fetch, now, later, dateText, i);
        leads := leads + found;
      }
      assert keywords[..|keywords|] == keywords;
    }

    /** `scrape_merx`: the two placeholder records, both labelled Tier 1, due in 21 and 14 days. */
    method ScrapeMerx(now: int, dateText: int -> string) returns (leads: seq<Lead>)
      ensures leads == MerxLeads(now, dateText)
      ensures |leads| == 2 && forall l :: l in leads ==> l.tier == Label(Urgent) && l.status == "New"
      ensures leads[0].deadline == dateText(DayOf(now) + 21) && leads[1].deadline == dateText(DayOf(now) + 14)
      ensures forall l :: l in leads ==> l.dateFound == dateText(DayOf(now))
    {
      leads := MerxLeads(now, dateText);
    }

    /** `scrape_news`: the one placeholder record, labelled Tier 2, due in 30 days. */
    method ScrapeNews(now: int, dateText: int -> string) returns (leads: seq<Lead>)
      ensures leads == NewsLeads(now, dateText)
      ensures |leads| == 1 && leads[0].tier == Label(HighPriority) && leads[0].status == "New"
      ensures leads[0].deadline == dateText(DayOf(now) + 30) && leads[0].dateFound == dateText(DayOf(now))
    {
      leads := NewsLeads(now, dateText);
    }

    /** `get_all_leads`: the three sources extended in order, then de-duplicated. */
    method GetAllLeads(fetch: string -> Response, now: int, later: int, dateText: int -> string)
      returns (r: seq<Lead>)
      ensures r == AllLeads(BuyAndSellLeads(Prefix(trainingKeywords, 3), fetch, now, later, dateText), now, dateText)
    {
      var buyAndSell := ScrapeBuyAndSell(fetch, now, later, dateText);
      var merx := ScrapeMerx(now, dateText);
      var news := ScrapeNews(now, dateText);
      var all := buyAndSell + merx + news;
      assert all == Gathered(buyAndSell, now, dateText);
      r := all;
      if all != [] {
        r := DedupWithSeen(all, OpportunityOf);
      }
    }
  }

  const TrainingKeywords: seq<string> := [
    "training", "workshop", "professional development", "learning", "course", "certification",
    "skills development", "capacity building", "formation", "développement professionnel", "apprentissage"]
}
