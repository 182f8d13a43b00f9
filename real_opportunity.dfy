/**
 * The records shared by the two "real opportunity" collectors: the raw record each
 * search appends, the RSS entries it reads, and the display record both format it into.
 */
module RealOpportunity {
  import opened Wrappers
  import opened Strings
  import opened Collections

  /** A collected program or tender; `kind` is the record's 'type' entry. */
  datatype Opportunity = Opportunity(
    title: string,
    organization: string,
    source: string,
    url: string,
    kind: string,
    deadline: string,
    budget: string,
    description: string,
    contact: string,
    foundDate: string)

  /** A feed entry as the feed parser returns it; 'published' and 'summary' may be missing. */
  datatype FeedEntry = FeedEntry(title: string, link: string, published: Option<string>, summary: Option<string>)

  /** A configured feed: its address, the source name it is reported under and its type. */
  datatype Feed = Feed(url: string, name: string, kind: string)

  /** A row of a static program table: title, organization, web page, budget text, type. */
  datatype Program = Program(title: string, organization: string, url: string, budget: string, kind: string)

  /** A row of a provincial table, which carries a description instead of a type. */
  datatype Grant = Grant(title: string, organization: string, url: string, budget: string, description: string)

  /** A row of a tender table, which also carries its own deadline. */
  datatype Tender = Tender(title: string, organization: string, url: string, kind: string, deadline: string, budget: string)

  // ---------------------------------------------------------------------------
  // RSS entries
  // ---------------------------------------------------------------------------

  /** `any(keyword in entry.title.lower() for keyword in keywords)`. */
  predicate TitleMatches(title: string, keywords: seq<string>) {
    ContainsAny(Lower(title), keywords)
  }

  /** The record appended for a matching entry of `feed`. */
  function FromEntry(e: FeedEntry, feed: Feed, today: string): (o: Opportunity)
    ensures |o.description| <= 200
  {
    Opportunity(
      e.title, "Government of Canada", feed.name, e.link, feed.kind,
      e.published.GetOr("Check tender document"), "See tender document",
      Take(e.summary.GetOr(e.title), 200), "See tender document", today)
  }

  /** The records a feed contributes: the matching entries among its entries, in order. */
  function FeedRecords(entries: seq<FeedEntry>, feed: Feed, keywords: seq<string>, today: string): (r: seq<Opportunity>)
    ensures |r| <= |entries|
  {
    if entries == [] then []
    else
      var rest := FeedRecords(entries[..|entries| - 1], feed, keywords, today);
      var e := entries[|entries| - 1];
      if TitleMatches(e.title, keywords) then rest + [FromEntry(e, feed, today)] else rest
  }

  /**
   * A feed's records are exactly its matching entries: every record comes from an
   * entry whose lowered title holds a keyword, and every such entry gives a record.
   */
  lemma {:induction false} FeedRecordsExact(entries: seq<FeedEntry>, feed: Feed, keywords: seq<string>, today: string)
    ensures forall o :: o in FeedRecords(entries, feed, keywords, today) <==>
              exists i :: 0 <= i < |entries| && TitleMatches(entries[i].title, keywords)
                          && o == FromEntry(entries[i], feed, today)
  {
    if entries != [] {
      var p := entries[..|entries| - 1];
      FeedRecordsExact(p, feed, keywords, today);
      forall o ensures o in FeedRecords(entries, feed, keywords, today) <==>
              exists i :: 0 <= i < |entries| && TitleMatches(entries[i].title, keywords)
                          && o == FromEntry(entries[i], feed, today)
      {
        if o in FeedRecords(p, feed, keywords, today) {
          var i :| 0 <= i < |p| && TitleMatches(p[i].title, keywords) && o == FromEntry(p[i], feed, today);
          assert entries[i] == p[i];
        }
        if exists i :: 0 <= i < |entries| && TitleMatches(entries[i].title, keywords)
                       && o == FromEntry(entries[i], feed, today) {
          var i :| 0 <= i < |entries| && TitleMatches(entries[i].title, keywords)
                   && o == FromEntry(entries[i], feed, today);
          if i < |p| {
            assert entries[i] == p[i];
          }
        }
      }
    }
  }

  /** Every record from a feed is a Government of Canada record of that feed's source and type. */
  lemma {:induction false} FeedRecordsShape(entries: seq<FeedEntry>, feed: Feed, keywords: seq<string>, today: string)
    ensures forall o :: o in FeedRecords(entries, feed, keywords, today) ==>
              o.organization == "Government of Canada" && o.source == feed.name && o.kind == feed.kind
              && o.budget == "See tender document" && |o.description| <= 200
  {
    FeedRecordsExact(entries, feed, keywords, today);
  }

  /**
   * The records of a run over several feeds: for each feed whose fetch succeeded, the
   * matching entries among its first `limit` entries; a feed whose fetch raised adds nothing.
   */
  function RssRecords(fetched: seq<Result<seq<FeedEntry>>>, feeds: seq<Feed>, keywords: seq<string>,
                      limit: nat, today: string): seq<Opportunity>
    requires |fetched| == |feeds|
  {
    if fetched == [] then []
    else
      var n := |fetched| - 1;
      RssRecords(fetched[..n], feeds[..n], keywords, limit, today)
      + (if fetched[n].Ok? then FeedRecords(Prefix(fetched[n].value, limit), feeds[n], keywords, today) else [])
  }

  /** One more entry of a feed adds its record exactly when its title matches. */
  lemma FeedRecordsStep(entries: seq<FeedEntry>, j: nat, feed: Feed, keywords: seq<string>, today: string)
    requires j < |entries|
    ensures FeedRecords(entries[..j + 1], feed, keywords, today)
            == FeedRecords(entries[..j], feed, keywords, today)
               + (if TitleMatches(entries[j].title, keywords) then [FromEntry(entries[j], feed, today)] else [])
  {
    assert entries[..j + 1][..j] == entries[..j];
  }

  /** The entry loop of a feed search: the records of the matching entries, in entry order. */
  method ReadFeed(entries: seq<FeedEntry>, feed: Feed, keywords: seq<string>, today: string) returns (r: seq<Opportunity>)
    ensures r == FeedRecords(entries, feed, keywords, today)
  {
    r := [];
    for j := 0 to |entries|
      invariant r == FeedRecords(entries[..j], feed, keywords, today)
    {
      FeedRecordsStep(entries, j, feed, keywords, today);
      var e := entries[j];
      if TitleMatches(e.title, keywords) {
        r := r + [FromEntry(e, feed, today)];
      } else {
        AppendEmpty(r);
      }
    }
    assert entries[..|entries|] == entries;
  }

  /** One more feed adds the matching entries among its first `limit`, or nothing when its fetch raised. */
  lemma RssRecordsStep(fetched: seq<Result<seq<FeedEntry>>>, feeds: seq<Feed>, f: nat, keywords: seq<string>,
                       limit: nat, today: string)
    requires |fetched| == |feeds| && f < |fetched|
    ensures RssRecords(fetched[..f + 1], feeds[..f + 1], keywords, limit, today)
            == RssRecords(fetched[..f], feeds[..f], keywords, limit, today)
               + (if fetched[f].Ok? then FeedRecords(Prefix(fetched[f].value, limit), feeds[f], keywords, today) else [])
  {
    assert fetched[..f + 1][..f] == fetched[..f] && feeds[..f + 1][..f] == feeds[..f];
  }

  /** A run in which every fetch raised collects nothing. */
  lemma {:induction false} RssAllFailed(fetched: seq<Result<seq<FeedEntry>>>, feeds: seq<Feed>, keywords: seq<string>,
                                        limit: nat, today: string)
    requires |fetched| == |feeds|
    requires forall i :: 0 <= i < |fetched| ==> fetched[i].Err?
    ensures RssRecords(fetched, feeds, keywords, limit, today) == []
  {
    if fetched != [] {
      RssAllFailed(fetched[..|fetched| - 1], feeds[..|fetched| - 1], keywords, limit, today);
    }
  }

  // ---------------------------------------------------------------------------
  // The display record
  // ---------------------------------------------------------------------------

  /** What `format_opportunity_for_display` returns, without the clock-and-hash 'id'. */
  datatype Display = Display(
    title: string,
    organization: string,
    kind: string,
    deadline: string,
    budget: string,
    description: string,
    url: string,
    source: string,
    contact: string,
    tier: string,
    status: string,
    aiConfidence: nat,
    criticalAnalysis: string,
    nextSteps: seq<string>,
    winProbability: string,
    competitiveLandscape: string,
    decisionMakers: string,
    keyRequirements: string,
    trainingType: string,
    foundDate: string)

  /** A record is rated "Tier 1" when its lowered type mentions 'federal'. */
  predicate IsFederal(o: Opportunity) {
    Contains(Lower(o.kind), "federal")
  }

  function Format(o: Opportunity): (d: Display)
    ensures d.tier == (if IsFederal(o) then "Tier 1" else "Tier 2")
    ensures |d.nextSteps| == 4 && d.nextSteps[0] == "1. Visit official website: " + o.url
    ensures d.trainingType == d.kind
  {
    Display(
      o.title, o.organization, o.kind, o.deadline, o.budget, o.description, o.url,
      o.source, o.contact,
      if IsFederal(o) then "Tier 1" else "Tier 2",
      "Active Opportunity",
      100,
      "Verified opportunity from " + o.source + ". Visit official website for full details.",
      ["1. Visit official website: " + o.url,
       "2. Review eligibility requirements",
       "3. Prepare required documentation",
       "4. Submit before deadline"],
      "Depends on qualifications",
      "Open competition",
      "See official documentation",
      "Visit official website",
      o.kind,
      o.foundDate)
  }

  /** The raw record a display record was made from. */
  function Unformat(d: Display): Opportunity {
    Opportunity(d.title, d.organization, d.source, d.url, d.kind, d.deadline, d.budget,
                d.description, d.contact, d.foundDate)
  }

  /** Formatting loses nothing of the raw record. */
  lemma FormatRoundTrip(o: Opportunity)
    ensures Unformat(Format(o)) == o
  {
  }

  /** `[format(o) for o in opportunities]`. */
  function FormatAll(s: seq<Opportunity>): (r: seq<Display>)
    ensures |r| == |s|
    ensures forall i :: 0 <= i < |s| ==> r[i] == Format(s[i])
  {
    seq(|s|, i requires 0 <= i < |s| => Format(s[i]))
  }

  /** A type that starts with "Federal" (in any case) gives "Tier 1". */
  lemma FederalPrefixTier1(o: Opportunity)
    requires |o.kind| >= 7 && Lower(o.kind[..7]) == "federal"
    ensures Format(o).tier == "Tier 1"
  {
    assert Lower(o.kind)[..7] == Lower(o.kind[..7]);
    assert OccursAt(Lower(o.kind), "federal", 0);
  }
}
