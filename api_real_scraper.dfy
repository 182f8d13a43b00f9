/**
 * The API real-opportunity collector: one government RSS feed filtered by four
 * keywords, then fixed tables of government, provincial, Indigenous and sector
 * programs and current tenders, collected in that order and formatted for display.
 * Unlike the enhanced collector it keeps every record, duplicates included. Each
 * feed's fetch outcome is a parameter and the clock's date is `today`.
 *
 * The tables are the collector's `catalogue`, which its constructor sets to the
 * fixed tables below; the searches and their specifications read them from there.
 */
module ApiRealScraper {
  import opened Wrappers
  import opened Collections
  import opened RealOpportunity

  // ---------------------------------------------------------------------------
  // The configured feed and tables
  // ---------------------------------------------------------------------------

  /** Everything a run reads besides the feed's contents. */
  datatype Catalogue = Catalogue(
    feeds: seq<Feed>,
    keywords: seq<string>,
    entriesPerFeed: nat,
    openData: seq<Program>,
    provincial: seq<Program>,
    indigenous: seq<Program>,
    sector: seq<Program>,
    tenders: seq<Tender>)

  function TheCatalogue(): Catalogue {
    Catalogue(RssFeeds, ["training", "learning", "development", "education"], 20, OpenDataPrograms,
              ProvincialPrograms, IndigenousPrograms, SectorPrograms, CurrentRfps)
  }

  const RssFeeds: seq<Feed> := [Feed("https://buyandsell.gc.ca/cds/public/rss/cds_public-tendering-en.xml", "BuyandSell.gc.ca", "Federal")]

  const OpenDataPrograms: seq<Program> := [
    Program("Canada-Ontario Job Grant", "Employment Ontario",
            "https://www.ontario.ca/page/canada-ontario-job-grant",
            "Up to $10,000 per trainee", "Provincial Grant"),
    Program("Skills Boost Program", "Government of Canada",
            "https://www.canada.ca/en/employment-social-development/programs/skills-boost.html",
            "Varies", "Federal Program"),
    Program("Youth Employment and Skills Strategy", "Employment and Social Development Canada",
            "https://www.canada.ca/en/employment-social-development/programs/youth-employment-strategy.html",
            "Various funding levels", "Federal Youth Program"),
    Program("Sectoral Workforce Solutions Program", "Employment and Social Development Canada",
            "https://www.canada.ca/en/employment-social-development/programs/sectoral-workforce-solutions-program.html",
            "Up to $5 million per project", "Federal Sectoral Program")
  ]

  const ProvincialPrograms: seq<Program> := [
    Program("Second Career Program", "Employment Ontario",
            "https://www.ontario.ca/page/second-career",
            "Up to $28,000", "Ontario Retraining"),
    Program("BC Employer Training Grant", "WorkBC",
            "https://www.workbc.ca/Employer-Resources/BC-Employer-Training-Grant.aspx",
            "Up to $10,000 per employee", "BC Grant"),
    Program("Canada-Alberta Job Grant", "Alberta Labour and Immigration",
            "https://www.alberta.ca/canada-alberta-job-grant.aspx",
            "Up to 2/3 of training costs", "Alberta Grant"),
    Program("Workforce Skills Development Program", "Emploi-Québec",
            "https://www.quebec.ca/en/employment/training-development",
            "Varies by program", "Quebec Program")
  ]

  const IndigenousPrograms: seq<Program> := [
    Program("Indigenous Skills and Employment Training Program", "Employment and Social Development Canada",
            "https://www.canada.ca/en/employment-social-development/programs/indigenous-skills-employment-training.html",
            "$2 billion over 5 years", "Indigenous Federal"),
    Program("First Nations and Inuit Youth Employment Strategy", "Indigenous Services Canada",
            "https://www.sac-isc.gc.ca/eng/1332346606177/1571408397256",
            "Various funding levels", "Indigenous Youth"),
    Program("Aboriginal Business and Entrepreneurship Development", "Indigenous Services Canada",
            "https://www.isc.gc.ca/eng/1375201178602/1610797286236",
            "Up to $99,999", "Indigenous Business")
  ]

  const SectorPrograms: seq<Program> := [
    Program("Digital Technology Supercluster Training Initiative", "Canada's Digital Technology Supercluster",
            "https://www.digitalsupercluster.ca/",
            "Project-based funding", "Technology Sector"),
    Program("Health Human Resources Strategy Funding", "Health Canada",
            "https://www.canada.ca/en/health-canada/services/health-care-system/health-human-resources.html",
            "Various programs", "Healthcare Sector"),
    Program("Sustainable Jobs Training Fund", "Natural Resources Canada",
            "https://www.nrcan.gc.ca/climate-change/canadas-green-future/sustainable-jobs/24898",
            "Up to $15 million total", "Green Economy"),
    Program("Union Training and Innovation Program", "Employment and Social Development Canada",
            "https://www.canada.ca/en/employment-social-development/programs/union-training-innovation.html",
            "Up to $10 million per project", "Skilled Trades")
  ]

  const CurrentRfps: seq<Tender> := [
    Tender("Leadership Development Training Services", "Public Services and Procurement Canada",
           "https://buyandsell.gc.ca", "Federal RFP", "2025-08-30", "TBD"),
    Tender("Cybersecurity Training for Government Employees", "Shared Services Canada",
           "https://buyandsell.gc.ca", "Federal RFP", "2025-09-15", "$500K - $1M"),
    Tender("French Language Training Services", "Canada School of Public Service",
           "https://www.csps-efpc.gc.ca", "Federal Standing Offer", "Ongoing", "As per standing offer")
  ]

  // ---------------------------------------------------------------------------
  // The record each search appends for one row
  // ---------------------------------------------------------------------------

  function OpenDataRecord(today: string): Program -> Opportunity {
    (p: Program) => Opportunity(p.title, p.organization, "Government Programs", p.url, p.kind,
                                "Ongoing - Check website", p.budget, "Government training program: " + p.title,
                                "See program website", today)
  }

  function ProvincialRecord(today: string): Program -> Opportunity {
    (p: Program) => Opportunity(p.title, p.organization, "Provincial Programs", p.url, p.kind,
                                "Applications accepted year-round", p.budget, "Provincial training support: " + p.title,
                                "Contact provincial office", today)
  }

  function IndigenousRecord(today: string): Program -> Opportunity {
    (p: Program) => Opportunity(p.title, p.organization, "Indigenous Programs", p.url, p.kind,
                                "Ongoing", p.budget, "Indigenous-focused training: " + p.title,
                                "Contact regional office", today)
  }

  function SectorRecord(today: string): Program -> Opportunity {
    (p: Program) => Opportunity(p.title, p.organization, "Sector Programs", p.url, p.kind,
                                "Check program details", p.budget, "Sector-specific training: " + p.title,
                                "See program website", today)
  }

  function RfpRecord(today: string): Tender -> Opportunity {
    (t: Tender) => Opportunity(t.title, t.organization, "Current RFPs", t.url, t.kind,
                               t.deadline, t.budget, "Active procurement: " + t.title,
                               "See tender documents", today)
  }

  /** Everything one run collects, in the order the searches run. */
  function Collected(fetched: seq<Result<seq<FeedEntry>>>, c: Catalogue, today: string): seq<Opportunity>
    requires |fetched| == |c.feeds|
  {
    RssRecords(fetched, c.feeds, c.keywords, c.entriesPerFeed, today)
    + MapSeq(c.openData, OpenDataRecord(today))
    + MapSeq(c.provincial, ProvincialRecord(today))
    + MapSeq(c.indigenous, IndigenousRecord(today))
    + MapSeq(c.sector, SectorRecord(today))
    + MapSeq(c.tenders, RfpRecord(today))
  }

  /** What `get_all_real_opportunities` returns: every collected record, formatted. */
  function AllRealOpportunities(fetched: seq<Result<seq<FeedEntry>>>, c: Catalogue, today: string): seq<Display>
    requires |fetched| == |c.feeds|
  {
    FormatAll(Collected(fetched, c, today))
  }

  // ---------------------------------------------------------------------------
  // The collector
  // ---------------------------------------------------------------------------

  class ApiRealOpportunityScraper {
    var opportunities: seq<Opportunity>
    const catalogue: Catalogue

    constructor()
      ensures opportunities == [] && catalogue == TheCatalogue()
    {
      opportunities := [];
      catalogue := TheCatalogue();
    }

    /** Each feed in turn: its matching entries among the first twenty, or nothing when the fetch raised. */
    method SearchCanadaRssFeeds(fetched: seq<Result<seq<FeedEntry>>>, today: string)
      requires |fetched| == |catalogue.feeds|
      modifies this
      ensures opportunities
              == old(opportunities) + RssRecords(fetched, catalogue.feeds, catalogue.keywords, catalogue.entriesPerFeed, today)
    {
      var feeds, keywords, limit := catalogue.feeds, catalogue.keywords, catalogue.entriesPerFeed;
      for f := 0 to |fetched|
        invariant opportunities == old(opportunities) + RssRecords(fetched[..f], feeds[..f], keywords, limit, today)
      {
        RssRecordsStep(fetched, feeds, f, keywords, limit, today);
        if fetched[f].Ok? {
          var records := ReadFeed(Prefix(fetched[f].value, limit), feeds[f], keywords, today);
          opportunities := opportunities + records;
        } else {
          AppendEmpty(opportunities);
        }
      }
      assert fetched[..|fetched|] == fetched && feeds[..|fetched|] == feeds;
    }

    /** The open-data search; its `try` cannot raise on the fixed rows, which all carry every key. */
    method SearchCanadaOpenData(today: string)
      modifies this
      ensures opportunities == old(opportunities) + MapSeq(catalogue.openData, OpenDataRecord(today))
    {
      var programs := catalogue.openData;
      for i := 0 to |programs|
        invariant opportunities == old(opportunities) + MapSeq(programs[..i], OpenDataRecord(today))
      {
        assert programs[..i + 1] == programs[..i] + [programs[i]];
        MapSeqAppend(programs[..i], programs[i], OpenDataRecord(today));
        opportunities := opportunities + [OpenDataRecord(today)(programs[i])];
      }
      assert programs[..|programs|] == programs;
    }

    method SearchProvincialOpportunities(today: string)
      modifies this
      ensures opportunities == old(opportunities) + MapSeq(catalogue.provincial, ProvincialRecord(today))
    {
      var programs := catalogue.provincial;
      for i := 0 to |programs|
        invariant opportunities == old(opportunities) + MapSeq(programs[..i], ProvincialRecord(today))
      {
        assert programs[..i + 1] == programs[..i] + [programs[i]];
        MapSeqAppend(programs[..i], programs[i], ProvincialRecord(today));
        opportunities := opportunities + [ProvincialRecord(today)(programs[i])];
      }
      assert programs[..|programs|] == programs;
    }

    method SearchIndigenousPrograms(today: string)
      modifies this
      ensures opportunities == old(opportunities) + MapSeq(catalogue.indigenous, IndigenousRecord(today))
    {
      var programs := catalogue.indigenous;
      for i := 0 to |programs|
        invariant opportunities == old(opportunities) + MapSeq(programs[..i], IndigenousRecord(today))
      {
        assert programs[..i + 1] == programs[..i] + [programs[i]];
        MapSeqAppend(programs[..i], programs[i], IndigenousRecord(today));
        opportunities := opportunities + [IndigenousRecord(today)(programs[i])];
      }
      assert programs[..|programs|] == programs;
    }

    method SearchSectorSpecificTraining(today: string)
      modifies this
      ensures opportunities == old(opportunities) + MapSeq(catalogue.sector, SectorRecord(today))
    {
      var programs := catalogue.sector;
      for i := 0 to |programs|
        invariant opportunities == old(opportunities) + MapSeq(programs[..i], SectorRecord(today))
      {
        assert programs[..i + 1] == programs[..i] + [programs[i]];
        MapSeqAppend(programs[..i], programs[i], SectorRecord(today));
        opportunities := opportunities + [SectorRecord(today)(programs[i])];
      }
      assert programs[..|programs|] == programs;
    }

    method SearchCurrentRfps(today: string)
      modifies this
      ensures opportunities == old(opportunities) + MapSeq(catalogue.tenders, RfpRecord(today))
    {
      var rfps := catalogue.tenders;
      for i := 0 to |rfps|
        invariant opportunities == old(opportunities) + MapSeq(rfps[..i], RfpRecord(today))
      {
        assert rfps[..i + 1] == rfps[..i] + [rfps[i]];
        MapSeqAppend(rfps[..i], rfps[i], RfpRecord(today));
        opportunities := opportunities + [RfpRecord(today)(rfps[i])];
      }
      assert rfps[..|rfps|] == rfps;
    }

    /** The five table searches, in the order `get_all_real_opportunities` runs them. */
    method SearchTables(today: string)
      modifies this
      ensures opportunities == old(opportunities)
                               + MapSeq(catalogue.openData, OpenDataRecord(today))
                               + MapSeq(catalogue.provincial, ProvincialRecord(today))
                               + MapSeq(catalogue.indigenous, IndigenousRecord(today))
                               + MapSeq(catalogue.sector, SectorRecord(today))
                               + MapSeq(catalogue.tenders, RfpRecord(today))
    {
      SearchCanadaOpenData(today);
      SearchProvincialOpportunities(today);
      SearchIndigenousPrograms(today);
      SearchSectorSpecificTraining(today);
      SearchCurrentRfps(today);
    }

    /** Clears the list, runs every search and formats every record it collected. */
    method GetAllRealOpportunities(fetched: seq<Result<seq<FeedEntry>>>, today: string) returns (r: seq<Display>)
      requires |fetched| == |catalogue.feeds|
      modifies this
      ensures opportunities == Collected(fetched, catalogue, today)
      ensures r == AllRealOpportunities(fetched, catalogue, today)
    {
      opportunities := [];
      SearchCanadaRssFeeds(fetched, today);
      ghost var rss := RssRecords(fetched, catalogue.feeds, catalogue.keywords, catalogue.entriesPerFeed, today);
      assert opportunities == rss by {
        EmptyAppend(rss);
      }
      SearchTables(today);
      r := FormatAll(opportunities);
    }
  }

  // ---------------------------------------------------------------------------
  // Properties
  // ---------------------------------------------------------------------------

  /** Nothing collected is dropped: one display record per feed record and per table row. */
  lemma AllRealOpportunitiesCount(fetched: seq<Result<seq<FeedEntry>>>, c: Catalogue, today: string)
    requires |fetched| == |c.feeds|
    ensures |AllRealOpportunities(fetched, c, today)|
            == |RssRecords(fetched, c.feeds, c.keywords, c.entriesPerFeed, today)|
               + |c.openData| + |c.provincial| + |c.indigenous| + |c.sector| + |c.tenders|
  {
  }

  /** Each display record formats the collected record in the same position, which it gives back. */
  lemma AllRealOpportunitiesInOrder(fetched: seq<Result<seq<FeedEntry>>>, c: Catalogue, today: string, i: int)
    requires |fetched| == |c.feeds|
    requires 0 <= i < |Collected(fetched, c, today)|
    ensures Unformat(AllRealOpportunities(fetched, c, today)[i]) == Collected(fetched, c, today)[i]
  {
    FormatRoundTrip(Collected(fetched, c, today)[i]);
  }
}
