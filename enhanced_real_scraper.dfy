/**
 * The enhanced real-opportunity collector: two government RSS feeds filtered by
 * twelve keywords, then fixed tables of federal, provincial, Indigenous, sector,
 * tender and nonprofit programs, collected in that order, de-duplicated by title and
 * formatted for display. Each feed's fetch outcome is a parameter and the clock's
 * date is `today`.
 *
 * The tables are the collector's `catalogue`, which its constructor sets to the
 * fixed tables below; the searches and their specifications read them from there.
 */
module EnhancedRealScraper {
  import opened Wrappers
  import opened Strings
  import opened Collections
  import opened RealOpportunity

  // ---------------------------------------------------------------------------
  // The configured feeds and tables
  // ---------------------------------------------------------------------------

  /** Everything a run reads besides the feeds' contents. */
  datatype Catalogue = Catalogue(
    feeds: seq<Feed>,
    keywords: seq<string>,
    entriesPerFeed: nat,
    federal: seq<Program>,
    provincial: seq<(string, seq<Grant>)>,
    indigenous: seq<Program>,
    sector: seq<Program>,
    tenders: seq<Tender>,
    nonprofit: seq<Program>)

  function TheCatalogue(): Catalogue {
    Catalogue(RssFeeds, Keywords, 30, FederalPrograms, ProvincialPrograms, IndigenousPrograms,
              SectorPrograms, CurrentTenders, NonprofitPrograms)
  }

  const RssFeeds: seq<Feed> := [
    Feed("https://buyandsell.gc.ca/cds/public/rss/cds_public-tendering-en.xml", "BuyandSell.gc.ca - Tenders", "Federal"),
    Feed("https://www.canada.ca/content/canadasite/en/services/business.atom.xml", "Canada.ca Business", "Federal")
  ]

  const Keywords: seq<string> := [
    "training", "learning", "development", "education", "skills", "professional",
    "capacity building", "competency", "workshop", "certification", "course", "program"
  ]

  const FederalPrograms: seq<Program> := [
    Program("Skills for Success Program", "Employment and Social Development Canada",
            "https://www.canada.ca/en/employment-social-development/programs/skills-for-success.html",
            "Multi-million dollar program", "Federal Skills Program"),
    Program("Youth Employment and Skills Strategy", "Employment and Social Development Canada",
            "https://www.canada.ca/en/employment-social-development/programs/youth-employment-strategy.html",
            "Various funding levels", "Federal Youth Program"),
    Program("Sectoral Workforce Solutions Program", "Employment and Social Development Canada",
            "https://www.canada.ca/en/employment-social-development/programs/sectoral-workforce-solutions-program.html",
            "Up to $5 million per project", "Federal Sectoral Program"),
    Program("Foreign Credential Recognition Program", "Employment and Social Development Canada",
            "https://www.canada.ca/en/employment-social-development/programs/foreign-credential-recognition.html",
            "Various amounts", "Federal Recognition Program"),
    Program("Skills Boost Pilot", "Employment and Social Development Canada",
            "https://www.canada.ca/en/employment-social-development/programs/skills-boost.html",
            "Financial assistance for adult learners", "Federal Pilot Program"),
    Program("Apprenticeship Grants", "Employment and Social Development Canada",
            "https://www.canada.ca/en/employment-social-development/services/apprentices/grants.html",
            "Up to $4,000 per apprentice", "Federal Apprenticeship"),
    Program("Canada Training Credit", "Canada Revenue Agency",
            "https://www.canada.ca/en/revenue-agency/services/child-family-benefits/canada-training-credit.html",
            "$250 annually (accumulates)", "Federal Tax Credit"),
    Program("Union Training and Innovation Program", "Employment and Social Development Canada",
            "https://www.canada.ca/en/employment-social-development/programs/union-training-innovation.html",
            "Up to $10 million per project", "Federal Union Training")
  ]

  /** The provincial table, one group per province in the dictionary's order. */
  const ProvincialPrograms: seq<(string, seq<Grant>)> := [
    ("Ontario",
     [
         Grant("Ontario Second Career Program", "Employment Ontario",
               "https://www.ontario.ca/page/second-career",
               "Up to $28,000", "Financial support for skills training"),
         Grant("Canada-Ontario Job Grant", "Employment Ontario",
               "https://www.ontario.ca/page/canada-ontario-job-grant",
               "Up to $10,000 per trainee", "Employer-driven training grant"),
         Grant("Ontario Skills Development Fund", "Ministry of Labour, Immigration, Training and Skills Development",
               "https://www.ontario.ca/page/skills-development-fund",
               "Up to $1 million", "Support for innovative training projects"),
         Grant("Ontario Apprenticeship Program", "Skilled Trades Ontario",
               "https://www.skilledtradesontario.ca/",
               "Various grants and tax credits", "Support for apprenticeship training")
       ]),
    ("British Columbia",
     [
         Grant("BC Employer Training Grant", "WorkBC",
               "https://www.workbc.ca/Employer-Resources/BC-Employer-Training-Grant.aspx",
               "Up to $10,000 per employee", "Funding for short-term skills training"),
         Grant("StrongerBC Future Skills Grant", "Government of BC",
               "https://strongerbc.gov.bc.ca/stronger-bc-future-skills-grant/",
               "Up to $3,500 per person", "Funding for high-demand job training"),
         Grant("Community Workforce Response Grant", "WorkBC",
               "https://www.workbc.ca/Employment-Services/Community-Workforce-Response-Grant.aspx",
               "Up to $1.5 million", "Community-based training initiatives")
       ]),
    ("Alberta",
     [
         Grant("Canada-Alberta Job Grant", "Alberta Labour and Immigration",
               "https://www.alberta.ca/canada-alberta-job-grant.aspx",
               "Up to 2/3 of training costs", "Employer-driven training support"),
         Grant("Alberta Training for Work", "Alberta Advanced Education",
               "https://www.alberta.ca/training-for-work.aspx",
               "Full tuition coverage", "Training for unemployed Albertans"),
         Grant("Workforce Development Program", "Alberta Labour and Immigration",
               "https://www.alberta.ca/workforce-development-program.aspx",
               "Various amounts", "Support for workforce training initiatives")
       ]),
    ("Quebec",
     [
         Grant("Workforce Skills Development Program", "Emploi-Québec",
               "https://www.quebec.ca/en/employment/training-development",
               "Varies by program", "Various training support programs"),
         Grant("PACME - Concerted Action Program", "Investissement Québec",
               "https://www.investquebec.com/quebec/en/financial-products/smes-and-large-corporations/grants/pacme.html",
               "Up to $100,000", "Support for workforce training projects")
       ]),
    ("Manitoba",
     [
         Grant("Canada-Manitoba Job Grant", "Manitoba Economic Development and Jobs",
               "https://www.gov.mb.ca/wd/ites/is/cjg.html",
               "Up to $10,000 per trainee", "Employer-sponsored training"),
         Grant("Skills Development Program", "Manitoba Education and Training",
               "https://www.gov.mb.ca/wd/ites/is/skills_dev.html",
               "Various amounts", "Support for skills training")
       ]),
    ("Saskatchewan",
     [
         Grant("Canada-Saskatchewan Job Grant", "Saskatchewan Ministry of Immigration and Career Training",
               "https://www.saskatchewan.ca/residents/jobs-working-and-training/job-training-and-financial-support-programs/canada-saskatchewan-job-grant",
               "Up to $10,000 per trainee", "Employer-driven training grant"),
         Grant("Indigenous Skills Training Program", "Saskatchewan Indian Institute of Technologies",
               "https://www.siit.ca/",
               "Various programs", "Skills training for Indigenous peoples")
       ]),
    ("Atlantic Provinces",
     [
         Grant("Atlantic Immigration Program", "Atlantic Canada Opportunities Agency",
               "https://www.canada.ca/en/immigration-refugees-citizenship/services/immigrate-canada/atlantic-immigration.html",
               "Settlement and training support", "Support for immigrant training and integration"),
         Grant("SkillsPEI", "Government of PEI",
               "https://www.princeedwardisland.ca/en/information/workforce-advanced-learning-and-population/skillspei",
               "Various programs", "Skills development programs in PEI")
       ])
  ]

  const IndigenousPrograms: seq<Program> := [
    Program("Indigenous Skills and Employment Training Program", "Employment and Social Development Canada",
            "https://www.canada.ca/en/employment-social-development/programs/indigenous-skills-employment-training.html",
            "$2 billion over 5 years", "Indigenous Federal"),
    Program("First Nations and Inuit Youth Employment Strategy", "Indigenous Services Canada",
            "https://www.sac-isc.gc.ca/eng/1332346606177/1571408397256",
            "Various funding levels", "Indigenous Youth"),
    Program("Aboriginal Business and Entrepreneurship Development", "Indigenous Services Canada",
            "https://www.isc.gc.ca/eng/1375201178602/1610797286236",
            "Up to $99,999", "Indigenous Business"),
    Program("Post-Secondary Student Support Program", "Indigenous Services Canada",
            "https://www.sac-isc.gc.ca/eng/1100100033682/1531933580211",
            "Full tuition and living allowances", "Indigenous Education"),
    Program("Indigenous Community Support Fund", "Indigenous Services Canada",
            "https://www.sac-isc.gc.ca/eng/1585189335380/1585189357198",
            "Various amounts", "Indigenous Community"),
    Program("Métis Nation Skills Training Program", "Métis National Council",
            "https://www.metisnation.ca/",
            "Regional funding", "Métis Specific")
  ]

  const SectorPrograms: seq<Program> := [
    Program("Digital Technology Supercluster Training", "Canada's Digital Technology Supercluster",
            "https://www.digitalsupercluster.ca/",
            "Project-based funding", "Technology"),
    Program("ICTC Digital Talent Programs", "Information and Communications Technology Council",
            "https://www.ictc-ctic.ca/",
            "Various programs", "Technology"),
    Program("Cybersecurity Training Fund", "Canadian Centre for Cyber Security",
            "https://cyber.gc.ca/",
            "Varies by program", "Cybersecurity"),
    Program("Health Human Resources Strategy", "Health Canada",
            "https://www.canada.ca/en/health-canada/services/health-care-system/health-human-resources.html",
            "Multi-million dollar initiative", "Healthcare"),
    Program("Mental Health Training Programs", "Mental Health Commission of Canada",
            "https://www.mentalhealthcommission.ca/",
            "Various funding", "Healthcare"),
    Program("Sustainable Jobs Training Fund", "Natural Resources Canada",
            "https://www.nrcan.gc.ca/climate-change/canadas-green-future/sustainable-jobs/24898",
            "Up to $15 million total", "Green Economy"),
    Program("Clean Technology Training", "Environment and Climate Change Canada",
            "https://www.canada.ca/en/environment-climate-change.html",
            "Various programs", "Clean Tech"),
    Program("Red Seal Program", "Canadian Council of Directors of Apprenticeship",
            "https://www.red-seal.ca/",
            "Certification support", "Skilled Trades"),
    Program("Construction Skills Training", "BuildForce Canada",
            "https://www.buildforce.ca/",
            "Industry-funded", "Construction"),
    Program("Canadian Agricultural Partnership Training", "Agriculture and Agri-Food Canada",
            "https://www.agr.gc.ca/eng/canadian-agricultural-partnership/",
            "Cost-share funding", "Agriculture"),
    Program("Tourism HR Canada Training Programs", "Tourism HR Canada",
            "https://tourismhr.ca/",
            "Various programs", "Tourism")
  ]

  const CurrentTenders: seq<Tender> := [
    Tender("Leadership Development Training Services", "Public Services and Procurement Canada",
           "https://buyandsell.gc.ca", "Federal RFP", "2025-08-30", "TBD"),
    Tender("Cybersecurity Training for Government", "Shared Services Canada",
           "https://buyandsell.gc.ca", "Federal RFP", "2025-09-15", "$500K - $1M"),
    Tender("French Language Training Services", "Canada School of Public Service",
           "https://www.csps-efpc.gc.ca", "Standing Offer", "Ongoing", "As per standing offer"),
    Tender("Project Management Training", "Treasury Board Secretariat",
           "https://www.canada.ca/en/treasury-board-secretariat.html", "Federal Training", "2025-10-01", "$200K - $500K"),
    Tender("Indigenous Cultural Competency Training", "Crown-Indigenous Relations",
           "https://www.rcaanc-cirnac.gc.ca", "Federal RFP", "2025-09-30", "$300K - $700K"),
    Tender("Digital Transformation Training", "Canadian Digital Service",
           "https://digital.canada.ca", "Federal Initiative", "Q3 2025", "Multi-year funding")
  ]

  const NonprofitPrograms: seq<Program> := [
    Program("Maytree Foundation Skills Training", "Maytree Foundation",
            "https://maytree.com/",
            "Various amounts", "Foundation Grant"),
    Program("United Way Skills Development", "United Way Canada",
            "https://www.unitedway.ca/",
            "Community-based funding", "Nonprofit Program"),
    Program("YMCA Employment Programs", "YMCA Canada",
            "https://www.ymca.ca/",
            "Subsidized programs", "Nonprofit Training"),
    Program("Colleges and Institutes Canada Programs", "CICan",
            "https://www.collegesinstitutes.ca/",
            "Various partnerships", "Education Sector")
  ]

  // ---------------------------------------------------------------------------
  // The record each search appends for one row
  // ---------------------------------------------------------------------------

  function FederalRecord(today: string): Program -> Opportunity {
    (p: Program) => Opportunity(p.title, p.organization, "Federal Programs", p.url, p.kind,
                                "Ongoing - Check website", p.budget, "Federal program: " + p.title,
                                "See program website", today)
  }

  function ProvincialRecord(province: string, today: string): Grant -> Opportunity {
    (g: Grant) => Opportunity(g.title, g.organization, province + " Programs", g.url, province + " Provincial",
                              "Applications accepted year-round", g.budget, g.description,
                              "Contact provincial office", today)
  }

  function IndigenousRecord(today: string): Program -> Opportunity {
    (p: Program) => Opportunity(p.title, p.organization, "Indigenous Programs", p.url, p.kind,
                                "Ongoing", p.budget, "Indigenous-focused: " + p.title,
                                "Contact regional office", today)
  }

  function SectorRecord(today: string): Program -> Opportunity {
    (p: Program) => Opportunity(p.title, p.organization, "Sector Programs", p.url, p.kind + " Sector",
                                "Check program details", p.budget, "Sector-specific: " + p.title,
                                "See program website", today)
  }

  function TenderRecord(today: string): Tender -> Opportunity {
    (t: Tender) => Opportunity(t.title, t.organization, "Current RFPs/Tenders", t.url, t.kind,
                               t.deadline, t.budget, "Active procurement: " + t.title,
                               "See tender documents", today)
  }

  function NonprofitRecord(today: string): Program -> Opportunity {
    (p: Program) => Opportunity(p.title, p.organization, "Nonprofit/Foundation", p.url, p.kind,
                                "Ongoing", p.budget, "Nonprofit program: " + p.title,
                                "Contact organization", today)
  }

  /** The provincial records: each province's rows in order, province after province. */
  function ProvincialRecords(groups: seq<(string, seq<Grant>)>, today: string): (r: seq<Opportunity>)
    ensures |r| == GroupSizes(groups)
  {
    if groups == [] then []
    else
      var n := |groups| - 1;
      ProvincialRecords(groups[..n], today) + MapSeq(groups[n].1, ProvincialRecord(groups[n].0, today))
  }

  function GroupSizes(groups: seq<(string, seq<Grant>)>): nat {
    if groups == [] then 0 else GroupSizes(groups[..|groups| - 1]) + |groups[|groups| - 1].1|
  }

  /** Everything one run collects before de-duplication, in the order the searches run. */
  function Collected(fetched: seq<Result<seq<FeedEntry>>>, c: Catalogue, today: string): seq<Opportunity>
    requires |fetched| == |c.feeds|
  {
    RssRecords(fetched, c.feeds, c.keywords, c.entriesPerFeed, today)
    + MapSeq(c.federal, FederalRecord(today))
    + ProvincialRecords(c.provincial, today)
    + MapSeq(c.indigenous, IndigenousRecord(today))
    + MapSeq(c.sector, SectorRecord(today))
    + MapSeq(c.tenders, TenderRecord(today))
    + MapSeq(c.nonprofit, NonprofitRecord(today))
  }

  /** What `get_all_real_opportunities` returns: the first record of each title, formatted. */
  function AllRealOpportunities(fetched: seq<Result<seq<FeedEntry>>>, c: Catalogue, today: string): seq<Display>
    requires |fetched| == |c.feeds|
  {
    FormatAll(DedupBy(Collected(fetched, c, today), TitleOf))
  }

  function TitleOf(o: Opportunity): string {
    o.title
  }

  // ---------------------------------------------------------------------------
  // The collector
  // ---------------------------------------------------------------------------

  class EnhancedRealOpportunityScraper {
    var opportunities: seq<Opportunity>
    const catalogue: Catalogue

    constructor()
      ensures opportunities == [] && catalogue == TheCatalogue()
    {
      opportunities := [];
      catalogue := TheCatalogue();
    }

    /** The append loop every table search runs: one record per row, in row order. */
    method AppendRecords<T>(rows: seq<T>, make: T -> Opportunity)
      modifies this
      ensures opportunities == old(opportunities) + MapSeq(rows, make)
    {
      for i := 0 to |rows|
        invariant opportunities == old(opportunities) + MapSeq(rows[..i], make)
      {
        MapSeqAppend(rows[..i], rows[i], make);
        assert rows[..i + 1] == rows[..i] + [rows[i]];
        opportunities := opportunities + [make(rows[i])];
      }
      assert rows[..|rows|] == rows;
    }

    /**
     * Reads the first `entriesPerFeed` entries of each feed and appends the entries whose
     * lowered title holds a keyword; a feed whose fetch raised is skipped.
     */
    method SearchCanadaRssFeeds(fetched: seq<Result<seq<FeedEntry>>>, today: string)
      requires |fetched| == |catalogue.feeds|
      modifies this
      ensures opportunities
              == old(opportunities) + RssRecords(fetched, catalogue.feeds, catalogue.keywords, catalogue.entriesPerFeed, today)
    {
      var feeds, keywords, limit := catalogue.feeds, catalogue.keywords, catalogue.entriesPerFeed;
      for f := 0 to |fetched|
        invariant opportunities == old(opportunities) + RssRecords(fetched[..f], feeds[..f], keywords, limit, today)
      {
        RssRecordsStep(fetched, feeds, f, keywords, limit, today);
        if fetched[f].Ok? {
          var records := ReadFeed(Prefix(fetched[f].value, limit), feeds[f], keywords, today);
          opportunities := opportunities + records;
        } else {
          AppendEmpty(opportunities);
        }
      }
      assert fetched[..|fetched|] == fetched && feeds[..|fetched|] == feeds;
    }

    method SearchFederalPrograms(today: string)
      modifies this
      ensures opportunities == old(opportunities) + MapSeq(catalogue.federal, FederalRecord(today))
    {
      AppendRecords(catalogue.federal, FederalRecord(today));
    }

    /** The nested loop over the provinces and their rows. */
    method SearchAllProvincialPrograms(today: string)
      modifies this
      ensures opportunities == old(opportunities) + ProvincialRecords(catalogue.provincial, today)
    {
      var groups := catalogue.provincial;
      for i := 0 to |groups|
        invariant opportunities == old(opportunities) + ProvincialRecords(groups[..i], today)
      {
        assert groups[..i + 1][..i] == groups[..i];
        AppendRecords(groups[i].1, ProvincialRecord(groups[i].0, today));
      }
      assert groups[..|groups|] == groups;
    }

    method SearchIndigenousPrograms(today: string)
      modifies this
      ensures opportunities == old(opportunities) + MapSeq(catalogue.indigenous, IndigenousRecord(today))
    {
      AppendRecords(catalogue.indigenous, IndigenousRecord(today));
    }

    method SearchSectorSpecificPrograms(today: string)
      modifies this
      ensures opportunities == old(opportunities) + MapSeq(catalogue.sector, SectorRecord(today))
    {
      AppendRecords(catalogue.sector, SectorRecord(today));
    }

    method SearchCurrentRfpsAndTenders(today: string)
      modifies this
      ensures opportunities == old(opportunities) + MapSeq(catalogue.tenders, TenderRecord(today))
    {
      AppendRecords(catalogue.tenders, TenderRecord(today));
    }

    method SearchNonprofitAndFoundationPrograms(today: string)
      modifies this
      ensures opportunities == old(opportunities) + MapSeq(catalogue.nonprofit, NonprofitRecord(today))
    {
      AppendRecords(catalogue.nonprofit, NonprofitRecord(today));
    }

    /** The six table searches, in the order `get_all_real_opportunities` runs them. */
    method SearchTables(today: string)
      modifies this
      ensures opportunities == old(opportunities)
                               + MapSeq(catalogue.federal, FederalRecord(today))
                               + ProvincialRecords(catalogue.provincial, today)
                               + MapSeq(catalogue.indigenous, IndigenousRecord(today))
                               + MapSeq(catalogue.sector, SectorRecord(today))
                               + MapSeq(catalogue.tenders, TenderRecord(today))
                               + MapSeq(catalogue.nonprofit, NonprofitRecord(today))
    {
      SearchFederalPrograms(today);
      SearchAllProvincialPrograms(today);
      SearchIndigenousPrograms(today);
      SearchSectorSpecificPrograms(today);
      SearchCurrentRfpsAndTenders(today);
      SearchNonprofitAndFoundationPrograms(today);
    }

    /** Clears the list, reads the feeds, then runs the table searches. */
    method CollectAll(fetched: seq<Result<seq<FeedEntry>>>, today: string)
      requires |fetched| == |catalogue.feeds|
      modifies this
      ensures opportunities == Collected(fetched, catalogue, today)
    {
      opportunities := [];
      SearchCanadaRssFeeds(fetched, today);
      ghost var rss := RssRecords(fetched, catalogue.feeds, catalogue.keywords, catalogue.entriesPerFeed, today);
      assert opportunities == rss by {
        EmptyAppend(rss);
      }
      SearchTables(today);
    }

    /**
     * Collects everything, keeps the first record of each title (the `seen_titles`
     * loop) and formats the survivors.
     */
    method GetAllRealOpportunities(fetched: seq<Result<seq<FeedEntry>>>, today: string) returns (r: seq<Display>)
      requires |fetched| == |catalogue.feeds|
      modifies this
      ensures opportunities == Collected(fetched, catalogue, today)
      ensures r == AllRealOpportunities(fetched, catalogue, today)
    {
      CollectAll(fetched, today);
      var unique := DedupWithSeen(opportunities, TitleOf);
      r := FormatAll(unique);
    }
  }

  // ---------------------------------------------------------------------------
  // Properties
  // ---------------------------------------------------------------------------

  /**
   * The result never repeats a title, and each of its records is the formatted first
   * collected record of its title.
   */
  lemma AllRealOpportunitiesUnique(fetched: seq<Result<seq<FeedEntry>>>, c: Catalogue, today: string, j: int)
    requires |fetched| == |c.feeds|
    requires 0 <= j < |AllRealOpportunities(fetched, c, today)|
    ensures forall k :: 0 <= k < j ==> AllRealOpportunities(fetched, c, today)[k].title != AllRealOpportunities(fetched, c, today)[j].title
    ensures exists i :: 0 <= i < |Collected(fetched, c, today)|
              && AllRealOpportunities(fetched, c, today)[j] == Format(Collected(fetched, c, today)[i])
              && forall i' :: 0 <= i' < i ==> Collected(fetched, c, today)[i'].title != Collected(fetched, c, today)[i].title
  {
    var all := Collected(fetched, c, today);
    var u := DedupBy(all, TitleOf);
    DedupKeepsFirst(all, TitleOf, j);
    assert forall k :: 0 <= k < j ==> TitleOf(u[k]) != TitleOf(u[j]);
  }
}
