/**
 * The finder object: its query list, its simulated result table and its budget
 * reading, and the search loop of `find_all_opportunities` proved against `FindAll`.
 */
module AiFinder {
  import opened Wrappers
  import opened Collections
  import opened Ordering
  import opened Budget
  import opened AiScraper
  import opened Runs

  class AiTrainingOpportunityFinder {
    const searchQueries: seq<string>
    /** The `if` blocks of `_generate_ai_results`, in order. */
    const rules: seq<Rule>
    /** How the finder reads a budget's upper end: the intended reading. */
    const readValue: string -> Result<real>

    constructor()
      ensures searchQueries == SearchQueries
      ensures rules == Rules
      ensures readValue == DollarValue
    {
      searchQueries := SearchQueries;
      rules := Rules;
      readValue := DollarValue;
    }

    method SearchWithAi(query: string) returns (r: seq<AiResult>)
      ensures r == GenerateAiResults(rules, query)
      ensures |r| <= |rules|
      ensures forall x :: x in r <==> exists i :: 0 <= i < |rules| && Fires(rules[i], query) && x == rules[i].result
    {
      r := GenerateAiResults(rules, query);
      GenerateAiResultsExact(rules, query);
    }

    /** The loop over one query's results: analyse the confident ones, stopping at the first raise. */
    method AnalyzeResults(results: seq<AiResult>, days: string -> int, today: string) returns (r: Result<seq<Lead>>)
      ensures r == AnalyzeAll(Filter(results, Confident), days, today, readValue)
    {
      var found: seq<Lead> := [];
      for j := 0 to |results|
        invariant AnalyzeAll(Filter(results[..j], Confident), days, today, readValue) == Ok(found)
      {
        var result := results[j];
        FilteredRunStep(results, Confident, AnalyzeWith(days, today, readValue), j, found);
        if Confident(result) {
          var lead := Analyze(result, days, today, readValue);
          if lead.Err? {
            return Err(lead.error);
          }
          found := found + [lead.value];
        }
      }
      assert results[..|results|] == results;
      r := Ok(found);
    }

    /**
     * `find_all_opportunities`: every query in turn, the analysed confident results
     * appended, then the de-duplication on (organization, title) and the sort.
     */
    method FindAllOpportunities(days: string -> int, today: string) returns (r: Result<seq<Lead>>)
      ensures r == FindAll(searchQueries, rules, days, today, readValue)
    {
      var all: seq<Lead> := [];
      for i := 0 to |searchQueries|
        invariant AnalyzeAll(Candidates(Answers(searchQueries[..i], rules)), days, today, readValue) == Ok(all)
      {
        var results := SearchWithAi(searchQueries[i]);
        var found := AnalyzeResults(results, days, today);
        SearchStep(searchQueries, rules, i, days, today, readValue);
        if found.Err? {
          SearchStops(searchQueries, rules, i + 1, days, today, readValue);
          return Err(found.error);
        }
        all := all + found.value;
      }
      assert searchQueries[..|searchQueries|] == searchQueries;
      var unique := DedupWithSeen(all, LeadKey);
      r := Ok(SortBy(unique, LeadOrder));
    }
  }

  const SearchQueries: seq<string> := [
    "Government of Canada digital transformation training programs 2025 2026 RFP opportunities",
    "Treasury Board Secretariat employee training initiatives digital skills 2025",
    "Service Canada modernization training requirements 2025 2026",
    "ESDC Employment Social Development Canada professional development 2025",
    "Ontario Public Service mandatory training programs 2025 AODA compliance",
    "British Columbia government employee skills development 2025 2026",
    "Alberta public sector professional development opportunities 2025",
    "Quebec gouvernement formation professionnelle 2025 2026",
    "Toronto municipal employee training climate action 2025",
    "Vancouver city staff professional development 2025 2026",
    "Calgary municipal government training programs 2025",
    "Canadian government AI adoption training programs 2025",
    "Public sector cybersecurity training initiatives Canada 2025",
    "Government cloud transformation training requirements 2025",
    "Indigenous Services Canada capacity building programs 2025 2026",
    "First Nations government training opportunities 2025",
    "Government DEI diversity equity inclusion training Canada 2025"
  ]

  const Rules: seq<Rule> := [
    Rule(["digital transformation", "digital skills"],
         AiResult("Government of Canada - Treasury Board Secretariat",
                  "Digital Transformation Excellence Program 2025-2026",
                  "Comprehensive training initiative to upskill 50,000+ federal employees in AI, data analytics, and cloud technologies. Part of the GC Digital Ambition strategy.",
                  "https://www.canada.ca/en/treasury-board-secretariat/digital-transformation",
                  "$15M - $20M", "2025-03-15", "digital-excellence@tbs-sct.gc.ca", 0.95,
                  "High-priority federal initiative with confirmed budget allocation. Strong alignment with Digital Ambition 2025-2027. Multiple vendor opportunities across delivery streams.")),
    Rule(["ontario", "aoda"],
         AiResult("Ontario Public Service",
                  "Province-Wide AODA Compliance Training Initiative",
                  "Mandatory accessibility training for 65,000 OPS employees. Multi-year program with annual refresh requirements.",
                  "https://www.ontario.ca/accessibility-training",
                  "$8M - $12M", "2025-02-28", "accessibility.training@ontario.ca", 0.92,
                  "Legislative mandate ensures funding stability. Recurring revenue opportunity with 3-year initial contract plus options.")),
    Rule(["indigenous", "first nations"],
         AiResult("Indigenous Services Canada",
                  "Indigenous Leadership & Governance Training Program",
                  "Capacity building initiative for Indigenous governments and organizations. Focus on governance, financial management, and service delivery.",
                  "https://www.canada.ca/indigenous-services/capacity-building",
                  "$5M - $8M", "2025-04-30", "capacity.building@sac-isc.gc.ca", 0.88,
                  "Priority program with dedicated funding. Requires Indigenous partnership or significant Indigenous content expertise.")),
    Rule(["ai adoption", "artificial intelligence"],
         AiResult("Canadian Digital Service",
                  "AI Ethics and Implementation Training for Public Servants",
                  "Training program on responsible AI use in government. Covers ethics, bias mitigation, and practical implementation.",
                  "https://digital.canada.ca/ai-training",
                  "$3M - $5M", "2025-05-15", "ai-training@cds-snc.ca", 0.9,
                  "Emerging priority area with growing budget. Early mover advantage for vendors with AI governance expertise.")),
    Rule(["climate", "sustainability"],
         AiResult("City of Toronto",
                  "TransformTO Climate Action Training",
                  "Comprehensive sustainability training for 38,000 city employees. Part of net-zero strategy implementation.",
                  "https://www.toronto.ca/transformto-training",
                  "$2M - $4M", "2025-03-31", "transformto@toronto.ca", 0.85,
                  "Political priority with council-approved funding. Opportunity for innovative delivery methods and impact measurement."))
  ]
}

/** A training title worked through both readings of `_categorize_training`. */
module AiExamples {
  import opened Strings
  import opened AiScraper

  /**
   * The title "Leadership Training" with no description is read as the text
   * "leadership training ": digital skills training as written, leadership
   * development as intended.
   */
  lemma LeadershipTrainingCategory(text: string)
    requires text == "leadership training "
    ensures CategoryOfTextAsWritten(text) == DigitalSkills
    ensures CategoryOfText(text) == LeadershipDevelopment
  {
    LeadershipTextWords(text);
    LeadershipTextNotDigital(text);
    assert !ContainsAny(text, ["digital", "technology"]);
    LeadershipTrainingDiffers(text);
  }

  lemma LeadershipTextWords(text: string)
    requires text == "leadership training "
    ensures Contains(text, "leadership") && Contains(text, "training")
  {
    assert OccursAt(text, "leadership", 0);
    assert OccursAt(text, "training", 11);
  }

  lemma LeadershipTextNotDigital(text: string)
    requires text == "leadership training "
    ensures !Contains(text, "digital") && !Contains(text, "technology") && !HasWord(text, "ai")
  {
    forall i | 0 <= i <= |text| - 7 ensures !OccursAt(text, "digital", i) {
      assert text[i..i + 7][0] == text[i] && text[i..i + 7][1] == text[i + 1];
    }
    forall i | 0 <= i <= |text| - 10 ensures !OccursAt(text, "technology", i) {
      assert text[i..i + 10][0] == text[i] && text[i..i + 10][1] == text[i + 1];
    }
    forall i | 0 <= i <= |text| - 2 && OccursAt(text, "ai", i)
      ensures i > 0 && IsLetter(text[i - 1])
    {
      assert text[i..i + 2][0] == text[i] && text[i..i + 2][1] == text[i + 1];
    }
  }
}
