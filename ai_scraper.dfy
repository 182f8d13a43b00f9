/**
 * The AI opportunity finder. Each search query is answered by a fixed list of
 * simulated results, chosen by phrases of the lowered query; each result with a
 * confidence of at least 0.8 is analysed into a lead (tier, next steps, decision
 * makers, competition, win probability, requirements, training type); the leads
 * are de-duplicated on (organization, title) and sorted by tier and deadline.
 *
 * The clock enters only through `days`, the number of whole days from now to a
 * deadline, and `today`; the lead id (time stamp and random number) is left out.
 * Every operation that reads a budget takes the budget reader as a parameter, so the
 * same definitions give both the run as written (`DollarValueAsWritten`, which raises
 * IndexError on every "$aM - $bM" budget) and the run as intended (`DollarValue`).
 */
module AiScraper {
  import opened Wrappers
  import opened Strings
  import opened Collections
  import opened Ordering
  import opened Tiers
  import opened Budget
  import opened Runs

  // ---------------------------------------------------------------------------
  // Search results
  // ---------------------------------------------------------------------------

  /** A result of the simulated search; `confidence` is its 'ai_confidence' fraction. */
  datatype AiResult = AiResult(
    organization: string,
    title: string,
    description: string,
    url: string,
    budget: string,
    deadline: string,
    contact: string,
    confidence: real,
    analysis: string)

  /** One `if` block of `_generate_ai_results`: the phrases it looks for and the result it adds. */
  datatype Rule = Rule(phrases: seq<string>, result: AiResult)

  /** The block's test: one of its phrases occurs in the lowered query. */
  predicate Fires(rule: Rule, query: string) {
    ContainsAny(Lower(query), rule.phrases)
  }

  /** The results of the blocks whose test passes, in block order. */
  function GenerateAiResults(rules: seq<Rule>, query: string): (r: seq<AiResult>)
    ensures |r| <= |rules|
  {
    if rules == [] then []
    else
      var n := |rules| - 1;
      GenerateAiResults(rules[..n], query) + (if Fires(rules[n], query) then [rules[n].result] else [])
  }

  /** A query gets exactly the results of the blocks that fire on it. */
  lemma {:induction false} GenerateAiResultsExact(rules: seq<Rule>, query: string)
    ensures forall x :: x in GenerateAiResults(rules, query) <==>
              exists i :: 0 <= i < |rules| && Fires(rules[i], query) && x == rules[i].result
  {
    if rules != [] {
      var n := |rules| - 1;
      var p := rules[..n];
      var last := if Fires(rules[n], query) then [rules[n].result] else [];
      assert GenerateAiResults(rules, query) == GenerateAiResults(p, query) + last;
      GenerateAiResultsExact(p, query);
      forall x ensures x in GenerateAiResults(rules, query) <==>
                       exists i :: 0 <= i < |rules| && Fires(rules[i], query) && x == rules[i].result
      {
        if x in GenerateAiResults(p, query) {
          var i :| 0 <= i < |p| && Fires(p[i], query) && x == p[i].result;
          assert rules[i] == p[i];
        } else if x in last {
          assert Fires(rules[n], query) && x == rules[n].result;
        }
        if exists i :: 0 <= i < |rules| && Fires(rules[i], query) && x == rules[i].result {
          var i :| 0 <= i < |rules| && Fires(rules[i], query) && x == rules[i].result;
          if i < n {
            assert rules[i] == p[i];
          } else {
            assert x in last;
          }
        }
      }
    }
  }

  // ---------------------------------------------------------------------------
  // The analysis of one result
  // ---------------------------------------------------------------------------

  /** `_calculate_tier` on the days to the deadline and the budget's upper end in millions. */
  function TierFor(days: int, value: real): (t: Tier)
    ensures t == Urgent <==> days <= 45 || value >= 10.0
    ensures t == Standard <==> days > 90 && value < 5.0
  {
    if days <= 45 || value >= 10.0 then Urgent
    else if days <= 90 || value >= 5.0 then HighPriority
    else Standard
  }

  /** A nearer deadline or a larger budget never lowers the tier. */
  lemma TierForMonotone(d1: int, v1: real, d2: int, v2: real)
    requires d1 <= d2 && v1 >= v2
    ensures Rank(TierFor(d1, v1)) <= Rank(TierFor(d2, v2))
  {
  }

  /** The three levels of `_analyze_competition`. */
  datatype CompetitionLevel = HighCompetition | MediumCompetition | LowCompetition

  /** `_analyze_competition` on the budget's upper end. */
  function Competition(value: real): (c: CompetitionLevel)
    ensures c == HighCompetition <==> value >= 10.0
    ensures c == LowCompetition <==> value < 5.0
  {
    if value >= 10.0 then HighCompetition
    else if value >= 5.0 then MediumCompetition
    else LowCompetition
  }

  /** The text `_analyze_competition` returns for each level. */
  function CompetitionText(c: CompetitionLevel): string {
    match c
    case HighCompetition =>
      "High competition expected from major consulting firms (Deloitte, PwC, Accenture). Differentiation through specialized expertise critical."
    case MediumCompetition =>
      "Medium competition from national training providers. Local presence and government experience are key advantages."
    case LowCompetition =>
      "Lower competition but price sensitivity high. Focus on value proposition and proven ROI."
  }

  /** A budget that draws the major firms is always also an urgent one. */
  lemma HighCompetitionIsUrgent(days: int, value: real)
    requires Competition(value) == HighCompetition
    ensures TierFor(days, value) == Urgent
  {
  }

  datatype WinBand = High | Medium | Low

  /** The win estimate: its band and its percentage (the text renders the percentage with no decimals). */
  datatype WinEstimate = WinEstimate(band: WinBand, percent: real)

  /** `min((0.3 + (confidence - 0.5) * 0.2 + (0.1 if urgent else 0)) * 100, 75)`, in exact arithmetic. */
  function WinPercent(confidence: real, urgent: bool): (p: real)
    ensures p <= 75.0
    ensures p < 75.0 ==> p == (0.3 + (confidence - 0.5) * 0.2 + (if urgent then 0.1 else 0.0)) * 100.0
  {
    var base := 0.3 + (confidence - 0.5) * 0.2 + (if urgent then 0.1 else 0.0);
    if base * 100.0 < 75.0 then base * 100.0 else 75.0
  }

  function Band(p: real): (b: WinBand)
    ensures b == High <==> p >= 60.0
    ensures b == Low <==> p < 40.0
  {
    if p >= 60.0 then High else if p >= 40.0 then Medium else Low
  }

  /** `_calculate_win_probability`; `urgent` is its `'Tier 1' in tier` test. */
  function WinEstimateOf(confidence: real, urgent: bool): WinEstimate {
    var p := WinPercent(confidence, urgent);
    WinEstimate(Band(p), p)
  }

  /**
   * With a confidence of at most 1 the estimate stays at or below 50%: the "High" band
   * and the 75% cap are never reached, and a non-urgent lead stays at or below 40%.
   */
  lemma WinEstimateNeverHigh(confidence: real, urgent: bool)
    requires confidence <= 1.0
    ensures WinEstimateOf(confidence, urgent).percent <= (if urgent then 50.0 else 40.0)
    ensures WinEstimateOf(confidence, urgent).band != High
  {
  }

  /** The three playbooks of `_generate_next_steps`. */
  datatype Buyer = FederalBuyer | ProvincialBuyer | MunicipalBuyer

  /** `_generate_next_steps`'s choice of playbook by the organization's name. */
  function BuyerOf(organization: string): (b: Buyer)
    ensures b == FederalBuyer <==> Contains(organization, "Government of Canada")
    ensures b == MunicipalBuyer <==>
              !Contains(organization, "Government of Canada") && !Contains(organization, "Ontario")
              && !Contains(organization, "British Columbia")
  {
    if Contains(organization, "Government of Canada") then FederalBuyer
    else if Contains(organization, "Ontario") || Contains(organization, "British Columbia") then ProvincialBuyer
    else MunicipalBuyer
  }

  /** The five numbered steps of each playbook. */
  function NextStepsText(b: Buyer): seq<string> {
    match b
    case FederalBuyer =>
      ["1. Verify standing offer eligibility with PSPC",
       "2. Contact program director for pre-RFP consultation",
       "3. Review recent similar contracts on buyandsell.gc.ca",
       "4. Prepare security clearance documentation",
       "5. Identify potential Indigenous business partnerships"]
    case ProvincialBuyer =>
      ["1. Register on provincial vendor portal",
       "2. Schedule meeting with ministry procurement team",
       "3. Confirm French language delivery capabilities",
       "4. Prepare provincial reference projects",
       "5. Review union considerations for training delivery"]
    case MunicipalBuyer =>
      ["1. Connect with municipal procurement office",
       "2. Attend next council meeting on the topic",
       "3. Identify local partnership opportunities",
       "4. Prepare cost-benefit analysis for council",
       "5. Demonstrate local economic benefits"]
  }

  /** The buyers `_identify_decision_makers` knows by name, and the rest. */
  datatype Office = TreasuryBoard | OntarioPublicService | CityOfToronto | OtherOffice

  function OfficeOf(organization: string): (o: Office)
    ensures o == TreasuryBoard <==> Contains(organization, "Treasury Board")
    ensures o == OtherOffice <==>
              !Contains(organization, "Treasury Board") && !Contains(organization, "Ontario Public Service")
              && !Contains(organization, "City of Toronto")
  {
    if Contains(organization, "Treasury Board") then TreasuryBoard
    else if Contains(organization, "Ontario Public Service") then OntarioPublicService
    else if Contains(organization, "City of Toronto") then CityOfToronto
    else OtherOffice
  }

  /** `_identify_decision_makers`: four named roles for a known buyer, three generic ones otherwise. */
  function DecisionMakersText(o: Office): seq<string> {
    match o
    case TreasuryBoard =>
      ["Chief Information Officer of Canada",
       "Assistant Deputy Minister, Digital Policy",
       "Director General, Digital Talent",
       "Senior Director, Learning and Development"]
    case OntarioPublicService =>
      ["Secretary of the Cabinet",
       "Chief Digital Officer",
       "Assistant Deputy Minister, Talent Acquisition",
       "Director, Centre for Leadership and Learning"]
    case CityOfToronto =>
      ["City Manager",
       "Chief People Officer",
       "Director, Strategic Initiatives",
       "Manager, Organizational Development"]
    case OtherOffice =>
      ["Chief Administrative Officer",
       "Director of Human Resources",
       "Manager of Professional Development"]
  }

  /** The requirements `_extract_requirements` can list. */
  datatype Requirement =
    | Bilingual | Wcag | IndigenousCompetency | SecurityClearance | VirtualDelivery
    | GovernmentExperience | CanadianContent

  function RequirementText(r: Requirement): string {
    match r
    case Bilingual => "Bilingual delivery (English/French)"
    case Wcag => "WCAG 2.1 AA compliance"
    case IndigenousCompetency => "Indigenous cultural competency"
    case SecurityClearance => "Security clearance required"
    case VirtualDelivery => "Virtual delivery platform"
    case GovernmentExperience => "Proven government training experience"
    case CanadianContent => "Canadian content and examples"
  }

  /** The requirements in the order `_extract_requirements` appends them. */
  const AllRequirements: seq<Requirement> :=
    [Bilingual, Wcag, IndigenousCompetency, SecurityClearance, VirtualDelivery, GovernmentExperience, CanadianContent]

  /**
   * Whether the lowered description calls for a requirement: one of its phrases
   * occurs; the last two are always listed.
   */
  predicate CallsFor(desc: string, r: Requirement) {
    match r
    case Bilingual => ContainsAny(desc, ["bilingual", "french"])
    case Wcag => ContainsAny(desc, ["accessible", "aoda"])
    case IndigenousCompetency => Contains(desc, "indigenous")
    case SecurityClearance => Contains(desc, "security")
    case VirtualDelivery => ContainsAny(desc, ["virtual", "online"])
    case GovernmentExperience => true
    case CanadianContent => true
  }

  /** `_extract_requirements`: the requirements the lowered description calls for, in the source's order. */
  function ExtractRequirements(description: string): (r: seq<Requirement>)
    ensures |r| <= 7
  {
    Filter(AllRequirements, (req: Requirement) => CallsFor(Lower(description), req))
  }

  /**
   * A requirement is listed exactly when the lowered description calls for it, so the
   * two standing ones always are; the list keeps the source's order and never repeats.
   */
  lemma RequirementsExactly(description: string)
    ensures forall req :: req in ExtractRequirements(description) <==> CallsFor(Lower(description), req)
    ensures GovernmentExperience in ExtractRequirements(description) && CanadianContent in ExtractRequirements(description)
    ensures Subsequence(ExtractRequirements(description), AllRequirements)
  {
    var p := (req: Requirement) => CallsFor(Lower(description), req);
    FilterSpec(AllRequirements, p);
    var r := ExtractRequirements(description);
    forall req ensures req in r <==> CallsFor(Lower(description), req) {
      assert req == AllRequirements[RequirementIndex(req)];
      if req in r {
        var j :| 0 <= j < |r| && r[j] == req;
        assert p(r[j]);
      }
    }
  }

  /** The texts of the listed requirements: one per called-for requirement and no other, in the source's order. */
  lemma RequirementTexts(description: string)
    ensures var s := MapSeq(ExtractRequirements(description), RequirementText);
            (forall req :: CallsFor(Lower(description), req) ==> RequirementText(req) in s)
            && (forall x :: x in s ==> exists req :: CallsFor(Lower(description), req) && x == RequirementText(req))
            && RequirementText(GovernmentExperience) in s && RequirementText(CanadianContent) in s
            && Subsequence(ExtractRequirements(description), AllRequirements)
  {
    RequirementsExactly(description);
    var reqs := ExtractRequirements(description);
    MapSeqHas(reqs, RequirementText);
    var s := MapSeq(reqs, RequirementText);
    forall x | x in s
      ensures exists req :: CallsFor(Lower(description), req) && x == RequirementText(req)
    {
      var i :| 0 <= i < |s| && s[i] == x;
      assert reqs[i] in reqs;
    }
  }

  function RequirementIndex(r: Requirement): (i: nat)
    ensures i < |AllRequirements| && AllRequirements[i] == r
  {
    match r
    case Bilingual => 0
    case Wcag => 1
    case IndigenousCompetency => 2
    case SecurityClearance => 3
    case VirtualDelivery => 4
    case GovernmentExperience => 5
    case CanadianContent => 6
  }

  // ---------------------------------------------------------------------------
  // Training type
  // ---------------------------------------------------------------------------

  datatype Category =
    | DigitalSkills | LeadershipDevelopment | ComplianceTraining | DeiTraining
    | SustainabilityTraining | IndigenousCapacityBuilding | ProfessionalDevelopment

  function CategoryName(c: Category): string {
    match c
    case DigitalSkills => "Digital Skills Training"
    case LeadershipDevelopment => "Leadership Development"
    case ComplianceTraining => "Compliance Training"
    case DeiTraining => "DEI Training"
    case SustainabilityTraining => "Sustainability Training"
    case IndigenousCapacityBuilding => "Indigenous Capacity Building"
    case ProfessionalDevelopment => "Professional Development"
  }

  /** The text `_categorize_training` reads: title, a blank and description, lowered. */
  function TrainingText(title: string, description: string): string {
    Lower(title + " " + description)
  }

  /** `_categorize_training` as written: `'ai' in text` is a substring test. */
  function CategorizeTrainingAsWritten(title: string, description: string): (c: Category)
    ensures c == DigitalSkills <==> ContainsAny(TrainingText(title, description), ["digital", "technology", "ai"])
    ensures Contains(TrainingText(title, description), "training") ==> c == DigitalSkills
  {
    var text := TrainingText(title, description);
    if Contains(text, "training") then
      TrainingIsDigitalAsWritten(text);
      CategoryOfTextAsWritten(text)
    else
      CategoryOfTextAsWritten(text)
  }

  /** The tests of `_categorize_training` as written, on the lowered text. */
  function CategoryOfTextAsWritten(text: string): (c: Category)
    ensures c == DigitalSkills <==> ContainsAny(text, ["digital", "technology", "ai"])
  {
    if ContainsAny(text, ["digital", "technology", "ai"]) then DigitalSkills
    else CategoryAfterDigital(text)
  }

  /** The categories tested after the digital one, in the source's order. */
  function CategoryAfterDigital(text: string): (c: Category)
    ensures c != DigitalSkills
    ensures c == ProfessionalDevelopment <==>
              !ContainsAny(text, ["leadership", "management"])
              && !ContainsAny(text, ["compliance", "mandatory", "aoda"])
              && !ContainsAny(text, ["diversity", "inclusion", "equity"])
              && !ContainsAny(text, ["climate", "sustainability"])
              && !Contains(text, "indigenous")
  {
    if ContainsAny(text, ["leadership", "management"]) then LeadershipDevelopment
    else if ContainsAny(text, ["compliance", "mandatory", "aoda"]) then ComplianceTraining
    else if ContainsAny(text, ["diversity", "inclusion", "equity"]) then DeiTraining
    else if ContainsAny(text, ["climate", "sustainability"]) then SustainabilityTraining
    else if Contains(text, "indigenous") then IndigenousCapacityBuilding
    else ProfessionalDevelopment
  }

  /**
   * As written, every text that mentions "training" is digital skills training: "ai"
   * occurs inside the word "training".
   */
  lemma TrainingIsDigitalAsWritten(text: string)
    requires Contains(text, "training")
    ensures CategoryOfTextAsWritten(text) == DigitalSkills
  {
    assert OccursAt("training", "ai", 2);
    ContainsTransitive(text, "training", "ai");
    assert Contains(text, ["digital", "technology", "ai"][2]);
  }

  predicate IsLetter(c: char) {
    'a' <= c <= 'z' || 'A' <= c <= 'Z'
  }

  /** `w` occurs in `s` as a whole word: not preceded or followed by a letter. */
  predicate HasWord(s: string, w: string) {
    exists i | 0 <= i <= |s| - |w| ::
      OccursAt(s, w, i) && (i == 0 || !IsLetter(s[i - 1])) && (i + |w| == |s| || !IsLetter(s[i + |w|]))
  }

  /** `_categorize_training` as intended. */
  function CategorizeTraining(title: string, description: string): (c: Category)
    ensures c == DigitalSkills <==>
              ContainsAny(TrainingText(title, description), ["digital", "technology"])
              || HasWord(TrainingText(title, description), "ai")
    ensures c != DigitalSkills ==> c == CategoryAfterDigital(TrainingText(title, description))
  {
    CategoryOfText(TrainingText(title, description))
  }

  /** The intended tests on the lowered text: "ai" must be a word of its own. */
  function CategoryOfText(text: string): (c: Category)
    ensures c == DigitalSkills <==> ContainsAny(text, ["digital", "technology"]) || HasWord(text, "ai")
    ensures c != DigitalSkills ==> c == CategoryAfterDigital(text)
  {
    if ContainsAny(text, ["digital", "technology"]) || HasWord(text, "ai") then DigitalSkills
    else CategoryAfterDigital(text)
  }

  /** The two readings differ only on texts where "ai" occurs inside a longer word. */
  lemma CategoriesAgreeOnWords(text: string)
    requires HasWord(text, "ai") || !Contains(text, "ai")
    ensures CategoryOfTextAsWritten(text) == CategoryOfText(text)
  {
    if HasWord(text, "ai") {
      var i :| 0 <= i <= |text| - 2 && OccursAt(text, "ai", i)
               && (i == 0 || !IsLetter(text[i - 1])) && (i + 2 == |text| || !IsLetter(text[i + 2]));
      assert Contains(text, ["digital", "technology", "ai"][2]);
    } else {
      var three := ["digital", "technology", "ai"];
      var two := ["digital", "technology"];
      assert ContainsAny(text, three) ==> ContainsAny(text, two) by {
        if ContainsAny(text, three) {
          var k :| 0 <= k < 3 && Contains(text, three[k]);
          assert k < 2 && three[k] == two[k];
        }
      }
      assert ContainsAny(text, two) ==> ContainsAny(text, three) by {
        if ContainsAny(text, two) {
          var k :| 0 <= k < 2 && Contains(text, two[k]);
          assert three[k] == two[k];
        }
      }
    }
  }

  /**
   * A leadership training text with no digital wording is digital skills training as
   * written and leadership development as intended.
   */
  lemma LeadershipTrainingDiffers(text: string)
    requires Contains(text, "leadership") && Contains(text, "training")
    requires !ContainsAny(text, ["digital", "technology"]) && !HasWord(text, "ai")
    ensures CategoryOfTextAsWritten(text) == DigitalSkills
    ensures CategoryOfText(text) == LeadershipDevelopment
  {
    TrainingIsDigitalAsWritten(text);
    assert Contains(text, ["leadership", "management"][0]);
  }

  // ---------------------------------------------------------------------------
  // The lead
  // ---------------------------------------------------------------------------

  /**
   * What `analyze_opportunity` returns, without the time-and-random 'id': the result it
   * analysed, the date, the budget's upper end as `_calculate_tier` read it, and the
   * tier. The other entries of the returned dictionary are the member functions,
   * each computed from these as the source computes it, except the training type,
   * which uses the corrected category test `CategorizeTraining`.
   */
  datatype Lead = Lead(result: AiResult, dateFound: string, budgetValue: real, tier: Tier) {
    function Organization(): string {
      result.organization
    }

    function Opportunity(): string {
      result.title
    }

    function Source(): string {
      result.url
    }

    function Deadline(): string {
      result.deadline
    }

    function BudgetRange(): string {
      result.budget
    }

    function TierLabel(): string {
      Label(tier)
    }

    function Status(): string {
      "New Lead"
    }

    function Confidence(): real {
      result.confidence
    }

    function CriticalAnalysis(): string {
      result.analysis
    }

    /** The federal playbook for the Government of Canada, the provincial one for Ontario or BC, else the municipal one. */
    function NextSteps(): (s: seq<string>)
      ensures Contains(result.organization, "Government of Canada") ==> s == NextStepsText(FederalBuyer)
      ensures !Contains(result.organization, "Government of Canada")
              && (Contains(result.organization, "Ontario") || Contains(result.organization, "British Columbia"))
              ==> s == NextStepsText(ProvincialBuyer)
      ensures !Contains(result.organization, "Government of Canada") && !Contains(result.organization, "Ontario")
              && !Contains(result.organization, "British Columbia")
              ==> s == NextStepsText(MunicipalBuyer)
    {
      NextStepsText(BuyerOf(result.organization))
    }

    /** Four named roles for the three buyers known by name, three generic ones for the rest. */
    function DecisionMakers(): (s: seq<string>)
      ensures Contains(result.organization, "Treasury Board") ==> s == DecisionMakersText(TreasuryBoard)
      ensures !Contains(result.organization, "Treasury Board") && Contains(result.organization, "Ontario Public Service")
              ==> s == DecisionMakersText(OntarioPublicService)
      ensures !Contains(result.organization, "Treasury Board") && !Contains(result.organization, "Ontario Public Service")
              && Contains(result.organization, "City of Toronto")
              ==> s == DecisionMakersText(CityOfToronto)
      ensures !Contains(result.organization, "Treasury Board") && !Contains(result.organization, "Ontario Public Service")
              && !Contains(result.organization, "City of Toronto")
              ==> s == DecisionMakersText(OtherOffice)
    {
      DecisionMakersText(OfficeOf(result.organization))
    }

    /** The major firms from a $10M upper end, the lower-competition text below $5M. */
    function CompetitiveLandscape(): (s: string)
      ensures budgetValue >= 10.0 ==> s == CompetitionText(HighCompetition)
      ensures 5.0 <= budgetValue < 10.0 ==> s == CompetitionText(MediumCompetition)
      ensures budgetValue < 5.0 ==> s == CompetitionText(LowCompetition)
    {
      CompetitionText(Competition(budgetValue))
    }

    /** Capped at 75%, banded at 60% and 40%; with a confidence of at most 1 never "High". */
    function WinProbability(): (w: WinEstimate)
      ensures w.percent <= 75.0
      ensures w.band == High <==> w.percent >= 60.0
      ensures w.band == Low <==> w.percent < 40.0
      ensures result.confidence <= 1.0 ==> w.band != High && w.percent <= (if tier == Urgent then 50.0 else 40.0)
    {
      WinEstimateOf(result.confidence, tier == Urgent)
    }

    /**
     * One text per requirement the description calls for and no other, in the source's
     * order; the two standing ones are always among them.
     */
    function KeyRequirements(): (s: seq<string>)
      ensures |s| <= 7
      ensures forall req :: CallsFor(Lower(result.description), req) ==> RequirementText(req) in s
      ensures forall x :: x in s ==> exists req :: CallsFor(Lower(result.description), req) && x == RequirementText(req)
      ensures RequirementText(GovernmentExperience) in s && RequirementText(CanadianContent) in s
      ensures |s| == |ExtractRequirements(result.description)|
      ensures forall i :: 0 <= i < |s| ==> s[i] == RequirementText(ExtractRequirements(result.description)[i])
      ensures Subsequence(ExtractRequirements(result.description), AllRequirements)
    {
      RequirementTexts(result.description);
      MapSeq(ExtractRequirements(result.description), RequirementText)
    }

    /** Digital skills training exactly when the text says "digital" or "technology" or has "ai" as a word. */
    function TrainingType(): (s: string)
      ensures s == CategoryName(DigitalSkills) <==>
                ContainsAny(TrainingText(result.title, result.description), ["digital", "technology"])
                || HasWord(TrainingText(result.title, result.description), "ai")
    {
      CategoryName(CategorizeTraining(result.title, result.description))
    }
  }

  /**
   * `analyze_opportunity` with the budget reader `readValue`; the first budget read,
   * in `_calculate_tier`, is where a raise leaves it.
   */
  function Analyze(result: AiResult, days: string -> int, today: string, readValue: string -> Result<real>): (r: Result<Lead>)
    ensures r.Ok? <==> readValue(result.budget).Ok?
    ensures r.Err? ==> r.error == readValue(result.budget).error
    ensures r.Ok? ==> r.value.result == result && r.value.budgetValue == readValue(result.budget).value
                      && r.value.tier == TierFor(days(result.deadline), r.value.budgetValue)
  {
    var value :- readValue(result.budget);
    Ok(Lead(result, today, value, TierFor(days(result.deadline), value)))
  }

  /** On a "$aM - $bM" budget the analysis as written raises IndexError. */
  lemma AnalyzeAsWrittenFailsOnRange(result: AiResult, a: string, b: string, days: string -> int, today: string)
    requires '$' !in a && 'M' !in a && '-' !in a
    requires result.budget == "$" + a + "M - $" + b + "M"
    ensures Analyze(result, days, today, DollarValueAsWritten) == Err(IndexError)
  {
    AsWrittenFailsOnRange(a, b);
    assert '$' in result.budget by {
      assert result.budget[0] == '$';
    }
  }

  /** With the intended reading the same budget rates the lead by its upper end `b`. */
  lemma AnalyzeReadsRange(result: AiResult, a: string, b: string, days: string -> int, today: string)
    requires '-' !in a && b != [] && AllDigits(b)
    requires result.budget == "$" + a + "M - $" + b + "M"
    ensures Analyze(result, days, today, DollarValue).Ok?
    ensures Analyze(result, days, today, DollarValue).value.budgetValue == DigitsValue(b) as real
  {
    UpperBoundOfRange(a, b);
    assert '$' in result.budget by {
      assert result.budget[0] == '$';
    }
  }

  // ---------------------------------------------------------------------------
  // The whole search
  // ---------------------------------------------------------------------------

  /** `result['ai_confidence'] >= 0.8`. */
  predicate Confident(result: AiResult) {
    result.confidence >= 0.8
  }

  /** The simulated results of each query, query after query. */
  function Answers(queries: seq<string>, rules: seq<Rule>): (r: seq<seq<AiResult>>)
    ensures |r| == |queries|
  {
    if queries == [] then []
    else
      var n := |queries| - 1;
      Answers(queries[..n], rules) + [GenerateAiResults(rules, queries[n])]
  }

  /** Each query's answer is `GenerateAiResults` on it. */
  lemma {:induction false} AnswersAt(queries: seq<string>, rules: seq<Rule>, i: int)
    requires 0 <= i < |queries|
    ensures Answers(queries, rules)[i] == GenerateAiResults(rules, queries[i])
  {
    var n := |queries| - 1;
    if i < n {
      AnswersAt(queries[..n], rules, i);
    }
  }

  lemma {:induction false} AnswersAppend(q1: seq<string>, q2: seq<string>, rules: seq<Rule>)
    ensures Answers(q1 + q2, rules) == Answers(q1, rules) + Answers(q2, rules)
  {
    if q2 == [] {
      assert q1 + q2 == q1;
    } else {
      var n := |q2| - 1;
      AnswersAppend(q1, q2[..n], rules);
      assert (q1 + q2)[..|q1 + q2| - 1] == q1 + q2[..n];
      assert (q1 + q2)[|q1 + q2| - 1] == q2[n];
    }
  }

  /** The confident results among the answers, answer after answer. */
  function Candidates(answers: seq<seq<AiResult>>): seq<AiResult> {
    FilterEach(answers, Confident)
  }

  lemma CandidatesConfident(answers: seq<seq<AiResult>>)
    ensures forall x :: x in Candidates(answers) ==> Confident(x)
  {
    FilterEachPasses(answers, Confident);
  }

  /**
   * A result is a candidate exactly when it is confident and the answer of one of
   * the queries holds it.
   */
  lemma CandidatesExact(answers: seq<seq<AiResult>>)
    ensures forall x :: x in Candidates(answers) <==>
              Confident(x) && exists i :: 0 <= i < |answers| && x in answers[i]
  {
    FilterEachExact(answers, Confident);
  }

  lemma CandidatesAppend(a1: seq<seq<AiResult>>, a2: seq<seq<AiResult>>)
    ensures Candidates(a1 + a2) == Candidates(a1) + Candidates(a2)
  {
    FilterEachAppend(a1, a2, Confident);
  }

  /** The analysis of one result, with the clock and budget reader fixed. */
  function AnalyzeWith(days: string -> int, today: string, readValue: string -> Result<real>): AiResult -> Result<Lead> {
    (result: AiResult) => Analyze(result, days, today, readValue)
  }

  /** Every result analysed in order; the first raise stops the run. */
  function AnalyzeAll(results: seq<AiResult>, days: string -> int, today: string,
                      readValue: string -> Result<real>): (r: Result<seq<Lead>>)
    ensures r.Ok? ==> |r.value| == |results|
    ensures r.Ok? ==> forall i :: 0 <= i < |results| ==> Analyze(results[i], days, today, readValue) == Ok(r.value[i])
  {
    MapAllValues(results, AnalyzeWith(days, today, readValue));
    MapAll(results, AnalyzeWith(days, today, readValue))
  }

  /** The run succeeds exactly when every budget reads. */
  lemma AnalyzeAllOk(results: seq<AiResult>, days: string -> int, today: string,
                     readValue: string -> Result<real>)
    ensures AnalyzeAll(results, days, today, readValue).Ok?
            <==> forall i :: 0 <= i < |results| ==> readValue(results[i].budget).Ok?
  {
    MapAllOk(results, AnalyzeWith(days, today, readValue));
  }

  lemma AnalyzeAllAppend(a: seq<AiResult>, b: seq<AiResult>, days: string -> int, today: string,
                         readValue: string -> Result<real>)
    ensures AnalyzeAll(a + b, days, today, readValue)
            == Then(AnalyzeAll(a, days, today, readValue), AnalyzeAll(b, days, today, readValue))
  {
    MapAllAppend(a, b, AnalyzeWith(days, today, readValue));
  }

  /** A run that raised stays raised whatever follows. */
  lemma AnalyzeAllStops(a: seq<AiResult>, b: seq<AiResult>, days: string -> int, today: string,
                        readValue: string -> Result<real>)
    requires AnalyzeAll(a, days, today, readValue).Err?
    ensures AnalyzeAll(a + b, days, today, readValue) == AnalyzeAll(a, days, today, readValue)
  {
    AnalyzeAllAppend(a, b, days, today, readValue);
  }

  /** The key duplicates are dropped on. */
  function LeadKey(lead: Lead): (string, string) {
    (lead.Organization(), lead.Opportunity())
  }

  /** The sort key, by the tier's rank and then the deadline. */
  function LeadOrder(lead: Lead): Key {
    Key(Rank(lead.tier), lead.Deadline())
  }

  /** It is the source's key `(0 if 'Tier 1' in tier else (1 if 'Tier 2' in tier else 2), deadline)`. */
  lemma LeadOrderIsSourceKey(lead: Lead)
    ensures LeadOrder(lead) == TierDeadlineKey(lead.TierLabel(), lead.Deadline())
  {
    RankOfLabel(lead.tier);
  }

  /** What `find_all_opportunities` returns with the budget reader `readValue`. */
  function FindAll(queries: seq<string>, rules: seq<Rule>, days: string -> int, today: string,
                   readValue: string -> Result<real>): (r: Result<seq<Lead>>)
    ensures r.Ok? <==> AnalyzeAll(Candidates(Answers(queries, rules)), days, today, readValue).Ok?
    ensures r.Ok? ==> Sorted(r.value, LeadOrder)
    ensures r.Ok? ==> multiset(r.value)
                      == multiset(DedupBy(AnalyzeAll(Candidates(Answers(queries, rules)), days, today, readValue).value, LeadKey))
  {
    var leads :- AnalyzeAll(Candidates(Answers(queries, rules)), days, today, readValue);
    Ok(SortBy(DedupBy(leads, LeadKey), LeadOrder))
  }

  /** One more query adds the analysis of its confident results to the run. */
  lemma SearchStep(queries: seq<string>, rules: seq<Rule>, i: nat, days: string -> int, today: string,
                   readValue: string -> Result<real>)
    requires i < |queries|
    ensures AnalyzeAll(Candidates(Answers(queries[..i + 1], rules)), days, today, readValue)
            == Then(AnalyzeAll(Candidates(Answers(queries[..i], rules)), days, today, readValue),
                    AnalyzeAll(Filter(GenerateAiResults(rules, queries[i]), Confident), days, today, readValue))
  {
    var before := Answers(queries[..i], rules);
    var results := GenerateAiResults(rules, queries[i]);
    assert queries[..i + 1][..i] == queries[..i];
    assert Answers(queries[..i + 1], rules) == before + [results];
    assert (before + [results])[..i] == before;
    AnalyzeAllAppend(Candidates(before), Filter(results, Confident), days, today, readValue);
  }

  /** Once the run over the first `k` queries raised, the whole search raises the same. */
  lemma SearchStops(queries: seq<string>, rules: seq<Rule>, k: nat, days: string -> int, today: string,
                    readValue: string -> Result<real>)
    requires k <= |queries|
    requires AnalyzeAll(Candidates(Answers(queries[..k], rules)), days, today, readValue).Err?
    ensures FindAll(queries, rules, days, today, readValue)
            == Err(AnalyzeAll(Candidates(Answers(queries[..k], rules)), days, today, readValue).error)
  {
    var rest := queries[k..];
    assert queries[..k] + rest == queries;
    AnswersAppend(queries[..k], rest, rules);
    CandidatesAppend(Answers(queries[..k], rules), Answers(rest, rules));
    AnalyzeAllStops(Candidates(Answers(queries[..k], rules)), Candidates(Answers(rest, rules)), days, today, readValue);
  }

  /** The leads found never repeat an (organization, title) pair. */
  lemma FindAllUnique(queries: seq<string>, rules: seq<Rule>, days: string -> int, today: string,
                      readValue: string -> Result<real>)
    requires FindAll(queries, rules, days, today, readValue).Ok?
    ensures DistinctKeys(FindAll(queries, rules, days, today, readValue).value, LeadKey)
  {
    var leads := AnalyzeAll(Candidates(Answers(queries, rules)), days, today, readValue).value;
    SortByKeepsDistinctKeys(DedupBy(leads, LeadKey), LeadOrder, LeadKey);
  }

  /** A lead whose result has a confidence of at least 0.8. */
  predicate ConfidentLead(lead: Lead) {
    lead.Confidence() >= 0.8
  }

  /** Analysing confident results gives confident leads. */
  lemma AnalyzeAllConfident(results: seq<AiResult>, days: string -> int, today: string,
                            readValue: string -> Result<real>)
    requires forall x :: x in results ==> Confident(x)
    requires AnalyzeAll(results, days, today, readValue).Ok?
    ensures forall lead :: lead in AnalyzeAll(results, days, today, readValue).value ==> ConfidentLead(lead)
  {
    var leads := AnalyzeAll(results, days, today, readValue).value;
    forall lead | lead in leads ensures ConfidentLead(lead) {
      var i :| 0 <= i < |leads| && leads[i] == lead;
      assert results[i] in results;
    }
  }

  /** Every lead found comes from a result with a confidence of at least 0.8. */
  lemma FindAllConfident(queries: seq<string>, rules: seq<Rule>, days: string -> int, today: string,
                         readValue: string -> Result<real>)
    requires FindAll(queries, rules, days, today, readValue).Ok?
    ensures forall lead :: lead in FindAll(queries, rules, days, today, readValue).value ==> lead.Confidence() >= 0.8
  {
    var candidates := Candidates(Answers(queries, rules));
    var leads := AnalyzeAll(candidates, days, today, readValue).value;
    var unique := DedupBy(leads, LeadKey);
    var r := FindAll(queries, rules, days, today, readValue).value;
    CandidatesConfident(Answers(queries, rules));
    AnalyzeAllConfident(candidates, days, today, readValue);
    DedupSubsequence(leads, LeadKey);
    SubsequenceAll(unique, leads, ConfidentLead);
    forall lead | lead in r ensures ConfidentLead(lead) {
      assert lead in multiset(unique);
    }
  }

  /** As written, one confident result whose budget does not read makes the whole search raise. */
  lemma FindAllAsWrittenFails(queries: seq<string>, rules: seq<Rule>, days: string -> int, today: string, k: int)
    requires 0 <= k < |Candidates(Answers(queries, rules))|
    requires DollarValueAsWritten(Candidates(Answers(queries, rules))[k].budget).Err?
    ensures FindAll(queries, rules, days, today, DollarValueAsWritten).Err?
  {
    AnalyzeAllOk(Candidates(Answers(queries, rules)), days, today, DollarValueAsWritten);
  }
}
