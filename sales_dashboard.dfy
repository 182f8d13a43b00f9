/**
 * The sales dashboard over the collected real opportunities: an additive, capped
 * score from substring tests, insights derived from it, the score-ordered lead list,
 * the statistics and analytics counters, and the interaction log.
 *
 * The records are the display records of `RealOpportunity`. The random `strategic_fit`
 * enters as a draw `fit`, each record's draw as `fits(i)`, and the clock as text.
 */
module SalesDashboard {
  import opened Wrappers
  import opened Strings
  import opened Collections
  import opened Ordering
  import opened RealOpportunity

  // ---------------------------------------------------------------------------
  // The score of `calculate_opportunity_score`
  // ---------------------------------------------------------------------------

  /** The budget bonus: the first matching branch of +20, +15, +10 and +5. */
  function BudgetBonus(budget: string): (b: nat)
    ensures b <= 20 && b % 5 == 0
    ensures b == 20 <==> Contains(budget, "$1M") || Contains(Lower(budget), "million")
    ensures b == 15 <==> !(Contains(budget, "$1M") || Contains(Lower(budget), "million"))
                         && (Contains(budget, "$500K") || Contains(budget, "$500,000"))
    ensures b == 10 <==> !(Contains(budget, "$1M") || Contains(Lower(budget), "million"))
                         && !(Contains(budget, "$500K") || Contains(budget, "$500,000"))
                         && (Contains(budget, "$100K") || Contains(budget, "$100,000"))
    ensures b == 0 <==> !(Contains(budget, "$1M") || Contains(Lower(budget), "million"))
                        && !(Contains(budget, "$500K") || Contains(budget, "$500,000"))
                        && !(Contains(budget, "$100K") || Contains(budget, "$100,000"))
                        && !(Contains(budget, "$10K") || Contains(budget, "$10,000"))
  {
    if Contains(budget, "$1M") || Contains(Lower(budget), "million") then 20
    else if Contains(budget, "$500K") || Contains(budget, "$500,000") then 15
    else if Contains(budget, "$100K") || Contains(budget, "$100,000") then 10
    else if Contains(budget, "$10K") || Contains(budget, "$10,000") then 5
    else 0
  }

  /** The month tokens of the first and second quarters, as the score reads them. */
  const FirstQuarterTokens: seq<string> := ["01", "02", "03", "Jan", "Feb", "Mar"]
  const SecondQuarterTokens: seq<string> := ["04", "05", "06", "Apr", "May", "Jun"]

  /** The deadline bonus: +15 or +10 for a 2025 deadline in the first or second quarter, +5 for an ongoing one. */
  function DeadlineBonus(deadline: string): (b: nat)
    ensures b <= 15
    ensures b == 15 <==> Contains(deadline, "2025") && ContainsAny(deadline, FirstQuarterTokens)
    ensures b == 10 <==> Contains(deadline, "2025") && !ContainsAny(deadline, FirstQuarterTokens)
                         && ContainsAny(deadline, SecondQuarterTokens)
    ensures b == 5 <==> !Contains(deadline, "2025") && Contains(Lower(deadline), "ongoing")
    ensures b == 0 <==> if Contains(deadline, "2025")
                        then !ContainsAny(deadline, FirstQuarterTokens) && !ContainsAny(deadline, SecondQuarterTokens)
                        else !Contains(Lower(deadline), "ongoing")
  {
    if Contains(deadline, "2025") then
      if ContainsAny(deadline, FirstQuarterTokens) then 15
      else if ContainsAny(deadline, SecondQuarterTokens) then 10
      else 0
    else if Contains(Lower(deadline), "ongoing") then 5
    else 0
  }

  /** The type bonus: +10 for federal, otherwise +5 for provincial. */
  function TypeBonus(kind: string): (b: nat)
    ensures b <= 10
    ensures b == 10 <==> Contains(Lower(kind), "federal")
    ensures b == 5 <==> !Contains(Lower(kind), "federal") && Contains(Lower(kind), "provincial")
    ensures b == 0 <==> !Contains(Lower(kind), "federal") && !Contains(Lower(kind), "provincial")
  {
    if Contains(Lower(kind), "federal") then 10
    else if Contains(Lower(kind), "provincial") then 5
    else 0
  }

  /** The terms of the sector bonus. */
  const SectorTerms: seq<string> := ["digital", "technology", "cyber", "ai", "transformation"]

  function SectorBonus(title: string): (b: nat)
    ensures b <= 15
    ensures b == 15 <==> exists k :: 0 <= k < |SectorTerms| && Contains(Lower(title), SectorTerms[k])
    ensures b == 0 <==> forall k :: 0 <= k < |SectorTerms| ==> !Contains(Lower(title), SectorTerms[k])
  {
    if ContainsAny(Lower(title), SectorTerms) then 15 else 0
  }

  function IndigenousBonus(kind: string): (b: nat)
    ensures b <= 10
    ensures b == 10 <==> Contains(Lower(kind), "indigenous")
    ensures b == 0 <==> !Contains(Lower(kind), "indigenous")
  {
    if Contains(Lower(kind), "indigenous") then 10 else 0
  }

  /** The score before the cap: 50 plus every bonus. */
  function RawScore(o: Display): (s: int)
    ensures 50 <= s <= 120
  {
    50 + BudgetBonus(o.budget) + DeadlineBonus(o.deadline) + TypeBonus(o.kind) + SectorBonus(o.title)
    + IndigenousBonus(o.kind)
  }

  /** `min(score, 100)`. */
  function Score(o: Display): (s: int)
    ensures 50 <= s <= 100
    ensures s == 100 <==> RawScore(o) >= 100
    ensures RawScore(o) < 100 ==> s == RawScore(o)
  {
    if RawScore(o) < 100 then RawScore(o) else 100
  }

  /** `calculate_opportunity_score`: the bonuses added one after the other, then the cap. */
  method CalculateOpportunityScore(o: Display) returns (score: int)
    ensures score == Score(o)
  {
    score := 50;
    score := score + BudgetBonus(o.budget);
    score := score + DeadlineBonus(o.deadline);
    score := score + TypeBonus(o.kind);
    score := score + SectorBonus(o.title);
    score := score + IndigenousBonus(o.kind);
    if score > 100 {
      score := 100;
    }
  }

  /** An ongoing deadline earns its +5 only when it does not mention 2025, and +10 or more needs 2025. */
  lemma DeadlineBonusCases(deadline: string)
    ensures DeadlineBonus(deadline) == 5 <==> !Contains(deadline, "2025") && Contains(Lower(deadline), "ongoing")
    ensures DeadlineBonus(deadline) >= 10 ==> Contains(deadline, "2025")
  {
  }

  /** "2025" holds the first-quarter token "02", at its second character. */
  lemma YearHoldsFebruary(deadline: string)
    requires Contains(deadline, "2025")
    ensures Contains(deadline, "02")
  {
    assert OccursAt("2025", "02", 1);
    ContainsTransitive(deadline, "2025", "02");
  }

  /**
   * So every deadline naming 2025 earns the first-quarter +15: the month test finds
   * "02" inside the year, and the +10 and +0 branches under 2025 are never taken.
   */
  lemma Deadline2025EarnsFirstQuarter(deadline: string)
    requires Contains(deadline, "2025")
    ensures DeadlineBonus(deadline) == 15
  {
    YearHoldsFebruary(deadline);
    assert Contains(deadline, FirstQuarterTokens[1]);
  }

  /** As written, every title that mentions "training" earns the sector bonus: "ai" occurs inside "training". */
  lemma TrainingTitleEarnsSectorBonus(title: string)
    requires Contains(Lower(title), "training")
    ensures SectorBonus(title) == 15
  {
    assert OccursAt("training", "ai", 2);
    ContainsTransitive(Lower(title), "training", "ai");
    assert Contains(Lower(title), SectorTerms[3]);
  }

  /** The federal and the indigenous type bonuses both apply to a type that mentions both. */
  lemma FederalAndIndigenousBothCount(o: Display)
    requires Contains(Lower(o.kind), "federal") && Contains(Lower(o.kind), "indigenous")
    ensures RawScore(o) == 70 + BudgetBonus(o.budget) + DeadlineBonus(o.deadline) + SectorBonus(o.title)
  {
  }

  /** With every top bonus the uncapped score reaches 120, and the cap brings it to 100. */
  lemma TopBonusesReachTheCap(o: Display)
    requires Contains(o.budget, "$1M") && Contains(o.deadline, "2025") && ContainsAny(o.deadline, FirstQuarterTokens)
    requires Contains(Lower(o.kind), "federal") && Contains(Lower(o.kind), "indigenous")
    requires ContainsAny(Lower(o.title), SectorTerms)
    ensures RawScore(o) == 120 && Score(o) == 100
  {
  }

  // ---------------------------------------------------------------------------
  // The insights of `generate_ai_insights`
  // ---------------------------------------------------------------------------

  datatype Level = High | Medium

  datatype Fit = Excellent | Good | Fair

  /** `random.choice(['Excellent', 'Good', 'Fair'])` for the draw `k`. */
  function FitOf(k: nat): Fit {
    match k % 3
    case 0 => Excellent
    case 1 => Good
    case _ => Fair
  }

  datatype SuccessFactor =
    | SecurityClearance | GovernmentContracts | IndigenousPartnership | CulturalCompetency
    | TechnicalCertifications | ModernApproaches | ProjectManagement | TrackRecord

  function SuccessFactorText(f: SuccessFactor): string {
    match f
    case SecurityClearance => "Federal security clearance may be required"
    case GovernmentContracts => "Demonstrate experience with government contracts"
    case IndigenousPartnership => "Indigenous partnership or participation recommended"
    case CulturalCompetency => "Cultural competency training essential"
    case TechnicalCertifications => "Technical certifications will strengthen proposal"
    case ModernApproaches => "Demonstrate innovation and modern approaches"
    case ProjectManagement => "Strong project management capabilities"
    case TrackRecord => "Proven track record in similar programs"
  }

  datatype Action =
    | HotLead | StrategySession | ReachOut | FeasibilityAssessment | PastContracts | FindPartners
    | MonitorAlerts | BuildRelationships

  function ActionText(a: Action): string {
    match a
    case HotLead => "\U{1F525} HOT LEAD - Prioritize immediately"
    case StrategySession => "Schedule internal strategy session this week"
    case ReachOut => "Reach out to procurement contact ASAP"
    case FeasibilityAssessment => "\U{1F4CA} Good opportunity - Conduct feasibility assessment"
    case PastContracts => "Research similar past contracts"
    case FindPartners => "Identify potential partners or subcontractors"
    case MonitorAlerts => "\U{1F4CB} Monitor for now - Set up alerts"
    case BuildRelationships => "Build relationships for future opportunities"
  }

  datatype Risk = BudgetCeiling | ShortTimeline | ComplexProcurement

  function RiskText(r: Risk): string {
    match r
    case BudgetCeiling => "Budget ceiling may be lower than maximum stated"
    case ShortTimeline => "Short timeline - rapid response required"
    case ComplexProcurement => "Complex procurement process expected"
  }

  predicate KindHas(o: Display, word: string) {
    Contains(Lower(o.kind), word)
  }

  /** `key_success_factors`: two per matching test, or the two general ones when none matches. */
  function SuccessFactors(o: Display): (r: seq<SuccessFactor>)
    ensures 2 <= |r| <= 6 && |r| % 2 == 0
    ensures SecurityClearance in r <==> KindHas(o, "federal")
    ensures IndigenousPartnership in r <==> KindHas(o, "indigenous")
    ensures TechnicalCertifications in r <==> Contains(Lower(o.title), "technology")
    ensures ProjectManagement in r <==> r == [ProjectManagement, TrackRecord]
    ensures GovernmentContracts in r <==> KindHas(o, "federal")
    ensures CulturalCompetency in r <==> KindHas(o, "indigenous")
    ensures ModernApproaches in r <==> Contains(Lower(o.title), "technology")
    ensures !KindHas(o, "federal") && !KindHas(o, "indigenous") && !Contains(Lower(o.title), "technology")
            ==> r == [ProjectManagement, TrackRecord]
  {
    var federal := if KindHas(o, "federal") then [SecurityClearance, GovernmentContracts] else [];
    var indigenous := if KindHas(o, "indigenous") then [IndigenousPartnership, CulturalCompetency] else [];
    var technology := if Contains(Lower(o.title), "technology") then [TechnicalCertifications, ModernApproaches] else [];
    var found := federal + indigenous + technology;
    if found == [] then [ProjectManagement, TrackRecord] else found
  }

  /** `recommended_actions` by the score: three for a hot or good lead, two otherwise. */
  function Actions(score: int): (r: seq<Action>)
    ensures |r| == if score > 50 then 3 else 2
    ensures r[0] == HotLead <==> score > 70
  {
    if score > 70 then [HotLead, StrategySession, ReachOut]
    else if score > 50 then [FeasibilityAssessment, PastContracts, FindPartners]
    else [MonitorAlerts, BuildRelationships]
  }

  /** `risk_factors`: each risk at most once, in order. */
  function Risks(o: Display): (r: seq<Risk>)
    ensures |r| <= 3
    ensures BudgetCeiling in r <==> Contains(o.budget, "Up to")
    ensures ShortTimeline in r <==> Contains(o.deadline, "Q1") || Contains(o.deadline, "Q2")
    ensures ComplexProcurement in r <==> KindHas(o, "federal")
  {
    (if Contains(o.budget, "Up to") then [BudgetCeiling] else [])
    + (if Contains(o.deadline, "Q1") || Contains(o.deadline, "Q2") then [ShortTimeline] else [])
    + (if KindHas(o, "federal") then [ComplexProcurement] else [])
  }

  /** The insights of one record. */
  datatype Insights = Insights(
    winProbability: int, effortLevel: Level, competitionLevel: Level, strategicFit: Fit, roiPotential: Level,
    successFactors: seq<SuccessFactor>, actions: seq<Action>, risks: seq<Risk>)

  /** A high return: the budget names dollars and millions or 500K. */
  predicate HighReturn(budget: string) {
    '$' in budget && ContainsAny(budget, ["M", "million", "500K"])
  }

  function InsightsOf(o: Display, fit: nat): (ins: Insights)
    ensures ins.winProbability == Score(o)
    ensures ins.effortLevel == High <==> KindHas(o, "federal")
    ensures ins.competitionLevel == High <==> StartsWith(o.budget, "Up to $1")
    ensures ins.roiPotential == High <==> HighReturn(o.budget)
    ensures ins.actions == Actions(Score(o)) && ins.successFactors == SuccessFactors(o) && ins.risks == Risks(o)
  {
    Insights(
      Score(o),
      if KindHas(o, "federal") then High else Medium,
      if StartsWith(o.budget, "Up to $1") then High else Medium,
      FitOf(fit),
      if HighReturn(o.budget) then High else Medium,
      SuccessFactors(o), Actions(Score(o)), Risks(o))
  }

  /** The key success factors of `generate_ai_insights`, appended test by test. */
  method CollectSuccessFactors(o: Display) returns (factors: seq<SuccessFactor>)
    ensures factors == SuccessFactors(o)
  {
    factors := [];
    if KindHas(o, "federal") {
      factors := factors + [SecurityClearance, GovernmentContracts];
    }
    if KindHas(o, "indigenous") {
      factors := factors + [IndigenousPartnership, CulturalCompetency];
    }
    if Contains(Lower(o.title), "technology") {
      factors := factors + [TechnicalCertifications, ModernApproaches];
    }
    if factors == [] {
      factors := factors + [ProjectManagement, TrackRecord];
    }
  }

  /** The recommended actions of `generate_ai_insights` for the win probability `score`. */
  method RecommendActions(score: int) returns (actions: seq<Action>)
    ensures actions == Actions(score)
  {
    actions := [];
    if score > 70 {
      actions := actions + [HotLead, StrategySession, ReachOut];
    } else if score > 50 {
      actions := actions + [FeasibilityAssessment, PastContracts, FindPartners];
    } else {
      actions := actions + [MonitorAlerts, BuildRelationships];
    }
  }

  /** The risk assessment of `generate_ai_insights`, appended test by test. */
  method AssessRisks(o: Display) returns (risks: seq<Risk>)
    ensures risks == Risks(o)
  {
    risks := [];
    if Contains(o.budget, "Up to") {
      risks := risks + [BudgetCeiling];
    }
    if Contains(o.deadline, "Q1") || Contains(o.deadline, "Q2") {
      risks := risks + [ShortTimeline];
    }
    if KindHas(o, "federal") {
      risks := risks + [ComplexProcurement];
    }
  }

  /** `generate_ai_insights`. */
  method GenerateAiInsights(o: Display, fit: nat) returns (ins: Insights)
    ensures ins == InsightsOf(o, fit)
  {
    var score := CalculateOpportunityScore(o);
    var factors := CollectSuccessFactors(o);
    var actions := RecommendActions(score);
    var risks := AssessRisks(o);
    ins := Insights(
      score,
      if KindHas(o, "federal") then High else Medium,
      if StartsWith(o.budget, "Up to $1") then High else Medium,
      FitOf(fit),
      if HighReturn(o.budget) then High else Medium,
      factors, actions, risks);
  }

  // ---------------------------------------------------------------------------
  // Enhanced records
  // ---------------------------------------------------------------------------

  /** A record with its insights and score. */
  datatype Enhanced = Enhanced(opportunity: Display, insights: Insights, score: int)

  function Enhance(o: Display, fit: nat): (e: Enhanced)
    ensures e.opportunity == o && e.score == Score(o) && e.insights.winProbability == e.score
    ensures 50 <= e.score <= 100
  {
    Enhanced(o, InsightsOf(o, fit), Score(o))
  }

  /** Record `i` enhanced with the draw `fits(i)`. */
  function EnhanceWith(fits: nat -> nat): (Display, nat) -> Enhanced {
    (o: Display, i: nat) => Enhance(o, fits(i))
  }

  /** `enhance_opportunities_with_ai` over `opps`, record `i` with the draw `fits(i)`. */
  function EnhanceAll(opps: seq<Display>, fits: nat -> nat): (r: seq<Enhanced>)
    ensures |r| == |opps|
  {
    MapIndexed(opps, EnhanceWith(fits))
  }

  /** Record `i` of the result is record `i` of the input, enhanced with its own draw. */
  lemma EnhanceAllAt(opps: seq<Display>, fits: nat -> nat, i: nat)
    requires i < |opps|
    ensures EnhanceAll(opps, fits)[i] == Enhance(opps[i], fits(i))
  {
    MapIndexedAt(opps, EnhanceWith(fits), i);
  }

  /** Every enhanced record scores between 50 and 100. */
  lemma EnhanceAllScores(opps: seq<Display>, fits: nat -> nat)
    ensures forall i :: 0 <= i < |opps| ==> 50 <= EnhanceAll(opps, fits)[i].score <= 100
  {
    forall i | 0 <= i < |opps|
      ensures 50 <= EnhanceAll(opps, fits)[i].score <= 100
    {
      EnhanceAllAt(opps, fits, i);
    }
  }

  lemma EnhanceAllStep(opps: seq<Display>, fits: nat -> nat, i: nat)
    requires i < |opps|
    ensures EnhanceAll(opps[..i + 1], fits) == EnhanceAll(opps[..i], fits) + [Enhance(opps[i], fits(i))]
  {
    MapIndexedStep(opps, EnhanceWith(fits), i);
  }

  method EnhanceOpportunities(opps: seq<Display>, fits: nat -> nat) returns (r: seq<Enhanced>)
    ensures r == EnhanceAll(opps, fits)
  {
    r := [];
    for i := 0 to |opps|
      invariant r == EnhanceAll(opps[..i], fits)
    {
      var ins := GenerateAiInsights(opps[i], fits(i));
      var score := CalculateOpportunityScore(opps[i]);
      EnhanceAllStep(opps, fits, i);
      r := r + [Enhanced(opps[i], ins, score)];
    }
    assert opps[..|opps|] == opps;
  }

  /** The key of `sort(key=score, reverse=True)`: a stable sort on the negated score. */
  function ByScore(e: Enhanced): Key {
    Key(-e.score, "")
  }

  /** A list sorted by that key has non-increasing scores. */
  lemma ByScoreDescending(s: seq<Enhanced>)
    requires Sorted(s, ByScore)
    ensures forall i, j :: 0 <= i < j < |s| ==> s[i].score >= s[j].score
  {
    forall i, j | 0 <= i < j < |s|
      ensures s[i].score >= s[j].score
    {
      assert KeyLe(ByScore(s[i]), ByScore(s[j]));
    }
  }

  // ---------------------------------------------------------------------------
  // Statistics
  // ---------------------------------------------------------------------------

  /** The pipeline contribution of a budget. */
  function PipelineContribution(budget: string): (v: nat)
    ensures v == 1000000 || v == 500000 || v == 100000 || v == 50000
  {
    if Contains(Lower(budget), "million") || Contains(budget, "$1M") then 1000000
    else if Contains(budget, "$500K") then 500000
    else if Contains(budget, "$100K") then 100000
    else 50000
  }

  /** The sum of the records' pipeline contributions. */
  function PipelineTotal(es: seq<Enhanced>): (v: nat)
    ensures 50000 * |es| <= v <= 1000000 * |es|
  {
    if es == [] then 0
    else PipelineTotal(es[..|es| - 1]) + PipelineContribution(es[|es| - 1].opportunity.budget)
  }

  /** The pipeline total of two lists of records is the sum of their totals; one record contributes its budget's value. */
  lemma {:induction false} PipelineTotalAppend(a: seq<Enhanced>, b: seq<Enhanced>)
    ensures PipelineTotal(a + b) == PipelineTotal(a) + PipelineTotal(b)
    ensures |b| == 1 ==> PipelineTotal(b) == PipelineContribution(b[0].opportunity.budget)
    decreases |b|
  {
    if b == [] {
      assert a + b == a;
    } else {
      var init := b[..|b| - 1];
      assert (a + b)[..|a + b| - 1] == a + init;
      assert (a + b)[|a + b| - 1] == b[|b| - 1];
      PipelineTotalAppend(a, init);
    }
  }

  /** The sum of the records' scores. */
  function ScoreTotal(es: seq<Enhanced>): int {
    if es == [] then 0 else ScoreTotal(es[..|es| - 1]) + es[|es| - 1].score
  }

  /** The score total of two lists of records is the sum of their totals; one record contributes its score. */
  lemma {:induction false} ScoreTotalAppend(a: seq<Enhanced>, b: seq<Enhanced>)
    ensures ScoreTotal(a + b) == ScoreTotal(a) + ScoreTotal(b)
    ensures |b| == 1 ==> ScoreTotal(b) == b[0].score
    decreases |b|
  {
    if b == [] {
      assert a + b == a;
    } else {
      var init := b[..|b| - 1];
      assert (a + b)[..|a + b| - 1] == a + init;
      assert (a + b)[|a + b| - 1] == b[|b| - 1];
      ScoreTotalAppend(a, init);
    }
  }

  lemma {:induction false} ScoreTotalBounds(es: seq<Enhanced>)
    requires forall i :: 0 <= i < |es| ==> 50 <= es[i].score <= 100
    ensures 50 * |es| <= ScoreTotal(es) <= 100 * |es|
  {
    if es != [] {
      ScoreTotalBounds(es[..|es| - 1]);
    }
  }

  /** What `get_stats` returns; the pipeline value is the number before its "$1,234" rendering. */
  datatype Stats = Stats(
    totalLeads: nat, highValueLeads: nat, mediumValueLeads: nat, federal: nat, provincial: nat, indigenous: nat,
    totalPipelineValue: nat, averageWinProbability: real, lastUpdate: Option<string>)

  function IsHighValue(e: Enhanced): bool {
    e.score > 70
  }

  function IsMediumValue(e: Enhanced): bool {
    50 <= e.score <= 70
  }

  predicate IsFederal(o: Display) {
    KindHas(o, "federal")
  }

  predicate IsProvincial(o: Display) {
    KindHas(o, "provincial")
  }

  predicate IsIndigenous(o: Display) {
    KindHas(o, "indigenous")
  }

  lemma RatioBounds(t: real, n: real, lo: real, hi: real)
    requires n > 0.0 && lo * n <= t <= hi * n
    ensures lo <= t / n <= hi
  {
    assert (t / n) * n == t;
  }

  /** The mean score, 0 for no records. */
  function AverageScore(es: seq<Enhanced>): (a: real)
    requires forall i :: 0 <= i < |es| ==> 50 <= es[i].score <= 100
    ensures es == [] ==> a == 0.0
    ensures es != [] ==> 50.0 <= a <= 100.0
    ensures es != [] ==> a == (ScoreTotal(es) as real) / (|es| as real)
  {
    if es == [] then 0.0
    else
      ScoreTotalBounds(es);
      var n := |es| as real;
      RatioBounds(ScoreTotal(es) as real, n, 50.0, 100.0);
      (ScoreTotal(es) as real) / n
  }

  function StatsOf(opps: seq<Display>, fits: nat -> nat, lastUpdate: Option<string>): (st: Stats)
    ensures st.totalLeads == |opps|
    ensures st.highValueLeads + st.mediumValueLeads == st.totalLeads
    ensures st.federal <= st.totalLeads && st.provincial <= st.totalLeads && st.indigenous <= st.totalLeads
    ensures 50000 * |opps| <= st.totalPipelineValue <= 1000000 * |opps|
    ensures opps == [] ==> st.averageWinProbability == 0.0
    ensures opps != [] ==> 50.0 <= st.averageWinProbability <= 100.0
    ensures st.lastUpdate == lastUpdate
    ensures st.highValueLeads == CountWhere(EnhanceAll(opps, fits), IsHighValue)
            && st.mediumValueLeads == CountWhere(EnhanceAll(opps, fits), IsMediumValue)
    ensures st.federal == CountWhere(opps, IsFederal) && st.provincial == CountWhere(opps, IsProvincial)
            && st.indigenous == CountWhere(opps, IsIndigenous)
    ensures st.totalPipelineValue == PipelineTotal(EnhanceAll(opps, fits))
    ensures opps != [] ==> st.averageWinProbability == (ScoreTotal(EnhanceAll(opps, fits)) as real) / (|opps| as real)
  {
    var enhanced := EnhanceAll(opps, fits);
    EnhanceAllScores(opps, fits);
    CountComplement(enhanced, IsHighValue, IsMediumValue);
    Stats(
      |opps|,
      CountWhere(enhanced, IsHighValue),
      CountWhere(enhanced, IsMediumValue),
      CountWhere(opps, IsFederal),
      CountWhere(opps, IsProvincial),
      CountWhere(opps, IsIndigenous),
      PipelineTotal(enhanced),
      AverageScore(enhanced),
      lastUpdate)
  }

  // ---------------------------------------------------------------------------
  // Analytics
  // ---------------------------------------------------------------------------

  datatype Sector = Technology | Healthcare | IndigenousSector | GreenEconomy | General

  const AllSectors: seq<Sector> := [Technology, Healthcare, IndigenousSector, GreenEconomy, General]

  /** The first matching sector of the title, or of the type for Indigenous. */
  function SectorOf(e: Enhanced): (s: Sector)
    ensures var title := Lower(e.opportunity.title);
            && (s == Technology <==> Contains(title, "technology") || Contains(title, "digital"))
            && (s == Healthcare <==> !(Contains(title, "technology") || Contains(title, "digital"))
                                     && Contains(title, "health"))
            && (s == IndigenousSector <==> !(Contains(title, "technology") || Contains(title, "digital"))
                                           && !Contains(title, "health") && KindHas(e.opportunity, "indigenous"))
            && (s == General <==> !(Contains(title, "technology") || Contains(title, "digital"))
                                  && !Contains(title, "health") && !KindHas(e.opportunity, "indigenous")
                                  && !Contains(title, "environment") && !Contains(title, "green"))
  {
    var title := Lower(e.opportunity.title);
    if Contains(title, "technology") || Contains(title, "digital") then Technology
    else if Contains(title, "health") then Healthcare
    else if KindHas(e.opportunity, "indigenous") then IndigenousSector
    else if Contains(title, "environment") || Contains(title, "green") then GreenEconomy
    else General
  }

  datatype Region = Ontario | BritishColumbia | Alberta | Quebec | Manitoba | Saskatchewan | FederalRegion | OtherRegion

  const AllRegions: seq<Region> :=
    [Ontario, BritishColumbia, Alberta, Quebec, Manitoba, Saskatchewan, FederalRegion, OtherRegion]

  /** The provinces the loop looks for in the source, in order, and their names. */
  const Provinces: seq<Region> := [Ontario, BritishColumbia, Alberta, Quebec, Manitoba, Saskatchewan]

  function ProvinceName(r: Region): string {
    match r
    case Ontario => "Ontario"
    case BritishColumbia => "British Columbia"
    case Alberta => "Alberta"
    case Quebec => "Quebec"
    case Manitoba => "Manitoba"
    case Saskatchewan => "Saskatchewan"
    case FederalRegion => "Federal"
    case OtherRegion => "Other"
  }

  /** The first of `provinces` whose name occurs in the source, as the loop with its `break` finds it. */
  function FirstProvince(source: string, provinces: seq<Region>): (r: Option<Region>)
    ensures r.Some? ==> r.value in provinces && Contains(source, ProvinceName(r.value))
    ensures r.None? <==> forall k :: 0 <= k < |provinces| ==> !Contains(source, ProvinceName(provinces[k]))
    ensures r.Some? ==> exists k :: 0 <= k < |provinces| && provinces[k] == r.value
                          && forall m :: 0 <= m < k ==> !Contains(source, ProvinceName(provinces[m]))
  {
    if provinces == [] then None
    else if Contains(source, ProvinceName(provinces[0])) then Some(provinces[0])
    else
      var rest := FirstProvince(source, provinces[1..]);
      assert forall k :: 1 <= k < |provinces| ==> provinces[k] == provinces[1..][k - 1];
      if rest.Some? then
        var k :| 0 <= k < |provinces[1..]| && provinces[1..][k] == rest.value
                 && forall m :: 0 <= m < k ==> !Contains(source, ProvinceName(provinces[1..][m]));
        assert provinces[k + 1] == rest.value;
        rest
      else rest
  }

  /** The province of the source or, through the loop's `else`, Federal or Other by the type. */
  function RegionOf(e: Enhanced): (r: Region)
    ensures r in AllRegions
    ensures FirstProvince(e.opportunity.source, Provinces).Some? ==> Some(r) == FirstProvince(e.opportunity.source, Provinces)
    ensures FirstProvince(e.opportunity.source, Provinces).None? ==>
              r == if KindHas(e.opportunity, "federal") then FederalRegion else OtherRegion
  {
    match FirstProvince(e.opportunity.source, Provinces)
    case Some(p) => p
    case None => if KindHas(e.opportunity, "federal") then FederalRegion else OtherRegion
  }

  datatype Quarter = Q1 | Q2 | Q3 | Q4 | Ongoing

  const AllQuarters: seq<Quarter> := [Q1, Q2, Q3, Q4, Ongoing]

  /** The deadline's bucket by the lowered deadline's first matching test; any other deadline counts as Q4. */
  function QuarterOf(e: Enhanced): (q: Quarter)
    ensures var d := Lower(e.opportunity.deadline);
            && (q == Ongoing <==> Contains(d, "ongoing"))
            && (q == Q1 <==> !Contains(d, "ongoing") && ContainsAny(d, FirstQuarterMonths))
            && (q == Q2 <==> !Contains(d, "ongoing") && !ContainsAny(d, FirstQuarterMonths)
                             && ContainsAny(d, SecondQuarterMonths))
            && (q == Q4 <==> !Contains(d, "ongoing") && !ContainsAny(d, FirstQuarterMonths)
                             && !ContainsAny(d, SecondQuarterMonths) && !ContainsAny(d, ThirdQuarterMonths))
  {
    var d := Lower(e.opportunity.deadline);
    if Contains(d, "ongoing") then Ongoing
    else if ContainsAny(d, FirstQuarterMonths) then Q1
    else if ContainsAny(d, SecondQuarterMonths) then Q2
    else if ContainsAny(d, ThirdQuarterMonths) then Q3
    else Q4
  }

  /** The lowered month tokens of the analytics' first three quarters. */
  const FirstQuarterMonths: seq<string> := ["01", "02", "03", "jan", "feb", "mar"]
  const SecondQuarterMonths: seq<string> := ["04", "05", "06", "apr", "may", "jun"]
  const ThirdQuarterMonths: seq<string> := ["07", "08", "09", "jul", "aug", "sep"]

  /** Likewise the analytics count every deadline that names 2025 and is not ongoing in the first quarter. */
  lemma Deadline2025CountsAsFirstQuarter(e: Enhanced)
    requires Contains(e.opportunity.deadline, "2025") && !Contains(Lower(e.opportunity.deadline), "ongoing")
    ensures QuarterOf(e) == Q1
  {
    var d := e.opportunity.deadline;
    YearHoldsFebruary(d);
    LowerKeepsContains(d, "02");
    assert Lower("02") == "02";
    assert Contains(Lower(d), FirstQuarterMonths[1]);
  }

  /** `by_deadline` before the loop: every bucket at zero. */
  const ZeroQuarters: map<Quarter, nat> := map[Q1 := 0, Q2 := 0, Q3 := 0, Q4 := 0, Ongoing := 0]

  datatype Analytics = Analytics(
    bySector: map<Sector, nat>, byProvince: map<Region, nat>, byDeadline: map<Quarter, nat>, top: seq<Enhanced>)

  /** `enhanced_opps[:5]` as written: the first five records in collection order, never sorted. */
  function TopAsWritten(es: seq<Enhanced>): (r: seq<Enhanced>)
    ensures |r| == if |es| < 5 then |es| else 5
    ensures forall i :: 0 <= i < |r| ==> r[i] == es[i]
  {
    Prefix(es, 5)
  }

  /** As written, a sixth record that outscores the first is left out of the "top five" while the first is in. */
  lemma TopAsWrittenMissesBetter(es: seq<Enhanced>)
    requires |es| > 5 && es[5].score > es[0].score
    ensures es[0] in TopAsWritten(es) && exists j :: 5 <= j < |es| && es[j].score > TopAsWritten(es)[0].score
  {
    assert TopAsWritten(es)[0] == es[0];
  }

  /** The five best-scoring records, as the comment "Top 5 by score" intends: taken from the score-sorted list. */
  function TopByScore(es: seq<Enhanced>): (r: seq<Enhanced>)
    ensures |r| == if |es| < 5 then |es| else 5
    ensures multiset(r) <= multiset(es)
    ensures forall i, j :: 0 <= i < j < |r| ==> r[i].score >= r[j].score
    ensures forall i, j :: 0 <= i < |r| <= j < |es| ==> r[i].score >= SortBy(es, ByScore)[j].score
  {
    var sorted := SortBy(es, ByScore);
    ByScoreDescending(sorted);
    var r := Prefix(sorted, 5);
    assert sorted == r + sorted[|r|..];
    assert multiset(sorted) == multiset(r) + multiset(sorted[|r|..]);
    r
  }

  /** What `get_analytics` returns over the enhanced records `es`, with the top five taken by score. */
  function AnalyticsOf(es: seq<Enhanced>): (a: Analytics)
    ensures a.bySector == AddCounts(map[], es, SectorOf)
    ensures a.byProvince == AddCounts(map[], es, RegionOf)
    ensures a.byDeadline == AddCounts(ZeroQuarters, es, QuarterOf)
    ensures a.top == TopByScore(es)
  {
    Analytics(AddCounts(map[], es, SectorOf), AddCounts(map[], es, RegionOf), AddCounts(ZeroQuarters, es, QuarterOf),
              TopByScore(es))
  }

  /** Each record falls in exactly one sector, so the sector counts add up to the number of records. */
  lemma SectorTotals(es: seq<Enhanced>)
    ensures SumValues(AnalyticsOf(es).bySector, AllSectors) == |es|
  {
    forall i | 0 <= i < |es|
      ensures SectorOf(es[i]) in AllSectors
    {
      SectorListed(SectorOf(es[i]));
    }
    CountsTotal(map[], es, SectorOf, AllSectors);
  }

  lemma SectorListed(s: Sector)
    ensures s in AllSectors
  {
  }

  /** Likewise for the regions. */
  lemma RegionTotals(es: seq<Enhanced>)
    ensures SumValues(AnalyticsOf(es).byProvince, AllRegions) == |es|
  {
    CountsTotal(map[], es, RegionOf, AllRegions);
  }

  lemma QuarterListed(q: Quarter)
    ensures q in AllQuarters
  {
  }

  /** Likewise for the deadline buckets, which all five stay present from the start. */
  lemma QuarterTotals(es: seq<Enhanced>)
    ensures SumValues(AnalyticsOf(es).byDeadline, AllQuarters) == |es|
    ensures AnalyticsOf(es).byDeadline.Keys == set q | q in AllQuarters
  {
    forall i | 0 <= i < |es|
      ensures QuarterOf(es[i]) in AllQuarters
    {
      QuarterListed(QuarterOf(es[i]));
    }
    CountsTotal(ZeroQuarters, es, QuarterOf, AllQuarters);
  }

  // ---------------------------------------------------------------------------
  // The dashboard's state
  // ---------------------------------------------------------------------------

  /** One tracked interaction. */
  datatype Interaction = Interaction(action: Option<string>, timestamp: string)

  /**
   * The dashboard's globals: the opportunities the updater last collected, the time of
   * that update, and the interactions tracked per lead id (a missing id is `None`).
   */
  class Dashboard {
    var opportunities: seq<Display>
    var lastUpdate: Option<string>
    var interactions: map<Option<string>, seq<Interaction>>

    /** The initial load: the first collection and its time; nothing tracked yet. */
    constructor(initial: seq<Display>, now: string)
      ensures opportunities == initial && lastUpdate == Some(now) && interactions == map[]
    {
      opportunities := initial;
      lastUpdate := Some(now);
      interactions := map[];
    }

    /** One pass of the updater: a collection that raised leaves both the list and the time as they were. */
    method Update(fetched: Result<seq<Display>>, now: string)
      modifies this
      ensures fetched.Ok? ==> opportunities == fetched.value && lastUpdate == Some(now)
      ensures fetched.Err? ==> opportunities == old(opportunities) && lastUpdate == old(lastUpdate)
      ensures interactions == old(interactions)
    {
      if fetched.Ok? {
        opportunities := fetched.value;
        lastUpdate := Some(now);
      }
    }

    /** `get_leads`: the enhanced records in non-increasing score order. */
    method GetLeads(fits: nat -> nat) returns (leads: seq<Enhanced>, total: nat)
      ensures leads == SortBy(EnhanceAll(opportunities, fits), ByScore)
      ensures total == |opportunities|
      ensures forall i, j :: 0 <= i < j < |leads| ==> leads[i].score >= leads[j].score
      ensures multiset(leads) == multiset(EnhanceAll(opportunities, fits))
    {
      var enhanced := EnhanceOpportunities(opportunities, fits);
      leads := SortBy(enhanced, ByScore);
      ByScoreDescending(leads);
      total := |leads|;
    }

    /** `get_stats` over the current list and update time. */
    method GetStats(fits: nat -> nat) returns (st: Stats)
      ensures st == StatsOf(opportunities, fits, lastUpdate)
      ensures st.totalLeads == |opportunities| && st.highValueLeads + st.mediumValueLeads == st.totalLeads
      ensures 50000 * |opportunities| <= st.totalPipelineValue <= 1000000 * |opportunities|
      ensures opportunities != [] ==> 50.0 <= st.averageWinProbability <= 100.0
      ensures st.lastUpdate == lastUpdate
      ensures st.highValueLeads == CountWhere(EnhanceAll(opportunities, fits), IsHighValue)
      ensures st.totalPipelineValue == PipelineTotal(EnhanceAll(opportunities, fits))
      ensures opportunities != [] ==>
                st.averageWinProbability == (ScoreTotal(EnhanceAll(opportunities, fits)) as real) / (|opportunities| as real)
    {
      st := StatsOf(opportunities, fits, lastUpdate);
    }

    /** `get_analytics`: one pass over the enhanced records, one count in each map per record. */
    method GetAnalytics(fits: nat -> nat) returns (a: Analytics)
      ensures a == AnalyticsOf(EnhanceAll(opportunities, fits))
    {
      var es := EnhanceOpportunities(opportunities, fits);
      var bySector, byProvince, byDeadline := Tally3(es, SectorOf, map[], RegionOf, map[], QuarterOf, ZeroQuarters);
      var sorted := SortBy(es, ByScore);
      a := Analytics(bySector, byProvince, byDeadline, Prefix(sorted, 5));
    }

    /** `track_interaction`: one more interaction for the lead, a new list when it has none; every other lead unchanged. */
    method TrackInteraction(leadId: Option<string>, action: Option<string>, now: string)
      modifies this
      ensures interactions == old(interactions)[leadId := LogOf(old(interactions), leadId) + [Interaction(action, now)]]
      ensures leadId in interactions && interactions[leadId][|interactions[leadId]| - 1] == Interaction(action, now)
      ensures forall k :: k in old(interactions) && k != leadId ==> k in interactions && interactions[k] == old(interactions)[k]
      ensures opportunities == old(opportunities) && lastUpdate == old(lastUpdate)
    {
      if leadId !in interactions {
        interactions := interactions[leadId := []];
      }
      interactions := interactions[leadId := interactions[leadId] + [Interaction(action, now)]];
    }
  }

  /** `user_interactions.get(k, [])`. */
  function LogOf<K, V>(m: map<K, seq<V>>, k: K): seq<V> {
    if k in m then m[k] else []
  }
}
