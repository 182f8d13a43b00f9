/**
 * The comprehensive lead generator's rules: each organization of a fixed catalogue
 * gets a few simulated opportunities, one per sampled training category; each
 * opportunity's tier, contact, win text, competition, requirements, next steps and
 * decision makers follow from the organization, its type, the category and the
 * random draws; the whole list is sorted by tier and deadline.
 *
 * Every random choice enters as a parameter: `Draw` holds the draws of one
 * opportunity, and the draws of `random.sample` are a function from the draw number.
 * The clock enters as `dateIn`, the date text `n` days from now, and `today`.
 */
module ComprehensiveGenerator {
  import opened Wrappers
  import opened Strings
  import opened Collections
  import opened Ordering
  import opened Tiers
  import opened Budget

  /** The organization types the generator distinguishes ('federal', 'provincial', ...). */
  datatype OrgType = Federal | Provincial | Municipal | Crown | Indigenous | Npo

  /** The training categories, the keys of `training_types`. */
  datatype Category =
    | DigitalTransformation | LeadershipDevelopment | ComplianceAndRegulatory | DiversityAndInclusion
    | SustainabilityAndClimate | ServiceExcellence | TechnicalSkills

  /** A category and its topics, an entry of `training_types` in order. */
  datatype TrainingType = TrainingType(category: Category, topics: seq<string>)

  /** A province and its organizations, an entry of `provincial_orgs` in order. */
  datatype Province = Province(name: string, orgs: seq<string>)

  /** The entries of `contact_domains` the generator reads. */
  datatype Domains = Domains(federal: seq<string>, ontario: seq<string>, bc: seq<string>,
                             alberta: seq<string>, quebec: seq<string>)

  /**
   * The random draws of one opportunity: the days ahead of its deadline
   * (`randint(30, 180)`), the topic, budget and domain choices, the confidence
   * (`uniform(0.75, 0.98)`), the win percentage (`randint(35, 85)`) and the analysis choice.
   */
  datatype Draw = Draw(daysAhead: int, topic: nat, budget: nat, domain: nat, confidence: real,
                       winProb: nat, analysis: nat)

  function TypeName(t: OrgType): string {
    match t
    case Federal => "federal"
    case Provincial => "provincial"
    case Municipal => "municipal"
    case Crown => "crown"
    case Indigenous => "indigenous"
    case Npo => "npo"
  }

  function CategoryName(c: Category): string {
    match c
    case DigitalTransformation => "Digital Transformation"
    case LeadershipDevelopment => "Leadership Development"
    case ComplianceAndRegulatory => "Compliance and Regulatory"
    case DiversityAndInclusion => "Diversity and Inclusion"
    case SustainabilityAndClimate => "Sustainability and Climate"
    case ServiceExcellence => "Service Excellence"
    case TechnicalSkills => "Technical Skills"
  }

  /** `random.choice(s)`: the element the draw picks by its remainder; an empty list raises IndexError. */
  function Choice<T>(s: seq<T>, k: nat): (r: Result<T>)
    ensures r.Ok? <==> s != []
    ensures r.Ok? ==> r.value in s
    ensures r.Err? ==> r.error == IndexError
  {
    if s == [] then Err(IndexError) else Ok(s[k % |s|])
  }

  // ---------------------------------------------------------------------------
  // The rules of `_create_opportunity`
  // ---------------------------------------------------------------------------

  /** The tier by the days ahead and the organization type. */
  function TierFor(daysAhead: int, t: OrgType): (tier: Tier)
    ensures tier == Urgent <==> daysAhead <= 60 || t == Federal
    ensures tier == Standard <==> daysAhead > 120 && t != Federal && t != Provincial && t != Crown
  {
    if daysAhead <= 60 || t == Federal then Urgent
    else if daysAhead <= 120 || t == Provincial || t == Crown then HighPriority
    else Standard
  }

  /** A nearer deadline never lowers the tier. */
  lemma TierForMonotone(d1: int, d2: int, t: OrgType)
    requires d1 <= d2
    ensures Rank(TierFor(d1, t)) <= Rank(TierFor(d2, t))
  {
  }

  /** Within the drawn range of 30 to 180 days, provincial and crown organizations never reach Tier 3. */
  lemma ProvincialAndCrownAtLeastTier2(daysAhead: int, t: OrgType)
    requires 30 <= daysAhead <= 180 && (t == Provincial || t == Crown)
    ensures TierFor(daysAhead, t) != Standard
  {
  }

  /** The three win bands. */
  datatype WinBand = StrongAlignment | GoodOpportunity | RequiresPartnerships

  function WinBandOf(p: nat): (b: WinBand)
    ensures b == StrongAlignment <==> p >= 70
    ensures b == RequiresPartnerships <==> p < 50
  {
    if p >= 70 then StrongAlignment else if p >= 50 then GoodOpportunity else RequiresPartnerships
  }

  function WinBandWord(b: WinBand): string {
    match b
    case StrongAlignment => "High"
    case GoodOpportunity => "Medium"
    case RequiresPartnerships => "Low"
  }

  function WinBandTail(b: WinBand): string {
    match b
    case StrongAlignment => "%) - Strong alignment"
    case GoodOpportunity => "%) - Good opportunity"
    case RequiresPartnerships => "%) - Requires partnerships"
  }

  /** `win_prob_text`: the band's word, then the percentage in parentheses, then the band's remark. */
  function WinProbabilityText(p: nat): (s: string)
    ensures StartsWith(s, WinBandWord(WinBandOf(p)) + " (")
    ensures Contains(s, NatToString(p))
  {
    var b := WinBandOf(p);
    var head := WinBandWord(b) + " (";
    var s := head + NatToString(p) + WinBandTail(b);
    assert s[..|head|] == head;
    assert s[|head|..|head| + |NatToString(p)|] == NatToString(p);
    assert OccursAt(s, NatToString(p), |head|);
    s
  }

  /** The try block around the budget chain as written: any raise gives the default 5. */
  function BudgetValueAsWritten(budget: string): (v: real)
    ensures UpperBoundAsWritten(budget).Err? ==> v == 5.0
    ensures UpperBoundAsWritten(budget).Ok? ==> v == UpperBoundAsWritten(budget).value
  {
    match UpperBoundAsWritten(budget)
    case Ok(x) => x
    case Err(_) => 5.0
  }

  /** The same block with the intended reading of the upper end. */
  function BudgetValue(budget: string): (v: real)
    ensures UpperBound(budget).Err? ==> v == 5.0
    ensures UpperBound(budget).Ok? ==> v == UpperBound(budget).value
  {
    match UpperBound(budget)
    case Ok(x) => x
    case Err(_) => 5.0
  }

  /** A budget range by its ends: "$aM - $bM", or "$aK - $bM" when the lower end is in thousands. */
  datatype BudgetRange = BudgetRange(low: string, high: string, inThousands: bool)

  function RangeText(r: BudgetRange): string {
    "$" + r.low + (if r.inThousands then "K" else "M") + " - $" + r.high + "M"
  }

  /** Both ends are plain numbers. */
  predicate PlainRange(r: BudgetRange) {
    AllDigits(r.low) && r.high != [] && AllDigits(r.high)
  }

  /**
   * As written the chain raises on such a range: in millions the second split on 'M'
   * leaves no dash, and from thousands the piece after the dash is blank. The value is
   * then the default 5; read as intended it is the upper end.
   */
  lemma BudgetOfRange(r: BudgetRange)
    requires PlainRange(r)
    ensures UpperBoundAsWritten(RangeText(r)).Err?
    ensures UpperBound(RangeText(r)) == Ok(DigitsValue(r.high) as real)
    ensures BudgetValueAsWritten(RangeText(r)) == 5.0
    ensures BudgetValue(RangeText(r)) == DigitsValue(r.high) as real
  {
    NoMarkInDigits(r.low);
    if r.inThousands {
      ThousandRangeShape(r.low, r.high);
      AsWrittenFailsOnThousands(r.low + "K", r.high);
      UpperBoundAfterDash("$" + r.low + "K ", r.high);
    } else {
      assert RangeText(r) == "$" + r.low + "M - $" + r.high + "M";
      AsWrittenFailsOnRange(r.low, r.high);
      UpperBoundOfRange(r.low, r.high);
    }
  }

  lemma ThousandRangeShape(low: string, high: string)
    requires '$' !in low && 'M' !in low && '-' !in low
    ensures '$' !in low + "K" && 'M' !in low + "K" && '-' !in low + "K" && '-' !in "$" + low + "K "
    ensures RangeText(BudgetRange(low, high, true)) == "$" + (low + "K") + " - $" + high + "M"
    ensures RangeText(BudgetRange(low, high, true)) == ("$" + low + "K ") + "- $" + high + "M"
  {
    assert "K" + " - $" == "K " + "- $";
  }

  datatype CompetitionLevel = HighCompetition | MediumCompetition | LowCompetition

  /** `competitive` by the budget value. */
  function Competition(value: real): (c: CompetitionLevel)
    ensures c == HighCompetition <==> value >= 10.0
    ensures c == LowCompetition <==> value < 5.0
  {
    if value >= 10.0 then HighCompetition
    else if value >= 5.0 then MediumCompetition
    else LowCompetition
  }

  function CompetitionText(c: CompetitionLevel): string {
    match c
    case HighCompetition =>
      "High competition from major firms. Differentiation through specialized expertise essential."
    case MediumCompetition =>
      "Medium competition. Regional players and specialists have good chances."
    case LowCompetition =>
      "Lower competition but price sensitivity high. Value proposition critical."
  }

  /** `topic.lower().replace(" ", ".").replace("-", "")[:20]`. */
  function ContactPrefix(topic: string): (p: string)
    ensures |p| <= 20
    ensures ' ' !in p && '-' !in p
  {
    var dotted := ReplaceChar(Lower(topic), ' ', '.');
    assert ' ' !in dotted;
    var r := Take(RemoveChar(dotted, '-'), 20);
    assert forall c :: c in r ==> c in RemoveChar(dotted, '-');
    r
  }

  /** `org_name.lower().replace(" ", "").replace("-", "")[:15]`. */
  function CompactName(orgName: string): (p: string)
    ensures |p| <= 15
    ensures ' ' !in p && '-' !in p
  {
    var r := Take(RemoveChar(RemoveChar(Lower(orgName), ' '), '-'), 15);
    assert forall c :: c in r ==> c in RemoveChar(RemoveChar(Lower(orgName), ' '), '-');
    assert forall c :: c in RemoveChar(RemoveChar(Lower(orgName), ' '), '-') ==> c in RemoveChar(Lower(orgName), ' ');
    r
  }

  /**
   * The contact's domain: a drawn federal domain; for a provincial organization the
   * province's drawn domain by the name ("gov.ca" for the others); for a municipal one
   * the last word of the lowered name plus ".ca" (IndexError for a blank name);
   * otherwise the compacted name plus ".ca".
   */
  function DomainFor(domains: Domains, orgName: string, t: OrgType, k: nat): (r: Result<string>)
    ensures t == Municipal ==> (r.Ok? <==> LastWord(Lower(orgName)).Some?)
    ensures t == Municipal && r.Ok? ==> r.value == LastWord(Lower(orgName)).value + ".ca"
    ensures t == Federal ==> r == Choice(domains.federal, k)
    ensures t != Federal && t != Provincial && t != Municipal ==> r == Ok(CompactName(orgName) + ".ca")
    ensures t == Provincial && Contains(orgName, "Ontario") ==> r == Choice(domains.ontario, k)
    ensures t == Provincial && !Contains(orgName, "Ontario") && Contains(orgName, "British Columbia")
            ==> r == Choice(domains.bc, k)
    ensures t == Provincial && !Contains(orgName, "Ontario") && !Contains(orgName, "British Columbia")
            && Contains(orgName, "Alberta")
            ==> r == Choice(domains.alberta, k)
    ensures t == Provincial && !Contains(orgName, "Ontario") && !Contains(orgName, "British Columbia")
            && !Contains(orgName, "Alberta") && (Contains(orgName, "Quebec") || Contains(orgName, "Québec"))
            ==> r == Choice(domains.quebec, k)
    ensures t == Provincial && !Contains(orgName, "Ontario") && !Contains(orgName, "British Columbia")
            && !Contains(orgName, "Alberta") && !Contains(orgName, "Quebec") && !Contains(orgName, "Québec")
            ==> r == Ok("gov.ca")
  {
    match t
    case Federal => Choice(domains.federal, k)
    case Provincial =>
      if Contains(orgName, "Ontario") then Choice(domains.ontario, k)
      else if Contains(orgName, "British Columbia") then Choice(domains.bc, k)
      else if Contains(orgName, "Alberta") then Choice(domains.alberta, k)
      else if Contains(orgName, "Quebec") || Contains(orgName, "Québec") then Choice(domains.quebec, k)
      else Ok("gov.ca")
    case Municipal =>
      var city := LastWord(Lower(orgName));
      if city.None? then Err(IndexError) else Ok(city.value + ".ca")
    case _ => Ok(CompactName(orgName) + ".ca")
  }

  /** The requirements `_create_opportunity` can list. */
  datatype Requirement =
    | GovernmentExperience | CanadianContent | VirtualDelivery | BilingualDelivery
    | TechnicalExpertise | ChangeManagement | RegulatoryKnowledge | CertificationCapability
    | DeiExpertise | CulturalSensitivity

  function RequirementText(r: Requirement): string {
    match r
    case GovernmentExperience => "Proven government training experience"
    case CanadianContent => "Canadian content and examples"
    case VirtualDelivery => "Virtual delivery capability"
    case BilingualDelivery => "Bilingual delivery (English/French)"
    case TechnicalExpertise => "Technical expertise required"
    case ChangeManagement => "Change management experience"
    case RegulatoryKnowledge => "Regulatory knowledge"
    case CertificationCapability => "Certification capability"
    case DeiExpertise => "DEI expertise"
    case CulturalSensitivity => "Cultural sensitivity training"
  }

  /** The bilingual requirement's test. */
  predicate NeedsBilingual(orgName: string, t: OrgType) {
    t == Federal || Contains(orgName, "Quebec") || Contains(orgName, "Québec")
  }

  /** The two requirements a category adds, if any. */
  function CategoryRequirements(c: Category): (r: seq<Requirement>)
    ensures |r| <= 2 && BilingualDelivery !in r
    ensures c == DigitalTransformation <==> r == [TechnicalExpertise, ChangeManagement]
    ensures c == ComplianceAndRegulatory <==> r == [RegulatoryKnowledge, CertificationCapability]
    ensures c == DiversityAndInclusion <==> r == [DeiExpertise, CulturalSensitivity]
    ensures r == [] <==> c !in {DigitalTransformation, ComplianceAndRegulatory, DiversityAndInclusion}
  {
    match c
    case DigitalTransformation => [TechnicalExpertise, ChangeManagement]
    case ComplianceAndRegulatory => [RegulatoryKnowledge, CertificationCapability]
    case DiversityAndInclusion => [DeiExpertise, CulturalSensitivity]
    case _ => []
  }

  /** `base_requirements` after its appends. */
  function KeyRequirements(orgName: string, t: OrgType, c: Category): (r: seq<Requirement>)
    ensures 3 <= |r| <= 6
    ensures r[..3] == [GovernmentExperience, CanadianContent, VirtualDelivery]
    ensures BilingualDelivery in r <==> NeedsBilingual(orgName, t)
    ensures |r| == 3 + (if NeedsBilingual(orgName, t) then 1 else 0) + |CategoryRequirements(c)|
    ensures NeedsBilingual(orgName, t) ==> r[3] == BilingualDelivery
    ensures r[|r| - |CategoryRequirements(c)|..] == CategoryRequirements(c)
  {
    var base := [GovernmentExperience, CanadianContent, VirtualDelivery];
    var r := base + (if NeedsBilingual(orgName, t) then [BilingualDelivery] else []) + CategoryRequirements(c);
    assert r[..3] == base;
    r
  }

  /** `next_steps`: the organization's priorities first, then four fixed steps. */
  function NextSteps(orgName: string): (steps: seq<string>)
    ensures |steps| == 5 && steps[0] == "Review " + orgName + " strategic priorities"
  {
    ["Review " + orgName + " strategic priorities",
     "Connect with procurement team for vendor requirements",
     "Prepare relevant case studies and references",
     "Develop preliminary training outline",
     "Identify potential partnership opportunities"]
  }

  const FederalRoles: seq<string> :=
    ["Director General, Human Resources",
     "Chief Information Officer",
     "Director, Learning and Development",
     "Senior Procurement Officer"]
  const ProvincialRoles: seq<string> :=
    ["Assistant Deputy Minister",
     "Director, Organizational Development",
     "Manager, Training Services",
     "Procurement Lead"]
  const LocalRoles: seq<string> :=
    ["Chief Administrative Officer",
     "Director, Human Resources",
     "Training Manager",
     "Procurement Specialist"]

  /** `decision_makers`: four roles, by federal, provincial or any other type. */
  function DecisionMakers(t: OrgType): (roles: seq<string>)
    ensures |roles| == 4
    ensures roles == FederalRoles <==> t == Federal
    ensures roles == ProvincialRoles <==> t == Provincial
    ensures roles == LocalRoles <==> t != Federal && t != Provincial
  {
    match t
    case Federal => FederalRoles
    case Provincial => ProvincialRoles
    case _ => LocalRoles
  }

  /** The fixed pieces around the topic and the organization in the category's description. */
  function DescriptionTemplate(c: Category): (string, string, string) {
    match c
    case DigitalTransformation =>
      ("Comprehensive ", " training program to modernize ",
       "'s digital capabilities. Focus on practical implementation and measurable outcomes.")
    case LeadershipDevelopment =>
      ("Strategic ", " initiative to build leadership capacity across ",
       ". Emphasis on practical skills and organizational transformation.")
    case ComplianceAndRegulatory =>
      ("Mandatory ", " program ensuring ",
       " meets all regulatory requirements. Includes certification and ongoing support.")
    case DiversityAndInclusion =>
      ("Organization-wide ", " training to foster inclusive workplace culture at ",
       ". Focus on practical application and cultural change.")
    case SustainabilityAndClimate =>
      ("Environmental ", " program supporting ",
       "'s sustainability goals. Includes implementation roadmap and metrics.")
    case ServiceExcellence =>
      ("Service improvement through ", " at ",
       ". Focus on citizen satisfaction and operational efficiency.")
    case TechnicalSkills =>
      ("Technical upskilling in ", " for ",
       " employees. Hands-on training with certification options.")
  }

  /** The description the category's entry of `descriptions` gives: it names the lowered topic and the organization. */
  function Description(c: Category, topic: string, orgName: string): (s: string)
    ensures Contains(s, Lower(topic)) && Contains(s, orgName)
  {
    var pieces := DescriptionTemplate(c);
    Fill(pieces.0, Lower(topic), pieces.1, orgName, pieces.2)
  }

  /** The five analyses `random.choice` picks from; the second names the organization type. */
  function Analysis(k: nat, t: OrgType): (s: string)
    ensures k % 5 == 1 ==> Contains(s, TypeName(t) + " experience")
  {
    match k % 5
    case 0 => "High-priority initiative with executive sponsorship. Early engagement critical for competitive advantage."
    case 1 =>
      var tail := TypeName(t) + " experience";
      ContainsSelf(tail);
      ContainsInLeft(tail, ".", tail);
      ContainsInRight("Budget approved and procurement process initiated. Strong preference for vendors with ",
                      tail + ".", tail);
      "Budget approved and procurement process initiated. Strong preference for vendors with " + (tail + ".")
    case 2 => "Multi-year opportunity with potential for expansion. Initial contract likely to lead to follow-on work."
    case 3 => "Politically sensitive project requiring careful stakeholder management. Local presence advantageous."
    case _ => "Innovation-focused initiative seeking creative solutions. Opportunity to establish long-term partnership."
  }

  // ---------------------------------------------------------------------------
  // The opportunity
  // ---------------------------------------------------------------------------

  /**
   * What `_create_opportunity` returns, without the clock-and-random 'id': the inputs,
   * the draws, the chosen budget and domain and the dates. The other entries of the
   * returned dictionary are the member functions.
   */
  datatype Generated = Generated(
    organization: string, orgType: OrgType, category: Category, topic: string, draw: Draw,
    deadline: string, budget: string, domain: string, dateFound: string)
  {
    function Tier(): Tier {
      TierFor(draw.daysAhead, orgType)
    }

    function TierLabel(): string {
      Label(Tier())
    }

    function Opportunity(): string {
      topic + " Training Program 2025-2026"
    }

    /** The domain's site, then the lowered topic with its blanks as hyphens. */
    function Source(): (s: string)
      ensures |s| == 13 + |domain| + |topic|
      ensures s[..13 + |domain|] == "https://www." + domain + "/"
      ensures ' ' !in s[13 + |domain|..]
    {
      var path := ReplaceChar(Lower(topic), ' ', '-');
      assert ' ' !in path;
      var site := "https://www." + domain + "/";
      assert (site + path)[..|site|] == site && (site + path)[|site|..] == path;
      site + path
    }

    /** At most twenty characters of the topic, with no blank or hyphen, at the domain. */
    function Contact(): (s: string)
      ensures exists p :: |p| <= 20 && ' ' !in p && '-' !in p && s == p + "@" + domain
    {
      var p := ContactPrefix(topic);
      assert |p| <= 20 && ' ' !in p && '-' !in p;
      p + "@" + domain
    }

    function Status(): string {
      "New Lead"
    }

    function WinProbability(): string {
      WinProbabilityText(draw.winProb)
    }

    /** The level of the budget's upper end, read the intended way. */
    function CompetitiveLandscape(): (s: string)
      ensures BudgetValue(budget) >= 10.0 ==> s == CompetitionText(HighCompetition)
      ensures 5.0 <= BudgetValue(budget) < 10.0 ==> s == CompetitionText(MediumCompetition)
      ensures BudgetValue(budget) < 5.0 ==> s == CompetitionText(LowCompetition)
    {
      CompetitionText(Competition(BudgetValue(budget)))
    }

    /** One text per requirement of `KeyRequirements`, in its order. */
    function Requirements(): (s: seq<string>)
      ensures |s| == |KeyRequirements(organization, orgType, category)|
      ensures forall i :: 0 <= i < |s| ==> s[i] == RequirementText(KeyRequirements(organization, orgType, category)[i])
      ensures forall r :: r in KeyRequirements(organization, orgType, category) ==> RequirementText(r) in s
    {
      var reqs := KeyRequirements(organization, orgType, category);
      MapSeqHas(reqs, RequirementText);
      MapSeq(reqs, RequirementText)
    }

    function Steps(): seq<string> {
      NextSteps(organization)
    }

    function Roles(): seq<string> {
      DecisionMakers(orgType)
    }

    /** The category's description, naming the lowered topic and the organization. */
    function Summary(): (s: string)
      ensures Contains(s, Lower(topic)) && Contains(s, organization)
    {
      Description(category, topic, organization)
    }

    /** The drawn analysis; the second of the five names the organization type. */
    function CriticalAnalysis(): (s: string)
      ensures draw.analysis % 5 == 1 ==> Contains(s, TypeName(orgType) + " experience")
    {
      Analysis(draw.analysis, orgType)
    }

    function TrainingType(): string {
      CategoryName(category)
    }

    function OrganizationType(): string {
      TypeName(orgType)
    }
  }

  /**
   * `_create_opportunity`: a drawn budget and domain; a raise (an empty list to choose
   * from, a blank municipal name) leaves it.
   */
  function CreateOpportunity(budgets: seq<string>, domains: Domains, orgName: string, t: OrgType,
                             c: Category, topic: string, d: Draw, dateIn: int -> string,
                             today: string): (r: Result<Generated>)
    ensures r.Ok? <==> budgets != [] && DomainFor(domains, orgName, t, d.domain).Ok?
    ensures r.Ok? ==> r.value.organization == orgName && r.value.orgType == t && r.value.category == c
                      && r.value.topic == topic && r.value.draw == d && r.value.deadline == dateIn(d.daysAhead)
                      && r.value.budget in budgets && r.value.domain == DomainFor(domains, orgName, t, d.domain).value
                      && r.value.dateFound == today
  {
    var budget :- Choice(budgets, d.budget);
    var domain :- DomainFor(domains, orgName, t, d.domain);
    Ok(Generated(orgName, t, c, topic, d, dateIn(d.daysAhead), budget, domain, today))
  }

  // ---------------------------------------------------------------------------
  // One organization's opportunities
  // ---------------------------------------------------------------------------

  function Categories(types: seq<TrainingType>): (r: seq<Category>)
    ensures |r| == |types|
    ensures forall i :: 0 <= i < |types| ==> r[i] == types[i].category
  {
    MapSeq(types, (tt: TrainingType) => tt.category)
  }

  /** `training_types[category]`: the topics of the first entry with that category; KeyError without one. */
  function TopicsOf(types: seq<TrainingType>, c: Category): (r: Result<seq<string>>)
    ensures r.Ok? <==> c in Categories(types)
    ensures r.Err? ==> r.error == KeyError
  {
    if types == [] then Err(KeyError)
    else if types[0].category == c then Ok(types[0].topics)
    else
      var rest := TopicsOf(types[1..], c);
      assert Categories(types) == [types[0].category] + Categories(types[1..]);
      rest
  }

  function Min(a: nat, b: nat): nat {
    if a <= b then a else b
  }

  /** The categories `_generate_org_opportunities` samples: `min(count, len(training_types))` of them. */
  function SampledCategories(types: seq<TrainingType>, count: nat, pick: nat -> nat): (r: seq<Category>)
    ensures |r| == Min(count, |types|)
    ensures forall c :: c in r ==> c in Categories(types)
  {
    Sample(Categories(types), Min(count, |types|), pick, 0)
  }

  /** One loop step of `_generate_org_opportunities`: the category's topics, a drawn topic, the opportunity. */
  function CreateOne(budgets: seq<string>, domains: Domains, types: seq<TrainingType>, orgName: string,
                     t: OrgType, c: Category, d: Draw, dateIn: int -> string, today: string): (r: Result<Generated>)
    ensures r.Ok? ==> r.value.category == c && r.value.organization == orgName && r.value.budget in budgets
  {
    var topics :- TopicsOf(types, c);
    var topic :- Choice(topics, d.topic);
    CreateOpportunity(budgets, domains, orgName, t, c, topic, d, dateIn, today)
  }

  /** The opportunities for the given categories, one each, the `i`-th with the draws `draws(i)`. */
  function CreateEach(budgets: seq<string>, domains: Domains, types: seq<TrainingType>, orgName: string,
                      t: OrgType, cats: seq<Category>, draws: nat -> Draw, dateIn: int -> string,
                      today: string): (r: Result<seq<Generated>>)
    ensures r.Ok? ==> |r.value| == |cats|
    ensures r.Ok? ==> forall i :: 0 <= i < |cats| ==> r.value[i].category == cats[i] && r.value[i].organization == orgName
    ensures r.Ok? ==> forall i :: 0 <= i < |cats| ==> r.value[i].budget in budgets
  {
    if cats == [] then Ok([])
    else
      var n := |cats| - 1;
      var prefix :- CreateEach(budgets, domains, types, orgName, t, cats[..n], draws, dateIn, today);
      var o :- CreateOne(budgets, domains, types, orgName, t, cats[n], draws(n), dateIn, today);
      Ok(prefix + [o])
  }

  /** One more category adds its opportunity, or raises its error. */
  lemma CreateEachStep(budgets: seq<string>, domains: Domains, types: seq<TrainingType>, orgName: string,
                       t: OrgType, cats: seq<Category>, i: nat, draws: nat -> Draw, dateIn: int -> string,
                       today: string, prefix: seq<Generated>)
    requires i < |cats|
    requires CreateEach(budgets, domains, types, orgName, t, cats[..i], draws, dateIn, today) == Ok(prefix)
    ensures var o := CreateOne(budgets, domains, types, orgName, t, cats[i], draws(i), dateIn, today);
            CreateEach(budgets, domains, types, orgName, t, cats[..i + 1], draws, dateIn, today)
            == if o.Ok? then Ok(prefix + [o.value]) else Err(o.error)
  {
    assert cats[..i + 1][..i] == cats[..i];
  }

  /** `_generate_org_opportunities`. */
  function OrgOpportunities(budgets: seq<string>, domains: Domains, types: seq<TrainingType>, orgName: string,
                            t: OrgType, count: nat, pick: nat -> nat, draws: nat -> Draw, dateIn: int -> string,
                            today: string): (r: Result<seq<Generated>>)
    ensures r.Ok? ==> |r.value| == Min(count, |types|)
  {
    CreateEach(budgets, domains, types, orgName, t, SampledCategories(types, count, pick), draws, dateIn, today)
  }

  /** With distinct categories in the table, an organization's opportunities have pairwise distinct training types. */
  lemma OrgOpportunitiesDistinctTypes(budgets: seq<string>, domains: Domains, types: seq<TrainingType>, orgName: string,
                                      t: OrgType, count: nat, pick: nat -> nat, draws: nat -> Draw,
                                      dateIn: int -> string, today: string)
    requires Distinct(Categories(types))
    requires OrgOpportunities(budgets, domains, types, orgName, t, count, pick, draws, dateIn, today).Ok?
    ensures var r := OrgOpportunities(budgets, domains, types, orgName, t, count, pick, draws, dateIn, today).value;
            forall i, j :: 0 <= i < j < |r| ==> r[i].category != r[j].category
  {
    var cats := SampledCategories(types, count, pick);
    SampleDistinct(Categories(types), Min(count, |types|), pick, 0);
  }

  /** The tables `random.choice` draws from are all non-empty. */
  predicate Drawable(budgets: seq<string>, domains: Domains, types: seq<TrainingType>) {
    budgets != [] && domains.federal != [] && domains.ontario != [] && domains.bc != []
    && domains.alberta != [] && domains.quebec != []
    && forall tt :: tt in types ==> tt.topics != []
  }

  /** Drawing from non-empty tables nothing raises except a blank municipal name. */
  lemma {:induction false} CreateEachOk(budgets: seq<string>, domains: Domains, types: seq<TrainingType>, orgName: string,
                                        t: OrgType, cats: seq<Category>, draws: nat -> Draw, dateIn: int -> string,
                                        today: string)
    requires Drawable(budgets, domains, types)
    requires forall c :: c in cats ==> c in Categories(types)
    requires t == Municipal ==> LastWord(Lower(orgName)).Some?
    ensures CreateEach(budgets, domains, types, orgName, t, cats, draws, dateIn, today).Ok?
  {
    if cats != [] {
      var n := |cats| - 1;
      assert forall c :: c in cats[..n] ==> c in cats;
      CreateEachOk(budgets, domains, types, orgName, t, cats[..n], draws, dateIn, today);
      CreateOneOk(budgets, domains, types, orgName, t, cats[n], draws(n), dateIn, today);
    }
  }

  /** Once a prefix of the categories raises, so does the whole list, with the same error. */
  lemma {:induction false} CreateEachStops(budgets: seq<string>, domains: Domains, types: seq<TrainingType>, orgName: string,
                                           t: OrgType, cats: seq<Category>, j: nat, draws: nat -> Draw,
                                           dateIn: int -> string, today: string)
    requires j <= |cats|
    requires CreateEach(budgets, domains, types, orgName, t, cats[..j], draws, dateIn, today).Err?
    ensures CreateEach(budgets, domains, types, orgName, t, cats, draws, dateIn, today)
            == CreateEach(budgets, domains, types, orgName, t, cats[..j], draws, dateIn, today)
    decreases |cats| - j
  {
    if j == |cats| {
      assert cats[..j] == cats;
    } else {
      assert cats[..j + 1][..j] == cats[..j];
      CreateEachStops(budgets, domains, types, orgName, t, cats, j + 1, draws, dateIn, today);
    }
  }

  lemma CreateOneOk(budgets: seq<string>, domains: Domains, types: seq<TrainingType>, orgName: string,
                    t: OrgType, c: Category, d: Draw, dateIn: int -> string, today: string)
    requires Drawable(budgets, domains, types)
    requires c in Categories(types)
    requires t == Municipal ==> LastWord(Lower(orgName)).Some?
    ensures CreateOne(budgets, domains, types, orgName, t, c, d, dateIn, today).Ok?
  {
    TopicsOfIn(types, c);
    DomainForOk(domains, orgName, t, d.domain);
  }

  lemma DomainForOk(domains: Domains, orgName: string, t: OrgType, k: nat)
    requires domains.federal != [] && domains.ontario != [] && domains.bc != []
    requires domains.alberta != [] && domains.quebec != []
    requires t == Municipal ==> LastWord(Lower(orgName)).Some?
    ensures DomainFor(domains, orgName, t, k).Ok?
  {
  }

  /** A looked-up entry's topics are the topics of one of the table's entries. */
  lemma {:induction false} TopicsOfIn(types: seq<TrainingType>, c: Category)
    requires c in Categories(types)
    ensures exists tt :: tt in types && TopicsOf(types, c) == Ok(tt.topics)
  {
    if types[0].category != c {
      assert Categories(types) == [types[0].category] + Categories(types[1..]);
      TopicsOfIn(types[1..], c);
      var tt :| tt in types[1..] && TopicsOf(types[1..], c) == Ok(tt.topics);
    }
  }

  // ---------------------------------------------------------------------------
  // All organizations
  // ---------------------------------------------------------------------------

  /** An organization as `generate_all_opportunities` names it, with its type. */
  datatype Org = Org(name: string, orgType: OrgType)

  /** How many opportunities an organization gets: the base for its type plus its `randint` draw (none for an NPO). */
  function CountFor(t: OrgType, extra: nat): (n: nat)
    ensures n >= 1
  {
    match t
    case Federal => 2 + extra
    case Npo => 1
    case _ => 1 + extra
  }

  function Named(names: seq<string>, t: OrgType): (r: seq<Org>)
    ensures |r| == |names|
  {
    MapSeq(names, (name: string) => Org(name, t))
  }

  /** The provincial organizations, named "org (province)", province after province. */
  function ProvincialNamed(provinces: seq<Province>): seq<Org> {
    if provinces == [] then []
    else
      var n := |provinces| - 1;
      var p := provinces[n];
      ProvincialNamed(provinces[..n]) + MapSeq(p.orgs, (o: string) => Org(o + " (" + p.name + ")", Provincial))
  }

  /** Every organization in the order `generate_all_opportunities` visits them. */
  function Organizations(federal: seq<string>, provincial: seq<Province>, municipal: seq<string>,
                         crown: seq<string>, indigenous: seq<string>, npo: seq<string>): seq<Org>
  {
    MapSeq(federal, (o: string) => Org("Government of Canada - " + o, Federal))
    + ProvincialNamed(provincial) + Named(municipal, Municipal) + Named(crown, Crown)
    + Named(indigenous, Indigenous) + Named(npo, Npo)
  }

  /** The opportunities of the organizations in order; organization `i` uses the draws `extra(i)`, `picks(i)`, `draws(i)`. */
  function AllOpportunities(budgets: seq<string>, domains: Domains, types: seq<TrainingType>, orgs: seq<Org>,
                            extra: nat -> nat, picks: nat -> nat -> nat, draws: nat -> nat -> Draw,
                            dateIn: int -> string, today: string): Result<seq<Generated>>
  {
    if orgs == [] then Ok([])
    else
      var n := |orgs| - 1;
      var prefix :- AllOpportunities(budgets, domains, types, orgs[..n], extra, picks, draws, dateIn, today);
      var mine :- OrgOpportunities(budgets, domains, types, orgs[n].name, orgs[n].orgType,
                                   CountFor(orgs[n].orgType, extra(n)), picks(n), draws(n), dateIn, today);
      Ok(prefix + mine)
  }

  /** Every opportunity of `r` has one of the budget ranges. */
  predicate BudgetsIn(r: seq<Generated>, budgets: seq<string>) {
    forall i :: 0 <= i < |r| ==> r[i].budget in budgets
  }

  lemma BudgetsInConcat(a: seq<Generated>, b: seq<Generated>, budgets: seq<string>)
    requires BudgetsIn(a, budgets) && BudgetsIn(b, budgets)
    ensures BudgetsIn(a + b, budgets)
  {
    forall i | 0 <= i < |a + b|
      ensures (a + b)[i].budget in budgets
    {
      if i >= |a| {
        assert (a + b)[i] == b[i - |a|];
      }
    }
  }

  /** Every opportunity of a run has one of the budget ranges. */
  lemma {:induction false} AllOpportunitiesBudgets(budgets: seq<string>, domains: Domains, types: seq<TrainingType>,
                                                   orgs: seq<Org>, extra: nat -> nat, picks: nat -> nat -> nat,
                                                   draws: nat -> nat -> Draw, dateIn: int -> string, today: string)
    requires AllOpportunities(budgets, domains, types, orgs, extra, picks, draws, dateIn, today).Ok?
    ensures BudgetsIn(AllOpportunities(budgets, domains, types, orgs, extra, picks, draws, dateIn, today).value, budgets)
  {
    if orgs != [] {
      var n := |orgs| - 1;
      var before := AllOpportunities(budgets, domains, types, orgs[..n], extra, picks, draws, dateIn, today);
      var mine := OrgOpportunities(budgets, domains, types, orgs[n].name, orgs[n].orgType,
                                   CountFor(orgs[n].orgType, extra(n)), picks(n), draws(n), dateIn, today);
      AllOpportunitiesBudgets(budgets, domains, types, orgs[..n], extra, picks, draws, dateIn, today);
      AllOpportunitiesStep(budgets, domains, types, orgs, n, extra, picks, draws, dateIn, today, before.value);
      assert orgs[..n + 1] == orgs;
      BudgetsInConcat(before.value, mine.value, budgets);
    }
  }

  /** One more organization adds its opportunities, or raises their error. */
  lemma AllOpportunitiesStep(budgets: seq<string>, domains: Domains, types: seq<TrainingType>, orgs: seq<Org>, i: nat,
                             extra: nat -> nat, picks: nat -> nat -> nat, draws: nat -> nat -> Draw,
                             dateIn: int -> string, today: string, prefix: seq<Generated>)
    requires i < |orgs|
    requires AllOpportunities(budgets, domains, types, orgs[..i], extra, picks, draws, dateIn, today) == Ok(prefix)
    ensures var mine := OrgOpportunities(budgets, domains, types, orgs[i].name, orgs[i].orgType,
                                         CountFor(orgs[i].orgType, extra(i)), picks(i), draws(i), dateIn, today);
            AllOpportunities(budgets, domains, types, orgs[..i + 1], extra, picks, draws, dateIn, today)
            == if mine.Ok? then Ok(prefix + mine.value) else Err(mine.error)
  {
    assert orgs[..i + 1][..i] == orgs[..i];
  }

  /** Once the opportunities of a prefix of the organizations raise, so does the whole run, with the same error. */
  lemma {:induction false} AllOpportunitiesStops(budgets: seq<string>, domains: Domains, types: seq<TrainingType>,
                                                 orgs: seq<Org>, j: nat, extra: nat -> nat, picks: nat -> nat -> nat,
                                                 draws: nat -> nat -> Draw, dateIn: int -> string, today: string)
    requires j <= |orgs|
    requires AllOpportunities(budgets, domains, types, orgs[..j], extra, picks, draws, dateIn, today).Err?
    ensures AllOpportunities(budgets, domains, types, orgs, extra, picks, draws, dateIn, today)
            == AllOpportunities(budgets, domains, types, orgs[..j], extra, picks, draws, dateIn, today)
    decreases |orgs| - j
  {
    if j == |orgs| {
      assert orgs[..j] == orgs;
    } else {
      assert orgs[..j + 1][..j] == orgs[..j];
      AllOpportunitiesStops(budgets, domains, types, orgs, j + 1, extra, picks, draws, dateIn, today);
    }
  }

  /** Drawing from non-empty tables, a run raises only on a blank municipal name. */
  lemma {:induction false} AllOpportunitiesOk(budgets: seq<string>, domains: Domains, types: seq<TrainingType>,
                                              orgs: seq<Org>, extra: nat -> nat, picks: nat -> nat -> nat,
                                              draws: nat -> nat -> Draw, dateIn: int -> string, today: string)
    requires Drawable(budgets, domains, types)
    requires forall o :: o in orgs && o.orgType == Municipal ==> LastWord(Lower(o.name)).Some?
    ensures AllOpportunities(budgets, domains, types, orgs, extra, picks, draws, dateIn, today).Ok?
  {
    if orgs != [] {
      var n := |orgs| - 1;
      assert forall o :: o in orgs[..n] ==> o in orgs;
      AllOpportunitiesOk(budgets, domains, types, orgs[..n], extra, picks, draws, dateIn, today);
      var o := orgs[n];
      var count := CountFor(o.orgType, extra(n));
      CreateEachOk(budgets, domains, types, o.name, o.orgType, SampledCategories(types, count, picks(n)),
                   draws(n), dateIn, today);
    }
  }

  /** A name with a visible first character has a last word. */
  lemma NamedCityHasWord(name: string)
    requires name != [] && !IsSpace(name[0])
    ensures LastWord(Lower(name)).Some?
  {
    assert Lower(name)[0] == LowerChar(name[0]);
  }

  lemma {:induction false} ProvincialNamedAreProvincial(provinces: seq<Province>)
    ensures forall o :: o in ProvincialNamed(provinces) ==> o.orgType == Provincial
  {
    if provinces != [] {
      ProvincialNamedAreProvincial(provinces[..|provinces| - 1]);
    }
  }

  /** The municipal organizations visited are exactly those of the municipal table, by name. */
  lemma MunicipalOrganizations(federal: seq<string>, provincial: seq<Province>, municipal: seq<string>,
                               crown: seq<string>, indigenous: seq<string>, npo: seq<string>)
    ensures forall o :: (o in Organizations(federal, provincial, municipal, crown, indigenous, npo)
                         && o.orgType == Municipal) ==> o.name in municipal
  {
    ProvincialNamedAreProvincial(provincial);
  }

  /** The sort key `(0 if 'Tier 1' in tier else (1 if 'Tier 2' in tier else 2), deadline)`. */
  function GeneratedOrder(g: Generated): Key {
    Key(Rank(g.Tier()), g.deadline)
  }

  /** It is the source's key on the tier label. */
  lemma GeneratedOrderIsSourceKey(g: Generated)
    ensures GeneratedOrder(g) == TierDeadlineKey(g.TierLabel(), g.deadline)
  {
    RankOfLabel(g.Tier());
  }

  /** What `generate_all_opportunities` returns: every organization's opportunities, sorted. */
  function GenerateAll(budgets: seq<string>, domains: Domains, types: seq<TrainingType>, orgs: seq<Org>,
                       extra: nat -> nat, picks: nat -> nat -> nat, draws: nat -> nat -> Draw,
                       dateIn: int -> string, today: string): (r: Result<seq<Generated>>)
    ensures r.Ok? <==> AllOpportunities(budgets, domains, types, orgs, extra, picks, draws, dateIn, today).Ok?
    ensures r.Ok? ==> Sorted(r.value, GeneratedOrder)
    ensures r.Ok? ==> multiset(r.value)
                      == multiset(AllOpportunities(budgets, domains, types, orgs, extra, picks, draws, dateIn, today).value)
  {
    var all :- AllOpportunities(budgets, domains, types, orgs, extra, picks, draws, dateIn, today);
    Ok(SortBy(all, GeneratedOrder))
  }

  /** The sorted run keeps the budgets of the opportunities: each is one of the ranges. */
  lemma GenerateAllBudgets(budgets: seq<string>, domains: Domains, types: seq<TrainingType>, orgs: seq<Org>,
                           extra: nat -> nat, picks: nat -> nat -> nat, draws: nat -> nat -> Draw,
                           dateIn: int -> string, today: string)
    requires GenerateAll(budgets, domains, types, orgs, extra, picks, draws, dateIn, today).Ok?
    ensures BudgetsIn(GenerateAll(budgets, domains, types, orgs, extra, picks, draws, dateIn, today).value, budgets)
  {
    var r := GenerateAll(budgets, domains, types, orgs, extra, picks, draws, dateIn, today).value;
    var all := AllOpportunities(budgets, domains, types, orgs, extra, picks, draws, dateIn, today).value;
    AllOpportunitiesBudgets(budgets, domains, types, orgs, extra, picks, draws, dateIn, today);
    forall i | 0 <= i < |r|
      ensures r[i].budget in budgets
    {
      assert r[i] in multiset(all);
      var j :| 0 <= j < |all| && all[j] == r[i];
    }
  }

  /** In the sorted list every federal opportunity comes before every Tier 2 or Tier 3 one. */
  lemma FederalFirst(s: seq<Generated>, i: int, j: int)
    requires Sorted(s, GeneratedOrder) && 0 <= i < |s| && 0 <= j < |s|
    requires s[j].orgType == Federal && s[i].Tier() != Urgent
    ensures j < i
  {
  }
}
