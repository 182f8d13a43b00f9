/**
 * The comprehensive lead generator: its organization, training and budget tables and
 * the two generation loops, each proved to compute what the rules of
 * `ComprehensiveGenerator` say.
 */
module ComprehensiveLeadGenerator {
  import opened Wrappers
  import opened Strings
  import opened Collections
  import opened Ordering
  import opened ComprehensiveGenerator

  // The tables of `__init__`.
  const FederalOrgs: seq<string> := [
    "Treasury Board Secretariat",
    "Employment and Social Development Canada",
    "Innovation, Science and Economic Development Canada",
    "Health Canada",
    "Public Safety Canada",
    "Environment and Climate Change Canada",
    "Indigenous Services Canada",
    "Crown-Indigenous Relations",
    "Canada Revenue Agency",
    "Service Canada",
    "Statistics Canada",
    "Public Services and Procurement Canada",
    "National Defence",
    "Immigration, Refugees and Citizenship Canada",
    "Transport Canada",
    "Natural Resources Canada",
    "Agriculture and Agri-Food Canada",
    "Fisheries and Oceans Canada",
    "Parks Canada",
    "Canada Border Services",
    "Correctional Service Canada",
    "Royal Canadian Mounted Police",
    "Canadian Food Inspection Agency",
    "Public Health Agency of Canada"
  ]

  const ProvincialOrgs: seq<Province> := [
    Province("Ontario", ["Ontario Public Service", "Infrastructure Ontario", "Ontario Health", "Metrolinx", "Ontario Power Generation", "Hydro One"]),
    Province("British Columbia", ["BC Public Service", "BC Hydro", "ICBC", "BC Ferries", "WorkSafeBC", "BC Housing"]),
    Province("Alberta", ["Alberta Public Service", "Alberta Health Services", "ATB Financial", "Alberta Energy Regulator", "Alberta Innovates"]),
    Province("Quebec", ["Fonction publique du Québec", "Hydro-Québec", "SAQ", "Loto-Québec", "Investissement Québec", "SAAQ"]),
    Province("Manitoba", ["Manitoba Civil Service", "Manitoba Hydro", "Manitoba Public Insurance"]),
    Province("Saskatchewan", ["Saskatchewan Public Service", "SaskPower", "SaskTel", "SGI"]),
    Province("Nova Scotia", ["Nova Scotia Public Service", "Nova Scotia Power", "NSLC"]),
    Province("New Brunswick", ["New Brunswick Public Service", "NB Power", "WorkSafeNB"]),
    Province("Newfoundland", ["NL Public Service", "Nalcor Energy", "NLC"])
  ]

  const MunicipalOrgs: seq<string> := [
    "City of Toronto",
    "City of Vancouver",
    "City of Montreal",
    "City of Calgary",
    "City of Edmonton",
    "City of Ottawa",
    "City of Winnipeg",
    "City of Quebec",
    "City of Hamilton",
    "City of Kitchener",
    "City of London",
    "City of Halifax",
    "City of Victoria",
    "City of Regina",
    "City of Saskatoon",
    "City of St. John's",
    "Regional Municipality of Waterloo",
    "Regional Municipality of Peel",
    "Regional Municipality of York",
    "Regional Municipality of Durham"
  ]

  const CrownCorps: seq<string> := [
    "Canada Post",
    "VIA Rail",
    "CBC/Radio-Canada",
    "Export Development Canada",
    "Business Development Bank of Canada",
    "Farm Credit Canada",
    "Canadian Commercial Corporation",
    "Atomic Energy of Canada Limited"
  ]

  const IndigenousOrgs: seq<string> := [
    "Assembly of First Nations",
    "Inuit Tapiriit Kanatami",
    "Métis National Council",
    "First Nations Health Authority",
    "Indigenous Business Development Services",
    "National Aboriginal Capital Corporations Association",
    "First Nations Financial Management Board",
    "First Nations Tax Commission"
  ]

  const NpoOrgs: seq<string> := [
    "United Way Canada",
    "Canadian Red Cross",
    "YMCA Canada",
    "Salvation Army Canada",
    "Canadian Cancer Society",
    "Heart and Stroke Foundation",
    "Canadian Mental Health Association",
    "Habitat for Humanity Canada",
    "Food Banks Canada",
    "Big Brothers Big Sisters Canada"
  ]

  /** `training_types`, in its order; each category's topics are a table of their own below. */
  const TrainingTypes: seq<TrainingType> := [
    TrainingType(DigitalTransformation, DigitalTopics),
    TrainingType(LeadershipDevelopment, LeadershipTopics),
    TrainingType(ComplianceAndRegulatory, ComplianceTopics),
    TrainingType(DiversityAndInclusion, DiversityTopics),
    TrainingType(SustainabilityAndClimate, SustainabilityTopics),
    TrainingType(ServiceExcellence, ServiceTopics),
    TrainingType(TechnicalSkills, TechnicalTopics)
  ]

  const DigitalTopics: seq<string> := [
    "AI and Machine Learning Implementation",
    "Cloud Migration and Management",
    "Data Analytics and Visualization",
    "Cybersecurity Awareness and Best Practices",
    "Digital Service Delivery",
    "Agile and DevOps Methodologies",
    "Robotic Process Automation",
    "Blockchain in Government",
    "API Development and Integration",
    "Digital Identity Management"
  ]

  const LeadershipTopics: seq<string> := [
    "Executive Leadership Program",
    "Middle Management Excellence",
    "Emerging Leaders Initiative",
    "Change Management Certification",
    "Strategic Planning and Execution",
    "Coaching and Mentoring Skills",
    "Conflict Resolution and Negotiation",
    "Emotional Intelligence in Leadership",
    "Indigenous Leadership Principles",
    "Women in Leadership"
  ]

  const ComplianceTopics: seq<string> := [
    "AODA Compliance Training",
    "Privacy and Information Management",
    "Anti-Harassment and Discrimination",
    "Ethics and Values in Public Service",
    "Procurement and Contract Management",
    "Financial Management and Accountability",
    "Health and Safety Certification",
    "Environmental Compliance",
    "Official Languages Training",
    "Security Clearance Procedures"
  ]

  const DiversityTopics: seq<string> := [
    "Indigenous Cultural Competency",
    "Unconscious Bias Training",
    "LGBTQ2S+ Inclusion",
    "Accessibility and Disability Awareness",
    "Multicultural Communication",
    "Gender-Based Analysis Plus (GBA+)",
    "Anti-Racism in the Workplace",
    "Inclusive Recruitment Practices",
    "Neurodiversity Awareness",
    "Intergenerational Workplace"
  ]

  const SustainabilityTopics: seq<string> := [
    "Climate Action Planning",
    "Green Building Standards",
    "Sustainable Procurement",
    "Carbon Footprint Reduction",
    "Renewable Energy Transition",
    "Circular Economy Principles",
    "Environmental Impact Assessment",
    "Climate Risk Management",
    "Green Fleet Management",
    "Sustainable Urban Planning"
  ]

  const ServiceTopics: seq<string> := [
    "Customer Service Excellence",
    "Digital-First Service Design",
    "Service Recovery Strategies",
    "Citizen Engagement Methods",
    "Complaint Resolution Process",
    "Service Standards Development",
    "Performance Measurement",
    "Quality Assurance Programs",
    "Continuous Improvement",
    "Service Innovation"
  ]

  const TechnicalTopics: seq<string> := [
    "Microsoft 365 Advanced Features",
    "SAP for Government",
    "GIS and Mapping Technologies",
    "Project Management Professional (PMP)",
    "Business Analysis Certification",
    "Database Management",
    "Web Accessibility Standards",
    "Mobile App Development",
    "IT Service Management (ITIL)",
    "Enterprise Architecture"
  ]

  /** `budget_ranges`, by their ends. */
  const BudgetRangeTable: seq<BudgetRange> := [
    BudgetRange("500", "1", true), BudgetRange("1", "2", false), BudgetRange("2", "3", false),
    BudgetRange("3", "5", false), BudgetRange("5", "8", false), BudgetRange("8", "10", false),
    BudgetRange("10", "15", false), BudgetRange("15", "20", false)]

  /** `budget_ranges` as the texts "$500K - $1M", "$1M - $2M", ..., "$15M - $20M". */
  const BudgetRanges: seq<string> := MapSeq(BudgetRangeTable, RangeText)

  /** `contact_domains`: federal, ontario, bc, alberta, quebec. */
  const ContactDomains: Domains :=
    Domains(["gc.ca", "canada.ca"], ["ontario.ca", "gov.on.ca"], ["gov.bc.ca"], ["gov.ab.ca"], ["gouv.qc.ca"])

  /**
   * The generator: the tables `__init__` sets and the methods read, which change
   * nothing of it. The municipal entry of `contact_domains` is never read and is not modelled.
   */
  class ComprehensiveAILeadGenerator {
    const federalOrgs: seq<string>
    const provincialOrgs: seq<Province>
    const municipalOrgs: seq<string>
    const crownCorps: seq<string>
    const indigenousOrgs: seq<string>
    const npoOrgs: seq<string>
    const trainingTypes: seq<TrainingType>
    const budgetRanges: seq<string>
    const contactDomains: Domains

    /** `__init__`: the tables. */
    constructor()
      ensures federalOrgs == FederalOrgs && provincialOrgs == ProvincialOrgs && municipalOrgs == MunicipalOrgs
      ensures crownCorps == CrownCorps && indigenousOrgs == IndigenousOrgs && npoOrgs == NpoOrgs
      ensures trainingTypes == TrainingTypes && budgetRanges == BudgetRanges && contactDomains == ContactDomains
    {
      federalOrgs := FederalOrgs;
      provincialOrgs := ProvincialOrgs;
      municipalOrgs := MunicipalOrgs;
      crownCorps := CrownCorps;
      indigenousOrgs := IndigenousOrgs;
      npoOrgs := NpoOrgs;
      trainingTypes := TrainingTypes;
      budgetRanges := BudgetRanges;
      contactDomains := ContactDomains;
    }

    /** Every organization in the order the six loops of `generate_all_opportunities` visit them. */
    function Orgs(): seq<Org> {
      Organizations(federalOrgs, provincialOrgs, municipalOrgs, crownCorps, indigenousOrgs, npoOrgs)
    }

    /** `_generate_org_opportunities`: the sampled categories, one opportunity each. */
    method GenerateOrgOpportunities(orgName: string, t: OrgType, count: nat, pick: nat -> nat, draws: nat -> Draw,
                                    dateIn: int -> string, today: string) returns (r: Result<seq<Generated>>)
      ensures r == OrgOpportunities(budgetRanges, contactDomains, trainingTypes, orgName, t, count, pick, draws,
                                    dateIn, today)
    {
      var categories := SampledCategories(trainingTypes, count, pick);
      var opportunities: seq<Generated> := [];
      for i := 0 to |categories|
        invariant CreateEach(budgetRanges, contactDomains, trainingTypes, orgName, t, categories[..i], draws,
                             dateIn, today) == Ok(opportunities)
      {
        CreateEachStep(budgetRanges, contactDomains, trainingTypes, orgName, t, categories, i, draws, dateIn, today,
                       opportunities);
        var o := CreateOne(budgetRanges, contactDomains, trainingTypes, orgName, t, categories[i], draws(i),
                           dateIn, today);
        if o.Err? {
          CreateEachStops(budgetRanges, contactDomains, trainingTypes, orgName, t, categories, i + 1, draws, dateIn, today);
          return Err(o.error);
        }
        opportunities := opportunities + [o.value];
      }
      assert categories[..|categories|] == categories;
      return Ok(opportunities);
    }

    /** `generate_all_opportunities`: every organization's opportunities, then sorted by tier and deadline. */
    method GenerateAllOpportunities(extra: nat -> nat, picks: nat -> nat -> nat, draws: nat -> nat -> Draw,
                                    dateIn: int -> string, today: string) returns (r: Result<seq<Generated>>)
      ensures r == GenerateAll(budgetRanges, contactDomains, trainingTypes, Orgs(), extra, picks, draws, dateIn, today)
    {
      var orgs := Orgs();
      var all: seq<Generated> := [];
      for i := 0 to |orgs|
        invariant AllOpportunities(budgetRanges, contactDomains, trainingTypes, orgs[..i], extra, picks, draws,
                                   dateIn, today) == Ok(all)
      {
        AllOpportunitiesStep(budgetRanges, contactDomains, trainingTypes, orgs, i, extra, picks, draws, dateIn, today, all);
        var mine := GenerateOrgOpportunities(orgs[i].name, orgs[i].orgType, CountFor(orgs[i].orgType, extra(i)),
                                             picks(i), draws(i), dateIn, today);
        if mine.Err? {
          AllOpportunitiesStops(budgetRanges, contactDomains, trainingTypes, orgs, i + 1, extra, picks, draws,
                                dateIn, today);
          return Err(mine.error);
        }
        all := all + mine.value;
      }
      assert orgs[..|orgs|] == orgs;
      return Ok(SortBy(all, GeneratedOrder));
    }
  }
}
