/** What the comprehensive generator's own tables give under its rules. */
module ComprehensiveCatalogue {
  import opened Wrappers
  import opened Strings
  import opened Collections
  import opened Budget
  import opened ComprehensiveGenerator
  import opened ComprehensiveLeadGenerator

  /** Every range of the table has plain numbers at both ends. */
  lemma RangeTablePlain()
    ensures forall r :: r in BudgetRangeTable ==> PlainRange(r)
  {
  }

  /** The upper ends of the top three ranges are at least 10 million, those of the lowest three under 5. */
  lemma RangeTableUpperEnds()
    ensures |BudgetRangeTable| == 8
    ensures forall i :: 5 <= i < 8 ==> DigitsValue(BudgetRangeTable[i].high) >= 10
    ensures forall i :: 0 <= i < 3 ==> DigitsValue(BudgetRangeTable[i].high) < 5
  {
  }

  /** As written, every budget range of the table raises in the chain, so every opportunity reads the default 5, medium competition. */
  lemma BudgetRangesAsWritten()
    ensures forall b :: b in BudgetRanges ==> UpperBoundAsWritten(b).Err?
    ensures forall b :: b in BudgetRanges ==> BudgetValueAsWritten(b) == 5.0
    ensures forall b :: b in BudgetRanges ==> Competition(BudgetValueAsWritten(b)) == MediumCompetition
  {
    RangeTablePlain();
    forall b | b in BudgetRanges
      ensures UpperBoundAsWritten(b).Err? && BudgetValueAsWritten(b) == 5.0
    {
      var i :| 0 <= i < |BudgetRanges| && BudgetRanges[i] == b;
      BudgetOfRange(BudgetRangeTable[i]);
    }
  }

  /** Read as intended, each range gives its upper end. */
  lemma BudgetRangesIntended()
    ensures |BudgetRanges| == |BudgetRangeTable|
    ensures forall i :: 0 <= i < |BudgetRanges| ==> UpperBound(BudgetRanges[i]) == Ok(DigitsValue(BudgetRangeTable[i].high) as real)
    ensures forall i :: 0 <= i < |BudgetRanges| ==> BudgetValue(BudgetRanges[i]) == DigitsValue(BudgetRangeTable[i].high) as real
  {
    RangeTablePlain();
    forall i | 0 <= i < |BudgetRanges|
      ensures UpperBound(BudgetRanges[i]) == Ok(DigitsValue(BudgetRangeTable[i].high) as real)
    {
      BudgetOfRange(BudgetRangeTable[i]);
    }
  }

  /** So read, the top three ranges are high competition and the lowest three low. */
  lemma BudgetRangesCompetition()
    ensures |BudgetRanges| == 8
    ensures forall i :: 5 <= i < 8 ==> Competition(BudgetValue(BudgetRanges[i])) == HighCompetition
    ensures forall i :: 0 <= i < 3 ==> Competition(BudgetValue(BudgetRanges[i])) == LowCompetition
  {
    BudgetRangesIntended();
    RangeTableUpperEnds();
  }

  /** The categories of `training_types` are its seven, each once. */
  lemma CategoriesOfTable()
    ensures Categories(TrainingTypes) == [DigitalTransformation, LeadershipDevelopment, ComplianceAndRegulatory,
                                          DiversityAndInclusion, SustainabilityAndClimate, ServiceExcellence,
                                          TechnicalSkills]
    ensures |TrainingTypes| == 7 && Distinct(Categories(TrainingTypes))
  {
  }

  /** The tables are fit to draw from: no category without topics, no empty budget or domain list. */
  lemma TablesDrawable()
    ensures Drawable(BudgetRanges, ContactDomains, TrainingTypes)
  {
    assert DigitalTopics != [] && LeadershipTopics != [] && ComplianceTopics != [] && DiversityTopics != [];
    assert SustainabilityTopics != [] && ServiceTopics != [] && TechnicalTopics != [];
  }

  /** Every municipal name has a visible first character. */
  lemma MunicipalNamesVisible()
    ensures forall m :: m in MunicipalOrgs ==> LastWord(Lower(m)).Some?
  {
    forall m | m in MunicipalOrgs
      ensures LastWord(Lower(m)).Some?
    {
      NamedCityHasWord(m);
    }
  }

  /** A generator made by the constructor never raises, whatever the draws. */
  lemma GenerationNeverRaises(g: ComprehensiveAILeadGenerator, extra: nat -> nat, picks: nat -> nat -> nat,
                              draws: nat -> nat -> Draw, dateIn: int -> string, today: string)
    requires g.municipalOrgs == MunicipalOrgs && g.trainingTypes == TrainingTypes
    requires g.budgetRanges == BudgetRanges && g.contactDomains == ContactDomains
    ensures GenerateAll(g.budgetRanges, g.contactDomains, g.trainingTypes, g.Orgs(), extra, picks, draws, dateIn, today).Ok?
  {
    TablesDrawable();
    MunicipalNamesVisible();
    MunicipalOrganizations(g.federalOrgs, g.provincialOrgs, g.municipalOrgs, g.crownCorps, g.indigenousOrgs, g.npoOrgs);
    AllOpportunitiesOk(g.budgetRanges, g.contactDomains, g.trainingTypes, g.Orgs(), extra, picks, draws, dateIn, today);
  }

  /** Each organization gets its count of opportunities, capped at the seven categories, each of a different category. */
  lemma OrgOpportunitiesOfTables(orgName: string, t: OrgType, count: nat, pick: nat -> nat, draws: nat -> Draw,
                                 dateIn: int -> string, today: string)
    requires OrgOpportunities(BudgetRanges, ContactDomains, TrainingTypes, orgName, t, count, pick, draws, dateIn, today).Ok?
    ensures var r := OrgOpportunities(BudgetRanges, ContactDomains, TrainingTypes, orgName, t, count, pick, draws,
                                      dateIn, today).value;
            |r| == Min(count, 7) && forall i, j :: 0 <= i < j < |r| ==> r[i].category != r[j].category
  {
    CategoriesOfTable();
    OrgOpportunitiesDistinctTypes(BudgetRanges, ContactDomains, TrainingTypes, orgName, t, count, pick, draws,
                                  dateIn, today);
  }
}
