/**
 * The comprehensive app's routes over the generated leads: the query-parameter filters
 * of `/api/leads`, the counters of `/api/stats`, and the statistics of the index page,
 * whose pipeline value reads each lead's budget range with the split chain.
 *
 * The leads are the generator's `Generated` records; a lead's dictionary entries are
 * its member functions. The clock's text enters as `now`.
 */
module ComprehensiveApp {
  import opened Wrappers
  import opened Strings
  import opened Collections
  import opened Tiers
  import opened Budget
  import opened ComprehensiveGenerator
  import opened ComprehensiveLeadGenerator
  import opened ComprehensiveCatalogue

  // ---------------------------------------------------------------------------
  // `/api/leads`
  // ---------------------------------------------------------------------------

  /** The query parameters `type`, `category`, `tier` and `search`, each possibly missing. */
  datatype Query = Query(orgType: Option<string>, category: Option<string>, tier: Option<string>,
                         search: Option<string>)

  /** `if v and v != 'all'`: the parameter is given, not empty and not 'all'. */
  predicate Active(v: Option<string>) {
    v.Some? && v.value != "" && v.value != "all"
  }

  /** `request.args.get('search', '').lower()`. */
  function SearchTerm(q: Query): string {
    Lower(q.search.GetOr(""))
  }

  /** The text the search looks in: organization, opportunity and description, joined by blanks. */
  function SearchText(l: Generated): string {
    l.organization + " " + l.Opportunity() + " " + l.Summary()
  }

  predicate TypeIs(l: Generated, t: string) {
    l.OrganizationType() == t
  }

  predicate CategoryIs(l: Generated, c: string) {
    l.TrainingType() == c
  }

  /** `tier in l['tier'].lower()`: the parameter as given, against the lowered label. */
  predicate TierHas(l: Generated, t: string) {
    Contains(Lower(l.TierLabel()), t)
  }

  predicate Mentions(l: Generated, term: string) {
    Contains(Lower(SearchText(l)), term)
  }

  function TypeTest(q: Query): Generated -> bool {
    (l: Generated) => TypeIs(l, q.orgType.GetOr(""))
  }

  function CategoryTest(q: Query): Generated -> bool {
    (l: Generated) => CategoryIs(l, q.category.GetOr(""))
  }

  function TierTest(q: Query): Generated -> bool {
    (l: Generated) => TierHas(l, q.tier.GetOr(""))
  }

  function SearchTest(q: Query): Generated -> bool {
    (l: Generated) => Mentions(l, SearchTerm(q))
  }

  /** The four rebindings of `filtered`, each applied only when its parameter is set. */
  function FilteredLeads(leads: seq<Generated>, q: Query): seq<Generated> {
    var byType := if Active(q.orgType) then Filter(leads, TypeTest(q)) else leads;
    var byCategory := if Active(q.category) then Filter(byType, CategoryTest(q)) else byType;
    var byTier := if Active(q.tier) then Filter(byCategory, TierTest(q)) else byCategory;
    if SearchTerm(q) != "" then Filter(byTier, SearchTest(q)) else byTier
  }

  /** A lead passes the query: it meets every filter whose parameter is set. */
  predicate Matches(q: Query, l: Generated) {
    (!Active(q.orgType) || TypeIs(l, q.orgType.GetOr("")))
    && (!Active(q.category) || CategoryIs(l, q.category.GetOr("")))
    && (!Active(q.tier) || TierHas(l, q.tier.GetOr("")))
    && (SearchTerm(q) == "" || Mentions(l, SearchTerm(q)))
  }

  /** A filter applied only when `b` holds is one filter by `!b || p`. */
  lemma FilterWhen<T>(s: seq<T>, b: bool, p: T -> bool, full: T -> bool)
    requires forall x :: full(x) == (!b || p(x))
    ensures (if b then Filter(s, p) else s) == Filter(s, full)
  {
    if b {
      FilterExt(s, p, full);
    } else {
      FilterAll(s, full);
    }
  }

  /** Four filters, each applied only when its condition holds, are one filter by their conjunction. */
  lemma FilterChain<T>(s: seq<T>, b1: bool, p1: T -> bool, b2: bool, p2: T -> bool, b3: bool, p3: T -> bool,
                       b4: bool, p4: T -> bool, all: T -> bool)
    requires forall x :: all(x) == ((!b1 || p1(x)) && (!b2 || p2(x)) && (!b3 || p3(x)) && (!b4 || p4(x)))
    ensures var s1 := if b1 then Filter(s, p1) else s;
            var s2 := if b2 then Filter(s1, p2) else s1;
            var s3 := if b3 then Filter(s2, p3) else s2;
            (if b4 then Filter(s3, p4) else s3) == Filter(s, all)
  {
    var t1 := (x: T) => !b1 || p1(x);
    var t2 := (x: T) => !b2 || p2(x);
    var t3 := (x: T) => !b3 || p3(x);
    var t4 := (x: T) => !b4 || p4(x);
    var t12 := (x: T) => t1(x) && t2(x);
    var t123 := (x: T) => t12(x) && t3(x);
    var s1 := if b1 then Filter(s, p1) else s;
    FilterWhen(s, b1, p1, t1);
    var s2 := if b2 then Filter(s1, p2) else s1;
    FilterWhen(s1, b2, p2, t2);
    FilterFilter(s, t1, t2, t12);
    var s3 := if b3 then Filter(s2, p3) else s2;
    FilterWhen(s2, b3, p3, t3);
    FilterFilter(s, t12, t3, t123);
    FilterWhen(s3, b4, p4, t4);
    FilterFilter(s, t123, t4, all);
  }

  /** The rebindings together are one filter by the whole query. */
  lemma FilteredLeadsIsOneFilter(leads: seq<Generated>, q: Query)
    ensures FilteredLeads(leads, q) == Filter(leads, (l: Generated) => Matches(q, l))
  {
    FilterChain(leads, Active(q.orgType), TypeTest(q), Active(q.category), CategoryTest(q), Active(q.tier),
                TierTest(q), SearchTerm(q) != "", SearchTest(q), (l: Generated) => Matches(q, l));
  }

  /** What `api_leads` returns, the time being `now`. */
  datatype LeadsResponse = LeadsResponse(leads: seq<Generated>, count: nat, total: nat, lastUpdate: string)

  function ApiLeads(all: seq<Generated>, q: Query, now: string): (r: LeadsResponse)
    ensures r.count == |r.leads| && r.total == |all| && r.count <= r.total
    ensures Subsequence(r.leads, all)
    ensures forall j :: 0 <= j < |r.leads| ==> Matches(q, r.leads[j])
    ensures forall i :: 0 <= i < |all| ==> (all[i] in r.leads <==> Matches(q, all[i]))
  {
    var filtered := FilteredLeads(all, q);
    FilteredLeadsIsOneFilter(all, q);
    FilterSpec(all, (l: Generated) => Matches(q, l));
    LeadsResponse(filtered, |filtered|, |all|, now)
  }

  /** A filter that is missing, empty or 'all' (and an empty search) leaves every lead in. */
  lemma NoFiltersKeepAll(all: seq<Generated>, q: Query, now: string)
    requires !Active(q.orgType) && !Active(q.category) && !Active(q.tier) && SearchTerm(q) == ""
    ensures ApiLeads(all, q, now).leads == all
  {
  }

  /** The tier parameter is matched against the lowered label, so one with a capital letter ("Tier 1") matches nothing. */
  lemma CapitalTierMatchesNothing(all: seq<Generated>, q: Query, now: string, k: nat)
    requires q.tier.Some? && k < |q.tier.value| && IsUpper(q.tier.value[k])
    ensures ApiLeads(all, q, now).leads == []
  {
    assert Active(q.tier) by {
      if q.tier.value == "all" {
        assert false;
      }
    }
    forall l: Generated
      ensures !Matches(q, l)
    {
      LowerMissesUpper(l.TierLabel(), q.tier.value, k);
    }
    FilteredLeadsIsOneFilter(all, q);
    FilterNone(all, (l: Generated) => Matches(q, l));
  }

  /** The lowered parameter "tier 1" selects exactly the urgent leads. */
  lemma LowerTierSelectsUrgent(all: seq<Generated>, q: Query, now: string)
    requires q == Query(None, None, Some("tier 1"), None)
    ensures forall i :: 0 <= i < |all| ==> (all[i] in ApiLeads(all, q, now).leads <==> all[i].Tier() == Urgent)
  {
    forall i | 0 <= i < |all|
      ensures Matches(q, all[i]) <==> all[i].Tier() == Urgent
    {
      LowerLabelTiers(all[i].Tier());
    }
  }

  // ---------------------------------------------------------------------------
  // The statistics of `/api/stats` and of the index page
  // ---------------------------------------------------------------------------

  predicate IsTier1(l: Generated) {
    Contains(l.TierLabel(), "Tier 1")
  }

  predicate IsTier2(l: Generated) {
    Contains(l.TierLabel(), "Tier 2")
  }

  predicate IsTier3(l: Generated) {
    Contains(l.TierLabel(), "Tier 3")
  }

  /** `by_tier`. */
  datatype TierCounts = TierCounts(tier1: nat, tier2: nat, tier3: nat)

  function TierCountsOf(leads: seq<Generated>): TierCounts {
    TierCounts(CountWhere(leads, IsTier1), CountWhere(leads, IsTier2), CountWhere(leads, IsTier3))
  }

  /** Each label names exactly one tier, so the three counts add up to the number of leads. */
  lemma {:induction false} TierCountsTotal(leads: seq<Generated>)
    ensures TierCountsOf(leads).tier1 + TierCountsOf(leads).tier2 + TierCountsOf(leads).tier3 == |leads|
    ensures TierCountsOf(leads).tier1 == CountWhere(leads, (l: Generated) => l.Tier() == Urgent)
  {
    if leads != [] {
      var init := leads[..|leads| - 1];
      TierCountsTotal(init);
      LabelTiers(leads[|leads| - 1].Tier());
    }
  }

  /**
   * `sum(float(l['budget_range']....) for l in leads)` with the budget read `read`:
   * the first lead whose read raises makes the whole sum raise.
   */
  function PipelineSum(leads: seq<Generated>, read: string -> Result<real>): (r: Result<real>)
    ensures r.Ok? <==> forall i :: 0 <= i < |leads| ==> read(leads[i].budget).Ok?
    ensures leads == [] ==> r == Ok(0.0)
    ensures r.Ok? && leads != [] ==> r.value == PipelineSum(leads[..|leads| - 1], read).value + read(leads[|leads| - 1].budget).value
  {
    if leads == [] then Ok(0.0)
    else
      var init := leads[..|leads| - 1];
      var before :- PipelineSum(init, read);
      var v :- read(leads[|leads| - 1].budget);
      assert forall i :: 0 <= i < |init| ==> init[i] == leads[i];
      Ok(before + v)
  }

  /** The sum over two lists of leads is the sum of their sums; a single lead contributes its read budget. */
  lemma {:induction false} PipelineSumAppend(a: seq<Generated>, b: seq<Generated>, read: string -> Result<real>)
    requires PipelineSum(a + b, read).Ok?
    ensures PipelineSum(a, read).Ok? && PipelineSum(b, read).Ok?
    ensures PipelineSum(a + b, read).value == PipelineSum(a, read).value + PipelineSum(b, read).value
    decreases |b|
  {
    if b == [] {
      assert a + b == a;
    } else {
      var init := b[..|b| - 1];
      assert (a + b)[..|a + b| - 1] == a + init;
      assert (a + b)[|a + b| - 1] == b[|b| - 1];
      PipelineSumAppend(a, init, read);
    }
  }

  function ConfidenceTotal(leads: seq<Generated>): real {
    if leads == [] then 0.0 else ConfidenceTotal(leads[..|leads| - 1]) + leads[|leads| - 1].draw.confidence
  }

  function OrgTypeOf(l: Generated): string {
    l.OrganizationType()
  }

  function CategoryOf(l: Generated): string {
    l.TrainingType()
  }

  /** What `api_stats` returns; budgets and confidences are reals rather than floats. */
  datatype ApiStats = ApiStats(
    totalOpportunities: nat, byTier: TierCounts, byType: map<string, nat>, byCategory: map<string, nat>,
    totalPipelineValue: real, averageConfidence: real)

  /**
   * `api_stats` with the budget read `read`. The dictionary is built before the loops:
   * the pipeline sum raises first, then the average divides by the length of an empty list.
   */
  function ApiStatsWith(leads: seq<Generated>, read: string -> Result<real>): (r: Result<ApiStats>)
    ensures r.Ok? <==> leads != [] && PipelineSum(leads, read).Ok?
    ensures PipelineSum(leads, read).Ok? && leads == [] ==> r == Err(ZeroDivisionError)
    ensures r.Ok? ==> r.value.totalOpportunities == |leads| && r.value.byTier == TierCountsOf(leads)
    ensures r.Ok? ==> r.value.byType == AddCounts(map[], leads, OrgTypeOf)
                      && r.value.byCategory == AddCounts(map[], leads, CategoryOf)
    ensures r.Ok? ==> r.value.totalPipelineValue == PipelineSum(leads, read).value
                      && r.value.averageConfidence == ConfidenceTotal(leads) / (|leads| as real)
  {
    var pipeline :- PipelineSum(leads, read);
    if leads == [] then Err(ZeroDivisionError)
    else
      Ok(ApiStats(|leads|, TierCountsOf(leads), AddCounts(map[], leads, OrgTypeOf),
                  AddCounts(map[], leads, CategoryOf), pipeline, ConfidenceTotal(leads) / (|leads| as real)))
  }

  /** `api_stats`, the budgets read as intended; the counting loops fill both maps in one pass. */
  method ApiStatsRoute(leads: seq<Generated>) returns (r: Result<ApiStats>)
    ensures r == ApiStatsWith(leads, UpperBound)
  {
    var pipeline := PipelineSum(leads, UpperBound);
    if pipeline.Err? {
      return Err(pipeline.error);
    }
    if leads == [] {
      return Err(ZeroDivisionError);
    }
    var byType: map<string, nat> := map[];
    var byCategory: map<string, nat> := map[];
    for i := 0 to |leads|
      invariant byType == AddCounts(map[], leads[..i], OrgTypeOf)
      invariant byCategory == AddCounts(map[], leads[..i], CategoryOf)
    {
      byType := CountNext(byType, map[], leads, OrgTypeOf, i);
      byCategory := CountNext(byCategory, map[], leads, CategoryOf, i);
    }
    assert leads[..|leads|] == leads;
    r := Ok(ApiStats(|leads|, TierCountsOf(leads), byType, byCategory, pipeline.value,
                     ConfidenceTotal(leads) / (|leads| as real)));
  }

  /** The organization type names and the category names, each once. */
  const TypeNames: seq<string> := ["federal", "provincial", "municipal", "crown", "indigenous", "npo"]

  const CategoryNames: seq<string> :=
    ["Digital Transformation", "Leadership Development", "Compliance and Regulatory", "Diversity and Inclusion",
     "Sustainability and Climate", "Service Excellence", "Technical Skills"]

  lemma TypeNamesDistinct()
    ensures Distinct(TypeNames)
  {
  }

  lemma CategoryNamesDistinct()
    ensures Distinct(CategoryNames)
  {
  }

  lemma TypeNameListed(t: OrgType)
    ensures TypeName(t) in TypeNames
  {
  }

  lemma CategoryNameListed(c: Category)
    ensures CategoryName(c) in CategoryNames
  {
  }

  /** Each lead counts once under its type, so the `by_type` values add up to the number of leads. */
  lemma ByTypeTotal(leads: seq<Generated>)
    ensures SumValues(AddCounts(map[], leads, OrgTypeOf), TypeNames) == |leads|
  {
    forall i | 0 <= i < |leads|
      ensures OrgTypeOf(leads[i]) in TypeNames
    {
      TypeNameListed(leads[i].orgType);
    }
    TypeNamesDistinct();
    CountsTotal(map[], leads, OrgTypeOf, TypeNames);
  }

  /** Likewise for `by_category`. */
  lemma ByCategoryTotal(leads: seq<Generated>)
    ensures SumValues(AddCounts(map[], leads, CategoryOf), CategoryNames) == |leads|
  {
    forall i | 0 <= i < |leads|
      ensures CategoryOf(leads[i]) in CategoryNames
    {
      CategoryNameListed(leads[i].category);
    }
    CategoryNamesDistinct();
    CountsTotal(map[], leads, CategoryOf, CategoryNames);
  }

  /** Python's `int(x)`: truncation toward zero. */
  function Truncate(x: real): (n: int)
    ensures x >= 0.0 ==> n as real <= x < n as real + 1.0
    ensures x < 0.0 ==> n as real - 1.0 < x <= n as real
  {
    if x >= 0.0 then x.Floor else -((-x).Floor)
  }

  predicate IsFederalLead(l: Generated) {
    l.OrganizationType() == "federal"
  }

  /** The statistics of the index page. */
  datatype IndexStats = IndexStats(total: nat, urgent: nat, highPriority: nat, federal: nat, totalValue: real,
                                   avgConfidence: int)

  /** `index` with the budget read `read`: the value sum raises first, then the average on no leads. */
  function IndexStatsWith(leads: seq<Generated>, read: string -> Result<real>): (r: Result<IndexStats>)
    ensures r.Ok? <==> leads != [] && PipelineSum(leads, read).Ok?
    ensures r.Ok? ==> r.value.urgent + r.value.highPriority <= r.value.total == |leads|
    ensures r.Ok? ==> r.value.urgent == CountWhere(leads, IsTier1) && r.value.highPriority == CountWhere(leads, IsTier2)
                      && r.value.federal == CountWhere(leads, IsFederalLead)
    ensures r.Ok? ==> r.value.totalValue == PipelineSum(leads, read).value
                      && r.value.avgConfidence == Truncate(100.0 * ConfidenceTotal(leads) / (|leads| as real))
  {
    var value :- PipelineSum(leads, read);
    if leads == [] then Err(ZeroDivisionError)
    else
      TierCountsTotal(leads);
      Ok(IndexStats(|leads|, CountWhere(leads, IsTier1), CountWhere(leads, IsTier2), CountWhere(leads, IsFederalLead),
                    value, Truncate(100.0 * ConfidenceTotal(leads) / (|leads| as real))))
  }

  // ---------------------------------------------------------------------------
  // The budget read on the generated leads
  // ---------------------------------------------------------------------------

  /** As written, both statistics raise on any leads whose budgets come from the generator's table, an empty list included. */
  lemma StatsAsWrittenAlwaysRaise(leads: seq<Generated>)
    requires BudgetsIn(leads, BudgetRanges)
    ensures ApiStatsWith(leads, UpperBoundAsWritten).Err?
    ensures IndexStatsWith(leads, UpperBoundAsWritten).Err?
  {
    BudgetRangesAsWritten();
    if leads != [] {
      assert !UpperBoundAsWritten(leads[0].budget).Ok?;
    }
  }

  /** Read as intended, the same leads give statistics whenever there are any. */
  lemma StatsIntended(leads: seq<Generated>)
    requires BudgetsIn(leads, BudgetRanges) && leads != []
    ensures ApiStatsWith(leads, UpperBound).Ok?
    ensures IndexStatsWith(leads, UpperBound).Ok?
  {
    BudgetRangesIntended();
    forall i | 0 <= i < |leads|
      ensures UpperBound(leads[i].budget).Ok?
    {
      var j :| 0 <= j < |BudgetRanges| && BudgetRanges[j] == leads[i].budget;
    }
  }

  /** The app's leads, generated on start-up by a generator the constructor made, have budgets from the table. */
  lemma AppLeadsBudgets(g: ComprehensiveAILeadGenerator, extra: nat -> nat, picks: nat -> nat -> nat,
                        draws: nat -> nat -> Draw, dateIn: int -> string, today: string)
    requires g.municipalOrgs == MunicipalOrgs && g.trainingTypes == TrainingTypes
    requires g.budgetRanges == BudgetRanges && g.contactDomains == ContactDomains
    ensures GenerateAll(g.budgetRanges, g.contactDomains, g.trainingTypes, g.Orgs(), extra, picks, draws, dateIn, today).Ok?
    ensures BudgetsIn(GenerateAll(g.budgetRanges, g.contactDomains, g.trainingTypes, g.Orgs(), extra, picks, draws,
                                  dateIn, today).value, BudgetRanges)
  {
    GenerationNeverRaises(g, extra, picks, draws, dateIn, today);
    GenerateAllBudgets(g.budgetRanges, g.contactDomains, g.trainingTypes, g.Orgs(), extra, picks, draws, dateIn, today);
  }
}
