# leadgen — a verified model of the lead-generation core

leadgen collects training and consulting opportunities from Canadian public-sector bodies, then rates and serves them. It has four strands:

- A family of scrapers (`scraper.py`, `enhanced_real_scraper.py`, `api_real_scraper.py`, `advanced_scraper_example.py`). They turn feeds, search hits and fixed program tables into lead records.
- Two generators (`ai_scraper.py`, `comprehensive_ai_scraper.py`). They build simulated opportunities by rule and attach a tier, a budget reading, a competition text, requirements and contacts.
- A sales dashboard (`advanced_sales_dashboard.py`). It scores each opportunity from 50 to 100, derives insights, and aggregates statistics and analytics.
- Small Flask servers (`main.py`, `main_ai.py`, `main_test.py`, `comprehensive_app.py`). They keep a cache of leads, refresh it, and answer list, statistics and health requests.

This project restates those rules in Dafny and proves what each one promises. That includes:

- tier rules as first-match chains, with both directions of each condition;
- the score bounds;
- de-duplication that keeps the first record per key;
- orderings by (tier rank, deadline) or by score;
- counting maps whose values add up to the number of leads;
- the cache's replace-on-success / keep-on-failure behaviour.

The shared budget idiom `budget.split('$')[1].split('M')[0].split('-')[1]` is modelled as a `Result`. The model shows that it raises on every `"$aM - $bM"` budget (`Budget.AsWrittenFailsOnRange`). As a result:

- each of the AI finder's five simulated results has a budget of that shape, so analysing it raises (`AiScraper.AnalyzeAsWrittenFailsOnRange`). Once any such result passes the confidence filter, `find_all_opportunities` raises (`AiScraper.FindAllAsWrittenFails`), and the `main_ai.py` cache then stays empty;
- the statistics routes of `comprehensive_app.py` fail on any leads whose budgets come from the generator's table (`ComprehensiveApp.StatsAsWrittenAlwaysRaise`);
- `comprehensive_ai_scraper.py` reads every budget of its table as the default value 5 (`ComprehensiveCatalogue.BudgetRangesAsWritten`).

The rest of the model uses the evidently intended reading of that idiom. The as-written readings stay beside the corrected ones, which are used in three places:

- the AI finder's constructor sets its budget reader `readValue` to `DollarValue`;
- `ComprehensiveGenerator.Generated.CompetitiveLandscape` reads the budget with `BudgetValue`;
- the comprehensive statistics read it with `UpperBound`.

The sales dashboard's analytics likewise use the corrected top list, the five best-scoring records (`SalesDashboard.TopByScore`), where the source takes the first five of the unsorted list.

See "## Findings".

Modelling conventions:

- Strings are `seq<char>`. Substring tests are `Strings.Contains`, and lower-casing is ASCII only.
- Python exceptions are `Wrappers.Error` values inside a `Result`.
- The network, the clock, randomness, the environment and the fetch libraries are parameters: feeds and search hits arrive already parsed, and dates are day numbers together with a function giving their text.
- Sorting is `Ordering.SortBy`, an insertion sort on sequences. It is proved sorted and a permutation of its input.
- De-duplication is `Collections.DedupBy`, which keeps the first record of each key in input order.

Imperative code keeps its shape:

- The scrapers that append to `self.opportunities` are classes with `modifies` clauses.
- The leads cache is a generic class `LeadServers.LeadsCache`.
- The dashboard's globals are the class `SalesDashboard.Dashboard`.
- Loops are methods with invariants, proved against the functions that specify them.

## Model

| member | source | states |
|---|---|---|
| Tiers.TierRank | app/ai_scraper.py:357-360 | the sort key's rank is 0 exactly when the tier text contains "Tier 1", 1 exactly when it does not but contains "Tier 2", and 2 exactly when it contains neither |
| Tiers.RankOfLabel | app/ai_scraper.py:357-360 | reading the rank back from a tier label gives that tier's position in priority order |
| Tiers.TierDeadlineKey | app/comprehensive_ai_scraper.py:237-240 | the (tier rank, deadline) sort key ranks the tier by its label text |
| Tiers.UrgentFirst | app/comprehensive_ai_scraper.py:237-240 | under the (tier rank, deadline) order every "Tier 1" lead comes before every lead whose tier lacks "Tier 1" |
| Tiers.LabelTiers | app/ai_scraper.py:357-360 | each tier label holds "Tier n" for its own n and for no other, so the substring sort key cannot mis-rank a label |
| Tiers.LowerLabelTiers | app/comprehensive_app.py:730 | a lowered tier label holds "tier n" for its own n only |
| Budget.ParseFloat | app/ai_scraper.py:166-170 | `float()` of the stripped text on unsigned decimal literals: it succeeds iff the text is one, gives a non-negative value, and raises ValueError otherwise (weaker than Python, see "## Left out") |
| Budget.ParseFloatRoundTrip | app/ai_scraper.py:166-170 | parsing the decimal text of a natural number gives that number back |
| Budget.UpperBoundAsWritten | app/ai_scraper.py:168 | the idiom as written raises IndexError on any budget without '$' |
| Budget.AsWrittenFailsOnRange | app/ai_scraper.py:168 | the idiom as written raises IndexError on every "$aM - $bM" budget |
| Budget.AsWrittenFailsOnThousands | app/comprehensive_ai_scraper.py:340 | on a "$aK - $bM" budget the idiom as written reaches `float(' ')` and raises ValueError |
| Budget.AsWrittenReadsCompactRange | app/ai_scraper.py:168 | the idiom as written reads the upper bound only when there is no space or second '$' ("$a-bM") |
| Budget.UpperBound | app/ai_scraper.py:166-170 | the corrected reading raises IndexError when there is no '-', and any value it reads is non-negative |
| Budget.UpperBoundOfRange | app/ai_scraper.py:166-170 | the corrected reading of "$aM - $bM" is b |
| Budget.DollarValueAsWritten | app/ai_scraper.py:166-170 | the budget value as written is 0 for a budget without '$' |
| Budget.DollarValue | app/ai_scraper.py:166-170 | the corrected budget value is 0 without '$' and the corrected upper bound otherwise |
| RealOpportunity.FromEntry | app/enhanced_real_scraper.py:46-57 | the record built from a feed entry keeps at most 200 characters of its summary |
| RealOpportunity.FeedRecords | app/enhanced_real_scraper.py:44-57 | a feed never contributes more records than it has entries |
| RealOpportunity.FeedRecordsExact | app/enhanced_real_scraper.py:44-57 | a record comes from a feed exactly when some entry's lowered title holds a keyword and the record is built from that entry |
| RealOpportunity.FeedRecordsShape | app/enhanced_real_scraper.py:46-57 | every feed record is a Government of Canada record of the feed's source and type, with budget "See tender document" |
| RealOpportunity.ReadFeed | app/enhanced_real_scraper.py:44-57 | the entry loop returns the records of the matching entries, in entry order |
| RealOpportunity.RssRecordsStep | app/enhanced_real_scraper.py:19-59 | one more feed adds its matching entries among the first `limit`, or nothing when its fetch raised |
| RealOpportunity.RssAllFailed | app/enhanced_real_scraper.py:19-59 | a run in which every feed fetch raised collects nothing |
| RealOpportunity.Format | app/enhanced_real_scraper.py:585-614 | the tier is "Tier 1" exactly when the lowered type holds "federal" and "Tier 2" otherwise; there are four next steps, the first naming the url |
| RealOpportunity.FormatRoundTrip | app/enhanced_real_scraper.py:585-614 | formatting copies every raw field verbatim: the raw record can be read back from the display record |
| RealOpportunity.FormatAll | app/enhanced_real_scraper.py:643 | the display list formats each record in place and has the same length |
| RealOpportunity.FederalPrefixTier1 | app/api_real_scraper.py:313 | a type starting with "Federal" in any case gives "Tier 1" |
| EnhancedRealScraper.ProvincialRecords | app/enhanced_real_scraper.py:208-221 | the nested province loop yields exactly one record per listed grant |
| EnhancedRealScraper.EnhancedRealOpportunityScraper.constructor | app/enhanced_real_scraper.py:13-14 | a new scraper starts with an empty list and the fixed program tables |
| EnhancedRealScraper.EnhancedRealOpportunityScraper.AppendRecords | app/enhanced_real_scraper.py:286-298 | the append loop adds one record per row, in row order, after the existing records |
| EnhancedRealScraper.EnhancedRealOpportunityScraper.SearchCanadaRssFeeds | app/enhanced_real_scraper.py:19-59 | appends, feed by feed, the matching entries among the first 30 of each fetched feed; a feed whose fetch raised adds nothing |
| EnhancedRealScraper.EnhancedRealOpportunityScraper.SearchFederalPrograms | app/enhanced_real_scraper.py:286-298 | appends one record per federal program and keeps the existing records |
| EnhancedRealScraper.EnhancedRealOpportunityScraper.SearchAllProvincialPrograms | app/enhanced_real_scraper.py:208-221 | appends one record per provincial grant, province after province |
| EnhancedRealScraper.EnhancedRealOpportunityScraper.SearchIndigenousPrograms | app/enhanced_real_scraper.py:349-361 | appends one record per Indigenous program |
| EnhancedRealScraper.EnhancedRealOpportunityScraper.SearchSectorSpecificPrograms | app/enhanced_real_scraper.py:453-465 | appends one record per sector program |
| EnhancedRealScraper.EnhancedRealOpportunityScraper.SearchCurrentRfpsAndTenders | app/enhanced_real_scraper.py:522-534 | appends one record per listed tender |
| EnhancedRealScraper.EnhancedRealOpportunityScraper.SearchNonprofitAndFoundationPrograms | app/enhanced_real_scraper.py:571-583 | appends one record per foundation program |
| EnhancedRealScraper.EnhancedRealOpportunityScraper.SearchTables | app/enhanced_real_scraper.py:626-632 | the six table searches append their records in the order they run |
| EnhancedRealScraper.EnhancedRealOpportunityScraper.CollectAll | app/enhanced_real_scraper.py:623-632 | the list is cleared first, so a run holds only its own records: the feeds' records, then the tables' |
| EnhancedRealScraper.EnhancedRealOpportunityScraper.GetAllRealOpportunities | app/enhanced_real_scraper.py:616-648 | returns the formatted first record of each collected title, in order |
| EnhancedRealScraper.AllRealOpportunitiesUnique | app/enhanced_real_scraper.py:635-643 | no title repeats in the result, and each result is the formatted first collected record of its title |
| ApiRealScraper.ApiRealOpportunityScraper.constructor | app/api_real_scraper.py:13-14 | a new scraper starts with an empty list and the fixed tables |
| ApiRealScraper.ApiRealOpportunityScraper.SearchCanadaRssFeeds | app/api_real_scraper.py:19-50 | appends the matching entries among the first 20 of each fetched feed; a raised fetch adds nothing |
| ApiRealScraper.ApiRealOpportunityScraper.SearchCanadaOpenData | app/api_real_scraper.py:89-101 | appends one record per open-data program |
| ApiRealScraper.ApiRealOpportunityScraper.SearchProvincialOpportunities | app/api_real_scraper.py:145-157 | appends one record per provincial program |
| ApiRealScraper.ApiRealOpportunityScraper.SearchIndigenousPrograms | app/api_real_scraper.py:187-199 | appends one record per Indigenous program |
| ApiRealScraper.ApiRealOpportunityScraper.SearchSectorSpecificTraining | app/api_real_scraper.py:240-252 | appends one record per sector program |
| ApiRealScraper.ApiRealOpportunityScraper.SearchCurrentRfps | app/api_real_scraper.py:286-298 | appends one record per listed RFP |
| ApiRealScraper.ApiRealOpportunityScraper.SearchTables | app/api_real_scraper.py:341-346 | the five table searches append their records in the order they run |
| ApiRealScraper.ApiRealOpportunityScraper.GetAllRealOpportunities | app/api_real_scraper.py:331-354 | clears the list, collects everything and formats every record with no de-duplication |
| ApiRealScraper.AllRealOpportunitiesCount | app/api_real_scraper.py:338-349 | the result has one display record per feed record and per table row |
| ApiRealScraper.AllRealOpportunitiesInOrder | app/api_real_scraper.py:349 | each display record formats the collected record in the same position |
| AiScraper.GenerateAiResults | app/ai_scraper.py:59-132 | the simulated search returns at most one result per rule |
| AiScraper.GenerateAiResultsExact | app/ai_scraper.py:59-132 | a result is returned exactly when its rule's phrase occurs in the lowered query |
| AiScraper.TierFor | app/ai_scraper.py:172-177 | Tier 1 iff days ≤ 45 or value ≥ 10; Tier 3 iff days > 90 and value < 5; Tier 2 otherwise |
| AiScraper.TierForMonotone | app/ai_scraper.py:172-177 | a sooner deadline or a larger budget never gives a lower-priority tier |
| AiScraper.Competition | app/ai_scraper.py:249-254 | high competition iff value ≥ 10, low iff value < 5, medium otherwise |
| AiScraper.HighCompetitionIsUrgent | app/ai_scraper.py:172-177 | a budget that draws high competition is always Tier 1 |
| AiScraper.WinPercent | app/ai_scraper.py:256-275 | the win percentage is the linear estimate from confidence and urgency, capped at 75 |
| AiScraper.Band | app/ai_scraper.py:256-275 | the band is High iff the percentage ≥ 60 and Low iff < 40 |
| AiScraper.WinEstimateNeverHigh | app/ai_scraper.py:256-275 | with confidence at most 1 the estimate is at most 50 (40 when not urgent), so it is never High |
| AiScraper.BuyerOf | app/ai_scraper.py:179-209 | the next steps address a federal buyer iff the organisation names the Government of Canada, and a municipal one iff it names neither that nor Ontario nor British Columbia |
| AiScraper.OfficeOf | app/ai_scraper.py:211-239 | the decision makers are chosen by the first of Treasury Board, Ontario Public Service and City of Toronto that the organisation names, else the generic list |
| AiScraper.Lead.NextSteps | app/ai_scraper.py:179-209 | the federal playbook when the organisation names the Government of Canada; otherwise the provincial one when it names Ontario or British Columbia; otherwise the municipal one |
| AiScraper.Lead.DecisionMakers | app/ai_scraper.py:211-239 | the named roles of the first of Treasury Board, Ontario Public Service and City of Toronto the organisation names, else the generic roles |
| AiScraper.Lead.CompetitiveLandscape | app/ai_scraper.py:241-254 | the high-competition text from an upper end of 10, the medium one from 5 to 10, the low one below 5 |
| AiScraper.Lead.WinProbability | app/ai_scraper.py:256-275 | capped at 75%; High iff ≥ 60%, Low iff < 40%; with confidence at most 1 never High, and at most 50% (40% when not urgent) |
| AiScraper.Lead.KeyRequirements | app/ai_scraper.py:277-297 | at most seven texts, one per requirement the lowered description calls for, in the table's order; a text is listed iff its requirement is called for; the two standing texts always |
| AiScraper.RequirementTexts | app/ai_scraper.py:277-297 | the requirement texts of a description are exactly the texts of the requirements it calls for, at most seven, in the table's order |
| AiScraper.Lead.TrainingType | app/ai_scraper.py:299-316 | Digital Skills Training iff the text says "digital" or "technology" or has "ai" as a word (the corrected test, see "## Left out") |
| AiScraper.ExtractRequirements | app/ai_scraper.py:277-297 | there are at most seven requirements |
| AiScraper.RequirementsExactly | app/ai_scraper.py:283-297 | a requirement appears exactly when the lowered description calls for it; the two fixed items are always present; items keep source order |
| AiScraper.CategoryOfTextAsWritten | app/ai_scraper.py:299-316 | as written, the result is Digital Skills iff the text holds "digital", "technology" or "ai" anywhere |
| AiScraper.CategoryAfterDigital | app/ai_scraper.py:305-316 | the remaining chain picks the first matching group and falls back to Professional Development exactly when no group matches |
| AiScraper.TrainingIsDigitalAsWritten | app/ai_scraper.py:303 | as written, any text containing "training" is Digital Skills |
| AiScraper.CategorizeTrainingAsWritten | app/ai_scraper.py:299-316 | as written, Digital Skills iff the lowered title and description hold "digital", "technology" or "ai"; so always when they mention "training" |
| AiScraper.CategorizeTraining | app/ai_scraper.py:299-316 | as intended, Digital Skills iff "digital" or "technology" occurs or "ai" is a word; otherwise the remaining first-match chain decides |
| AiScraper.CategoryOfText | app/ai_scraper.py:299-316 | the corrected test is Digital Skills iff "digital" or "technology" occurs or "ai" occurs as a word; otherwise the remaining chain decides |
| AiScraper.CategoriesAgreeOnWords | app/ai_scraper.py:299-316 | both versions agree on every text in which "ai" occurs only as a word, or not at all |
| AiScraper.LeadershipTrainingDiffers | app/ai_scraper.py:303-306 | leadership training text is Digital Skills as written and Leadership Development as intended |
| AiScraper.Analyze | app/ai_scraper.py:134-158 | analysis succeeds iff the budget reading succeeds, passes its error through, and rates the tier from the days left and the budget value |
| AiScraper.AnalyzeAsWrittenFailsOnRange | app/ai_scraper.py:166-170 | with the budget idiom as written, analysing any "$aM - $bM" result raises IndexError |
| AiScraper.AnalyzeReadsRange | app/ai_scraper.py:166-170 | with the corrected reading, the analysed budget value of "$aM - $bM" is b |
| AiScraper.Answers | app/ai_scraper.py:330-346 | one answer list per query |
| AiScraper.AnswersAt | app/ai_scraper.py:330-346 | the answer for query i is the simulated search of that query |
| AiScraper.CandidatesConfident | app/ai_scraper.py:341 | every candidate has confidence at least 0.8 |
| AiScraper.CandidatesExact | app/ai_scraper.py:341 | a result is a candidate exactly when it is confident and some query returned it |
| AiScraper.AnalyzeAll | app/ai_scraper.py:330-346 | a successful analysis keeps one lead per result, each the analysis of that result |
| AiScraper.AnalyzeAllOk | app/ai_scraper.py:330-346 | analysing a list succeeds iff every budget in it can be read |
| AiScraper.AnalyzeAllStops | app/ai_scraper.py:330-346 | once an analysis raises, later results do not change the outcome |
| AiScraper.LeadOrderIsSourceKey | app/ai_scraper.py:357-360 | the order used is the source's (tier rank, deadline) key |
| AiScraper.FindAll | app/ai_scraper.py:318-366 | succeeds iff every candidate's budget can be read; the result is sorted by (tier rank, deadline) and is a permutation of the first lead per (organisation, opportunity) |
| AiScraper.SearchStops | app/ai_scraper.py:330-346 | the first raised analysis is the error of the whole search |
| AiScraper.FindAllUnique | app/ai_scraper.py:347-354 | no two leads in the result share their (organisation, opportunity) pair |
| AiScraper.FindAllConfident | app/ai_scraper.py:341 | every lead in the result has confidence at least 0.8 |
| AiScraper.FindAllAsWrittenFails | app/ai_scraper.py:166-170 | with the idiom as written, one unreadable candidate budget makes the whole search raise |
| AiFinder.AiTrainingOpportunityFinder.constructor | app/ai_scraper.py:15-41 | the finder holds the fixed search queries and the simulated-search rules, and reads a budget's upper end with the corrected `DollarValue` |
| AiFinder.AiTrainingOpportunityFinder.SearchWithAi | app/ai_scraper.py:44-57 | a result is returned iff some rule block that fires on the query gives it; at most one result per block |
| AiFinder.AiTrainingOpportunityFinder.AnalyzeResults | app/ai_scraper.py:339-346 | analyses the confident results of one query, stopping at the first error |
| AiFinder.AiTrainingOpportunityFinder.FindAllOpportunities | app/ai_scraper.py:318-366 | the query loop, dedup loop and sort compute exactly FindAll |
| AiExamples.LeadershipTrainingCategory | app/ai_scraper.py:303-306 | "leadership training " is Digital Skills as written and Leadership Development as intended |
| ComprehensiveGenerator.Choice | app/comprehensive_ai_scraper.py:254 | `random.choice` succeeds iff the list is non-empty and returns one of its members; otherwise IndexError |
| ComprehensiveGenerator.TierFor | app/comprehensive_ai_scraper.py:270-275 | Tier 1 iff days ≤ 60 or federal; Tier 3 iff days > 120 and the org is not federal, provincial or crown |
| ComprehensiveGenerator.TierForMonotone | app/comprehensive_ai_scraper.py:270-275 | a sooner deadline never gives a lower-priority tier |
| ComprehensiveGenerator.ProvincialAndCrownAtLeastTier2 | app/comprehensive_ai_scraper.py:266-275 | within the drawn 30 to 180 days, provincial and crown opportunities are never Tier 3 |
| ComprehensiveGenerator.WinBandOf | app/comprehensive_ai_scraper.py:307-313 | the band is the strong one iff win_prob ≥ 70 and the partnership one iff < 50 |
| ComprehensiveGenerator.WinProbabilityText | app/comprehensive_ai_scraper.py:307-313 | the text starts with its band's word and embeds the probability |
| ComprehensiveGenerator.BudgetValueAsWritten | app/comprehensive_ai_scraper.py:339-342 | as written, a failed parse falls back to 5 and a successful one gives the parsed value |
| ComprehensiveGenerator.BudgetValue | app/comprehensive_ai_scraper.py:339-342 | the corrected reading falls back to 5 only when the corrected upper bound fails |
| ComprehensiveGenerator.BudgetOfRange | app/comprehensive_ai_scraper.py:339-342 | for every "$aM - $bM" range the value is 5 as written and b as intended |
| ComprehensiveGenerator.Competition | app/comprehensive_ai_scraper.py:344-349 | high iff value ≥ 10, low iff value < 5 |
| ComprehensiveGenerator.ContactPrefix | app/comprehensive_ai_scraper.py:281 | the contact prefix has at most 20 characters and no space or hyphen |
| ComprehensiveGenerator.CompactName | app/comprehensive_ai_scraper.py:299 | the compact domain name has at most 15 characters and no space or hyphen |
| ComprehensiveGenerator.DomainFor | app/comprehensive_ai_scraper.py:282-300 | federal: a drawn federal domain; provincial: the drawn domain of the first of Ontario, British Columbia, Alberta, Quebec/Québec the name mentions, else "gov.ca"; municipal: the last word of the lowered name plus ".ca", failing when there is none; other kinds: the compact name plus ".ca" |
| ComprehensiveGenerator.CategoryRequirements | app/comprehensive_ai_scraper.py:352-366 | Digital Transformation adds technical expertise and change management, Compliance and Regulatory adds regulatory knowledge and certification, Diversity and Inclusion adds DEI expertise and cultural sensitivity, each iff; every other category adds nothing; never the bilingual item |
| ComprehensiveGenerator.KeyRequirements | app/comprehensive_ai_scraper.py:352-366 | the three standing items first, then the bilingual item iff the organisation is federal or its name mentions Quebec/Québec, then the category's items last; 3 + bilingual + category's items in all |
| ComprehensiveGenerator.NextSteps | app/comprehensive_ai_scraper.py:369-375 | exactly five steps, the first reviewing the organisation's priorities |
| ComprehensiveGenerator.DecisionMakers | app/comprehensive_ai_scraper.py:378-398 | the federal roles iff the type is federal, the provincial roles iff provincial, the municipal/other roles iff neither; four roles each |
| ComprehensiveGenerator.Description | app/comprehensive_ai_scraper.py:319-327 | every category's description names the lowered topic and the organisation |
| ComprehensiveGenerator.Analysis | app/comprehensive_ai_scraper.py:330-336 | the second of the five analyses names the organisation type's experience |
| ComprehensiveGenerator.CreateOpportunity | app/comprehensive_ai_scraper.py:262-421 | succeeds iff the budget table is non-empty and the domain can be chosen; the record carries the organisation, type, category, topic, drawn deadline, a budget from the table and the chosen domain |
| ComprehensiveGenerator.Generated.Source | app/comprehensive_ai_scraper.py:405 | the domain's site followed by the lowered topic with no blank, as long as the two together plus the fixed 13 characters |
| ComprehensiveGenerator.Generated.Contact | app/comprehensive_ai_scraper.py:281-301 | at most twenty characters with no blank or hyphen, then "@" and the domain |
| ComprehensiveGenerator.Generated.CompetitiveLandscape | app/comprehensive_ai_scraper.py:338-349 | the high-competition text from an upper end of 10, the medium one from 5 to 10, the low one below 5, on the corrected budget reading |
| ComprehensiveGenerator.Generated.Requirements | app/comprehensive_ai_scraper.py:352-366 | one text per item of KeyRequirements, in its order |
| ComprehensiveGenerator.Generated.Summary | app/comprehensive_ai_scraper.py:404 | the description names the lowered topic and the organisation |
| ComprehensiveGenerator.Generated.CriticalAnalysis | app/comprehensive_ai_scraper.py:413 | the drawn analysis; the second names the organisation type's experience |
| ComprehensiveGenerator.TopicsOf | app/comprehensive_ai_scraper.py:254 | looking up a category's topics succeeds iff the category is in the table, else KeyError |
| ComprehensiveGenerator.SampledCategories | app/comprehensive_ai_scraper.py:249 | the sample has min(count, table size) categories, all from the table |
| ComprehensiveGenerator.CreateEach | app/comprehensive_ai_scraper.py:251-258 | a successful loop makes one opportunity per sampled category, for that organisation, with a budget from the table |
| ComprehensiveGenerator.CreateEachOk | app/comprehensive_ai_scraper.py:251-258 | with drawable tables, known categories and a municipal name that has a word, the loop never raises |
| ComprehensiveGenerator.CreateEachStops | app/comprehensive_ai_scraper.py:251-258 | the first raised opportunity is the loop's error |
| ComprehensiveGenerator.OrgOpportunities | app/comprehensive_ai_scraper.py:244-260 | a successful call returns min(count, table size) opportunities |
| ComprehensiveGenerator.OrgOpportunitiesDistinctTypes | app/comprehensive_ai_scraper.py:244-260 | with distinct table categories, no two of an organisation's opportunities share a training type |
| ComprehensiveGenerator.CountFor | app/comprehensive_ai_scraper.py:186-231 | every organisation asks for at least one opportunity |
| ComprehensiveGenerator.AllOpportunitiesBudgets | app/comprehensive_ai_scraper.py:177-236 | every generated budget comes from the budget table |
| ComprehensiveGenerator.AllOpportunitiesStops | app/comprehensive_ai_scraper.py:177-236 | the first organisation that raises decides the error |
| ComprehensiveGenerator.AllOpportunitiesOk | app/comprehensive_ai_scraper.py:177-236 | with drawable tables and municipal names that have a word, generation never raises |
| ComprehensiveGenerator.ProvincialNamedAreProvincial | app/comprehensive_ai_scraper.py:196 | every organisation drawn from the provincial table is typed provincial |
| ComprehensiveGenerator.MunicipalOrganizations | app/comprehensive_ai_scraper.py:205 | every municipal organisation comes from the municipal table |
| ComprehensiveGenerator.GeneratedOrderIsSourceKey | app/comprehensive_ai_scraper.py:237-240 | the order used is the source's (tier rank, deadline) key |
| ComprehensiveGenerator.GenerateAll | app/comprehensive_ai_scraper.py:177-242 | succeeds iff every organisation's generation succeeds; the result is sorted by (tier rank, deadline) and is a permutation of what was generated |
| ComprehensiveGenerator.GenerateAllBudgets | app/comprehensive_ai_scraper.py:177-242 | every budget in the sorted result comes from the budget table |
| ComprehensiveGenerator.FederalFirst | app/comprehensive_ai_scraper.py:237-240 | in the sorted list every federal opportunity precedes every opportunity that is not Tier 1 |
| ComprehensiveLeadGenerator.ComprehensiveAILeadGenerator.constructor | app/comprehensive_ai_scraper.py:76-175 | the generator holds the fixed organisation, training-type, budget and domain tables |
| ComprehensiveLeadGenerator.ComprehensiveAILeadGenerator.GenerateOrgOpportunities | app/comprehensive_ai_scraper.py:244-260 | the per-organisation loop computes exactly OrgOpportunities over the generator's tables |
| ComprehensiveLeadGenerator.ComprehensiveAILeadGenerator.GenerateAllOpportunities | app/comprehensive_ai_scraper.py:177-242 | the loop over all organisations, followed by the sort, computes exactly GenerateAll |
| ComprehensiveCatalogue.RangeTableUpperEnds | app/comprehensive_ai_scraper.py:163-166 | the table has eight ranges; the last three top out at $10M or more and the first three below $5M |
| ComprehensiveCatalogue.BudgetRangesAsWritten | app/comprehensive_ai_scraper.py:339-349 | as written, every table budget fails to parse, its value is 5 and its competition text is always the medium one |
| ComprehensiveCatalogue.BudgetRangesIntended | app/comprehensive_ai_scraper.py:163-166 | under the corrected reading, every table budget reads as its range's upper end |
| ComprehensiveCatalogue.BudgetRangesCompetition | app/comprehensive_ai_scraper.py:344-349 | under the corrected reading the last three ranges draw high competition and the first three low |
| ComprehensiveCatalogue.CategoriesOfTable | app/comprehensive_ai_scraper.py:76-160 | the seven training types have seven distinct categories |
| ComprehensiveCatalogue.TablesDrawable | app/comprehensive_ai_scraper.py:163-175 | the budget and domain tables are never empty where a choice is drawn |
| ComprehensiveCatalogue.MunicipalNamesVisible | app/comprehensive_ai_scraper.py:295-297 | every municipal name lowers to text with a last word |
| ComprehensiveCatalogue.GenerationNeverRaises | app/comprehensive_ai_scraper.py:177-242 | over the fixed tables, generation always succeeds |
| ComprehensiveCatalogue.OrgOpportunitiesOfTables | app/comprehensive_ai_scraper.py:244-260 | over the fixed tables an organisation receives min(count, 7) opportunities of distinct training types |
| ComprehensiveApp.FilteredLeadsIsOneFilter | app/comprehensive_app.py:723-733 | the four optional filters in a row equal one filter by their conjunction |
| ComprehensiveApp.ApiLeads | app/comprehensive_app.py:713-740 | the result is a subsequence of all leads; a lead is kept exactly when it matches every filter given; count is the kept number and total the full number |
| ComprehensiveApp.NoFiltersKeepAll | app/comprehensive_app.py:723-733 | with no filter, or every filter 'all', every lead is returned |
| ComprehensiveApp.CapitalTierMatchesNothing | app/comprehensive_app.py:730 | a tier filter with a capital letter matches no lead, because it is tested against the lowered tier |
| ComprehensiveApp.LowerTierSelectsUrgent | app/comprehensive_app.py:730 | the filter "tier 1" keeps exactly the Tier 1 leads |
| ComprehensiveApp.TierCountsTotal | app/comprehensive_app.py:747-751 | the three tier counts add up to the number of leads, and the first counts the Tier 1 leads |
| ComprehensiveApp.PipelineSum | app/comprehensive_app.py:754-757 | the pipeline sum succeeds iff every budget can be read; it is 0 for no leads, and each further lead adds its budget's value |
| ComprehensiveApp.PipelineSumAppend | app/comprehensive_app.py:754-757 | the pipeline sum of two lists that can both be read is the sum of their sums |
| ComprehensiveApp.ApiStatsWith | app/comprehensive_app.py:742-769 | the statistics succeed iff there are leads and every budget can be read; with no leads the average raises ZeroDivisionError; the tier, type and category counts are those of the leads; the pipeline value is PipelineSum and the average confidence the confidence total over the number of leads |
| ComprehensiveApp.ApiStatsRoute | app/comprehensive_app.py:742-769 | the counting loops compute the statistics under the corrected budget reading |
| ComprehensiveApp.ByTypeTotal | app/comprehensive_app.py:761-767 | the by-type counts add up to the number of leads |
| ComprehensiveApp.ByCategoryTotal | app/comprehensive_app.py:761-767 | the by-category counts add up to the number of leads |
| ComprehensiveApp.Truncate | app/comprehensive_app.py:701 | `int()` truncates a real toward zero |
| ComprehensiveApp.IndexStatsWith | app/comprehensive_app.py:689-711 | the index figures succeed iff there are leads and every budget can be read; urgent, high-priority and federal are the counts of Tier 1, Tier 2 and federal leads, urgent plus high-priority is at most the total; the value is PipelineSum and the average confidence the truncated 100 times the mean confidence |
| ComprehensiveApp.StatsAsWrittenAlwaysRaise | app/comprehensive_app.py:698 | as written, the index page and `/api/stats` raise for every list of generated budgets |
| ComprehensiveApp.StatsIntended | app/comprehensive_app.py:755 | under the corrected reading, both succeed on any non-empty list of generated budgets |
| ComprehensiveApp.AppLeadsBudgets | app/comprehensive_app.py:18-19 | the app's generated leads always exist and carry budgets from the table |
| PublicSectorScraper.DaysUntil | app/scraper.py:131-138 | `(deadline - now).days` floors the seconds between the two instants to whole days |
| PublicSectorScraper.ExtractDeadline | app/scraper.py:110-126 | the deadline the patterns found, else the day 30 days after today |
| PublicSectorScraper.CalculateTier | app/scraper.py:128-142 | an unparsable deadline is Tier 3; a dated or default deadline is rated by its whole days from the later clock reading |
| PublicSectorScraper.TierOfDays | app/scraper.py:128-142 | Tier 1 iff days ≤ 14, Tier 2 iff 14 < days ≤ 30, Tier 3 for later or unparsable deadlines |
| PublicSectorScraper.TierOfDaysMonotone | app/scraper.py:128-142 | a later deadline never gives a higher-priority tier |
| PublicSectorScraper.DefaultDeadlineDays | app/scraper.py:125-126 | the default deadline today+30 is 29 or 30 days away when rated later the same day |
| PublicSectorScraper.DefaultDeadlineIsTier2 | app/scraper.py:125-138 | a lead with the default deadline is always Tier 2 |
| PublicSectorScraper.UnparsableIsStandard | app/scraper.py:139-142 | a deadline text that does not parse gives Tier 3 |
| PublicSectorScraper.TenderLead | app/scraper.py:37-47 | a titled result becomes a tender-notice lead with the stripped title, status 'New', empty notes and the tier of its deadline |
| PublicSectorScraper.FirstRaise | app/scraper.py:34-50 | the index of the first result whose parsing raises, which ends the loop |
| PublicSectorScraper.TitledLeads | app/scraper.py:34-47 | at most one lead per result, each a tender notice |
| PublicSectorScraper.TitledLeadsSpec | app/scraper.py:34-48 | over results that do not raise, the leads are the tender records of the titled results, one each and in order |
| PublicSectorScraper.KeywordLeads | app/scraper.py:22-50 | one keyword yields at most 10 tender-notice leads, and none when the request raised or answered other than 200 |
| PublicSectorScraper.KeywordLeadsSpec | app/scraper.py:29-48 | an answered keyword's leads are the tender records of the titled results among its first ten, in order, up to the first that raises |
| PublicSectorScraper.BuyAndSellLeads | app/scraper.py:18-52 | the keywords yield at most 10 leads each, all tender notices with status 'New' and empty notes |
| PublicSectorScraper.BuyAndSellIsConcatenation | app/scraper.py:18-52 | the Buy and Sell leads are the keywords' own leads, concatenated in keyword order |
| PublicSectorScraper.BuyAndSellExact | app/scraper.py:18-52 | a lead is a Buy and Sell lead iff some keyword's request yields it |
| PublicSectorScraper.MerxLeads | app/scraper.py:54-86 | exactly two leads, both Tier 1 with status 'New' and empty notes |
| PublicSectorScraper.NewsLeads | app/scraper.py:88-108 | exactly one lead, Tier 2 with status 'New' |
| PublicSectorScraper.MerxLabelNotFromDeadline | app/scraper.py:61-72 | the first MERX lead is labelled Tier 1, while its 21-day deadline rates Tier 2 under `_calculate_tier` |
| PublicSectorScraper.Deduplicate | app/scraper.py:155-161 | the first lead per opportunity is kept: the result is a subsequence of the input, its opportunities are distinct and are exactly the input's, and each kept lead is the input's first with its opportunity; empty input gives empty output |
| PublicSectorScraper.DeduplicateCovers | app/scraper.py:155-161 | the de-duplicated leads are a subsequence of the input with distinct opportunities, cover every opportunity of it, and each is the first lead with its opportunity |
| PublicSectorScraper.AllLeadsSpec | app/scraper.py:144-162 | the result is a subsequence of buyandsell + merx + news, repeats no opportunity and keeps every opportunity of them |
| PublicSectorScraper.AllLeadsKeepFirst | app/scraper.py:144-162 | each returned lead is the first of buyandsell + merx + news with its opportunity |
| PublicSectorScraper.CanadianPublicSectorScraper.constructor | app/scraper.py:12-16 | the scraper holds the fixed training keywords |
| PublicSectorScraper.CanadianPublicSectorScraper.ScrapeKeyword | app/scraper.py:26-50 | the result loop for one keyword computes KeywordLeads |
| PublicSectorScraper.CanadianPublicSectorScraper.ScrapeBuyAndSell | app/scraper.py:18-52 | searches the first three keywords, at most 30 leads in all |
| PublicSectorScraper.CanadianPublicSectorScraper.ScrapeMerx | app/scraper.py:54-86 | the two placeholder leads, both labelled Tier 1 with status 'New', due 21 and 14 days after today and found today |
| PublicSectorScraper.CanadianPublicSectorScraper.ScrapeNews | app/scraper.py:88-108 | the one placeholder lead, labelled Tier 2 with status 'New', due 30 days after today and found today |
| PublicSectorScraper.CanadianPublicSectorScraper.GetAllLeads | app/scraper.py:144-162 | the concatenation and dedup loop compute AllLeads |
| AdvancedSearcher.RfpNeverMatches | app/advanced_scraper_example.py:137 | the 'RFP' indicator never occurs in the lowered hit text |
| AdvancedSearcher.IntendedTestExtends | app/advanced_scraper_example.py:131-143 | the corrected test holds iff the as-written test holds or the lowered text mentions "rfp" |
| AdvancedSearcher.RfpTitleMissedAsWritten | app/advanced_scraper_example.py:135-143 | a hit titled "RFP" is rejected as written and accepted as intended |
| AdvancedSearcher.ExtractOrganization | app/advanced_scraper_example.py:145-154 | the stripped text before the first '-' when the title has one, 'Unknown Organization' otherwise |
| AdvancedSearcher.DeadlineDays | app/advanced_scraper_example.py:156-172 | the offset is 14, 30, 60 or 45 days, chosen by the first matching keyword group of the snippet |
| AdvancedSearcher.EstimateDeadline | app/advanced_scraper_example.py:156-172 | the date 14, 30, 60 or 45 days after today: 14 when an urgent word occurs; 30 when only a soon word does; 60 when neither occurs and "q3" or "fall" does; 45 when none of these does |
| AdvancedSearcher.CalculateTier | app/advanced_scraper_example.py:174-188 | Tier 1 iff a Tier 1 keyword occurs; Tier 2 iff none does and a Tier 2 keyword does |
| AdvancedSearcher.UrgentSnippetIsSoonest | app/advanced_scraper_example.py:160-188 | an "urgent" or "immediate" snippet is Tier 1 with the 14-day deadline |
| AdvancedSearcher.NewsIsHighPriority | app/advanced_scraper_example.py:182-186 | a snippet mentioning "news" and no Tier 1 keyword is Tier 2, because "new" occurs inside it |
| AdvancedSearcher.LeadOf | app/advanced_scraper_example.py:113-127 | with a contact extractor, a lead is built iff the hit has a title and a link (KeyError otherwise): title as opportunity, link as source, the extracted organisation, the estimated deadline, the given contact, status 'New', the hit's tier, the first 200 characters of the snippet as notes, and today as the date found |
| AdvancedSearcher.LeadOfAsWritten | app/advanced_scraper_example.py:121 | as written, building a lead always raises, because `_extract_contact` is not defined |
| AdvancedSearcher.RecordsOf | app/advanced_scraper_example.py:111-129 | building the passing results' records succeeds iff every one has a title and a link, fails only with KeyError, and keeps one record per result in order, each the LeadOf that result |
| AdvancedSearcher.ExtractAsWrittenRaises | app/advanced_scraper_example.py:121 | as written, extraction succeeds only when no hit passes the test, and then returns nothing |
| AdvancedSearcher.ExtractPassing | app/advanced_scraper_example.py:111-129 | the loop computes the leads of the passing hits, stopping at the first error |
| AdvancedSearcher.ExtractLeads | app/advanced_scraper_example.py:107-129 | succeeds iff every passing hit has a title and link (KeyError otherwise); one lead per passing hit in input order, each the LeadOf that hit, so with status 'New', titled by it and with notes of at most 200 characters |
| AdvancedSearcher.MappedRank | app/advanced_scraper_example.py:258-262 | the mapped tier rank lies in 0..3 |
| AdvancedSearcher.MappedRankOfLabel | app/advanced_scraper_example.py:258-262 | the map gives each tier label its tier's rank |
| AdvancedSearcher.DeduplicateAndSort | app/advanced_scraper_example.py:247-268 | empty input gives []; otherwise the first lead per opportunity, sorted by (tier rank, deadline), with distinct opportunities covering all of the input's |
| AdvancedSearcher.ResultsFor | app/advanced_scraper_example.py:221-238 | a query gathers Google hits only with a usable Google key and Bing hits only with a usable Bing key |
| AdvancedSearcher.SearchAll | app/advanced_scraper_example.py:221-238 | the search over all queries succeeds iff every query's extraction does |
| AdvancedSearcher.SearchAllIsConcatenation | app/advanced_scraper_example.py:221-238 | a search that raises on no query finds the concatenation of every query's extracted leads, in query order |
| AdvancedSearcher.SearchAllExact | app/advanced_scraper_example.py:221-238 | a lead is found iff the extraction from some query's results holds it |
| AdvancedSearcher.SearchStops | app/advanced_scraper_example.py:221-238 | the first failing query decides the error of the whole search |
| AdvancedSearcher.NoKeysFindNothing | app/advanced_scraper_example.py:229-233 | with no usable key the search finds nothing |
| AdvancedSearcher.AdvancedTrainingLeadSearcher.constructor | app/advanced_scraper_example.py:22-26 | the keys are read from the environment and the corrected opportunity test is used |
| AdvancedSearcher.AdvancedTrainingLeadSearcher.ExtractTrainingLeads | app/advanced_scraper_example.py:107-129 | extraction with a defined contact extractor computes ExtractLeads |
| AdvancedSearcher.AdvancedTrainingLeadSearcher.SearchQuery | app/advanced_scraper_example.py:226-236 | the hits of one query under the configured keys |
| AdvancedSearcher.AdvancedTrainingLeadSearcher.RunComprehensiveSearch | app/advanced_scraper_example.py:190-245 | the query loops, followed by dedup and sort, give the deduplicated sorted leads, or the first error |
| SalesDashboard.BudgetBonus | app/advanced_sales_dashboard.py:24-32 | +20 iff "$1M" or "million"; +15 iff not that and "$500K" or "$500,000"; +10 iff neither and "$100K" or "$100,000"; 0 iff none of the four tests holds (and +5 otherwise) |
| SalesDashboard.DeadlineBonus | app/advanced_sales_dashboard.py:35-42 | at most 15: +15 iff "2025" and a first-quarter month; +10 iff "2025", no first-quarter month and a second-quarter month; +5 iff no "2025" and "ongoing"; 0 in every other case |
| SalesDashboard.DeadlineBonusCases | app/advanced_sales_dashboard.py:35-42 | +5 iff "ongoing" and no "2025"; +10 or more only with "2025" |
| SalesDashboard.YearHoldsFebruary | app/advanced_sales_dashboard.py:36-38 | every deadline that contains "2025" contains the month token "02" |
| SalesDashboard.Deadline2025EarnsFirstQuarter | app/advanced_sales_dashboard.py:36-40 | every deadline naming 2025 earns the first-quarter +15, so the +10 and +0 branches under 2025 are never taken |
| SalesDashboard.TypeBonus | app/advanced_sales_dashboard.py:45-48 | +10 iff the lowered type mentions federal; +5 iff not and it mentions provincial; 0 iff neither |
| SalesDashboard.SectorBonus | app/advanced_sales_dashboard.py:51-52 | +15 iff the lowered title contains one of the five sector terms, 0 iff none |
| SalesDashboard.TrainingTitleEarnsSectorBonus | app/advanced_sales_dashboard.py:51-52 | any title containing "training" earns the sector bonus, because "ai" occurs inside it |
| SalesDashboard.IndigenousBonus | app/advanced_sales_dashboard.py:55-56 | +10 iff the lowered type mentions indigenous, 0 otherwise |
| SalesDashboard.FederalAndIndigenousBothCount | app/advanced_sales_dashboard.py:45-56 | a federal Indigenous type collects both +10 bonuses |
| SalesDashboard.RawScore | app/advanced_sales_dashboard.py:19-56 | the uncapped score lies in [50, 120] |
| SalesDashboard.TopBonusesReachTheCap | app/advanced_sales_dashboard.py:19-58 | the largest bonuses reach the uncapped maximum of 120, capped to 100 |
| SalesDashboard.Score | app/advanced_sales_dashboard.py:58 | the score lies in [50, 100]; it is 100 iff the uncapped score reaches 100, and equals the uncapped score below that |
| SalesDashboard.CalculateOpportunityScore | app/advanced_sales_dashboard.py:19-58 | the additive steps compute Score |
| SalesDashboard.SuccessFactors | app/advanced_sales_dashboard.py:71-84 | between two and six factors; security clearance and government contracts iff federal; Indigenous partnership and cultural competency iff Indigenous; certifications and modern approaches iff the title mentions technology; the default pair appears iff it is the whole list, which it is when none of the three applies |
| SalesDashboard.Actions | app/advanced_sales_dashboard.py:89-101 | three actions when the score is above 50, two otherwise; the hot-lead action first iff the score is above 70 |
| SalesDashboard.Risks | app/advanced_sales_dashboard.py:104-112 | at most three risks: the budget ceiling iff "Up to", the short timeline iff Q1 or Q2, complex procurement iff federal |
| SalesDashboard.InsightsOf | app/advanced_sales_dashboard.py:60-114 | the win probability is the score; effort, competition and return are High exactly under their tests; the lists are those above |
| SalesDashboard.CollectSuccessFactors | app/advanced_sales_dashboard.py:71-84 | the appending steps compute SuccessFactors |
| SalesDashboard.RecommendActions | app/advanced_sales_dashboard.py:89-101 | the branches compute Actions |
| SalesDashboard.AssessRisks | app/advanced_sales_dashboard.py:104-112 | the appending steps compute Risks |
| SalesDashboard.GenerateAiInsights | app/advanced_sales_dashboard.py:60-114 | the insight builder computes InsightsOf |
| SalesDashboard.Enhance | app/advanced_sales_dashboard.py:116-124 | an enhanced record keeps the opportunity, whose score lies in [50, 100] and is also its win probability |
| SalesDashboard.EnhanceAll | app/advanced_sales_dashboard.py:116-124 | one enhanced record per opportunity |
| SalesDashboard.EnhanceAllAt | app/advanced_sales_dashboard.py:116-124 | the i-th enhanced record enhances the i-th opportunity |
| SalesDashboard.EnhanceAllScores | app/advanced_sales_dashboard.py:116-124 | every enhanced score lies in [50, 100] |
| SalesDashboard.EnhanceOpportunities | app/advanced_sales_dashboard.py:116-124 | the loop computes EnhanceAll |
| SalesDashboard.ByScoreDescending | app/advanced_sales_dashboard.py:160 | a list sorted by the score key has non-increasing scores |
| SalesDashboard.PipelineContribution | app/advanced_sales_dashboard.py:177-183 | each lead contributes 1000000, 500000, 100000 or 50000 |
| SalesDashboard.PipelineTotal | app/advanced_sales_dashboard.py:177-184 | the pipeline total lies between 50000 and 1000000 per lead |
| SalesDashboard.PipelineTotalAppend | app/advanced_sales_dashboard.py:177-184 | the pipeline total of two lists is the sum of their totals, and one lead contributes its budget's pipeline value |
| SalesDashboard.AverageScore | app/advanced_sales_dashboard.py:193 | the average win probability is 0 with no leads, otherwise the score total over the number of leads, which lies in [50, 100] |
| SalesDashboard.ScoreTotalAppend | app/advanced_sales_dashboard.py:193 | the score total of two lists is the sum of their totals, and one lead contributes its score |
| SalesDashboard.StatsOf | app/advanced_sales_dashboard.py:169-196 | the total is the number of opportunities; the high- and medium-value counts are those of the enhanced records and add up to the total; the federal, provincial and Indigenous counts are those of the opportunities; the pipeline is PipelineTotal and the average AverageScore of the enhanced records, within their bounds; the last update is reported |
| SalesDashboard.FirstProvince | app/advanced_sales_dashboard.py:224-234 | a listed province whose name occurs in the source, with no earlier-listed province occurring; none iff no listed name occurs |
| SalesDashboard.RegionOf | app/advanced_sales_dashboard.py:224-234 | every opportunity falls in a listed region: the first listed province found in the source; when none is found, the for/else gives Federal for a federal type and Other otherwise |
| SalesDashboard.SectorOf | app/advanced_sales_dashboard.py:209-219 | the first matching sector: Technology iff "technology" or "digital"; Healthcare, Indigenous and General each iff the earlier tests fail and theirs holds (General iff none does) |
| SalesDashboard.QuarterOf | app/advanced_sales_dashboard.py:235-245 | Ongoing iff "ongoing"; Q1 iff not and a first-quarter token occurs; Q2 iff neither and a second-quarter token occurs; Q4 iff no test holds |
| SalesDashboard.Deadline2025CountsAsFirstQuarter | app/advanced_sales_dashboard.py:235-239 | the analytics count a non-ongoing deadline naming 2025 in Q1 |
| SalesDashboard.TopAsWritten | app/advanced_sales_dashboard.py:251 | as written, the "top" list is the first min(5, n) enhanced records in their unsorted order |
| SalesDashboard.TopAsWrittenMissesBetter | app/advanced_sales_dashboard.py:251 | when the sixth record outscores the first, the as-written top list leaves out a better record |
| SalesDashboard.TopByScore | app/advanced_sales_dashboard.py:251 | the corrected top list has min(5, n) of the records, in non-increasing score order, none outscored by a record left out |
| SalesDashboard.AnalyticsOf | app/advanced_sales_dashboard.py:198-252 | the sector, province and deadline counts are the records' counts per bucket; the top list is the corrected TopByScore (see "## Left out") |
| SalesDashboard.SectorTotals | app/advanced_sales_dashboard.py:210-221 | the sector counts add up to the number of records |
| SalesDashboard.RegionTotals | app/advanced_sales_dashboard.py:224-234 | the province counts add up to the number of records |
| SalesDashboard.QuarterTotals | app/advanced_sales_dashboard.py:236-247 | the deadline counts add up to the number of records, and all four quarters are present |
| SalesDashboard.Dashboard.constructor | app/advanced_sales_dashboard.py:145-149 | the initial load sets the opportunities and the update time, with no interactions |
| SalesDashboard.Dashboard.Update | app/advanced_sales_dashboard.py:129-137 | a successful fetch replaces the opportunities and the update time; a failed one changes nothing |
| SalesDashboard.Dashboard.GetLeads | app/advanced_sales_dashboard.py:155-167 | the enhanced leads in non-increasing score order, a permutation of them, with the total count |
| SalesDashboard.Dashboard.GetStats | app/advanced_sales_dashboard.py:169-196 | the reply is StatsOf the current list and update time: the high-value count is that of the enhanced records, high- plus medium-value leads make the total, the pipeline is their PipelineTotal and the average their AverageScore, and the last update is reported |
| SalesDashboard.Dashboard.GetAnalytics | app/advanced_sales_dashboard.py:198-252 | the counting loops compute AnalyticsOf |
| SalesDashboard.Dashboard.TrackInteraction | app/advanced_sales_dashboard.py:254-268 | exactly one record is appended to the lead's log (created empty if absent); every other key and the opportunities are unchanged |
| LeadServers.Apply | app/main_ai.py:17-31 | a successful fetch replaces both the leads and the update time; a failed one leaves the snapshot as it was |
| LeadServers.AfterAll | app/main_ai.py:33-37 | after a run of updates the cache holds the last successful fetch, or is unchanged when none succeeded |
| LeadServers.FirstFailure | app/main.py:30-34 | the index of the first failing fetch: every earlier fetch succeeded |
| LeadServers.PropagatingLoopState | app/main.py:30-34 | when the loop dies, the cache holds the fetch just before the failure, or the initial state |
| LeadServers.FailureHidesLaterSuccess | app/main.py:30-34 | a failure stops the propagating loop before a later success that the catching loop would have kept |
| LeadServers.LeadsCache.constructor | app/main_test.py:12-13 | the cache starts empty with no update time |
| LeadServers.LeadsCache.UpdateOrRaise | app/main.py:16-28 | the cache is replaced on success; on failure it is unchanged and the error propagates; success reports the new count |
| LeadServers.LeadsCache.UpdateOrKeep | app/main_test.py:16-31 | the cache is replaced on success and unchanged on a caught failure |
| LeadServers.LeadsCache.GetLeads | app/main.py:36-44 | the reply holds the cached leads and update time, with count their number |
| LeadServers.LeadsCache.Health | app/main_ai.py:111-119 | status 'healthy' and the cached count; 'ai_status' 'active' is present exactly in the AI server |
| LeadServers.LeadsCache.RefreshNow | app/main.py:46-55 | the reply follows the update, with the new count and time; a failed fetch propagates its error |
| LeadServers.LeadsCache.RefreshStarted | app/main_ai.py:49-61 | the reply is built before the update thread runs, so it reports the old count |
| LeadServers.LeadsCache.BackgroundUpdate | app/main.py:30-34 | the loop applies fetches until the first failure, which ends the thread |
| LeadServers.LeadsCache.BackgroundUpdateCatching | app/main_ai.py:33-37 | every fetch is tried, each applied in turn |
| LeadServers.LeadsCache.GetStats | app/main_ai.py:63-109 | the counting loops compute StatsOf over the cache |
| LeadServers.OrgKind | app/main_ai.py:96-107 | Federal iff the organisation names the Government of Canada; Provincial iff not and it names a listed province; Municipal iff neither and it mentions a city or municipality; Other otherwise |
| LeadServers.StatsOf | app/main_ai.py:63-109 | the total is the number of leads; urgent and high-priority counts are at most it; each type and organisation bucket counts its leads, and only the four organisation kinds appear |
| LeadServers.ByOrganizationTotal | app/main_ai.py:96-107 | the organisation counts add up to the number of leads |
| LeadServers.ByTypeTotal | app/main_ai.py:91-93 | the type counts add up to the number of leads |
| LeadServers.MissingTypeCountsAsOther | app/main_ai.py:91-93 | every lead without a training type is counted under 'Other' |
| LeadServers.LabelledTierCounts | app/main_ai.py:67-74 | for labelled tiers, the urgent count is the number of Tier 1 leads and the high-priority count the number of Tier 2 leads |

## Left out

- The network, feedparser, BeautifulSoup and Flask are not modelled. Feeds, search responses and hits are given as already-parsed values, and routes are plain functions and methods.
- `re.search` over deadline text is not modelled. The patterns `_extract_deadline` finds arrive as an optional deadline; only its default path (today + 30) and the unparsable path are modelled exactly.
- The clock, `random` and `uuid` are not modelled. Today's date, day offsets, random picks and ids are parameters, and a date is a day number together with a function giving its text.
- Threads, locks and `time.sleep` are not modelled. A background thread is a finite sequence of fetch outcomes. The refresh thread of `main_ai.py` and `main_test.py` is a later `UpdateOrKeep`.
- Floating point is modelled as exact reals. Formatting such as `f"${x:,.0f}"` and the rounding of `avg_confidence` are left out.
- `main_ai.py` `total_value` (lines 77-88) is left out: it is a float sum.
- The confidence and win-probability figures of the comprehensive generator are random. They are the draws `Draw.confidence` and `Draw.winProb`, and `WinProbabilityText` renders the second. The model does not constrain their ranges.
- pandas: `_deduplicate_and_sort` is modelled as ordered de-duplication followed by a sort. The stability of `sort_values` is not proved. `to_dict('records')` also carries the added `tier_rank` column, and the model's leads drop it.
- AdvancedSearcher: `_parse_google_results` and `_parse_bing_results` are called at `app/advanced_scraper_example.py:54` and `:80` but are not defined either. The search functions are given as parsed hits, and the SerpAPI search (83-105) is not modelled.
- The long query lists of the AI finder and the advanced searcher are single sequences. The grouping into categories does not change any result.
- AiScraper.ExtractRequirements: states only the bound of seven. The exact membership and order are in AiScraper.RequirementsExactly.
- Budget.ParseFloat: reads unsigned decimal literals only. Python's `float()` also accepts a sign, an exponent, `inf`/`nan` and `_` separators. The pieces the budget chains pass are cut at '$', 'M' and '-', and no budget in the tables holds those forms.
- AiScraper.Lead.TrainingType: uses the corrected category test. As written, every text mentioning "training" is Digital Skills Training (see "## Findings").
- ComprehensiveGenerator.Generated.CompetitiveLandscape: uses the corrected budget reading, so "$10M - $15M" gets the high-competition text. As written, every table budget reads 5 and gets the medium text (`ComprehensiveCatalogue.BudgetRangesAsWritten`).
- SalesDashboard.AnalyticsOf / SalesDashboard.Dashboard.GetAnalytics: the top list is the corrected `TopByScore`, the five best-scoring records in score order. As written, `top_opportunities` is the first five enhanced records in their unsorted order (app/advanced_sales_dashboard.py:251, `SalesDashboard.TopAsWritten`; see "## Findings").
- SalesDashboard.Dashboard.GetStats: the statistics report the pipeline value as a number rather than formatted text.
- The frontends, the test scripts, `main_simple.py`, `app.py`, `run_app.py`, `real_app.py`, `real_web_scraper.py` and `comprehensive_real_scraper.py` are not part of this model.

## Findings

| source | as written | input that shows it | evidently intended | confidence | as-written member | corrected member |
|---|---|---|---|---|---|---|
| app/ai_scraper.py:168 | `budget.split('$')[1].split('M')[0].split('-')[1]` cuts at the first 'M', before the '-', so the split has no index 1. The same idiom is at app/comprehensive_app.py:698 and 755 and app/comprehensive_ai_scraper.py:340 | "$15M - $20M" raises IndexError; every budget the two generators produce raises | read the upper end of the range (20) | not executed | Budget.AsWrittenFailsOnRange | Budget.UpperBoundOfRange |
| app/advanced_scraper_example.py:121 | `extract_training_leads` calls `self._extract_contact`, which the class never defines | any hit that passes `_is_training_opportunity` raises AttributeError | build a contact text for each passing hit | not executed | AdvancedSearcher.ExtractAsWrittenRaises | AdvancedSearcher.AdvancedTrainingLeadSearcher.ExtractTrainingLeads |
| app/advanced_scraper_example.py:137 | the indicator 'RFP' is tested against lowered text, so it can never match | a hit titled "RFP" is rejected | match "rfp" in the lowered text | not executed | AdvancedSearcher.RfpTitleMissedAsWritten | AdvancedSearcher.IntendedTestExtends |
| app/ai_scraper.py:303 | `'ai' in text` is a substring test, and "training" contains "ai" | "leadership training" is categorised as Digital Skills Training | test "ai" as a word, so the text becomes Leadership Development | not executed | AiScraper.TrainingIsDigitalAsWritten | AiScraper.LeadershipTrainingDiffers |
| app/advanced_sales_dashboard.py:251 | `top_opportunities` takes `enhanced_opps[:5]` of the unsorted list, despite its "top 5 by score" comment | six records whose sixth outscores the first | the five best-scoring records | not executed | SalesDashboard.TopAsWrittenMissesBetter | SalesDashboard.TopByScore |
