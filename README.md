# Healthcare cost dashboard — a Dafny model of its data logic

The dashboard is a React front end over an Express server. The server loads
Synthea-style CSV files (procedures, conditions, payers, ...). From them it
derives headline metrics and a few chart series. The front end shows KPIs and
charts over a list of insurance claims. The user narrows the claims with seven
filters (age group, gender, race, condition, location, date range, cost
range), where the value `"all"` leaves a dimension unconstrained.

This project models, as Dafny functions, methods and one class, the logic
that decides what the dashboard shows:

- the claim filter engine: AND mode for one or two active filters, OR mode
  from three on, with per-dimension checks and the free-text search;
- the KPI recomputation and its scaled-baseline fallback, the reset, and the
  "Simplify Filters" rule;
- the chart heuristics:
  - expenses, condition costs, payer analysis, cost trends and the city multiplier;
  - the procedures chart and the cost drivers with their percentage renormalisation;
  - the top-conditions ranking and the payer-coverage nudges;
- the cost-prediction calculator;
- the CSV export text;
- on the server: delimiter detection, row cleaning, `calculateMetrics`, and
  the procedures and payer-coverage series;
- the city-name formatting of the city comparison chart.

Modules follow the source:

| module | models |
|---|---|
| `Claims` | the claim record, the filter record and the clock |
| `ClaimFilter` | the filter predicate and the search |
| `Kpi`, `Dashboard` | the KPI values and the component state (a class whose methods change the filters and metrics) |
| `Charts`, `CostDrivers`, `TopConditions`, `PayerCoverage`, `ConditionMatch` | the chart feeds |
| `Prediction` | the calculator |
| `CsvExport` | the export |
| `CsvLoad`, `ServerMetrics`, `ServerDashboard` | the server |
| `CityNames` | the city chart |

`Numbers`, `Text` and `Sequences` hold the JavaScript primitives the rest uses:
- `Math.round`;
- `toLowerCase`, `trim`, `split`, `join` and `includes`;
- `filter`, a stable descending sort, and `slice(0, n)`.

Costs are real numbers. `Math.round(x)` is `Floor(x + 0.5)`. JavaScript's
parsing and printing of numbers, the clock, and `Math.random` are parameters of
the operations that use them.

## Model

| member | source | states |
|---|---|---|
| Claims.AllUnsetIffNoneActive | src/HealthcareDashboard.js:500-508 | every filter is "all" exactly when the active-filter count is 0 |
| Claims.LastMonthIsPreviousMonth | src/HealthcareDashboard.js:592-600 | on a day the previous month also has, `last_month` is the previous calendar month (across a year boundary in January) and never the current month |
| Claims.LastMonthOnMarch31 | src/HealthcareDashboard.js:592-600 | on 31 March, `setMonth` day overflow makes `last_month` designate March itself |
| ClaimFilter.CostBands | src/HealthcareDashboard.js:565-576 | low ⇔ cost ≤ 1000, medium ⇔ 1000 ≤ cost ≤ 5000, high ⇔ cost ≥ 5000; the AND-mode rejection is exactly "a known band that does not match", so an unknown range rejects nothing |
| ClaimFilter.DateModes | src/HealthcareDashboard.js:578-630 | for a valid date and a known bucket the AND rejection is the negation of the OR match; an Invalid Date matches no bucket in OR mode but is rejected only by the month buckets in AND mode; an unknown bucket neither rejects nor matches |
| ClaimFilter.AndModeKeepsIff | src/HealthcareDashboard.js:521-634 | the chain of early returns keeps a claim exactly when every active dimension's check passes |
| ClaimFilter.OrModeDecision | src/HealthcareDashboard.js:635-749 | the step-by-step OR branch counts as `filterChecks` exactly the evaluated checks, and keeps the claim exactly when no check was evaluated or some evaluated check matched |
| ClaimFilter.OrModeAlwaysEvaluates | src/HealthcareDashboard.js:636-749 | with three or more active filters at least (active − 2) ≥ 1 checks are evaluated, so the "no check evaluated" branch cannot keep a claim |
| ClaimFilter.OrModeKeepsIff | src/HealthcareDashboard.js:636-749 | with three or more active filters a claim is kept exactly when some evaluated check matches |
| ClaimFilter.FilterClaims | src/HealthcareDashboard.js:492-751 | with every filter "all" the claims come back unchanged; otherwise the result is an order-preserving subsequence without nulls holding every claim the mode's predicate keeps exactly as many times as the input does, and no other claim |
| ClaimFilter.FilterAndMode | src/HealthcareDashboard.js:510-634 | with one or two active filters a claim is in the result exactly when it is in the input and passes every active check |
| ClaimFilter.FilterOrMode | src/HealthcareDashboard.js:510-749 | with three or more active filters a claim is in the result exactly when it is in the input and some evaluated check matches |
| ClaimFilter.AndModeIgnoresMissingFields | src/HealthcareDashboard.js:545-553 | in AND mode a claim without condition and date is judged as if the condition and date filters were "all" |
| ClaimFilter.FirstOfMonthBuckets | src/HealthcareDashboard.js:584-600 | a claim dated the first of the current month passes `current_month`, and passes `last_month` exactly when the overflowing `lastMonth` lands in the current month |
| ClaimFilter.SearchClaims | src/HealthcareDashboard.js:1210-1227 | a blank term returns the claims unchanged; otherwise the result is an order-preserving subsequence holding every non-null claim one of whose truthy values, lower-cased, contains the trimmed lower-cased term, as many times as the input does, and nothing else |
| ClaimFilter.SearchIgnoresTermCase | src/HealthcareDashboard.js:1215 | lower-casing the term first finds the same claims |
| ConditionMatch.MatchingKey | src/HealthcareDashboard.js:1415-1433 | the selected entry is the first whose key and the lower-cased filter contain one another; no earlier key is related, and None means no key is |
| ConditionMatch.MatchingKeyIgnoresCase | src/HealthcareDashboard.js:1417-1428 | the filter's case does not change the selected entry |
| ConditionMatch.EmptyConditionMatchesFirst | src/HealthcareDashboard.js:1415-1452 | an empty filter value is contained in every key and selects the first entry |
| Kpi.BaselineNeverZero | src/HealthcareDashboard.js:2265-2286 | each baseline `value \|\| fallback` is never 0, and a missing or 0 value becomes 1250000, 1250 or 2500 |
| Kpi.ScaleRatio | src/HealthcareDashboard.js:2268 | `max(0.1, 1 − 0.15·n)` lies in [0.1, 1] |
| Kpi.ScaleRatioFacts | src/HealthcareDashboard.js:2268 | the ratio is 1 for no filter and 0.7 for two, never grows with more filters, and is 0.1 exactly from six filters on |
| Kpi.PatientIdsBound | src/HealthcareDashboard.js:2248-2253 | there are no more distinct patient ids than claims |
| Kpi.PatientIdsMembers | src/HealthcareDashboard.js:2248-2253 | an id is counted exactly when some claim carries it as a truthy patientId |
| Kpi.ScaledBaseline | src/HealthcareDashboard.js:2265-2286 | the scaled patient count is at least 1, and each non-negative baseline is scaled to between a tenth of itself and itself |
| Kpi.KpisOf | src/HealthcareDashboard.js:2241-2287 | fewer than 5 claims under an active filter give the scaled baseline; otherwise expenses = max(Σ cost, 100), patients = max(distinct ids, 1), and average = max(Σ/claim count, 10), which is exactly (100, 1, 10) when there is no claim |
| Kpi.KpisAverageAndPatients | src/HealthcareDashboard.js:2254-2286 | without the fallback, 1 ≤ patients ≤ claims, and an average above its floor times the claim count gives back the total, so the divisor is the claim count |
| Kpi.KpisOfSingleClaim | src/HealthcareDashboard.js:2260-2286 | one matching claim under one filter shows 0.85 × the baselines, whatever that claim costs |
| Kpi.RecomputeKpis | src/HealthcareDashboard.js:2241-2287 | the two `forEach` loops and the fallback switch compute exactly KpisOf |
| Kpi.FilteredMetrics | src/HealthcareDashboard.js:1055-1107 | with no claim it is the scaled baseline; otherwise expenses are Σ cost, or a tenth of the expenses baseline when Σ is under 100; patients are the distinct ids, at least 1; the average is Σ/claim count, or a tenth of the average baseline when that is under 10 |
| Kpi.FilteredMetricsAgreesWithKpis | src/HealthcareDashboard.js:1055-1107 | its patient floor never fires, and it agrees with KpisOf on no claim under an active filter and on five or more claims above the floors |
| Kpi.ResetKpis | src/HealthcareDashboard.js:2192-2202 | the reset metrics are the unscaled baselines and none is 0 |
| Kpi.ResetIsUnscaledBaseline | src/HealthcareDashboard.js:2192-2202 | for a whole patient baseline of at least 1 they equal the baseline scaled for zero filters |
| Dashboard.ChooseData | src/HealthcareDashboard.js:344-403 | a failed request, invalid metrics or a missing payload give the fallback data; a valid response with a payload keeps its metrics and takes its claims when there are more than 100 of them, the sample claims otherwise |
| Dashboard.MissingMetricsAccepted | src/HealthcareDashboard.js:358-367 | a response without metrics passes the check and is accepted, and its baselines become the fallback constants |
| Dashboard.WorkingClaims | src/HealthcareDashboard.js:494-498 | the claims filtered are the loaded list when it exists and is non-empty, and the sample claims in every other case |
| Dashboard.LoadedClaimsAreSampleOrMany | src/HealthcareDashboard.js:379-382 | after a fetch the dashboard filters the sample claims or more than 100 API claims |
| Dashboard.WithFilter | src/HealthcareDashboard.js:2307-2315 | changing one filter sets that key and leaves every other key as it was |
| Dashboard.Restrict | src/HealthcareDashboard.js:3884-3891 | the keys listed keep their value and every other key becomes "all" |
| Dashboard.SimplifiedKeepsFirstTwo | src/HealthcareDashboard.js:3878-3891 | after simplification the active keys are the first two active keys in key order, with their values, so AND mode applies |
| Dashboard.SimplifyKeepsSmallSelections | src/HealthcareDashboard.js:3878-3891 | a selection of at most two filters is left unchanged |
| Dashboard.ThreeFiltersActive | src/HealthcareDashboard.js:506-511 | age group, gender and race selected are three active filters, so OR mode applies |
| Dashboard.ThreeFiltersFirstTwo | src/HealthcareDashboard.js:3880-3882 | of those three, the first two in key order are age group and gender |
| Dashboard.SimplifyDropsThird | src/HealthcareDashboard.js:3878-3891 | simplifying that selection resets race and changes the filters |
| Dashboard.DashboardState.constructor | src/HealthcareDashboard.js:30-101 | both filter sets start at "all", the metrics at 0, and no data is loaded |
| Dashboard.DashboardState.Load | src/HealthcareDashboard.js:344-403 | the fetch stores the chosen data and touches nothing else |
| Dashboard.DashboardState.ChangeFilter | src/HealthcareDashboard.js:2307-2315 | only the edited filters change, by one key |
| Dashboard.DashboardState.ApplyFilters | src/HealthcareDashboard.js:2218-2305 | the edited filters come into force, the metrics become KpisOf of the claims they keep, and the alert is raised exactly when nothing matches more than two filters |
| Dashboard.DashboardState.RecalculateMetrics | src/HealthcareDashboard.js:410-475 | the effect recomputes the metrics with the same formula for the filters in force and changes nothing else |
| Dashboard.DashboardState.ResetFilters | src/HealthcareDashboard.js:2178-2216 | both filter sets return to "all" and the metrics to the unscaled baselines |
| Dashboard.DashboardState.SimplifyFiltersAsWritten | src/HealthcareDashboard.js:3877-3895 | as written, the filters in force end up equal to the unsimplified edited filters |
| Dashboard.DashboardState.SimplifyFilters | src/HealthcareDashboard.js:3877-3895 | corrected: the first two active filters stay in force (and in the panel), AND mode applies, and the metrics follow them |
| Charts.FilteredExpenses | src/HealthcareDashboard.js:1159-1188 | without data it is the fallback table; otherwise it is a subsequence of the rows, all of them unless an age group is selected, and then every matching row as many times as it occurs and nothing else, or every row when none matches |
| Charts.FilteredExpensesNonEmpty | src/HealthcareDashboard.js:1159-1188 | a non-empty table never gives an empty chart |
| Charts.FilteredConditionCosts | src/HealthcareDashboard.js:1191-1208 | without data it is the fallback table; with a condition filter it holds, in order and with their multiplicity, exactly the rows whose condition contains the filter, ignoring case |
| Charts.ConditionCostsIgnoreFilterCase | src/HealthcareDashboard.js:1191-1208 | the filter's case does not change the rows selected |
| Charts.FilteredPayerAnalysis | src/HealthcareDashboard.js:1615-1646 | the chart is never empty; without data it is the fallback; without a condition filter it is the data, or the fallback when the data is empty; with one it holds, in order and with their multiplicity, exactly the data's rows whose payer is listed for that condition, and the fallback when there is none, in particular for an unlisted condition |
| Charts.TrendMultiplier | src/HealthcareDashboard.js:1800-1841 | the trend multiplier lies between 0.7 and 1.8 × 2.1 |
| Charts.FilteredCostTrends | src/HealthcareDashboard.js:1800-1841 | the months are kept; with no filter the table is unchanged; otherwise every row is the same row scaled by the multiplier and rounded |
| Charts.ScaledTrendNear | src/HealthcareDashboard.js:1836-1838 | each scaled cost is within half a unit of the exact product |
| Charts.TrendsIgnoreOtherFilters | src/HealthcareDashboard.js:1800-1841 | filters other than a recognised age group or condition leave the table as it is |
| Charts.CalculateMultiplier | src/HealthcareDashboard.js:1903-1928 | the `multiplier *=` steps give the product of the age, condition and gender factors, which lies in [0.513, 2.835] and is 1 without those filters |
| Charts.TopFive | src/HealthcareDashboard.js:1797 | the sorted slice holds min(n, 5) of the procedures, a sub-multiset, in non-increasing cost |
| Charts.GeneralProcedures | src/HealthcareDashboard.js:1756-1794 | the general list keeps all ten procedures in order; each cost is the listed cost times the age factor, rounded, when an age group is selected, then times the gender factor, rounded, when a gender is selected; with neither it is the list itself |
| Charts.FilteredProcedures | src/HealthcareDashboard.js:1649-1798 | without data it is the fallback list; a related condition shows that key's five procedures, rescaled by the age factor when an age group is selected; otherwise it is TopFive of the general list rescaled by the active factors: five procedures in non-increasing cost |
| Charts.ProceduresAreTopFive | src/HealthcareDashboard.js:1797 | no procedure left out costs more than the cheapest one shown |
| Charts.ProcedureCostsPositive | src/HealthcareDashboard.js:1649-1798 | every procedure shown costs more than 0 |
| CostDrivers.AdjustedShares | src/HealthcareDashboard.js:1354-1360 | the first pass keeps length, order, categories and costs, and every percentage is its old value plus its adjustment, floored at 3 |
| CostDrivers.Normalised | src/HealthcareDashboard.js:1363-1369 | the second pass keeps length, categories and costs; every share is a whole number in [0, 100], within half a point of its exact share of 100, and the shares total 100 to within half a point per category |
| CostDrivers.SharesNearExact | src/HealthcareDashboard.js:1363-1369 | each rounded share is within half a point of the exact share |
| CostDrivers.AdjustCategoryPercentages | src/HealthcareDashboard.js:1352-1370 | the same for the whole function, for any adjustment table (a missing adjustment counts as 0): each share is within half a point of 100 × (adjusted share) / (sum of adjusted shares), the adjusted share being the old one plus its adjustment, at least 3 |
| CostDrivers.AfterCondition | src/HealthcareDashboard.js:1415-1452 | a condition filter related to a key of the condition map applies AdjustCategoryPercentages with +20 for that key's categories and -10 for the others; any other selection leaves the data as it is |
| CostDrivers.AfterAge | src/HealthcareDashboard.js:1455-1499 | an active age group applies AdjustCategoryPercentages with its table (empty for an unlisted group); no age group leaves the shares as they are |
| CostDrivers.AfterGender | src/HealthcareDashboard.js:1502-1519 | an active gender applies AdjustCategoryPercentages with its table (empty for an unlisted gender); no gender leaves the shares as they are |
| CostDrivers.ExactSharesSumTo100 | src/HealthcareDashboard.js:1363-1365 | before rounding, the rescaled shares total exactly 100 |
| CostDrivers.RoundedSumNear | src/HealthcareDashboard.js:1366-1369 | rounding moves the total by at most half a point per share |
| CostDrivers.RelevantCategoriesExamples | src/HealthcareDashboard.js:1403-1452 | "Diabetes" in any case, and the empty filter, select the diabetes categories |
| CostDrivers.ConditionAdjustments | src/HealthcareDashboard.js:1436-1448 | every relevant category gets +20 and every other category of the data −10 |
| CostDrivers.FallbackCostDriversWellFormed | src/HealthcareDashboard.js:188-300 | the fallback shares total 100 and none is 0 |
| CostDrivers.FilteredCostDrivers | src/HealthcareDashboard.js:1373-1535 | without data it is the fallback; with no filter it is the data; it always keeps length and categories; with an active filter each share is the share after the condition, age and gender stages and each cost is the first original driver of its category rescaled by the change of share; with a reshaping filter every share is a whole number in [0, 100] |
| CostDrivers.OtherFiltersOnlyRoundCosts | src/HealthcareDashboard.js:1522-1532 | with distinct categories and no reshaping filter, every driver keeps its share and its cost rounded to cents |
| TopConditions.LabelsOf | src/HealthcareDashboard.js:1542-1593 | no more labels than claims |
| TopConditions.BumpCounts | src/HealthcareDashboard.js:1589-1590 | one increment adds 1 to that name only and keeps the keys distinct |
| TopConditions.CountLabelsCounts | src/HealthcareDashboard.js:1542-1593 | after the loop every name's count is its number of occurrences among the labels, and the keys are distinct |
| TopConditions.CountLabelsKeys | src/HealthcareDashboard.js:1542-1593 | the keys are exactly the labels |
| TopConditions.CountConditions | src/HealthcareDashboard.js:1539-1593 | the counting loop builds exactly that dictionary, in insertion order |
| TopConditions.Ranked | src/HealthcareDashboard.js:1596-1599 | at most five entries, min(n, 5) of them, in non-increasing count, a sub-multiset of the entries |
| TopConditions.TopConditionsOf | src/HealthcareDashboard.js:1537-1613 | between 3 and 5 bars, ranked by count unless it is the fallback table |
| TopConditions.TopConditionsChart | src/HealthcareDashboard.js:1537-1613 | the chart computed with the loop is TopConditionsOf |
| TopConditions.TopConditionsAreRanked | src/HealthcareDashboard.js:1602-1612 | with five claims and three distinct labels the chart is the ranking itself |
| TopConditions.RankedAreCounts | src/HealthcareDashboard.js:1596-1599 | every bar is a label with its exact number of claims |
| TopConditions.RankedIsTop | src/HealthcareDashboard.js:1596-1599 | no label left out has more claims than the last bar |
| TopConditions.DiabetesVariantsCountTogether | src/HealthcareDashboard.js:1550-1581 | any condition containing "diabet" in any case is counted as "Diabetes" |
| PayerCoverage.Clamp | src/HealthcareDashboard.js:2054 | the clamp lands in [50, 100] and leaves a value already there unchanged |
| PayerCoverage.Stage | src/HealthcareDashboard.js:2047-2070 | a stage with a selected table adds each payer's adjustment (0 when the payer is not listed) and clamps to [50, 100]; without one it changes nothing; whole values stay whole |
| PayerCoverage.AdjustedCoverage | src/HealthcareDashboard.js:2032-2072 | the adjustments keep the payers and their order; each value is the rounded value plus the selected condition table's adjustment, clamped to [50, 100], then plus the age table's adjustment, clamped again, each stage only when its table is selected; whole values stay whole |
| PayerCoverage.FilteredCoverage | src/HealthcareDashboard.js:1930-2084 | payers and order are kept; with no filter the values are the source values rounded; otherwise every value is a whole percentage in [50, 100] within 2 points of the adjusted value clamped to [50, 100] |
| PayerCoverage.JitterWithinTwoPoints | src/HealthcareDashboard.js:2075-2083 | the random nudge moves a whole value in [50, 100] by at most 2 points |
| PayerCoverage.JitterNearClamp | src/HealthcareDashboard.js:2074-2083 | for any whole value, the nudged and rounded value is within 2 points of the value clamped to [50, 100] |
| PayerCoverage.UnmatchedFiltersOnlyJitter | src/HealthcareDashboard.js:2032-2083 | an unrelated condition and an unlisted age group leave only the nudge |
| Prediction.GenerateCostPrediction | src/HealthcareDashboard.js:2087-2155 | the prediction is the base cost times five factors, the interval is ±15%, the twelve months are the monthly base varied by the draws with a cumulative twelfth per month, confidence "85%", and the risk score |
| Prediction.PredictedCostPositive | src/HealthcareDashboard.js:302-340 | every factor lies in its table's range (an unknown condition gives 1.2, other unknowns 1), so the prediction is positive |
| Prediction.IntervalBracketsPrediction | src/HealthcareDashboard.js:2120-2121 | lower = 0.85·p ≤ p ≤ 1.15·p = upper |
| Prediction.CumulativeReachesAnnual | src/HealthcareDashboard.js:2128-2141 | the cumulative cost grows by p/12 a month and equals p in month 12 |
| Prediction.MonthlyVariationBounds | src/HealthcareDashboard.js:2131-2136 | each month's cost lies within ±10% of the monthly base |
| Prediction.AgeBuckets | src/HealthcareDashboard.js:2090-2095 | the buckets are ≤18, 19-35, 36-50, 51-65 and over 65, each as an if-and-only-if |
| Prediction.RiskScoreRange | src/HealthcareDashboard.js:2152 | the risk score lies between 25 and 112 |
| CsvExport.ExportAsCsv | src/HealthcareDashboard.js:2397-2420 | for filtered claims with no null entry, the built string is the header line followed by one joined row per claim, separated by newlines |
| CsvExport.QuotedIffTextWithComma | src/HealthcareDashboard.js:2412-2416 | a cell is quoted exactly when the value is a string with a comma (or itself starts with a quote), and the quotes enclose it unchanged |
| CsvExport.SplitJoin | src/HealthcareDashboard.js:2417-2420 | joining parts without the separator and splitting again gives the parts back |
| CsvExport.LinesOfExport | src/HealthcareDashboard.js:2397-2420 | when no value holds a newline the file splits into exactly the header and one line per claim |
| CsvExport.RowRoundTrip | src/HealthcareDashboard.js:2411-2417 | when no value holds a comma a row splits back into its eight cells, each string value as it was |
| CsvExport.InnerQuotesNotDoubled | src/HealthcareDashboard.js:2415 | `a",b` is written as `"a",b"`: inner quotes are not escaped |
| CsvLoad.GetDelimiter | server/server.js:134-145 | tab exactly when tabs strictly outnumber commas in the first 1000 characters; comma on a tie or a read error |
| CsvLoad.DelimiterReadsOnlyTheSample | server/server.js:136 | nothing after the first 1000 characters changes the choice |
| CsvLoad.TieGivesComma | server/server.js:140 | as many tabs as commas gives comma |
| CsvLoad.CleanRow | server/server.js:105-119 | the loop builds exactly the cleaned row |
| CsvLoad.LoadRows | server/server.js:105-124 | one cleaned record per parsed row, in order |
| CsvLoad.CleanedKeys | server/server.js:108-117 | the keys are exactly the trimmed keys of the columns that have a value |
| CsvLoad.CleanedValues | server/server.js:108-117 | each value is the trimmed value of the last column whose key trims to it, and is itself trimmed |
| ServerMetrics.LastValidCost | server/server.js:169-176 | a procedure's cost is positive exactly when some cost column parses to a positive number, else 0 |
| ServerMetrics.CalculateMetrics | server/server.js:148-197 | the loops compute exactly MetricsOf: distinct truthy patients or 1250, the summed last valid costs or 1250000, total over valid columns or 2500 |
| ServerMetrics.ValidFieldsMakeTotalPositive | server/server.js:167-182 | a valid cost column anywhere makes the total positive |
| ServerMetrics.MetricsPositive | server/server.js:184-191 | at least one patient, positive expenses and a positive average, always |
| ServerMetrics.EmptyDatasetsGiveFallback | server/server.js:184-205 | with no data the metrics equal the exception handler's {1250, 1250000, 2500} |
| ServerMetrics.CostPrecedence | server/server.js:170-176 | TOTAL_COST wins over COST, which wins over BASE_COST |
| ServerMetrics.AverageCountsColumns | server/server.js:170-188 | one procedure with BASE_COST 100 and COST 300 totals 300 but averages 150: the divisor counts columns |
| ServerDashboard.Candidates | server/server.js:224-237 | every candidate has a positive cost; the candidates are an order-preserving subsequence of the mapped listed records holding each positive-cost entry as many times as it occurs and nothing else |
| ServerDashboard.CandidatesFromRecords | server/server.js:224-237 | the candidates are exactly the positive-cost entries made from records with a description and a truthy cost column |
| ServerDashboard.ProceduresData | server/server.js:222-251 | with no candidate the fixed list; otherwise min(5, candidate count) candidates, at least one, in non-increasing cost, and no candidate is used more often than it occurs |
| ServerDashboard.FallbackNotSorted | server/server.js:244-250 | the fixed list is not in cost order |
| ServerDashboard.FallbackExactlyWhenNoCandidate | server/server.js:242-251 | the fixed list is shown exactly when there is no candidate |
| ServerDashboard.ProceduresAreTheCostliest | server/server.js:238-239 | no candidate left out costs more than the cheapest one kept |
| ServerDashboard.UnparsableFirstCostDrops | server/server.js:228-237 | a truthy BASE_COST that does not parse hides the later columns and the record is dropped |
| ServerDashboard.PayerCoverageData | server/server.js:254-277 | never empty and never "Unknown"; either the fixed list or a subsequence of the payers' values that holds every named payer; the fixed list when no payer is named, and otherwise each named entry exactly as many times as it occurs |
| ServerDashboard.CoveragePercentRange | server/server.js:257-263 | with non-negative amounts the value is a whole number in [0, 100] |
| ServerDashboard.CoveragePercentExtremes | server/server.js:257-263 | an uncovered payer shows 0, a fully covered one 100 |
| CityNames.FormatCityName | src/CityCostComparison.js:8-15 | a missing name gives ""; otherwise the result has the same length, and each '_' becomes ' ' and each segment's first character is upper-cased, the rest unchanged |
| CityNames.FormatHasNoUnderscore | src/CityCostComparison.js:10-14 | the result contains no underscore |
| CityNames.FormatIdempotent | src/CityCostComparison.js:10-14 | formatting a formatted name changes nothing |
| CityNames.FormatRows | src/CityCostComparison.js:18-21 | same length and order; each location becomes FormatCityName of the old one, and cost and claim count are unchanged |
| CityNames.FormatRowsIdempotent | src/CityCostComparison.js:18-21 | formatting the rows twice equals formatting them once |

## Left out

- Rendering, recharts, DOM effects, alerts (the alert is the boolean `ApplyFilters` returns), console logging and the tooltip are not modelled.
- The HTTP fetch, the Express routes, the file streams and the CSV parser library are not modelled. A failed fetch is `None`. A parsed CSV row is a list of column/value pairs, and an absent dataset is the empty sequence.
- `window.applyingFilters` and every `setTimeout` are not modelled. The effect's guard on them and on `isDataLoaded` is left out. `RecalculateMetrics` is the effect's body.
- `dataRefreshKey` and `lastUpdated` are not modelled; they carry no data logic.
- `generateSampleClaimsData` (client and server) and `getFilteredCityData` are not modelled: they are random. The sample claims are a parameter.
- `Math.random` is not modelled. Its draws are parameters: the payer-coverage nudge and the monthly variation.
- The clock is abstract. `new Date(claim.date)` is `Clock.readDate`. The 3, 6 and 12 month cutoffs, which depend on `setMonth` overflow and the time of day, are an abstract predicate of the clock. Only `current_month` and `last_month` are computed.
- `parseFloat` and number-to-string conversion are parameters.
- Floating point is real arithmetic. Bit-exact double rounding and `toFixed` are not modelled.
- Case conversion is ASCII only.
- JavaScript prototype keys (a condition such as `"constructor"` finding an inherited member) are not modelled. Lookup tables are plain finite maps or ordered lists.
- The JSON, Excel and PDF exports and `downloadFile` are not modelled: they are side effects. Only the CSV text is.
- Dashboard.DashboardState.ApplyFilters: requires that no null claim survives the filters. With every filter "all" the unfiltered list, nulls included, reaches the `forEach`, which throws on a null.
- Dashboard.DashboardState.RecalculateMetrics: requires the same, for the same reason.
- ServerMetrics.CalculateMetrics: its exception handler cannot be reached with typed inputs. `EmptyDatasetsGiveFallback` shows it would return the same values as empty data.
- CostDrivers.FilteredCostDrivers: requires every source share to be non-zero. A zero share makes JavaScript divide by zero and produce an infinite or NaN cost, which reals cannot express.
- CsvExport.ExportAsCsv: requires that no claim is null. With every filter "all" the export receives the unfiltered list, nulls included, and `claim[header]` throws a TypeError on a null entry.
- Claims.Clock: a claim's date is read as a calendar day, so its time of day is lost. The rolling-window cutoffs are a predicate of that day, while the source compares the full instant of the claim with the cutoff instant.
- TopConditions.CountLabels: keeps labels in order of first appearance. `Object.entries` lists integer-like keys (such as "123") first, in ascending numeric order, so ties between such a label and others may rank differently in the source.
- Sequences.SortDesc: the stable sort is a value-level insertion sort on sequences. The in-place `Array.prototype.sort` is not modelled.
- `getFilteredClaimsData` is modelled once, as `ClaimFilter.FilterClaims`: it is a verbatim copy of `getFilteredClaimsDataWithFilters` bound to the selected filters.
- `calculateFilteredMetrics` is modelled (`Kpi.FilteredMetrics`) although nothing in the component calls it.
- The server's fixed procedures and payer-coverage lists are the same values as the client's fallback tables, and the model uses those constants.
- `src/simpledashboard.js` is not part of this model. It is a display component whose one age-group filter is the rule `Charts.FilteredExpenses` models.

## Findings

| source | as written | input that shows it | evidently intended | confidence | as-written member | corrected member |
|---|---|---|---|---|---|---|
| src/HealthcareDashboard.js:3877-3895 | "Simplify Filters" stores the simplified filters in `selectedFilters`, then its delayed `applyFilters()` copies the unchanged `tempFilters` over them (2218-2220, 2292) | `tempFilters` = `selectedFilters` = age group "19-35", gender "female", race "white" | the first two active filters (age group and gender) stay in force and AND mode applies | not executed | Dashboard.DashboardState.SimplifyFiltersAsWritten, Dashboard.SimplifyDropsThird | Dashboard.DashboardState.SimplifyFilters |

Other behaviour the model makes explicit, as the code does it:

- Single-claim fallback (`Kpi.KpisOfSingleClaim`). A selection that matches a single claim shows 0.85 × the baselines, not that claim.
- `last_month` on 31 March (`Claims.LastMonthOnMarch31`, `ClaimFilter.FirstOfMonthBuckets`). On 31 March, `last_month` designates March.
- Server average (`ServerMetrics.AverageCountsColumns`). The server's average divides by valid cost columns, not by procedures.
- Procedures fallback order (`ServerDashboard.FallbackNotSorted`). The server's fixed procedures list is not in cost order, although the computed list is.
- CSV quoting (`CsvExport.InnerQuotesNotDoubled`). The export does not double quotes inside quoted fields.
