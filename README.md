# Personal Finance Agent: the deterministic analytics core in Dafny

This project models the deterministic parts of the Personal Finance Agent backend. It proves properties of those parts. The pieces modelled are:

- **Budget summary.** Income, expenses, net savings, savings rate and a per-category breakdown.
- **Classification and benchmarking.** Fixed and discretionary classification, 50/30/20 benchmarks, and per-category benchmark status and advice.
- **Two other aggregators.** The spending summary of the data processor (signed raw sums) and the statistics of the transactions route. That route counts positive amounts as income and negative amounts as expenses, and its percentages are fractions.
- **Per-category anomaly finder.** A z-score test per category.
- **Monthly budget projector.** A proportional cut towards a savings target.
- **Rule-based fraud screening.** A magnitude outlier rule and a rapid-succession rule. Also the line-by-line reader of a free-text fraud reply, and the merge of rule hits with parsed hits.
- **Advice rules of the budget route.**
- **Deterministic helpers inside the budget and investment agents.** Spending patterns, the newest-20 selection and the section-switching reply readers. Also the 0.9 fallback limits, allocation normalisation, sentiment banding and the portfolio value convention.
- **Portfolio arithmetic and an owned-asset store.** The store is a map from id to asset.
- **Small utilities.** Recursive ObjectId-to-text conversion, `full_name` and the id handling of `model_dump`.

Each core source file is one module:

| module | source file |
|---|---|
| `FinanceService` | `finance_service.py` |
| `DataProcessor` | `data_processor.py` |
| `FraudAgent` | `fraud_agent.py` |
| `BudgetAgent` | `budget_agent.py` |
| `InvestmentAgent` | `investment_agent.py` |
| `TransactionRoutes` | `transactions.py` |
| `BudgetRoutes` | `budget.py` |
| `PortfolioModel` | `portfolio.py` |
| `PortfolioService` | `portfolio_service.py` |
| `JsonUtil` | `json.py` |
| `UserModel` | `user.py` |

Shared modules:

- `Domain`: the 14-value `Category` enum and the `Transaction` record.
- `Sums`: generic folds, filters and group-by sums.
- `Stats`: mean, sample variance and the z-score bound.
- `Text`: ASCII string helpers such as split, strip, lower-case and words.
- `Ordering`: a stable insertion sort and a prefix.
- `Reading`: token scanning shared by the reply readers.

**Conventions:**

- **Number and time types.** Amounts are `real`. Timestamps are integer seconds.
- **Loops.** Where the source fills a dict or list in a loop, the model is a `method` with that loop. It is proved equal to a specification function, and the properties are lemmas about that function.
- **Store-backed operations.** These are classes over a `map`: `TransactionStore` and `PortfolioStore`.
- **Standard deviations without square roots.** Comparisons with a standard deviation are written on squares: `|d| > t * sqrt(v)` becomes `d * d > t * t * v`.
- **LLM replies.** Every reply from the LLM is an input string.
- **The clock.** The current time is an input `now`.
- **Number parsing.** Python's `float()` on a token is an input function `parse: string -> Option<real>`.
- **Sign convention.** The source uses three different sign conventions for expenses. Each module keeps its own file's convention rather than one shared convention:
  - `finance_service.py` takes the absolute value of the signed non-income sum;
  - `data_processor.py` and `budget_agent.py` use the signed raw sum;
  - `transactions.py` uses the magnitudes of the negative amounts.
- **`current_value`.** Each module also keeps its own file's meaning. It is per unit in `portfolio.py` and `portfolio_service.py`, and a total in `investment_agent.py`.

## Model

| member | source | states |
|---|---|---|
| FinanceService.SummaryOf | app/services/finance_service.py:52-100 | net savings is income minus expenses; expenses are non-negative; the savings rate is 0 when income is not positive; breakdown keys are exactly the non-income categories present, each amount non-negative; an empty list gives zero income, expenses and rate |
| FinanceService.CalculateBudgetSummary | app/services/finance_service.py:52-100 | the imperative summary equals `SummaryOf` |
| FinanceService.BreakdownByCategory | app/services/finance_service.py:83-92 | the breakdown loop builds exactly the specified per-category magnitude and share map |
| FinanceService.SignedMagnitude | app/services/finance_service.py:78 | when all expense amounts share one sign, the absolute value of their sum is their signed sum or its negation |
| FinanceService.MagnitudesTotal | app/services/finance_service.py:78-92 | with one-signed expenses the category magnitudes add up to the absolute total |
| FinanceService.BreakdownAmountsTotal | app/services/finance_service.py:76-92 | with one-signed expenses the breakdown amounts sum to `total_expenses` |
| FinanceService.BreakdownShares | app/services/finance_service.py:88-91 | each category percentage is its amount over total expenses times 100 |
| FinanceService.SharesScale | app/services/finance_service.py:88-91 | a share of amount over e times 100 equals the amount times the common scale 100/e |
| FinanceService.SharesSumTo100 | app/services/finance_service.py:88-91 | scaled shares of amounts that sum to e add up to 100 |
| FinanceService.SharesOfSignedTotal | app/services/finance_service.py:78-92 | with one-signed expenses and a positive total, the breakdown percentages sum to 100 |
| FinanceService.PercentagesSumTo100 | app/services/finance_service.py:76-92 | the summary's percentages sum to 100 whenever the expenses are one-signed and positive |
| FinanceService.PercentagesZeroWithoutExpenses | app/services/finance_service.py:88-91 | with zero expenses every percentage is 0 |
| FinanceService.MixedSignExpenses | app/services/finance_service.py:76-80 | a -100 food and a +50 shopping row are both expenses with signed sum -50 |
| FinanceService.MixedSignGroups | app/services/finance_service.py:83-92 | that pair groups into food -100 and shopping +50 |
| FinanceService.MixedSignDetails | app/services/finance_service.py:86-92 | their details are food (100, 200%) and shopping (50, 100%) |
| FinanceService.MixedSignBreakdown | app/services/finance_service.py:83-92 | the whole breakdown of the pair is food (100, 200%) and shopping (50, 100%) |
| FinanceService.MixedSignPercentages | app/services/finance_service.py:76-92 | with mixed signs expenses are 50 while the percentages are 200 and 100, so they do not sum to 100 |
| FinanceService.GroupOf | app/services/finance_service.py:102-144 | a group's breakdown is exactly the summary breakdown restricted to its member categories, and its percent of income is 0 when income is not positive |
| FinanceService.CollectMembers | app/services/finance_service.py:104-111 | the accumulation loop yields the restricted breakdown and the sum of its amounts |
| FinanceService.RestrictCollected | app/services/finance_service.py:104-111 | a map with the members' keys and the breakdown's values is the restriction |
| FinanceService.ClassifyExpenses | app/services/finance_service.py:102-144 | classification by a member set equals `GroupOf` |
| FinanceService.ClassifyFixedExpenses | app/services/finance_service.py:102-122 | fixed expenses are the group of housing, utilities and debt |
| FinanceService.ClassifyDiscretionaryExpenses | app/services/finance_service.py:124-144 | discretionary expenses are the group of the discretionary categories |
| FinanceService.ClassesPartition | app/services/finance_service.py:104-129 | fixed and discretionary categories are disjoint, and exactly savings, investment and income are in neither |
| FinanceService.RestrictSplit | app/services/finance_service.py:104-133 | the total over a union of disjoint member sets is the sum of the two totals |
| FinanceService.RestrictToAll | app/services/finance_service.py:104-133 | restricting to every category changes nothing |
| FinanceService.RestrictThree | app/services/finance_service.py:104-133 | the totals over three disjoint covering sets add up to the full total |
| FinanceService.ThreeWaySplit | app/services/finance_service.py:104-133 | fixed, discretionary and the remaining categories add up to the whole breakdown |
| FinanceService.ClassifiedTotals | app/services/finance_service.py:104-133 | fixed total plus discretionary total plus the rest equals the breakdown total |
| FinanceService.CalculateBudgetBenchmarks | app/services/finance_service.py:146-160 | needs, wants and savings add up to income in ratio 5:3:2, tagged "50/30/20" |
| FinanceService.TableEntry | app/services/finance_service.py:167-181 | every category except income has a benchmark with 0 <= min < max |
| FinanceService.Round1 | app/services/finance_service.py:190 | the rounded value is a multiple of 0.1 within 0.05 of the input |
| FinanceService.StatusFor | app/services/finance_service.py:199-208 | `below` iff p < min, `above` iff min <= p and p > max |
| FinanceService.AdviceFor | app/services/finance_service.py:199-221 | the advice position is the status and names the benchmark; a category note appears only off-normal |
| FinanceService.ReportedBenchmark | app/services/finance_service.py:224-233 | investment reports the range 10-20; every other category its table range |
| FinanceService.AnalysisFor | app/services/finance_service.py:184-242 | percent of income is the rounded share; the reported range is the table's (investment widened to 20); status is `below`/`above` against that range exactly as the inequalities say; the advice is chosen against the table entry |
| FinanceService.AnalysisOf | app/services/finance_service.py:162-244 | income not positive gives only the error marker; otherwise the keys are the breakdown keys and each entry is that category's analysis at its breakdown amount |
| FinanceService.AnalyzeCategory | app/services/finance_service.py:187-242 | the per-category loop body equals `AnalysisFor` |
| FinanceService.AnalyzeCategories | app/services/finance_service.py:162-244 | the imperative analysis equals `AnalysisOf` |
| FinanceService.StatusAgreesWithAdvice | app/services/finance_service.py:196-233 | outside investment the status is the table status and equals the advice's position |
| FinanceService.InvestmentAdviceDisagreesWithStatus | app/services/finance_service.py:211-233 | for investment with 15 < p <= 20 the status is `normal` and max 20, yet the advice says above typical ranges |
| FinanceService.IncomeDefaultIsAbove | app/services/finance_service.py:167-192 | a category without a table entry and positive rounded share is `above` |
| FinanceService.AnalyzeSpendingPatterns | app/services/finance_service.py:246-270 | empty input gives the not-enough-data marker; otherwise summary, both groups, benchmarks and analysis are the specified values |
| DataProcessor.PercentagesOf | app/utils/data_processor.py:115-119 | percentages have the spending keys and are all 0 when expenses are not positive |
| DataProcessor.SpendingOf | app/utils/data_processor.py:91-128 | net savings is income minus expenses; the rate is 0 without income; categories are the non-income ones present; percentages share their keys and are 0 without positive expenses |
| DataProcessor.CalculateSpendingByCategory | app/utils/data_processor.py:91-128 | the imperative summary equals `SpendingOf` |
| DataProcessor.FillPercentages | app/utils/data_processor.py:118-119 | the percentage loop builds `PercentagesOf` |
| DataProcessor.PercentagesScale | app/utils/data_processor.py:118-119 | each percentage is the amount times 100/e |
| DataProcessor.ScaledTotal | app/utils/data_processor.py:118-119 | amounts summing to e scale to percentages summing to 100 |
| DataProcessor.GroupSharesSumTo100 | app/utils/data_processor.py:106-119 | the category shares of a positive signed total sum to 100 |
| DataProcessor.SpendingPercentagesSumTo100 | app/utils/data_processor.py:106-119 | with positive expenses the category percentages sum to exactly 100 |
| DataProcessor.SpendingAddsUp | app/utils/data_processor.py:104-106 | the category sums add up to the total expenses |
| DataProcessor.AnomalyOf | app/utils/data_processor.py:176-186 | `is_high` holds iff the amount exceeds the category mean |
| DataProcessor.Flagged | app/utils/data_processor.py:171-186 | every record is that of a row whose absolute z-score exceeds the threshold for the given mean and variance, and a row's record is present iff its absolute z-score exceeds the threshold |
| DataProcessor.FlaggedAppend | app/utils/data_processor.py:174-186 | appending a row keeps the records sound and keeps a row's record present iff the row is beyond the threshold |
| DataProcessor.SameRecordBeyond | app/utils/data_processor.py:174-182 | two rows with the same record are beyond the threshold together |
| DataProcessor.FlaggedIndices | app/utils/data_processor.py:174 | the positions of the rows beyond the threshold, strictly increasing, holding a row iff it is beyond |
| DataProcessor.FlaggedInRowOrder | app/utils/data_processor.py:174-186 | the i-th record is the record of the i-th row beyond the threshold: one record per such row, in row order |
| DataProcessor.GroupAnomalies | app/utils/data_processor.py:156-186 | no records for fewer than 3 rows or a deviation under 0.0001; otherwise each record carries the category's own mean and sample variance, and a row's record is present iff its absolute z-score against them exceeds the threshold |
| DataProcessor.CategoryFoundReported | app/utils/data_processor.py:155-186 | every record found for category c is the record of an anomalous expense row of c, with its category's statistics |
| DataProcessor.CategoryFoundComplete | app/utils/data_processor.py:155-186 | every anomalous expense row of category c has its record among those found for c |
| DataProcessor.GroupMember | app/utils/data_processor.py:174-186 | a row of an examined category beyond the threshold has its record among the category's anomalies |
| DataProcessor.AnomaliesOver | app/utils/data_processor.py:155-186 | over a list of categories, every record is that of an anomalous row of one of them, and every anomalous row of those categories has its record there |
| DataProcessor.OverAppend | app/utils/data_processor.py:155-186 | appending one category's records keeps both soundness and completeness |
| DataProcessor.AnomaliesOf | app/utils/data_processor.py:131-188 | fewer than 5 rows give none; every record is that of an anomalous non-income row, with the mean and sample variance of that row's category among the expense rows; with 5 rows or more every anomalous expense row has its record reported |
| DataProcessor.ExpenseAnomalies | app/utils/data_processor.py:148-186 | the category loop over the expense rows reports only non-income rows, and the record of every anomalous expense row |
| DataProcessor.SameRecordAnomalous | app/utils/data_processor.py:155-186 | two rows with the same record are anomalous together |
| DataProcessor.AnomaliesExactly | app/utils/data_processor.py:131-188 | with 5 rows or more, an expense row's record is reported iff its category has at least 3 rows and a deviation of at least 0.0001 and its absolute z-score exceeds the threshold |
| DataProcessor.FlagRows | app/utils/data_processor.py:171-186 | the row loop yields `Flagged` |
| DataProcessor.CategoryAnomalies | app/utils/data_processor.py:156-186 | the per-category body yields `GroupAnomalies` |
| DataProcessor.IdentifySpendingAnomalies | app/utils/data_processor.py:131-188 | the imperative finder equals `AnomaliesOf` |
| DataProcessor.AnomaliesByCategory | app/utils/data_processor.py:153-186 | the category loop equals `AnomaliesOver` |
| DataProcessor.ThresholdAtLeastTwo | app/utils/data_processor.py:174 | a deviation beyond t >= 2 sigmas is beyond 2 sigmas |
| DataProcessor.NothingFlagged | app/utils/data_processor.py:174-186 | when no row exceeds the threshold nothing is flagged |
| DataProcessor.SmallCategoryHasNoAnomaly | app/utils/data_processor.py:159-174 | a category of 3 to 5 rows yields no anomaly at the default threshold 2 or above |
| Stats.SampleVariance | app/utils/data_processor.py:164 | the sample variance is non-negative |
| Stats.CauchySchwarz | app/utils/data_processor.py:163-171 | the squared total deviation from c is at most n times the squared deviations |
| Stats.SumByPermutation | app/agents/fraud_agent.py:134-138 | sums are invariant under reordering |
| Stats.DeviationBound | app/utils/data_processor.py:163-171 | n times one squared deviation is at most (n-1) times the sum of squared deviations |
| Stats.ZScoreBound | app/utils/data_processor.py:163-174 | when (n-1)^2 <= t^2 n, no value is more than t sample standard deviations from the mean |
| Stats.NoTwoSigmaValueInFive | app/utils/data_processor.py:163-174 | in 2 to 5 values none is beyond two standard deviations |
| Stats.NoThreeSigmaValueInTen | app/agents/fraud_agent.py:138-142 | in 2 to 10 values none is above three standard deviations |
| DataProcessor.ReductionFactor | app/utils/data_processor.py:213-215 | the factor is 1 unless expenses exceed available and are positive, then factor times expenses is available; in [0, 1] when available >= 0 |
| DataProcessor.LimitsOf | app/utils/data_processor.py:218-221 | limits have exactly the spending keys |
| DataProcessor.MonthlyBudgetOf | app/utils/data_processor.py:191-230 | income is the summary's; target savings is income times the percent over 100; target savings plus available budget is income; reduction needed iff expenses exceed available; each limit is spending times the factor |
| DataProcessor.CalculateMonthlyBudget | app/utils/data_processor.py:191-230 | the imperative projector equals `MonthlyBudgetOf` |
| DataProcessor.ScaleLimits | app/utils/data_processor.py:218-221 | the limits loop builds `LimitsOf` |
| DataProcessor.LimitsTotal | app/utils/data_processor.py:218-221 | scaling amounts that sum to e by f with f e = available gives limits summing to available |
| DataProcessor.LimitsSumToAvailable | app/utils/data_processor.py:207-221 | when a cut is applied the limits sum to the available budget |
| DataProcessor.CutLimitsTotal | app/utils/data_processor.py:207-221 | for any summary whose category sums equal its expenses, a cut makes the limits sum to the available budget |
| FraudAgent.OutlierHits | app/agents/fraud_agent.py:137-149 | every outlier hit is rule-based, of Medium risk, on a stored id |
| FraudAgent.OutlierHitsMembers | app/agents/fraud_agent.py:137-149 | a detection is an outlier hit iff some row's amount is outlying |
| FraudAgent.OutlierHitsNone | app/agents/fraud_agent.py:142-149 | no outlying row gives no hit |
| FraudAgent.RapidHits | app/agents/fraud_agent.py:151-162 | every rapid hit is rule-based, of Low risk, on a stored id |
| FraudAgent.RapidHitsMembers | app/agents/fraud_agent.py:152-161 | a detection is a rapid hit iff some row follows its predecessor by more than 0 and under 10 minutes |
| FraudAgent.TimeOrder | app/agents/fraud_agent.py:134 | the rows are a permutation of the input sorted by timestamp |
| FraudAgent.RuleHits | app/agents/fraud_agent.py:116-164 | 3 or fewer transactions give no hit; all hits are rule-based on stored ids |
| FraudAgent.RuleBasedDetection | app/agents/fraud_agent.py:116-164 | the imperative two-pass detection equals `RuleHits` |
| FraudAgent.RowPasses | app/agents/fraud_agent.py:137-162 | both passes over the sorted rows append their hits in order |
| FraudAgent.OutlierPass | app/agents/fraud_agent.py:137-149 | the outlier loop appends exactly `OutlierHits` |
| FraudAgent.OutlierHitsStep | app/agents/fraud_agent.py:142-149 | one more row adds its hit exactly when it is outlying |
| FraudAgent.RapidPass | app/agents/fraud_agent.py:151-162 | the rapid loop appends exactly `RapidHits` |
| FraudAgent.SumOfAmounts | app/agents/fraud_agent.py:138 | the amount column sums to the sum of amounts |
| FraudAgent.TimeOrderKeepsMean | app/agents/fraud_agent.py:134-138 | sorting by time does not change the mean amount |
| FraudAgent.SmallSampleThreshold | app/agents/fraud_agent.py:138-142 | with 4 or 5 transactions one is an outlier iff its amount exceeds 2.5 times the mean |
| FraudAgent.SmallSampleHit | app/agents/fraud_agent.py:138-149 | with 4 or 5 values a row is hit iff its amount exceeds 2.5 times the mean |
| FraudAgent.SmallOutlying | app/agents/fraud_agent.py:139-140 | the 0.5-mean stand-in makes the threshold 2.5 times the mean |
| FraudAgent.NoOutliersUpToTen | app/agents/fraud_agent.py:138-162 | with 6 to 10 transactions only rapid hits remain |
| FraudAgent.EarliestNeverRapid | app/agents/fraud_agent.py:153-154 | the earliest transaction is never flagged rapid |
| FraudAgent.OutliersBeforeRapid | app/agents/fraud_agent.py:142-162 | outlier hits come before rapid hits: after a Low-risk hit only Low-risk hits follow |
| FraudAgent.FirstNumberIsFirst | app/agents/fraud_agent.py:210-226 | the id read from an opening line is the value of its first all-digit word, or none when it has none |
| FraudAgent.ReadNumber | app/agents/fraud_agent.py:215-220 | the word loop returns the first number |
| FraudAgent.ClassifyCases | app/agents/fraud_agent.py:206-239 | a stripped line opens an entry, sets a risk, or is reason text, in that order of precedence |
| FraudAgent.FlushParsed | app/agents/fraud_agent.py:210-248 | flushing keeps every entry LLM-detected with a trimmed reason |
| FraudAgent.ApplyParsed | app/agents/fraud_agent.py:206-239 | one line keeps every found entry in that shape |
| FraudAgent.RunEntries | app/agents/fraud_agent.py:202-248 | the scan over any lines keeps every entry in that shape |
| FraudAgent.ParsedKinds | app/agents/fraud_agent.py:202-248 | every parsed entry is LLM-detected with a trimmed reason |
| FraudAgent.ParsedHits | app/agents/fraud_agent.py:191-250 | every entry of the parsed reply is LLM-detected with a trimmed reason |
| FraudAgent.ProcessLlmResponse | app/agents/fraud_agent.py:191-250 | the imperative reader equals `ParsedHits` |
| FraudAgent.ReadLine | app/agents/fraud_agent.py:204-239 | the loop body advances the parser state exactly as one step |
| FraudAgent.OpenEntry | app/agents/fraud_agent.py:210-226 | an opening line flushes the open entry and starts a new one |
| FraudAgent.SetRisk | app/agents/fraud_agent.py:229-235 | a risk line sets the named level, otherwise keeps it |
| FraudAgent.ClassifyNames | app/agents/fraud_agent.py:210-226 | a line names number n iff it is an opening line with id n |
| FraudAgent.OpenedIsNamed | app/agents/fraud_agent.py:210-226 | an opened id is named by some reply line |
| FraudAgent.OpenIdNamed | app/agents/fraud_agent.py:210-226 | the open id was opened by an earlier line |
| FraudAgent.IdsCarried | app/agents/fraud_agent.py:210-248 | one step keeps every found id opened earlier |
| FraudAgent.ScanIdsNamed | app/agents/fraud_agent.py:202-248 | every found id was opened by an earlier line |
| FraudAgent.KindsIdsOpened | app/agents/fraud_agent.py:202-248 | every parsed id was opened by some line |
| FraudAgent.ParsedFromLines | app/agents/fraud_agent.py:193-199 | the parse is empty or the scan of the reply's lines |
| FraudAgent.ParsedIdsNamed | app/agents/fraud_agent.py:191-250 | every parsed id is named by a line of the reply |
| FraudAgent.RunKeepsMedium | app/agents/fraud_agent.py:208-248 | without risk lines the risk stays Medium for all entries |
| FraudAgent.KindsRiskMedium | app/agents/fraud_agent.py:208-248 | without risk lines every parsed entry is Medium |
| FraudAgent.DefaultRiskMedium | app/agents/fraud_agent.py:208-248 | if no line mentions risk, every parsed entry has risk Medium |
| FraudAgent.OpenAfter | app/agents/fraud_agent.py:210-226 | after an opening line with an id, an entry stays open |
| FraudAgent.StaysOpen | app/agents/fraud_agent.py:210-226 | a reply with an opening line ends with an open entry |
| FraudAgent.ParsedIsFlushed | app/agents/fraud_agent.py:196-248 | without the no-suspicious phrase the result is the final flush of the scan |
| FraudAgent.LastEntryFlushed | app/agents/fraud_agent.py:242-248 | the entry still open at the end is appended as the last result |
| FraudAgent.NewHits | app/agents/fraud_agent.py:263-266 | appended hits come from the reply, carry unseen ids, and cover every reply id |
| FraudAgent.NewHitsDistinct | app/agents/fraud_agent.py:263-266 | no appended id repeats |
| FraudAgent.NewHitsAppend | app/agents/fraud_agent.py:263-266 | one more reply hit is appended iff its id is not yet seen |
| FraudAgent.NewHitsStep | app/agents/fraud_agent.py:263-266 | a prefix step of the merge loop appends the hit iff unseen and adds its id |
| FraudAgent.AppendFresh | app/agents/fraud_agent.py:264-266 | appending an unseen id keeps ids distinct |
| FraudAgent.Merged | app/agents/fraud_agent.py:252-268 | rule hits are an unchanged prefix; appended hits come from the reply with ids not among rule hits and not repeated; all ids are covered |
| FraudAgent.MergeDetectionResults | app/agents/fraud_agent.py:252-268 | the imperative merge equals `Merged` |
| FraudAgent.CopyRuleHits | app/agents/fraud_agent.py:258-260 | the first loop copies the rule hits and records their ids |
| FraudAgent.AppendNewHits | app/agents/fraud_agent.py:263-266 | the second loop appends exactly the new hits |
| FraudAgent.RuleIdsNeverBlock | app/agents/fraud_agent.py:99-106 | since parsed ids are numbers and rule ids are ObjectIds, rule hits never block a parsed hit |
| FraudAgent.FraudAnalysisOf | app/agents/fraud_agent.py:61-114 | the status is always "completed" |
| FraudAgent.AnalyzeTransactions | app/agents/fraud_agent.py:61-114 | the imperative analysis equals `FraudAnalysisOf` |
| FraudAgent.ReportAddsEveryParsedId | app/agents/fraud_agent.py:74-106 | when the reply is consulted, the report is the rule hits followed by the new parsed hits, covering every parsed id |
| FraudAgent.FewTransactionsSkipReply | app/agents/fraud_agent.py:70-114 | 1 to 3 transactions never consult the reply and report nothing, rule-based only |
| BudgetAgent.MonthOf | app/agents/budget_agent.py:138-139 | a row's month is between 1 and 12 |
| BudgetAgent.TrendsOf | app/agents/budget_agent.py:142-145 | trends have exactly the expense categories present |
| BudgetAgent.PatternsOf | app/agents/budget_agent.py:109-156 | the summary is the data processor's; trend keys are the category keys; monthly keys are the expense months |
| BudgetAgent.MonthlySumsToExpenses | app/agents/budget_agent.py:138-139 | monthly spending sums to the total expenses |
| BudgetAgent.TrendSumsToCategory | app/agents/budget_agent.py:142-145 | each category's month trend sums to its category spending |
| BudgetAgent.AnalyzeSpendingPatterns | app/agents/budget_agent.py:109-156 | the imperative analysis equals `PatternsOf` |
| BudgetAgent.FillTrends | app/agents/budget_agent.py:142-145 | the trend loop builds `TrendsOf` |
| BudgetAgent.RecentTransactions | app/agents/budget_agent.py:158-161 | at most 20 rows, in non-increasing timestamp order |
| BudgetAgent.RecentAreNewest | app/agents/budget_agent.py:161 | the selection is a sub-multiset and no left-out row is newer than a selected one |
| BudgetAgent.LimitEntryShape | app/agents/budget_agent.py:230-248 | lines without ':' or without '$' and '%' give no limit; a limit has a non-empty lower-case key and a non-zero value |
| BudgetAgent.ClassifyPlanCases | app/agents/budget_agent.py:210-227 | a stripped line is blank, a section header, or a body line carrying its limit entry and category line |
| BudgetAgent.PlanKinds | app/agents/budget_agent.py:205-210 | one classified kind per reply line |
| BudgetAgent.FallbackOverEntries | app/agents/budget_agent.py:272-278 | the fallback holds exactly an entry per category with spending, at its fallback value |
| BudgetAgent.ProcessBudgetResponse | app/agents/budget_agent.py:193-280 | the imperative reader equals `PlanOf` |
| BudgetAgent.ReadReply | app/agents/budget_agent.py:205-269 | the line loop equals the specified scan |
| BudgetAgent.ReadPlanLine | app/agents/budget_agent.py:208-269 | one iteration advances the state as one step |
| BudgetAgent.ReadSectionLine | app/agents/budget_agent.py:230-269 | a body line updates the current section's content as specified |
| BudgetAgent.FillFallback | app/agents/budget_agent.py:272-278 | the fallback loop builds `FallbackLimits` |
| BudgetAgent.BudgetPlanOf | app/agents/budget_agent.py:62-107 | no plan and status "error" iff there are no transactions |
| BudgetAgent.CreateBudgetPlan | app/agents/budget_agent.py:62-107 | the imperative planner equals `BudgetPlanOf` |
| BudgetAgent.SavingsTargetIgnored | app/agents/budget_agent.py:196-199 | the plan does not depend on the savings target, and recommended savings are 0.2 times income |
| BudgetAgent.CategoryHeaderShadowed | app/agents/budget_agent.py:220-227 | every category-advice header also passes the earlier general-advice test |
| BudgetAgent.CategoryLineKeeps | app/agents/budget_agent.py:255-269 | a category-advice line leaves limits and general advice alone |
| BudgetAgent.ClassifyNeverCategory | app/agents/budget_agent.py:216-227 | no line is classified as the category-advice header |
| BudgetAgent.KindsNeverCategory | app/agents/budget_agent.py:216-227 | no classified reply line is that header |
| BudgetAgent.RunNeverCategory | app/agents/budget_agent.py:208-269 | the scan never enters the category section and collects no category advice |
| BudgetAgent.ScanNeverCategory | app/agents/budget_agent.py:205-269 | the same holds for any list of reply lines |
| BudgetAgent.CategoryAdviceAlwaysEmpty | app/agents/budget_agent.py:193-280 | the parsed plan's category advice is always empty |
| BudgetAgent.ClassifyShaped | app/agents/budget_agent.py:230-253 | every classified body carries a well-shaped limit entry |
| BudgetAgent.ApplyShapes | app/agents/budget_agent.py:230-253 | one step keeps general advice and limits well-shaped |
| BudgetAgent.RunShapes | app/agents/budget_agent.py:208-269 | the scan keeps them well-shaped |
| BudgetAgent.ParsedPlanShapes | app/agents/budget_agent.py:193-280 | general advice is well-shaped; parsed limits, when any, are the plan's limits and well-shaped |
| BudgetAgent.InStripped | app/agents/budget_agent.py:210 | a character of the stripped line occurs in the raw line |
| BudgetAgent.ClassifyNoAmount | app/agents/budget_agent.py:232 | a line without '$' and '%' carries no limit entry |
| BudgetAgent.ApplyKeepsLimits | app/agents/budget_agent.py:230-248 | a step without an entry leaves the limits unchanged |
| BudgetAgent.RunKeepsLimits | app/agents/budget_agent.py:208-269 | a scan without entries collects no limits |
| BudgetAgent.NoAmountKinds | app/agents/budget_agent.py:232 | a reply without '$' and '%' classifies to no entry |
| BudgetAgent.NoAmountsNoLimits | app/agents/budget_agent.py:230-248 | such a reply parses no limits |
| BudgetAgent.NoAmountsMeansFallback | app/agents/budget_agent.py:272-278 | such a reply falls back to 0.9 times historical spending |
| BudgetAgent.FallbackCovers | app/agents/budget_agent.py:272-278 | the fallback holds 0.9 times each category's spending and nothing else |
| BudgetAgent.FallbackCutsTenPercent | app/agents/budget_agent.py:272-278 | for any transactions the fallback is each spending category cut by 10% |
| BudgetRoutes.GetBudgetSummary | app/api/routes/budget.py:13-23 | no transactions gives the no-data message; otherwise the summary |
| BudgetRoutes.AdviceOf | app/api/routes/budget.py:25-112 | no transactions gives the not-enough-data advice; income not positive makes the handler fail; otherwise a report on the summary |
| BudgetRoutes.GetBudgetAdvice | app/api/routes/budget.py:25-112 | the imperative handler equals `AdviceOf` |
| BudgetRoutes.AdviseOn | app/api/routes/budget.py:40-112 | the threshold checks and category loop build the specified report |
| BudgetRoutes.CategoryAdvice | app/api/routes/budget.py:81-96 | the category loop appends the category insights and tips |
| BudgetRoutes.AddTip | app/api/routes/budget.py:87-96 | at most one tip is appended, the one for the category and status |
| BudgetRoutes.CategoryInsightsExact | app/api/routes/budget.py:81-84 | one insight, carrying its advice, per category whose status is not normal, and no repeats |
| BudgetRoutes.CategoryTipsExact | app/api/routes/budget.py:87-96 | one tip per category whose status earns one, and no repeats |
| BudgetRoutes.TipNeedsStatus | app/api/routes/budget.py:87-96 | a tip exists iff housing, food, transport or shopping is above, or savings or investment is below |
| BudgetRoutes.CategoryLoopKinds | app/api/routes/budget.py:81-96 | the loop adds only category insights and category tips |
| BudgetRoutes.RuleInsightsFirst | app/api/routes/budget.py:55-78 | with income the first three insights are needs (> 50), wants (> 30) and savings (< 20), and the rest are category insights |
| BudgetRoutes.CategoryKindsAfter | app/api/routes/budget.py:81-84 | after the prefix only category insights follow |
| BudgetRoutes.RuleRecommendationsExact | app/api/routes/budget.py:58-78 | each of needs > 50, wants > 30 and savings rate < 20 adds its recommendation, iff it holds |
| BudgetRoutes.CategoryInsightsOfReport | app/api/routes/budget.py:81-84 | a report has a category insight for c iff c's status is not normal, and it carries c's advice |
| BudgetRoutes.CategoryInsightsAfter | app/api/routes/budget.py:81-84 | the same after any prefix |
| BudgetRoutes.CategoryTipsOfReport | app/api/routes/budget.py:87-96 | a report has c's tip iff c's status earns one |
| InvestmentAgent.SentimentMonotone | app/agents/investment_agent.py:118-121 | banding is monotone in the score, with -0.3 neutral and 0.3 positive |
| InvestmentAgent.SentimentOf | app/agents/investment_agent.py:118-121 | a sentiment is shown iff the score key is present with a number |
| InvestmentAgent.ListedTrends | app/agents/investment_agent.py:123-125 | exactly the non-dict entries other than the score are listed |
| InvestmentAgent.ShownValueConvention | app/agents/investment_agent.py:145 | a missing or zero current value shows the purchase total; otherwise the current value is taken as the holding's total |
| InvestmentAgent.ClassifyInvestCases | app/agents/investment_agent.py:167-186 | a stripped line is blank, a header, or a body line with its allocation, return word and risk text |
| InvestmentAgent.InvestKinds | app/agents/investment_agent.py:163-168 | one classified kind per reply line |
| InvestmentAgent.Normalized | app/agents/investment_agent.py:232-236 | normalisation keeps the allocation keys |
| InvestmentAgent.InvestmentRecommendations | app/agents/investment_agent.py:65-112 | the status is "completed" and the total amount is the savings amount |
| InvestmentAgent.ProcessInvestmentResponse | app/agents/investment_agent.py:150-238 | the imperative reader equals the specified recommendation |
| InvestmentAgent.ReadReply | app/agents/investment_agent.py:163-230 | the line loop equals the specified scan |
| InvestmentAgent.ReadInvestLine | app/agents/investment_agent.py:167-230 | one iteration advances the state as one step |
| InvestmentAgent.ReadSectionLine | app/agents/investment_agent.py:188-230 | a body line updates the current section as specified |
| InvestmentAgent.NormalizeAllocation | app/agents/investment_agent.py:233-236 | the in-place division loop builds `Normalized` |
| InvestmentAgent.SectionLineFrame | app/agents/investment_agent.py:188-230 | a body line changes only its own section's part of the result |
| InvestmentAgent.AddEntryKeepsOrder | app/agents/investment_agent.py:204-211 | adding an allocation keeps the key order listing the keys |
| InvestmentAgent.ApplyKeepsOrder | app/agents/investment_agent.py:167-230 | one step keeps it |
| InvestmentAgent.RunKeepsOrder | app/agents/investment_agent.py:167-230 | the scan keeps it |
| InvestmentAgent.ScanKeepsOrder | app/agents/investment_agent.py:163-230 | any reply keeps it |
| InvestmentAgent.ReturnsLineAgrees | app/agents/investment_agent.py:216-223 | a returns line keeps the three maps' keys equal, and names with an upper-case letter stay "Unknown" |
| InvestmentAgent.RisksLineAgrees | app/agents/investment_agent.py:225-230 | a risks line keeps the same |
| InvestmentAgent.AddEntryAgrees | app/agents/investment_agent.py:204-211 | a new allocation starts its return and risk at "Unknown" |
| InvestmentAgent.ApplyAgrees | app/agents/investment_agent.py:167-230 | one step keeps the agreement |
| InvestmentAgent.RunAgrees | app/agents/investment_agent.py:167-230 | the scan keeps the agreement |
| InvestmentAgent.ScanAgrees | app/agents/investment_agent.py:163-230 | any reply keeps the agreement |
| InvestmentAgent.RecommendationEntriesAgree | app/agents/investment_agent.py:150-238 | returns and risks have the allocation's keys, and a name with an upper-case letter keeps "Unknown" in both |
| InvestmentAgent.HeaderWordsConsumed | app/agents/investment_agent.py:174-186 | a line with reason, why, return, expect or risk never changes the allocation |
| InvestmentAgent.HeaderWordsClassify | app/agents/investment_agent.py:174-186 | such a line is a header |
| InvestmentAgent.ApplyHeaderKeeps | app/agents/investment_agent.py:174-186 | a header leaves the allocation and order unchanged |
| InvestmentAgent.HeaderWords | app/agents/investment_agent.py:174-186 | such a line is non-empty and matches a header test |
| InvestmentAgent.AppendLong | app/agents/investment_agent.py:213-214 | adding a line longer than 15 keeps all reasoning long |
| InvestmentAgent.ApplyKeepsReasoning | app/agents/investment_agent.py:213-214 | one step keeps all reasoning long |
| InvestmentAgent.RunKeepsReasoning | app/agents/investment_agent.py:167-230 | the scan keeps all reasoning long |
| InvestmentAgent.ReasoningIsLong | app/agents/investment_agent.py:213-214 | every reasoning line is longer than 15 characters |
| InvestmentAgent.NormalizedSumsToOne | app/agents/investment_agent.py:233-236 | when normalising, the allocations sum to 1 and keep their ratios; otherwise they are unchanged |
| InvestmentAgent.NormalizedScales | app/agents/investment_agent.py:235-236 | each normalised value is the value times 1/total |
| InvestmentAgent.ScaledSumsToOne | app/agents/investment_agent.py:235-236 | values scaled by 1/total sum to 1 |
| InvestmentAgent.ScaledRatios | app/agents/investment_agent.py:235-236 | a common scale keeps pairwise ratios |
| InvestmentAgent.AllocationSumsToOne | app/agents/investment_agent.py:150-238 | a reply whose allocation needs normalising yields allocations that sum to 1 |
| TransactionRoutes.PeriodStart | app/api/routes/transactions.py:84-90 | week, month and year start 7, 30 and 365 days before now; anything else has no bound |
| TransactionRoutes.PeriodsNest | app/api/routes/transactions.py:84-95 | the week lies in the month, the month in the year, an unknown period admits all |
| TransactionRoutes.TransactionsQuery | app/api/routes/transactions.py:24-35 | a category key iff a category, a timestamp key iff a bound, `$gte`/`$lte` exactly for the bounds given; a row matches iff owner, category and window agree |
| TransactionRoutes.StatsQuery | app/api/routes/transactions.py:93-95 | a timestamp key iff the period is known; matches are the owner's rows in the window |
| TransactionRoutes.StatsOf | app/api/routes/transactions.py:104-147 | net savings is income minus expenses; the rate is 0 without income |
| TransactionRoutes.ComputeStats | app/api/routes/transactions.py:104-147 | the imperative computation equals `StatsOf` |
| TransactionRoutes.AccumulateOutflows | app/api/routes/transactions.py:118-127 | the outflow loop builds `Accumulated` |
| TransactionRoutes.FillFractions | app/api/routes/transactions.py:131-133 | the fraction loop builds the fractions |
| TransactionRoutes.AccumulatedGroups | app/api/routes/transactions.py:118-127 | the breakdown holds exactly the categories with a negative amount, each with the sum of magnitudes |
| TransactionRoutes.BreakdownCategories | app/api/routes/transactions.py:118-127 | a category is listed iff some row of it has a negative amount |
| TransactionRoutes.OutflowMagnitudes | app/api/routes/transactions.py:110 | expenses are the sum of outflow magnitudes and non-negative |
| TransactionRoutes.AccumulatedAddsUp | app/api/routes/transactions.py:110-127 | the breakdown amounts are the grouped magnitudes and sum to the expenses |
| TransactionRoutes.FractionsOfTotal | app/api/routes/transactions.py:131-133 | amounts summing to a positive total give fractions summing to 1 |
| TransactionRoutes.BreakdownAddsUp | app/api/routes/transactions.py:106-133 | the reported breakdown sums to the reported expenses |
| TransactionRoutes.FractionsSumToOne | app/api/routes/transactions.py:131-133 | fractions sum to 1 with positive expenses and stay 0 otherwise |
| TransactionRoutes.AccumulatedPositive | app/api/routes/transactions.py:118-127 | every listed amount is positive with fraction 0 before filling |
| TransactionRoutes.NetIsSignedSum | app/api/routes/transactions.py:106-136 | income minus expenses is the signed sum of all amounts |
| TransactionRoutes.SignedParts | app/api/routes/transactions.py:106-110 | positive and negative parts add up to the signed sum |
| TransactionRoutes.ParseObjectId | app/api/routes/transactions.py:185-190 | an id parses iff it is 24 hexadecimal digits |
| TransactionRoutes.ObjectIdCanonical | app/api/routes/transactions.py:185-190 | parsing is idempotent and ignores letter case |
| TransactionRoutes.Patched | app/api/routes/transactions.py:202-204 | a patch never changes id, owner or fraud flag |
| TransactionRoutes.PatchChangesOnlySupplied | app/api/routes/transactions.py:202-204 | only supplied fields change, each to its supplied value; an empty update changes nothing; patching is idempotent |
| TransactionRoutes.Lookup | app/api/routes/transactions.py:149-176 | malformed ids give 400, ids missing or not owned give 404, otherwise the caller's own document |
| TransactionRoutes.Page | app/api/routes/transactions.py:37 | skip then limit: the page is the right slice of the rows |
| TransactionRoutes.TransactionStore.constructor | app/api/routes/transactions.py:14-47 | an empty store |
| TransactionRoutes.TransactionStore.Find | app/api/routes/transactions.py:37 | the rows are exactly the stored documents matching the query, without repeats |
| TransactionRoutes.TransactionStore.GetTransactions | app/api/routes/transactions.py:14-47 | found rows are exactly the owner's matches; the page is the newest-first slice within the limit |
| TransactionRoutes.TransactionStore.CreateTransaction | app/api/routes/transactions.py:49-72 | the new document carries the inputs, not fraudulent, timestamp defaulting to now, and is added |
| TransactionRoutes.TransactionStore.GetTransactionStats | app/api/routes/transactions.py:74-147 | the owner's rows in the period and their statistics |
| TransactionRoutes.TransactionStore.GetTransaction | app/api/routes/transactions.py:149-176 | the reply is `Lookup` |
| TransactionRoutes.TransactionStore.UpdateTransaction | app/api/routes/transactions.py:178-214 | failures leave the store unchanged; otherwise the owner's document is patched in place; an empty update changes nothing |
| TransactionRoutes.TransactionStore.DeleteTransaction | app/api/routes/transactions.py:216-241 | failures leave the store unchanged; otherwise the document is removed |
| PortfolioModel.TotalCurrentValue | app/models/portfolio.py:45-50 | none iff the current value is missing |
| PortfolioModel.GainLossPercent | app/models/portfolio.py:52-57 | none iff the current value is missing or the purchase price is not positive |
| PortfolioModel.GainLossSign | app/models/portfolio.py:55-57 | the gain has the sign of current minus purchase price, and is 0 iff they are equal |
| PortfolioModel.GainLossOfTotals | app/models/portfolio.py:41-57 | the gain times the purchase total is 100 times the total gain |
| PortfolioService.ParseAssetType | app/services/portfolio_service.py:57-62 | the type whose name is the lower-cased text, or OTHER when there is none |
| PortfolioService.ParseAssetTypeRoundTrip | app/services/portfolio_service.py:57-62 | a type's name in any case parses back to that type |
| PortfolioService.CreatedWithoutValueBreaksEven | app/services/portfolio_service.py:64-66 | without a current value the new asset is worth its purchase total, with gain 0 when the price is positive |
| PortfolioService.Stamped | app/services/portfolio_service.py:103-110 | the update data gains the timestamp, and no type is left as text |
| PortfolioService.ApplyAllFrame | app/services/portfolio_service.py:113-114 | applying updates changes only the fields they set |
| PortfolioService.SetsSplit | app/services/portfolio_service.py:113-114 | a key is set by the data iff by its prefix or its last entry |
| PortfolioService.ApplyFrame | app/services/portfolio_service.py:113-114 | one field update changes only its own field |
| PortfolioService.ApplyAllStamp | app/services/portfolio_service.py:110-114 | when the data stamps `now`, `last_updated` ends at now |
| PortfolioService.UpdateTouchesOnlySupplied | app/services/portfolio_service.py:103-116 | an update stamps now and changes only the supplied fields |
| PortfolioService.SetsStamped | app/services/portfolio_service.py:103-110 | stamping sets no new key other than `last_updated` |
| PortfolioService.StampedKeys | app/services/portfolio_service.py:103-110 | stamping keeps each entry's key and only appends `last_updated` |
| PortfolioService.ItemOf | app/services/portfolio_service.py:19-30 | an item is found iff the id exists and is owned by the user |
| PortfolioService.PortfolioStore.constructor | app/services/portfolio_service.py:7-17 | an empty store |
| PortfolioService.PortfolioStore.GetUserPortfolio | app/services/portfolio_service.py:7-17 | exactly the user's assets, without repeats |
| PortfolioService.PortfolioStore.GetPortfolioItem | app/services/portfolio_service.py:19-30 | the reply is `ItemOf` |
| PortfolioService.PortfolioStore.CreatePortfolioAsset | app/services/portfolio_service.py:32-80 | the new asset has a coerced type and a defaulted current value, and is added |
| PortfolioService.PortfolioStore.UpdatePortfolioAsset | app/services/portfolio_service.py:82-117 | a missing or foreign item gives none and no change; otherwise the stamped data is applied and stored, and the caller sees the stamped data |
| PortfolioService.PortfolioStore.DeletePortfolioAsset | app/services/portfolio_service.py:119-135 | true iff the item exists and is owned; only then it is removed |
| JsonUtil.Keys | app/utils/json.py:25-26 | the key column of a dict |
| JsonUtil.ParseKeepsShape | app/utils/json.py:17-27 | ObjectIds become text; lists keep length and order; dicts keep keys; other values are unchanged |
| JsonUtil.ParseLeavesNoObjectId | app/utils/json.py:17-27 | the result holds no ObjectId |
| JsonUtil.ParseKeepsClean | app/utils/json.py:17-27 | a value without ObjectIds is unchanged |
| JsonUtil.ParseIdempotent | app/utils/json.py:17-27 | converting twice equals converting once |
| UserModel.FullNameParts | app/models/user.py:36-43 | first + " " + last with both names, the first name alone without a last name, "" without a first name |
| UserModel.ModelDumpAsWritten | app/models/user.py:24-30 | the dump has every field, id as text when present; `exclude` has no effect |
| UserModel.ExcludeIgnored | app/models/user.py:26-27 | excluding the password hash still dumps it |
| UserModel.ModelDump | app/models/user.py:24-30 | the dump has every field except the excluded ones, id as text when present |
| UserModel.ModelDumpAgrees | app/models/user.py:24-30 | with nothing excluded both dumps agree |
| Domain.CategoryIndex | app/models/transaction.py:10-25 | every category has its position in the enum listing |
| Domain.AllCategoriesListsEachOnce | app/models/transaction.py:10-25 | the listing holds each category exactly once |
| Domain.CategoryNameInjective | app/models/transaction.py:10-25 | distinct categories have distinct names |
| Domain.ExpenseRows | app/services/finance_service.py:72-74 | the expense rows are exactly the non-income rows |
| Ordering.SortBy | app/agents/budget_agent.py:161 | the sort is a sorted permutation |
| Ordering.Take | app/agents/budget_agent.py:161 | the first `limit` rows, or all when fewer |
| Ordering.TakeSmallest | app/agents/budget_agent.py:161 | of a sorted list, the prefix holds the smallest keys |

## Left out

- **Persistence.** The database, Beanie queries, inserts and saves are left out. Stores are maps. The 1000 and 100 fetch limits of the budget routes are not modelled.
- **HTTP layer.** Authentication and the current user's lookup are left out. The route reply shapes are cut down to the data that decides them.
- **LLM collaborators.** Chat initiation and prompt building are left out. The text of the prompts, the formatted tables and every `:.2f` formatting are not modelled. Every reply is an input string.
- **Reasons in fraud hits.** The formatted texts of the rule hits' reasons are not kept.
- **Rapid-succession timing.** Sub-second timestamps are not modelled. The gap is `timestamp` difference in whole seconds, compared with 600.
- **Floating point.** Amounts are exact reals:
  - `round(x, 1)` is half-up rounding;
  - `float()` is the `parse` parameter;
  - standard deviations are compared via squares.
- **`percent_deviation`.** The division by the category mean in `percent_deviation` (app/utils/data_processor.py:185) is not modelled.
- **Iteration order.** pandas `unique()` order is replaced by the enum order wherever an ordered sum is needed.
- **Equal timestamps in the fraud rules.** The fraud rules sort with pandas' `sort_values(by="timestamp")` (app/agents/fraud_agent.py:134), whose default algorithm is not stable. The model sorts stably, so among rows with equal timestamps the order of the outlier hits, and which row counts as the predecessor in the rapid-succession rule, may differ from the source's.
- **Lower-casing.** Lower-casing and whitespace handling are ASCII only.
- **Unused values.** The investment agent's per-allocation `amount` (app/agents/investment_agent.py:209) is never used and is not modelled. Nor is the `remaining_budget` of the budget agent.
- **`advice_points`.** The `advice_points` list of app/api/routes/budget.py:40-100 is never returned and is not modelled.
- **Market data.** The market service is random mock data and is not part of this model. The investment agent's market trends and low-risk options are inputs.
- **`MongoJSONEncoder`.** It (app/utils/json.py:8-15) is a `json` hook and is not modelled; `parse_json` is.
- **Transactions route module.** app/api/routes/transactions.py:7 imports `TransactionResponse`, `TransactionUpdate` and `TransactionStats`, and app/schemas/transaction.py defines none of them. app/main.py:78-81 does not mount that router either. As written the module cannot be imported, so its handlers never run. The model describes what the handlers' code would do if those schemas existed.
- **Update schema.** The fields of the model's `TransactionUpdate` are assumed, because the schema is missing from the source. It is taken to hold the optional fields of `TransactionBase` (app/schemas/transaction.py:8-13): amount, category, description and timestamp.
- **Debug output.** The `DEBUG` prints of app/api/routes/transactions.py:102-139 are not modelled.
- **Creation timestamp.** The model reads an omitted timestamp as the `now` parameter. The schema fills an omitted timestamp with `datetime.now` (app/schemas/transaction.py:19). The route's `or datetime.utcnow()` fallback (app/api/routes/transactions.py:61) therefore never applies, and the difference between local time and UTC is not modelled.
- **InvestmentAgent.SentimentOf:** a `current_sentiment_score` that is not a number shows no sentiment. In the source, the comparison at app/agents/investment_agent.py:120 raises `TypeError` instead.
- **Orchestrator and other modules.** The orchestrator, schemas, configuration and security modules are not part of this model.
- **Sign convention.** One sign convention for all modules would resolve the source's inconsistency. The model keeps each file's own convention instead, as the code does.
- **FraudAgent.FraudAnalysisOf:** its contract states only the status. The content of the report is stated by the lemmas `ReportAddsEveryParsedId` and `FewTransactionsSkipReply`.
- **InvestmentAgent.InvestmentRecommendations:** its contract states only the envelope. The recommendation's content is stated by the lemmas on `RecommendationOf`.

## Findings

| source | as written | input that shows it | evidently intended | confidence | as-written member | corrected member |
|---|---|---|---|---|---|---|
| app/models/user.py:26-30 | `exclude` is popped from the arguments and never passed on, so nothing is excluded | `model_dump(exclude={"hashed_password"})` still returns `hashed_password` | the excluded fields are left out of the dump | not executed | UserModel.ExcludeIgnored | UserModel.ModelDump |
