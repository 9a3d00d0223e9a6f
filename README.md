# income-breakdown, modelled in Dafny

This project models the computational core of *income-breakdown*, a React
budgeting app for UK users. A visitor enters their postcodes, city, monthly
income and housing situation. The app then estimates their monthly
expenses, income tax and National Insurance, and shows what is left. It
offers investment allocations, Monte Carlo projections, trading-strategy
back-tests, congress-trading figures, news, scholarships, a feedback board
with word analytics, settings, and an AI chat assistant.

Each core source file has its own Dafny module, named after the component.
Four modules are shared:

- `Prelude`: `Option`, `Round` (JavaScript `Math.round`), and text
  helpers such as ASCII case mapping, trimming and `split`.
- `Sorting`: stable insertion sorts, proved sorted and a permutation.
- `Tally`: an insertion-ordered counting dictionary with the
  `Object.entries` order.
- `Navigation`: the records passed between pages in router state and
  the `getReferrer` rule.

Conventions:

- Money and rates are `real`, so the arithmetic is exact.
- `Math.round(x)` is `Round(x) = (x + 0.5).Floor`.
- Random draws (Box–Muller `z`, `Math.random()`), `Math.sqrt(12)`, the
  clock and network results are parameters of the operations that use
  them.
- React state that handlers update becomes a `class` whose fields the
  methods assign. `localStorage` becomes a field of type `Option` or
  `seq`, and `document.documentElement.classList` a `set<string>`.
- A JavaScript value that can be `NaN`, `undefined` or `null` on a path
  the source reaches is an `Option`.

## Model

| member | source | states |
|---|---|---|
| Prelude.Round | src/components/MonteCarloSimulation.tsx:64 | `Math.round`: the integer nearest to x, halves rounded up |
| Prelude.RoundOfInt | src/components/MonteCarloSimulation.tsx:64 | a whole number rounds to itself |
| Prelude.RoundMonotone | src/components/MonteCarloSimulation.tsx:64 | rounding preserves order |
| Prelude.RoundAll | src/components/InvestmentRecommendations.tsx:36-56 | each value rounded on its own |
| Prelude.SumOfRoundedWithin | src/components/InvestmentRecommendations.tsx:36-56 | rounding n values one by one moves their sum by at most n/2 |
| Prelude.ToLower | src/components/StockChart.tsx:128 | `toLowerCase` on ASCII: same length, each letter lowered |
| Prelude.ToLowerIdempotent | src/components/StockChart.tsx:128-129 | lowering twice is lowering once |
| Prelude.ToUpper | src/components/IncomeForm.tsx:72 | `toUpperCase` on ASCII: same length, each letter raised |
| Prelude.TrimEmptyIff | src/components/AIChatbot.tsx:142 | `trim()` is empty iff the text is all white space |
| Prelude.Split | src/components/AIChatbot.tsx:121 | `split(sep)`: at least one piece, none containing the separator, and joining the pieces with the separator gives the text back |
| Prelude.SplitTwo | src/pages/CongressTrades.tsx:225 | two separator-free texts joined by the separator split back into the two |
| Prelude.SplitCount | src/components/AIChatbot.tsx:121 | there is one more piece than separators |
| Prelude.NatToString | src/pages/Feedback.tsx:27 | the decimal text of a number is non-empty and all digits |
| Sorting.SortAsc | src/components/MonteCarloSimulation.tsx:80 | `sort((a, b) => a - b)`: ascending and a permutation of the input |
| Sorting.SortDescBy | src/components/StockChart.tsx:123 | `sort((a, b) => key(b) - key(a))`: non-increasing keys and a permutation of the input |
| Sorting.InsertDescByStable | src/components/StockChart.tsx:123 | inserting by key keeps the relative order of the elements of any one key value |
| Sorting.SortDescByStable | src/components/StockChart.tsx:123 | the sort is stable: for each key value, the elements with that key keep their input order |
| MonteCarloSimulation.AdjustedReturn | src/components/MonteCarloSimulation.tsx:38-43 | with a non-zero volatility, the Sharpe-ratio adjustment gives back exactly `expectedReturn / 100` |
| MonteCarloSimulation.SharpeRatio | src/components/MonteCarloSimulation.tsx:38-40 | the ratio times the standard deviation is the excess return over the 4% risk-free rate; with a positive volatility it is positive iff the expected return exceeds 4% |
| MonteCarloSimulation.MonthlyReturn | src/components/MonteCarloSimulation.tsx:56-58 | with a zero sample the month's return is the expected yearly return over 12, whatever the risk-free rate |
| MonteCarloSimulation.SimulateTrajectory | src/components/MonteCarloSimulation.tsx:46-66 | the final value is the value after `years * 12` updates `value * (1 + r) + c`; there are `years + 1` snapshots, entry 0 is the unrounded initial amount and entry k the rounded value after month 12k |
| MonteCarloSimulation.RunSimulation | src/components/MonteCarloSimulation.tsx:29-77 | exactly `simulations` results in order, each with its index, the Sharpe ratio, the unrounded final value and `years + 1` snapshots |
| MonteCarloSimulation.PercentileIndexInRange | src/components/MonteCarloSimulation.tsx:83-87 | for n ≥ 1 and 0 ≤ q ≤ q' < 1, `floor(n*q)` lies in [0, n) and does not decrease in q |
| MonteCarloSimulation.PercentileIsSample | src/components/MonteCarloSimulation.tsx:83-87 | a percentile is one of the samples, and of a sorted sequence lies between its first and its last |
| MonteCarloSimulation.BandsOf | src/components/MonteCarloSimulation.tsx:83-87 | the five picks from a sorted non-empty sequence are ordered p10 ≤ p25 ≤ p50 ≤ p75 ≤ p90 and are elements of it |
| MonteCarloSimulation.FinalValues | src/components/MonteCarloSimulation.tsx:80 | the final values sorted ascending: same length, sorted, and a permutation of the results' final values |
| MonteCarloSimulation.FinalPercentiles | src/components/MonteCarloSimulation.tsx:80-87 | the percentiles of the final values are ordered |
| MonteCarloSimulation.FindYear | src/components/MonteCarloSimulation.tsx:93 | the `find` succeeds iff some snapshot carries that year |
| MonteCarloSimulation.YearColumn | src/components/MonteCarloSimulation.tsx:92-93 | one cell per trajectory |
| MonteCarloSimulation.RowOf | src/components/MonteCarloSimulation.tsx:92-103 | a row carries its year and ordered bands taken from the sorted column |
| MonteCarloSimulation.ChartData | src/components/MonteCarloSimulation.tsx:90-104 | `years + 1` rows, row k being the bands of year `startYear + k` |
| MonteCarloSimulation.YearRow | src/components/MonteCarloSimulation.tsx:91-103 | one turn of the chart loop computes `RowOf`: the year and the five percentile bands of that year's sorted values |
| MonteCarloSimulation.FindRecordedYear | src/components/MonteCarloSimulation.tsx:93 | when the snapshots are labelled by consecutive years, the lookup returns the recorded value, so the `\|\| 0` default never applies |
| MonteCarloSimulation.ColumnIsSnapshots | src/components/MonteCarloSimulation.tsx:92-93 | cell s of the year-k column is trajectory s's snapshot of year k |
| MonteCarloSimulation.Project | src/components/MonteCarloSimulation.tsx:79-106 | the whole component: 1000 trajectories, ordered final percentiles, and a chart of `years + 1` rows built from the snapshots |
| MonteCarloSimulation.FinalStatIsFinalValue | src/components/MonteCarloSimulation.tsx:68-83 | the 10th percentile is the unrounded final value of some trajectory |
| MonteCarloSimulation.ZeroReturnReachesContributions | src/components/MonteCarloSimulation.tsx:60 | with a zero return every month the value after m months is `initialAmount + monthlyContribution * m` |
| MonteCarloSimulation.ZeroReturnTotal | src/components/MonteCarloSimulation.tsx:60-106 | with zero returns a trajectory ends exactly at `totalContributions` |
| MonteCarloSimulation.TotalContributions | src/components/MonteCarloSimulation.tsx:106 | with no years it is the initial amount, and with non-negative contributions it is never below it |
| MonteCarloSimulation.ScaleInitialAmount | src/components/MonteCarloSimulation.tsx:60 | without contributions, scaling the initial amount scales every later value by the same factor |
| MonteCarloPhases.ConfigOf | src/components/MonteCarloPhases.tsx:29-37 | each phase has at least one year, and only phase 1 has `startYear` 0 (the missing field read as 0) |
| MonteCarloPhases.PhasesTileTenYears | src/components/MonteCarloPhases.tsx:29-37 | the phases (1,0), (4,1), (5,5) tile years 0 to 10: each starts where the previous ends |
| MonteCarloPhases.PhaseParams | src/components/MonteCarloPhases.tsx:35-42 | the simulation runs with the phase's number of years |
| MonteCarloPhases.PeriodContributions | src/components/MonteCarloPhases.tsx:226 | the displayed period contributions are `totalContributions - initialAmount` |
| MonteCarloPhases.ProjectPhase | src/components/MonteCarloPhases.tsx:40-106 | 1000 trajectories whose snapshots run from `startYear` (with the initial amount) to `startYear + years`; ordered percentiles; one chart row per year of the window, each cell being a trajectory's snapshot of that year |
| AdvancedAnalytics.Gains | src/components/AdvancedAnalytics.tsx:56-58 | the gains summed over the first i changes are never negative |
| AdvancedAnalytics.Losses | src/components/AdvancedAnalytics.tsx:56-59 | the losses (absolute values of non-positive changes) are never negative |
| AdvancedAnalytics.RsiFromAverages | src/components/AdvancedAnalytics.tsx:62-65 | with a zero average loss replaced by 0.01, the RSI lies in [0, 100), and is 0 when there are no gains |
| AdvancedAnalytics.Rsi | src/components/AdvancedAnalytics.tsx:50-65 | 50 when there are fewer than `period + 1` prices; otherwise in [0, 100) |
| AdvancedAnalytics.GainsLossesOfPrefix | src/components/AdvancedAnalytics.tsx:56-60 | the sums only read the prices up to index i |
| AdvancedAnalytics.RsiOfPrefix | src/components/AdvancedAnalytics.tsx:56-60 | the RSI depends only on the first `period + 1` prices |
| AdvancedAnalytics.NaNChangeIsNoLoss | src/components/AdvancedAnalytics.tsx:57-64 | a NaN change makes the losses NaN, and `avgLoss \|\| 0.01` then reads it as the 0.01 floor: the RSI is that of the gains alone |
| AdvancedAnalytics.NonFallingHasNoLosses | src/components/AdvancedAnalytics.tsx:56-59 | a price series that never falls has no losses |
| AdvancedAnalytics.CalculateRSI | src/components/AdvancedAnalytics.tsx:50-66 | the accumulation loop computes `Rsi` |
| AdvancedAnalytics.TakeLast | src/components/AdvancedAnalytics.tsx:96 | `slice(-n)`: the last `min(n, length)` elements |
| AdvancedAnalytics.VolatilityAdjustment | src/components/AdvancedAnalytics.tsx:82 | the factor `1 + 0.5·\|prevReturn\|` is at least 1, and is exactly 1 iff the previous return is 0 |
| AdvancedAnalytics.PriceHistory | src/components/AdvancedAnalytics.tsx:74-93 | every path, NaN or not, has `m + 1` prices starting at 100 |
| AdvancedAnalytics.NextPrice | src/components/AdvancedAnalytics.tsx:91 | `price *= (1 + monthlyReturn)`: a number iff both operands are; a zero price stays zero under any numeric return; a zero return keeps the price |
| AdvancedAnalytics.PriceHistoryPrefix | src/components/AdvancedAnalytics.tsx:77-92 | the first n months of a path do not depend on how many months follow |
| AdvancedAnalytics.PriceAt | src/components/AdvancedAnalytics.tsx:77-92 | price k is price k-1 grown by the month's return, whose volatility adjustment reads the two prices before it |
| AdvancedAnalytics.ZeroPriceStaysZero | src/components/AdvancedAnalytics.tsx:79-91 | a zero price is followed by zero or by NaN (the next return divides 0 by 0) |
| AdvancedAnalytics.NaNPersists | src/components/AdvancedAnalytics.tsx:79 | once a division by a zero price makes a path not a number, it stays so to the last month |
| AdvancedAnalytics.SimulatePath | src/components/AdvancedAnalytics.tsx:74-93 | the month loop computes `PriceHistory` |
| AdvancedAnalytics.ResultOf | src/components/AdvancedAnalytics.tsx:96-105 | a result records the last price and the full history; `totalReturn` is NaN iff the last price is, and otherwise `price - 100`; `accepted` iff 30 < rsi < 70 |
| AdvancedAnalytics.PathOutcome | src/components/AdvancedAnalytics.tsx:73-106 | every path has a result, carrying its index and `months + 1` prices from 100; its total return is a number iff every price of the path is; it is accepted iff its RSI is strictly between 30 and 70, NaN path or not |
| AdvancedAnalytics.ZeroPricePathAccepted | src/components/AdvancedAnalytics.tsx:77-104 | a one-year path whose first monthly return is -1 hits a zero price, turns NaN in month 3, has too few prices for the RSI (which is 50), and is accepted with a NaN final price and total return |
| AdvancedAnalytics.RunMCMCSimulation | src/components/AdvancedAnalytics.tsx:69-109 | exactly `simulations` outcomes, outcome s being path s's |
| AdvancedAnalytics.FilteredResults | src/components/AdvancedAnalytics.tsx:172 | exactly the accepted results are kept |
| AdvancedAnalytics.FilteredIsSubsequence | src/components/AdvancedAnalytics.tsx:172 | the kept results are an order-preserving subsequence |
| AdvancedAnalytics.TotalReturns | src/components/AdvancedAnalytics.tsx:156 | for results whose total returns are all numbers: one return per result, in order |
| AdvancedAnalytics.Mean | src/components/AdvancedAnalytics.tsx:147 | the mean exists iff the list is non-empty, and times the count it gives back the sum |
| AdvancedAnalytics.CalculateVaR | src/components/AdvancedAnalytics.tsx:140-150 | defined iff there is at least one value; `var99 ≤ var95`, both being input values; the expected shortfall is a number iff n ≥ 20, and then it is at most `var95` |
| AdvancedAnalytics.TailSizeAtLeastOne | src/components/AdvancedAnalytics.tsx:146 | the tail `floor(0.05·n)` is non-empty iff n ≥ 20 |
| AdvancedAnalytics.TailMeanBelow | src/components/AdvancedAnalytics.tsx:146-147 | the mean of a sorted prefix is at most the next element |
| AdvancedAnalytics.RiskSharpe | src/components/AdvancedAnalytics.tsx:164 | the Sharpe ratio times the volatility is the excess return over 4%; with a positive volatility it is positive iff the expected return exceeds 4% |
| AdvancedAnalytics.RiskRowOf | src/components/AdvancedAnalytics.tsx:159-166 | a row carries the symbol and beta, the `RiskSharpe` ratio, and a non-negative `\|var95\|` that is defined iff there is a path and every path's total return is a number |
| AdvancedAnalytics.RiskRowFor | src/components/AdvancedAnalytics.tsx:155-166 | one turn of the matrix loop computes the row of the stock's paths |
| AdvancedAnalytics.TopStocksVolatile | src/components/AdvancedAnalytics.tsx:38-47 | every listed stock has a positive volatility, so no Sharpe ratio divides by zero |
| AdvancedAnalytics.GenerateRiskMatrix | src/components/AdvancedAnalytics.tsx:153-168 | one row per listed stock, in order, each from that stock's 100 paths |
| AdvancedAnalytics.RiskRows | src/components/AdvancedAnalytics.tsx:154-167 | the `map` over any list of volatile stocks: row i comes from stock i |
| AdvancedAnalytics.PanelVaR | src/components/AdvancedAnalytics.tsx:184 | the selected stock's VaR is defined iff some path was accepted and every accepted path's total return is a number |
| AdvancedAnalytics.AnalyzeSelectedStock | src/components/AdvancedAnalytics.tsx:170-184 | the selected stock's 500 outcomes, the accepted subsequence of them, and the VaR of the accepted total returns |
| ExpenseCalculations.CityMultiplier | src/lib/expenseCalculations.ts:46-58 | on the lower-cased city, 1.5 iff it contains "london", 1.3 iff not that but "cambridge" or "oxford", 1.25 iff neither but "brighton" or "bath"; always within [0.9, 1.5] |
| ExpenseCalculations.CityMultiplierIgnoresCase | src/lib/expenseCalculations.ts:47 | the multiplier does not depend on letter case |
| ExpenseCalculations.FirstDigit | src/lib/expenseCalculations.ts:64 | the position of the first digit, or none when there is no digit |
| ExpenseCalculations.LineEnd | src/lib/expenseCalculations.ts:64 | the end of the `.*` match: the first line terminator at or after the digit, or the end |
| ExpenseCalculations.PostcodeArea | src/lib/expenseCalculations.ts:64 | a postcode without digits is its own area |
| ExpenseCalculations.AreaOfOneLine | src/lib/expenseCalculations.ts:64 | on a one-line postcode the area is the prefix before the first digit, which holds no digit |
| ExpenseCalculations.LondonAreaByLetters | src/lib/expenseCalculations.ts:68-70 | an area counts as London iff it starts with E, W or N, or with SW or SE, so "EH" and "NE" count too |
| ExpenseCalculations.StartsWithSome | src/lib/expenseCalculations.ts:69-70 | the recursive `some` holds iff some listed prefix starts the area |
| ExpenseCalculations.DistanceMultiplier | src/lib/expenseCalculations.ts:63-76 | the transport multiplier lies in [0.8, 1.4] |
| ExpenseCalculations.DistanceCases | src/lib/expenseCalculations.ts:72-75 | 1.0 iff both ends are London, 1.4 iff exactly one is, 0.8 iff neither and the areas are equal, 1.2 iff neither and they differ |
| ExpenseCalculations.ApplyInflation | src/lib/expenseCalculations.ts:81-85 | an affected amount is multiplied by 1.025, and others are unchanged |
| ExpenseCalculations.Slice | src/lib/expenseCalculations.ts:91-94 | the part of the income inside one band is between 0 and the band width |
| ExpenseCalculations.TaxByBands | src/lib/expenseCalculations.ts:88-100 | the annual tax is never negative |
| ExpenseCalculations.BandsAreContiguous | src/lib/expenseCalculations.ts:90-96 | 12570 + 37700 = 50270 and 50270 + 75000 = 125270, so the bands meet |
| ExpenseCalculations.AnnualTax | src/lib/expenseCalculations.ts:88-100 | the nested `if`s that accumulate `annualTax` compute `TaxByBands` |
| ExpenseCalculations.TaxFreeUpToAllowance | src/lib/expenseCalculations.ts:90 | no tax is due up to an annual 12570 |
| ExpenseCalculations.TaxMarginalRate | src/lib/expenseCalculations.ts:88-100 | between two incomes the tax rises by at least 0 and at most 45% of the difference, so it is monotone and continuous |
| ExpenseCalculations.TaxBelowTopRate | src/lib/expenseCalculations.ts:88-100 | the tax is at most 45% of the income above 12570 |
| ExpenseCalculations.MonthlyNI | src/lib/expenseCalculations.ts:104-105 | 0 up to 1048; 12% of the slice above 1048 up to 4189; 2% more above 4189 |
| ExpenseCalculations.NIMarginalRate | src/lib/expenseCalculations.ts:104-105 | NI is monotone and rises by at most 12% of an income increase |
| ExpenseCalculations.EstimatedRent | src/lib/expenseCalculations.ts:114 | the estimate is capped at 1200 when the city multiplier exceeds 1.3 (else 800) and at 35% of income times the multiplier |
| ExpenseCalculations.HousingCost | src/lib/expenseCalculations.ts:110-115 | the custom rent iff `knowsRent` and it is positive, otherwise the estimate |
| ExpenseCalculations.HousingShare | src/lib/expenseCalculations.ts:108-118 | 0 without housing; otherwise the share times `numRoommates + 1` (or 1) is the housing cost |
| ExpenseCalculations.HousingAmount | src/lib/expenseCalculations.ts:108-118 | the step-by-step assignment computes `HousingShare` |
| ExpenseCalculations.Categories | src/lib/expenseCalculations.ts:120-184 | one category name per entry, in order |
| ExpenseCalculations.TaxEntries | src/lib/expenseCalculations.ts:121-127 | one "Taxes & National Insurance" entry iff `monthlyTax > 0 \|\| monthlyNI > 0` |
| ExpenseCalculations.HousingEntries | src/lib/expenseCalculations.ts:128-134 | one "Housing" entry iff `hasHousing` |
| ExpenseCalculations.TransportItem | src/lib/expenseCalculations.ts:135-141 | the Transport entry, at most `Round(350·1.025)` = 359 with a percentage of at most 25 |
| ExpenseCalculations.CarEntries | src/lib/expenseCalculations.ts:142-148 | one "Car Costs" entry iff `hasCar`, at most `Round(280·1.025)` = 287 and 28% |
| ExpenseCalculations.SubscriptionsItem | src/lib/expenseCalculations.ts:149-155 | capped at 80 and 8%, not inflated, and not negative for a positive income |
| ExpenseCalculations.ShoppingItem | src/lib/expenseCalculations.ts:156-162 | the Shopping entry, with a percentage of at most 25 |
| ExpenseCalculations.OutingsItem | src/lib/expenseCalculations.ts:163-169 | at most 308 and 20%, and at most 185 and 15% when the multiplier is at most 1.3 |
| ExpenseCalculations.VacationsItem | src/lib/expenseCalculations.ts:170-176 | at most `Round(150·1.025)` = 154 and 5%, and not negative for a positive income |
| ExpenseCalculations.MaintenanceItem | src/lib/expenseCalculations.ts:177-183 | capped at 100 and 3%, not inflated, and not negative for a positive income |
| ExpenseCalculations.TrailingItems | src/lib/expenseCalculations.ts:149-183 | Subscriptions, Shopping, Outings & Social, Vacations and Maintenance, in that order |
| ExpenseCalculations.CategoriesAppend | src/lib/expenseCalculations.ts:120-184 | the category names of joined lists are the joined names |
| ExpenseCalculations.CalculateExpenseBreakdown | src/lib/expenseCalculations.ts:42-187 | the function computes `ExpenseBreakdown`, the list built from the multipliers, tax, NI and housing share |
| ExpenseCalculations.SameParts | src/lib/expenseCalculations.ts:120-184 | the list depends on the tax and housing figures only through their values |
| ExpenseCalculations.ExpenseEntries | src/lib/expenseCalculations.ts:120-184 | the tax entry comes first iff tax or NI is due, housing is present iff `hasHousing`, the car iff `hasCar`; Transport follows the optional entries, and the five fixed categories come last in order |
| ExpenseCalculations.ItemsLayout | src/lib/expenseCalculations.ts:120-184 | the same layout for any multipliers, tax, NI and housing share |
| ExpenseCalculations.EntryLayout | src/lib/expenseCalculations.ts:120-184 | the layout of any list spread from the five groups |
| ExpenseCalculations.GroupPresence | src/lib/expenseCalculations.ts:120-184 | an optional category name is present iff its group is |
| ExpenseCalculations.TaxEntryCondition | src/lib/expenseCalculations.ts:88-121 | the tax entry appears iff the monthly income exceeds 1047.5, the allowance over twelve months |
| ExpenseBreakdown.LocationMultiplier | src/components/ExpenseBreakdown.tsx:29-30 | 1.3 iff the postcode starts with "SW" or "W"; 1.1 iff not that but it starts with "E" or "SE"; otherwise 1.0 |
| ExpenseBreakdown.Expenses | src/components/ExpenseBreakdown.tsx:32-82 | always seven entries in the fixed category order, whose amounts are the rounded base amounts for the postcode's multiplier |
| ExpenseBreakdown.Amounts | src/components/ExpenseBreakdown.tsx:84 | one amount per entry |
| ExpenseBreakdown.TotalExpenses | src/components/ExpenseBreakdown.tsx:84 | with non-negative amounts the total is non-negative and at least every single amount |
| ExpenseBreakdown.RemainingIncome | src/components/ExpenseBreakdown.tsx:84-85 | the remaining income plus the sum of the rounded amounts is the income |
| ExpenseBreakdown.OnlyTransportAndCarVary | src/components/ExpenseBreakdown.tsx:47-81 | entries 3 to 7 do not depend on the postcode |
| ExpenseBreakdown.SumOfSeven | src/components/ExpenseBreakdown.tsx:84 | the `reduce` over seven amounts is their sum |
| ExpenseBreakdown.PercentagesTotal | src/components/ExpenseBreakdown.tsx:36-78 | the percentages sum to 48 + 27·multiplier, which is 75 at multiplier 1.0 |
| ExpenseBreakdown.TotalNearShare | src/components/ExpenseBreakdown.tsx:32-84 | the total is within 3.5 of `income·(0.48 + 0.27·multiplier)`, each of the seven roundings moving it by at most 0.5 |
| IndexPage.EstimatedExpenses | src/pages/Index.tsx:21-25 | the estimate is the nearest whole number to `income·0.75·multiplier`, using the same SW/W, E/SE postcode rule |
| IndexPage.Page.constructor | src/pages/Index.tsx:14-15 | no form data and zero expenses |
| IndexPage.Page.RemainingIncome | src/pages/Index.tsx:28 | 0 before a submit; afterwards remaining plus expenses is the income |
| IndexPage.Page.HandleFormSubmit | src/pages/Index.tsx:17-26 | stores the form data and the rounded estimate and leaves the form view; the remaining income is `income - totalExpenses` |
| IndexPage.Page.StartOver | src/pages/Index.tsx:79 | clears the form data, so the form shows again and the remaining income is 0; the expenses state is left as it was (as written the button never appears, see `Page.PlanCardAsWritten`) |
| IndexPage.Page.PlanCardAsWritten | src/pages/Index.tsx:61-65 | the summary card of the plan view, given no `appliedLoopholes`, renders nothing: `appliedLoopholes.reduce` throws |
| IndexPage.Page.PlanCard | src/pages/Index.tsx:61-65 | the intended card, with no strategies applied: it is what `FinancialSummary` renders for `[]`, its adjusted remaining income is the page's remaining income, both savings rates agree, there are no savings, the original expenses are the estimate, the expense rate times the income is the expenses times 100, and the health follows the savings rate |
| IndexPage.RemainingNearShare | src/pages/Index.tsx:24-28 | the remaining income is within half a pound of `income·(1 - 0.75·multiplier)` |
| IndexPage.EstimateMatchesCardAtBaseRate | src/pages/Index.tsx:24-25 | at multiplier 1.0 the estimate is within 4 of the expense card's total |
| FinancialPlan.PlanExpenses | src/pages/FinancialPlan.tsx:23-29 | the nearest whole number to 70% of income |
| FinancialPlan.PlanOf | src/pages/FinancialPlan.tsx:14-91 | without form data the page redirects home; otherwise it has the plan expenses and `remaining = income - expenses`, and it offers the investments page with that state iff `remainingIncome > 0` |
| FinancialPlan.InvestmentsShownFor | src/pages/FinancialPlan.tsx:58-91 | an income above 5/3 always shows the offer, and a zero income never does |
| FinancialPlan.RemainingNearThirtyPercent | src/pages/FinancialPlan.tsx:25-30 | the remaining income is within half a pound of 30% of income |
| FinancialPlan.SummaryAgreesWithPlan | src/pages/FinancialPlan.tsx:23-30 | the summary card the page shows agrees with the page's figures and has no strategy savings |
| FinancialSummary.Rate | src/components/FinancialSummary.tsx:37-38 | a rate times the income is the part times 100 |
| FinancialSummary.Render | src/components/FinancialSummary.tsx:41 | the card renders iff an `appliedLoopholes` list is passed, and then shows `SummaryOf` for it; without one `reduce` on `undefined` throws |
| FinancialSummary.ConsistentRemaining | src/components/FinancialSummary.tsx:36-50 | with no strategies and `remainingIncome = income - totalExpenses`, both savings rates agree, the adjusted remaining income is the prop, there are no savings and the original expenses are the expenses |
| FinancialSummary.HealthOf | src/components/FinancialSummary.tsx:52-57 | Excellent iff ≥ 20, Good iff in [10, 20), Fair iff in [5, 10), Needs Improvement iff < 5 |
| FinancialSummary.HealthMonotone | src/components/FinancialSummary.tsx:52-57 | a higher savings rate never gives a worse status |
| FinancialSummary.SummaryOf | src/components/FinancialSummary.tsx:36-194 | every displayed figure: both rates, the sum of applied savings, the inflation impact `0.025·totalExpenses`, `originalExpenses = totalExpenses + savings`, `adjustedRemainingIncome = income - totalExpenses`, the health of the adjusted rate, the net benefit iff the impact panel shows (savings or impact positive) and savings exceed the impact (and its rounded value), and the three tips |
| FinancialSummary.RemainingPropIgnored | src/components/FinancialSummary.tsx:37-50 | the `remainingIncome` prop affects only the unadjusted savings rate |
| FinancialSummary.RatesComplement | src/components/FinancialSummary.tsx:38-50 | the adjusted savings rate and the expense rate sum to 100 |
| FinancialSummary.TipsAgreeWithHealth | src/components/FinancialSummary.tsx:52-57 | the 20% tip shows iff the status is not Excellent; the subscriptions tip iff it is Fair or worse |
| FinancialSummary.NetBenefitNotNegative | src/components/FinancialSummary.tsx:156-175 | with non-negative expenses the net-benefit row shows iff savings exceed the impact, and its value is then not negative |
| FinancialSummary.AppliedSavingsMatchDialog | src/components/FinancialSummary.tsx:41 | the card's savings are the dialog's `totalSavings` for the same selection, between 0 and 1151 |
| InvestmentRecommendations.Shares | src/components/InvestmentRecommendations.tsx:36-76 | share i is `remainingIncome·allocation_i/100` |
| InvestmentRecommendations.Recommendations | src/components/InvestmentRecommendations.tsx:32-83 | five options with allocations 25, 30, 20, 15, 10 and amounts `Round(remainingIncome·allocation/100)` |
| InvestmentRecommendations.AmountsOf | src/components/InvestmentRecommendations.tsx:36-76 | one amount per option |
| InvestmentRecommendations.SumOfFive | src/components/InvestmentRecommendations.tsx:36-76 | the sum of five amounts |
| InvestmentRecommendations.AllocationsTotal | src/components/InvestmentRecommendations.tsx:35-75 | the allocations sum to 100 |
| InvestmentRecommendations.AmountsNearRemaining | src/components/InvestmentRecommendations.tsx:36-76 | the five rounded amounts sum to within 2.5 of the remaining income |
| InvestmentRecommendations.RiskColor | src/components/InvestmentRecommendations.tsx:85-92 | Low, Medium and High map to their classes, and exactly the other strings get `bg-muted` |
| InvestmentRecommendations.EveryOptionColoured | src/components/InvestmentRecommendations.tsx:37-92 | every listed option has a risk colour other than the default |
| TaxLoopholes.Ids | src/components/TaxLoopholes.tsx:41 | the ids of the applied strategies, in order |
| TaxLoopholes.Savings | src/components/TaxLoopholes.tsx:152 | the savings of each strategy, in order |
| TaxLoopholes.CatalogueWellFormed | src/components/TaxLoopholes.tsx:45-134 | the catalogue ids are distinct and every saving is positive |
| TaxLoopholes.Toggle | src/components/TaxLoopholes.tsx:136-142 | the id is in the result iff it was not in the selection, and every other id is unaffected; an absent id is appended; a present one is filtered out, so the result is a subsequence |
| TaxLoopholes.ToggleKeepsDistinct | src/components/TaxLoopholes.tsx:136-142 | a duplicate-free selection stays duplicate-free |
| TaxLoopholes.ToggleTwiceSameSet | src/components/TaxLoopholes.tsx:136-142 | toggling the same id twice gives back the same set of ids |
| TaxLoopholes.ToggleTwiceMayReorder | src/components/TaxLoopholes.tsx:136-142 | but not the same order: toggling "isa-allowance" twice in ["isa-allowance", "rent-a-room"] moves it to the end |
| TaxLoopholes.SelectedEntries | src/components/TaxLoopholes.tsx:145-151 | the selected catalogue entries: a subsequence of the catalogue holding exactly the entries whose id is selected |
| TaxLoopholes.TotalSavings | src/components/TaxLoopholes.tsx:150-152 | never negative, and positive exactly when some catalogue strategy is selected |
| TaxLoopholes.SelectedSavingsSign | src/components/TaxLoopholes.tsx:150-152 | the selected savings sum to a non-negative amount, positive exactly when some catalogue strategy is selected |
| TaxLoopholes.PositiveSum | src/components/TaxLoopholes.tsx:150-152 | a sum of positive savings is positive exactly when there is one |
| TaxLoopholes.SelectionIsASet | src/components/TaxLoopholes.tsx:145-152 | the chosen entries and the total depend only on the set of selected ids, so duplicates cannot double-count |
| TaxLoopholes.TotalSavingsBounds | src/components/TaxLoopholes.tsx:150-152 | the total is between 0 and the catalogue total, 1151 |
| TaxLoopholes.CatalogueTotal | src/components/TaxLoopholes.tsx:45-134 | the savings in the catalogue sum to 1151 |
| TaxLoopholes.SubsequenceSavings | src/components/TaxLoopholes.tsx:150-152 | with non-negative savings, the savings of a subsequence are between 0 and those of the whole |
| TaxLoopholes.Dialog.constructor | src/components/TaxLoopholes.tsx:40-43 | the selection starts as the ids of the applied strategies, with the dialog closed |
| TaxLoopholes.Dialog.SetOpen | src/components/TaxLoopholes.tsx:43 | opens or closes the dialog and keeps the selection |
| TaxLoopholes.Dialog.HandleToggle | src/components/TaxLoopholes.tsx:136-142 | the selection becomes `Toggle` of the old one, and the dialog state is kept |
| TaxLoopholes.Dialog.HandleApply | src/components/TaxLoopholes.tsx:144-148 | hands on the selected catalogue entries in catalogue order, whose savings sum to `totalSavings`, and closes the dialog |
| TaxLoopholes.Dialog.ApplyDisabled | src/components/TaxLoopholes.tsx:259 | when Apply is disabled there is nothing to apply: no entry is selected and the total is 0 |
| StockChart.PerformanceByPeriod | src/components/StockChart.tsx:112-119 | the 5Y or 10Y figure for those periods and the 1Y figure otherwise |
| StockChart.Ranked | src/components/StockChart.tsx:121-125 | sorted by the period's performance, largest first, at most 50, and a permutation when there are at most 50 |
| StockChart.TakeKeepsOrder | src/components/StockChart.tsx:124 | `slice(0, 50)` keeps the order |
| StockChart.TopStocksSize | src/components/StockChart.tsx:94-110 | the list has 15 stocks, so the slice keeps all of them |
| StockChart.SortedStocks | src/components/StockChart.tsx:121-125 | a sorted permutation of the whole list; the list itself is not changed |
| StockChart.Search | src/components/StockChart.tsx:127-131 | an order-preserving, still sorted subsequence holding exactly the stocks whose lower-cased name, symbol or sector contains the lower-cased term |
| StockChart.FilteredStocks | src/components/StockChart.tsx:127-131 | the ranked list cut down to matches: an ordered subsequence of the ranking, every stock matching, and every matching listed stock present |
| StockChart.SearchComplete | src/components/StockChart.tsx:127-131 | searching a reordering of a list finds every matching stock of that list |
| StockChart.EmptySearchKeepsAll | src/components/StockChart.tsx:127-131 | an empty term keeps every stock of the ranking |
| StockChart.EmptySearchKeepsRanking | src/components/StockChart.tsx:127-131 | an empty term leaves any ranking unchanged |
| StockChart.Symbols | src/components/StockChart.tsx:134-140 | the symbols of the selection, in order |
| StockChart.Added | src/components/StockChart.tsx:133-137 | appends the stock iff fewer than 50 are selected and its symbol is absent; otherwise nothing changes |
| StockChart.Removed | src/components/StockChart.tsx:139-141 | an order-preserving subsequence without the symbol that keeps every other stock |
| StockChart.AddKeepsValid | src/components/StockChart.tsx:133-137 | adding keeps at most 50 stocks with distinct symbols |
| StockChart.RemoveKeepsValid | src/components/StockChart.tsx:139-141 | removing keeps the selection valid |
| StockChart.AddThenRemove | src/components/StockChart.tsx:133-141 | adding a new symbol and then removing it restores the selection |
| StockChart.DateRange | src/components/StockChart.tsx:39-64 | 12, 20 or 10 labels for 1Y, 5Y or 10Y, and none otherwise |
| StockChart.DateRangeAscending | src/components/StockChart.tsx:45-60 | the labels go from oldest to newest and end at the current month or year |
| StockChart.GenerateDateRange | src/components/StockChart.tsx:39-64 | the three push loops compute `DateRange` |
| StockChart.Chart.constructor | src/components/StockChart.tsx:34-36 | no stock selected, an empty search, and the 1Y period |
| StockChart.Chart.AddStock | src/components/StockChart.tsx:133-137 | the selection becomes `Added`; it is unchanged iff the Add button was disabled; the selection stays valid and nothing else changes |
| StockChart.Chart.AddDisabled | src/components/StockChart.tsx:326 | the Add button is disabled iff the stock cannot be added, that is iff adding would leave the watchlist unchanged |
| StockChart.Chart.RemoveStock | src/components/StockChart.tsx:139-141 | the selection becomes `Removed` and stays valid; nothing else changes |
| StockChart.Chart.SetSearchTerm | src/components/StockChart.tsx:293 | sets the term only |
| StockChart.Chart.SetActivePeriod | src/components/StockChart.tsx:205 | sets the period only |
| Tally.Keys | src/pages/FeedbackAnalytics.tsx:70-71 | the keys of a counting dictionary, in insertion order |
| Tally.Increment | src/pages/FeedbackAnalytics.tsx:65 | `counts[k] = (counts[k] \|\| 0) + 1` keeps the key order and appends a new key at the end |
| Tally.IncrementCount | src/pages/FeedbackAnalytics.tsx:65 | the count of k goes up by one and every other count is unchanged |
| Tally.Distinct | src/pages/FeedbackAnalytics.tsx:64-66 | the distinct elements in order of first occurrence: duplicate-free, and the same elements |
| Tally.TallyCounts | src/pages/FeedbackAnalytics.tsx:57-67 | after counting a sequence, the keys are its distinct elements in order of first occurrence and each count is the number of occurrences |
| Tally.TallyEntry | src/pages/FeedbackAnalytics.tsx:57-67 | every entry is for an element that occurs, with its number of occurrences, at least 1 |
| Tally.TallyStep | src/pages/FeedbackAnalytics.tsx:64-66 | counting one more element is one `Increment` |
| Tally.Entries | src/pages/FeedbackAnalytics.tsx:70 | `Object.entries`: array-index keys first in numeric order, then the others in insertion order, so a permutation of the entries |
| Tally.EntriesWithoutIndexKeys | src/pages/FeedbackAnalytics.tsx:70 | without array-index keys the entries come in insertion order |
| FeedbackAnalytics.StripPunctuation | src/pages/FeedbackAnalytics.tsx:60 | `replace(/[^\w\s]/g, '')` keeps only word and space characters of the text |
| FeedbackAnalytics.SpaceIndex | src/pages/FeedbackAnalytics.tsx:61 | the first whitespace character |
| FeedbackAnalytics.SplitOnSpaces | src/pages/FeedbackAnalytics.tsx:61 | `split(/\s+/)`: at least one piece, no piece holds whitespace, and every character comes from the text |
| FeedbackAnalytics.SplitOnSpacesRuns | src/pages/FeedbackAnalytics.tsx:61 | the pieces of `split(/\s+/)` interleaved with non-empty runs of white space give back the text; only the first and last piece can be empty, the first exactly when the text is empty or starts with white space, the last exactly when it ends with white space |
| FeedbackAnalytics.SplitStep | src/pages/FeedbackAnalytics.tsx:61 | the split is the text before the first white space, then the split of what follows the run |
| FeedbackAnalytics.FirstRunIsRun | src/pages/FeedbackAnalytics.tsx:61 | the run the split cuts at first is non-empty white space |
| FeedbackAnalytics.FirstRunCut | src/pages/FeedbackAnalytics.tsx:61 | the text is its first piece, its first run and the rest |
| FeedbackAnalytics.RestEnd | src/pages/FeedbackAnalytics.tsx:61 | the text after the first run ends as the text does, or is empty when the text ends in white space |
| FeedbackAnalytics.RunsCount | src/pages/FeedbackAnalytics.tsx:61 | one run fewer than pieces |
| FeedbackAnalytics.RunsAreSpace | src/pages/FeedbackAnalytics.tsx:61 | every run is non-empty white space |
| FeedbackAnalytics.InterleaveRuns | src/pages/FeedbackAnalytics.tsx:61 | pieces and runs interleaved give back the text |
| FeedbackAnalytics.PieceCount | src/pages/FeedbackAnalytics.tsx:61 | two or more pieces iff the text holds white space, else the text itself is the one piece |
| FeedbackAnalytics.FirstPiece | src/pages/FeedbackAnalytics.tsx:61 | the first piece is empty iff the text is empty or starts with white space |
| FeedbackAnalytics.InnerPiecesNonEmpty | src/pages/FeedbackAnalytics.tsx:61 | no piece between the first and the last is empty |
| FeedbackAnalytics.EndPieces | src/pages/FeedbackAnalytics.tsx:61 | with two or more pieces, the last is empty iff the text ends with white space |
| FeedbackAnalytics.Words | src/pages/FeedbackAnalytics.tsx:58-62 | every word kept is longer than two characters and not a stopword |
| FeedbackAnalytics.WordShape | src/pages/FeedbackAnalytics.tsx:58-62 | a kept word is made of word characters with no upper-case letter, each from the lower-cased text |
| FeedbackAnalytics.AllWordsCounted | src/pages/FeedbackAnalytics.tsx:57-63 | the words of all feedback are counted words |
| FeedbackAnalytics.Ranked | src/pages/FeedbackAnalytics.tsx:70-73 | at most 50 entries sorted by count, highest first; with at most 50 distinct words, a permutation of all the counts |
| FeedbackAnalytics.MinCount | src/pages/FeedbackAnalytics.tsx:77 | the smallest count of the list |
| FeedbackAnalytics.SizeOf | src/pages/FeedbackAnalytics.tsx:79-82 | `12 + 36·(count - min)/(max - min)` is not a number iff max = min, and otherwise lies in [12, 48] |
| FeedbackAnalytics.CloudOf | src/pages/FeedbackAnalytics.tsx:71-82 | one sized item per ranked entry, with its word and count |
| FeedbackAnalytics.WordCloud | src/pages/FeedbackAnalytics.tsx:53-85 | the cloud lists the ranked words with their counts, in rank order |
| FeedbackAnalytics.CloudRanked | src/pages/FeedbackAnalytics.tsx:72-73 | at most 50 words, counts not increasing |
| FeedbackAnalytics.CloudCounts | src/pages/FeedbackAnalytics.tsx:57-67 | each cloud word occurs in the feedback, is a counted word, and its count is its total number of occurrences |
| FeedbackAnalytics.CloudSizes | src/pages/FeedbackAnalytics.tsx:76-82 | every defined size is in [12, 48], and sizes are undefined exactly when the first and last counts are equal |
| FeedbackAnalytics.RankedFromTally | src/pages/FeedbackAnalytics.tsx:70-73 | every ranked entry is one of the counted entries |
| FeedbackAnalytics.CloudCoversFewWords | src/pages/FeedbackAnalytics.tsx:70-73 | with at most 50 distinct words, every word of the feedback is in the cloud |
| FeedbackAnalytics.RankedCoversFewWords | src/pages/FeedbackAnalytics.tsx:70-73 | with at most 50 distinct words, every word of the feedback has a ranked entry |
| FeedbackAnalytics.CountWords | src/pages/FeedbackAnalytics.tsx:64-66 | the inner `forEach` adds the words to the counts |
| FeedbackAnalytics.CountAll | src/pages/FeedbackAnalytics.tsx:57-67 | the outer `forEach` counts every word of every point |
| FeedbackAnalytics.SizeAll | src/pages/FeedbackAnalytics.tsx:76-82 | the in-place size assignment computes `CloudOf` |
| FeedbackAnalytics.ProcessWordFrequency | src/pages/FeedbackAnalytics.tsx:53-85 | the whole procedure computes `WordCloud` |
| FeedbackAnalytics.FeedbackReferrer | src/pages/FeedbackAnalytics.tsx:26-36 | the saved investments route iff coming from "/investments" with saved state; "/feedback" when there is no `from` |
| FeedbackAnalytics.Page.constructor | src/pages/FeedbackAnalytics.tsx:39-51 | loads the stored feedback, and computes the cloud only when there is some |
| FeedbackAnalytics.Page.RecentFeedback | src/pages/FeedbackAnalytics.tsx:232-234 | sorts the feedback state in place by timestamp, newest first, and shows the first 20 |
| Navigation.Referrer | src/pages/FeedbackAnalytics.tsx:26-36 | the `getReferrer` rule: the saved investments state iff `from` is "/investments" and a state is saved; otherwise a non-empty `from`, or the fallback |
| Feedback.NewPoint | src/pages/Feedback.tsx:24-28 | a point with the trimmed text, the decimal text of the first clock reading as its id, and the second reading as its timestamp |
| Feedback.Without | src/pages/Feedback.tsx:39-44 | drops exactly the points with that id |
| Feedback.WithoutKeepsOrder | src/pages/Feedback.tsx:39-44 | the other points keep their order |
| Feedback.WithoutIdempotent | src/pages/Feedback.tsx:39-44 | removing the same id twice is removing it once |
| Feedback.AddThenRemove | src/pages/Feedback.tsx:22-46 | adding a point with a fresh id and removing that id restores the list |
| Feedback.SameMillisecondRemovesBoth | src/pages/Feedback.tsx:25-39 | two points added in the same millisecond share an id, so removing one removes both |
| Feedback.FeedbackBack | src/pages/Feedback.tsx:66-68 | the Back button: the `from` path when it is non-empty, otherwise "/", with no state passed |
| Feedback.Page.constructor | src/pages/Feedback.tsx:19-33 | an empty session list and input; the stored list is what was saved, or empty |
| Feedback.Page.SetCurrent | src/pages/Feedback.tsx:20 | sets the input only |
| Feedback.Page.AddDisabled | src/pages/Feedback.tsx:109 | the Add button is disabled iff the input is only whitespace |
| Feedback.Page.AddFeedbackPoint | src/pages/Feedback.tsx:22-36 | nothing changes when the trimmed input is empty; otherwise one new point is appended to both lists and the input is cleared |
| Feedback.Page.RemoveFeedbackPoint | src/pages/Feedback.tsx:38-46 | removes the id from both lists |
| Feedback.Page.HandleKeyPress | src/pages/Feedback.tsx:48-53 | Enter without Shift adds the point as `AddFeedbackPoint` does; any other key changes nothing |
| IncomeForm.HexRunEnd | src/components/IncomeForm.tsx:47 | the end of the run of hexadecimal digits `parseInt` reads after "0x" |
| IncomeForm.SignEnd | src/components/IncomeForm.tsx:47 | an optional sign is at most one character |
| IncomeForm.ParseInt | src/components/IncomeForm.tsx:47 | `parseInt`: an all-white-space text is `NaN`, and a negative result comes only from a text whose first non-blank character is '-' |
| IncomeForm.ParseIntOrZero | src/components/IncomeForm.tsx:47 | `parseInt(s) \|\| 0`: the parsed integer, or 0 when there are no digits |
| IncomeForm.Scale | src/components/IncomeForm.tsx:44 | the power of ten an exponent stands for is positive |
| IncomeForm.Exponent | src/components/IncomeForm.tsx:44 | the exponent part of a `parseFloat` literal, read from position m, ends within the text |
| IncomeForm.Decimal | src/components/IncomeForm.tsx:44 | the unsigned decimal literal `parseFloat` reads is never negative |
| IncomeForm.Scaled | src/components/IncomeForm.tsx:44 | a mantissa of whole part and fraction digits, times a positive power of ten, is never negative |
| IncomeForm.ParseFloat | src/components/IncomeForm.tsx:44 | `parseFloat`: an all-white-space text is `NaN`, and a negative finite result comes only from a text whose first non-blank character is '-' |
| IncomeForm.DigitsOfNat | src/components/IncomeForm.tsx:47 | the digits of a natural number read back as that number |
| IncomeForm.ParseIntOfNat | src/components/IncomeForm.tsx:47 | a count typed as a plain natural number is parsed back to that number |
| IncomeForm.ParseFloatOfNat | src/components/IncomeForm.tsx:44 | an income typed as a plain natural number is parsed as that number |
| IncomeForm.DecimalOfDigits | src/components/IncomeForm.tsx:44 | a run of digits has the decimal value of those digits |
| IncomeForm.NoLeadingSpace | src/components/IncomeForm.tsx:44 | trimming leaves digits alone |
| IncomeForm.AllDigitsRun | src/components/IncomeForm.tsx:44-47 | in a text of digits the digit run reaches the end |
| IncomeForm.FormValid | src/components/IncomeForm.tsx:33-36 | valid only with the housing question answered and an income; with no housing, valid iff the five text fields are filled in; with housing and roommates, never valid without a count |
| IncomeForm.SubmitDisabledFor | src/components/IncomeForm.tsx:243-245 | disabled whenever housing is unanswered or the postcode or income is empty; with no housing, enabled iff the five text fields are filled in |
| IncomeForm.DisabledIffInvalid | src/components/IncomeForm.tsx:243-245 | the submit button's condition is exactly the negation of `isFormValid` |
| IncomeForm.PayloadOf | src/components/IncomeForm.tsx:39-48 | `hasRoommates` is true iff it was chosen true (null gives false); an empty count gives 0 and a natural number gives itself; the income is `parseFloat` of the text |
| IncomeForm.EmptyCount | src/components/IncomeForm.tsx:47 | an empty count parses to 0 |
| IncomeForm.RoommateCountRange | src/components/IncomeForm.tsx:227-234 | a natural number typed as the count passes `min="1" max="10"` and the default step exactly when it is from 1 to 10 |
| IncomeForm.CountStepAligned | src/components/IncomeForm.tsx:227-234 | a whole count is a whole number of steps above the minimum 1 |
| IncomeForm.RefusedCounts | src/components/IncomeForm.tsx:227-234 | the counts "0", "11" and "2.5" fail the browser's check |
| IncomeForm.RefusedZero | src/components/IncomeForm.tsx:227-234 | the count "0" is below the minimum |
| IncomeForm.RefusedEleven | src/components/IncomeForm.tsx:227-234 | the count "11" is above the maximum |
| IncomeForm.RefusedFraction | src/components/IncomeForm.tsx:227-234 | the count "2.5" is not a whole step above the minimum |
| IncomeForm.ParseMinusFive | src/components/IncomeForm.tsx:44 | `parseFloat("-5")` is -5 |
| IncomeForm.ParseOnePointZeroZeroOne | src/components/IncomeForm.tsx:44 | `parseFloat("1.001")` is 1.001 |
| IncomeForm.DecimalOfOnePointZeroZeroOne | src/components/IncomeForm.tsx:44 | the literal "1.001" has the value 1.001 |
| IncomeForm.ParseTwoPointFive | src/components/IncomeForm.tsx:44 | `parseFloat("2.5")` is 2.5 |
| IncomeForm.RefusedIncomes | src/components/IncomeForm.tsx:135-142 | the incomes "-5" and "1.001" fail `min="0" step="0.01"` |
| IncomeForm.RefusedNegative | src/components/IncomeForm.tsx:140 | the income "-5" fails `min="0"` |
| IncomeForm.RefusedFractionOfPenny | src/components/IncomeForm.tsx:141 | the income "1.001" fails `step="0.01"` |
| IncomeForm.WholeIncomeAccepted | src/components/IncomeForm.tsx:135-142 | a whole number of pounds passes `min="0" step="0.01"` |
| IncomeForm.WholeStepAligned | src/components/IncomeForm.tsx:135-142 | a whole number is a whole number of hundredths above 0 |
| IncomeForm.Form.SubmitDisabled | src/components/IncomeForm.tsx:243-245 | the button is disabled iff the form is not valid |
| IncomeForm.Form.constructor | src/components/IncomeForm.tsx:22-29 | all text fields empty and both choices unset, so the form is not valid |
| IncomeForm.Form.IsFormValid | src/components/IncomeForm.tsx:33-36 | the form's `isFormValid` holds exactly when the submit button is enabled |
| IncomeForm.Form.SetPostcode | src/components/IncomeForm.tsx:72 | stores the upper-cased postcode and changes nothing else |
| IncomeForm.Form.SetWorkplacePostcode | src/components/IncomeForm.tsx:104 | stores the upper-cased workplace postcode and changes nothing else |
| IncomeForm.Form.SetCity | src/components/IncomeForm.tsx:88 | stores the city and changes nothing else |
| IncomeForm.Form.SetWorkplaceCity | src/components/IncomeForm.tsx:120 | stores the workplace city and changes nothing else |
| IncomeForm.Form.SetIncome | src/components/IncomeForm.tsx:138 | stores the income text and changes nothing else |
| IncomeForm.Form.SetNumRoommates | src/components/IncomeForm.tsx:220-230 | the count field, shown only with housing and roommates, stores the text and changes nothing else |
| IncomeForm.Form.ChooseHousing | src/components/IncomeForm.tsx:153-172 | sets the housing choice, resets roommates to null and the count to ""; choosing Yes makes the form invalid until roommates are chosen |
| IncomeForm.Form.ChooseRoommates | src/components/IncomeForm.tsx:184-206 | sets the roommates choice and resets the count to "" |
| IncomeForm.Form.HandleSubmit | src/components/IncomeForm.tsx:31-50 | submits iff the form is valid, and then the payload built from the fields |
| IncomeForm.Form.Submit | src/components/IncomeForm.tsx:240-245 | pressing submit hands on a payload iff the form is valid and the number inputs pass the browser's check, and then the income is a finite non-negative number |
| Settings.With | src/pages/Settings.tsx:101-102 | `{ ...settings, [key]: value }` sets exactly the one key and keeps all others |
| Settings.SameValuesSameSettings | src/pages/Settings.tsx:14-21 | settings are determined by their seven values |
| Settings.WithCurrentValue | src/pages/Settings.tsx:101-102 | setting a key to its current value changes nothing |
| Settings.WithTwiceSameKey | src/pages/Settings.tsx:101-102 | the last of two updates to the same key wins |
| Settings.InitialSettings | src/pages/Settings.tsx:41-68 | stored settings are used as they are; otherwise the defaults, with `darkMode` set from the system preference |
| Settings.ClassesAfter | src/pages/Settings.tsx:70-99 | "dark", "high-contrast" and "reduced-motion" are present iff their flags are set; every other class is untouched |
| Settings.ApplyIdempotent | src/pages/Settings.tsx:70-99 | applying the same settings twice is applying them once |
| Settings.ApplyForgetsEarlier | src/pages/Settings.tsx:70-99 | the classes depend only on the last settings applied |
| Settings.Root.constructor | src/pages/Settings.tsx:71 | the root element with its classes, font size and colour-blind attribute |
| Settings.Root.Apply | src/pages/Settings.tsx:70-99 | the `if` chain leaves the classes as `ClassesAfter` says and sets the font size and colour-blind mode |
| Settings.SettingsReferrer | src/pages/Settings.tsx:28-38 | the saved investments route iff coming from "/investments" with saved state; "/" when there is no `from` |
| Settings.Page.CancelDisabled | src/pages/Settings.tsx:347-353 | exactly one of Cancel and Save is enabled: Cancel is disabled exactly when Save is not |
| Settings.Page.constructor | src/pages/Settings.tsx:40-68 | loads the initial settings with no changes pending, and applies them when they were stored or dark mode is preferred |
| Settings.Page.UpdateSetting | src/pages/Settings.tsx:101-106 | changes exactly one field, marks changes pending (so Save is enabled and Cancel disabled) and re-applies the settings |
| Settings.Page.SaveSettings | src/pages/Settings.tsx:108-111 | stores the current settings and clears the pending flag |
| Settings.Page.ResetSettings | src/pages/Settings.tsx:113-126 | installs and applies the defaults (no managed class, 16px, "none") and marks changes pending; storage is untouched |
| Settings.Page.Back | src/pages/Settings.tsx:138-144 | the back button goes to the referrer |
| Settings.Page.Cancel | src/pages/Settings.tsx:340-347 | Cancel navigates to the referrer iff no changes are pending |
| AIChatbot.DotRunEnd | src/components/AIChatbot.tsx:124-126 | the greedy `.+` stops exactly at the first line terminator or the end of the line |
| AIChatbot.StepEnd | src/components/AIChatbot.tsx:124 | the digit run of a step number lies within the line |
| AIChatbot.StepIff | src/components/AIChatbot.tsx:124 | the greedy digit-run test holds iff `/^(\d+[\.\)])(.+)/` matches somewhere (the regex meaning as an existential) |
| AIChatbot.DigitRunFrom | src/components/AIChatbot.tsx:124 | a digit run that reaches a non-digit at `k` ends exactly at `k` |
| AIChatbot.ClassifyWith | src/components/AIChatbot.tsx:124-149 | a step is a number ending in `.` or `)` followed by non-empty text, both a prefix of the line; a bullet is only shown when the line is not a step, with its first character as mark; plain text is the line unchanged |
| AIChatbot.FormatLine | src/components/AIChatbot.tsx:124-149 | a line is a step iff the step pattern matches; a bullet iff not a step and it starts with one of the characters written in the class followed by text; blank iff neither and all white space |
| AIChatbot.ClassifyCases | src/components/AIChatbot.tsx:128-149 | a step iff the step pattern matches; a bullet iff only the bullet pattern matches; nothing iff neither matches and the line is all white space |
| AIChatbot.FormatMessage | src/components/AIChatbot.tsx:119-122 | one view per line of `content.split('\n')` (one more than the newlines), in order |
| AIChatbot.BulletDotIsPlain | src/components/AIChatbot.tsx:126 | as written, a line beginning with a real `•` is shown as plain text, not as a bullet |
| AIChatbot.IntendedBulletDot | src/components/AIChatbot.tsx:126-141 | with the class `-`, `*`, `•`, every line beginning with `•` and one more character is a bullet marked `•` |
| AIChatbot.View | src/components/AIChatbot.tsx:209 | answers are formatted iff they come from the assistant; the user's messages are shown as typed |
| AIChatbot.ReplyText | src/components/AIChatbot.tsx:81-106 | never empty: the response when it is non-empty, the fallback text when it is missing or empty, the apology when the call failed |
| AIChatbot.Chat.SendDisabled | src/components/AIChatbot.tsx:254 | disabled iff loading or the input is only white space |
| AIChatbot.Chat.constructor | src/components/AIChatbot.tsx:22-25 | closed, no messages, empty input, not loading |
| AIChatbot.Chat.SetInput | src/components/AIChatbot.tsx:246 | stores the input and changes nothing else |
| AIChatbot.Chat.Open | src/components/AIChatbot.tsx:48-57 | opens the chat; the welcome message is added iff the transcript was empty |
| AIChatbot.Chat.Close | src/components/AIChatbot.tsx:177 | closes the chat and keeps the transcript |
| AIChatbot.Chat.SendMessage | src/components/AIChatbot.tsx:59-71 | nothing happens when disabled; otherwise the trimmed text is appended as a user message whose id is the first clock reading and whose timestamp is the second, sent as the request, the input is cleared and loading starts; the open state is kept |
| AIChatbot.Chat.Receive | src/components/AIChatbot.tsx:83-109 | appends the reply text as an assistant message whose id is one more than the first later clock reading and whose timestamp is the second, and stops loading |
| AIChatbot.Chat.HandleKeyPress | src/components/AIChatbot.tsx:112-117 | Enter without Shift, with sending enabled, appends the user message as `SendMessage` does, sends the trimmed input, clears it and starts loading; every other key, and Enter while sending is disabled, changes nothing; the open state is kept |
| Scholarships.Filtered | src/pages/Scholarships.tsx:297-303 | the shown entries are exactly the catalogue entries whose name, provider or description contains the lower-cased term and whose sector matches (or the sector is "all"), in catalogue order |
| Scholarships.EmptySearchKeepsAll | src/pages/Scholarships.tsx:297-303 | with the initial empty term and "all" sectors nothing is filtered out |
| Scholarships.InitialViewShowsTwenty | src/pages/Scholarships.tsx:38-295 | the page opens showing all twenty opportunities |
| Scholarships.SearchIgnoresCase | src/pages/Scholarships.tsx:298-300 | lower-casing the term first changes nothing |
| Scholarships.SectorNarrowsAll | src/pages/Scholarships.tsx:301 | choosing a sector only narrows what the "all" view shows for the same term |
| Scholarships.CatalogueSectorsSelectable | src/pages/Scholarships.tsx:27-295 | every entry's sector is one of the selectable sectors other than "all" |
| Scholarships.TypeColor | src/pages/Scholarships.tsx:305-312 | the gray style is used exactly for kinds other than Scholarship, Bursary and Grant |
| Scholarships.KindsDistinct | src/pages/Scholarships.tsx:307-309 | the three kinds get three different styles |
| Scholarships.CatalogueNeverGray | src/pages/Scholarships.tsx:38-312 | no catalogue entry is shown with the fallback style |
| News.FilteredArticles | src/pages/News.tsx:172-174 | "all" shows every article; otherwise exactly the articles of the selected industry, in order |
| News.SubsequenceRefl | src/pages/News.tsx:172-173 | a list is a subsequence of itself, so the "all" view keeps the order |
| News.TrendingArticles | src/pages/News.tsx:176 | exactly the trending articles, in order |
| News.Heading | src/pages/News.tsx:262 | "All Articles" for "all", otherwise the selected industry's name followed by " Articles" |
| News.FindName | src/pages/News.tsx:262 | `industries.find(...)?.name`: found iff some industry has the id, and then the name of an industry with that id |
| News.BackRoute | src/pages/News.tsx:47-66 | back to the investments page with the stored data iff the stored path is "/investments" and data is stored; home otherwise |
| News.Page.constructor | src/pages/News.tsx:28-41 | the "all" tab; arriving from investments records that path and data, arriving from home records "/", otherwise storage is kept |
| News.Page.SelectIndustry | src/pages/News.tsx:28 | selects the tab and leaves storage alone |
| News.Page.HandleBack | src/pages/News.tsx:47-66 | the route `BackRoute` gives for what is stored |
| News.BackAfterInvestments | src/pages/News.tsx:32-60 | arriving from investments leads back there with the same data |
| News.BackAfterHome | src/pages/News.tsx:38-64 | arriving from home leads back home |
| Analytics.FetchedViews | src/pages/Analytics.tsx:63-67 | a prefix of the newest-first paths, at most 1000 long |
| Analytics.PageStats | src/pages/Analytics.tsx:69-72 | no data gives no counts; otherwise one entry per distinct fetched path, whose count is the number of rows with that path |
| Analytics.ByViews | src/pages/Analytics.tsx:74-76 | the page counts sorted by views, highest first, as a permutation |
| Analytics.TopPages | src/pages/Analytics.tsx:69-77 | at most five entries, highest views first, each a real page count; all pages when there are at most five; none without data |
| Analytics.CutFacts | src/pages/Analytics.tsx:77 | cutting a sorted permutation to five keeps it sorted and made of counted pages |
| Analytics.TopPageCounts | src/pages/Analytics.tsx:69-72 | each top entry's count is the number of fetched rows with its path, and the path was fetched |
| Analytics.NoDataNoTopPages | src/pages/Analytics.tsx:72 | no data gives no top pages |
| Analytics.OmittedPagesViewedLess | src/pages/Analytics.tsx:74-77 | a counted page left out means the list is full and every listed page has at least its views |
| Analytics.DayBack | src/pages/Analytics.tsx:104 | going back `i` whole days from now lands on the day `i` before today |
| Analytics.DaysOf | src/pages/Analytics.tsx:92-98 | each timestamp's calendar day |
| Analytics.StatFor | src/pages/Analytics.tsx:91-108 | a day's sessions and page views are the numbers of timestamps on that day |
| Analytics.DailyStats | src/pages/Analytics.tsx:80-110 | seven rows, oldest first, row `j` being the day `6 - j` before today, counts from the fetched timestamps (none when missing) |
| Analytics.CountingBack | src/pages/Analytics.tsx:103-109 | the seven rows before `.reverse()`: row `i` is `i` days back |
| Analytics.DaysBack | src/pages/Analytics.tsx:104 | the day `i` before today |
| Analytics.Reverse | src/pages/Analytics.tsx:110 | `.reverse()`: same length, element `j` from position `|s| - 1 - j` |
| Analytics.Growth | src/pages/Analytics.tsx:210-212 | a figure exactly when there are at least two days |
| Analytics.GrowthLabel | src/pages/Analytics.tsx:210-212 | "+0%" without a figure, otherwise "+", the figure and "%" |
| Analytics.Base | src/pages/Analytics.tsx:211 | `Math.max(before \|\| 1, 1)`: at least one, and the day before when that was not zero |
| Analytics.GrowthSign | src/pages/Analytics.tsx:211 | the growth is non-negative, zero or non-positive as the last day is at least, equal to or below the divisor |
| Analytics.QuietDaysShowMinusHundred | src/pages/Analytics.tsx:211 | two days without sessions read "+-100%" |
| Analytics.DataOf | src/pages/Analytics.tsx:112-119 | the average session time is 0, at most five top pages, seven days, and a failed count reads 0 |
| Analytics.Page.constructor | src/pages/Analytics.tsx:24-32 | empty data, loading |
| Analytics.Page.Fetch | src/pages/Analytics.tsx:40-126 | a successful refresh installs `DataOf` of its results, a failed one keeps the old data, and loading ends either way |
| Analytics.AnalyticsReferrer | src/pages/Analytics.tsx:23 | `location.state?.from \|\| '/'`: the given non-empty path, otherwise "/" |
| TradingStrategies.Find | src/components/TradingStrategies.tsx:184 | `strategies.find`: the first index with the id, or none when no strategy has it |
| TradingStrategies.CurrentStrategy | src/components/TradingStrategies.tsx:184 | the selected strategy when one has its id, otherwise the first |
| TradingStrategies.OpensOnMomentum | src/components/TradingStrategies.tsx:15-60 | the initial selection shows the momentum strategy |
| TradingStrategies.RiskVariant | src/components/TradingStrategies.tsx:246 | "default" iff Low, "secondary" iff Medium, "destructive" iff anything else |
| TradingStrategies.RandomFactorRange | src/components/TradingStrategies.tsx:193-197 | a draw in [0, 1) gives a random factor in [-volatility, volatility) |
| TradingStrategies.GeneratePerformanceData | src/components/TradingStrategies.tsx:187-211 | thirteen points, point `i` being the rounded value after `i` months and the rounded 7% benchmark |
| TradingStrategies.PointAt | src/components/TradingStrategies.tsx:189-207 | point `i` is labelled month `i`; month 0 shows the yearly investment for both value and benchmark |
| TradingStrategies.ValueAfter | src/components/TradingStrategies.tsx:188-202 | the portfolio stays non-negative from a non-negative income while no month loses more than everything |
| TradingStrategies.LastBenchmark | src/components/TradingStrategies.tsx:207 | month 12's benchmark is the yearly investment grown by 7% |
| TradingStrategies.MidpointDrawsGrowByDrift | src/components/TradingStrategies.tsx:194-202 | with every draw at 0.5 the portfolio grows by the monthly drift each month |
| Countdown.TickValue | src/pages/CountdownPage.tsx:24-31 | at 1 or below the tick sets the countdown to 0; above 1 it counts down by one and stays positive |
| Countdown.FifthTickNavigates | src/pages/CountdownPage.tsx:6-33 | starting from 5, after `k` ticks the countdown is `5 - k`, and the tick that navigates is exactly the fifth, which leaves 0 |
| Countdown.Progress | src/pages/CountdownPage.tsx:73 | the bar is empty at the start, full at 0, and within 0–100% in between |
| Countdown.TickAdvancesProgress | src/pages/CountdownPage.tsx:73 | every non-final tick fills another 20% of the bar |
| Countdown.Page.constructor | src/pages/CountdownPage.tsx:6-15 | the countdown at 5, the first text shown, the second not yet, ticking, nothing navigated |
| Countdown.Page.ShowSecondText | src/pages/CountdownPage.tsx:18-20 | shows the second text and changes nothing else |
| Countdown.Page.Tick | src/pages/CountdownPage.tsx:23-33 | the countdown becomes `TickValue`; the navigation to the results with the form data happens, and the timer stops, iff the countdown was at most 1 |
| CongressTrades.SumOfAppend | src/pages/CongressTrades.tsx:84-86 | a `reduce` sum over a concatenation is the sum of the two parts |
| CongressTrades.SumOfBetween | src/pages/CongressTrades.tsx:84-86 | a sum of values within [lo, hi] lies between `lo·n` and `hi·n` |
| CongressTrades.TotalTrades | src/pages/CongressTrades.tsx:85 | the total is non-negative and at least every member's trade count |
| CongressTrades.TotalValue | src/pages/CongressTrades.tsx:84 | with non-negative values the total is non-negative and at least every member's value |
| CongressTrades.SumOfNonNegative | src/pages/CongressTrades.tsx:84-85 | a sum of non-negative terms is non-negative and at least each term |
| CongressTrades.AverageReturn | src/pages/CongressTrades.tsx:86 | a number iff there are members (division by zero gives NaN), and then the average times the count is the sum of the returns |
| CongressTrades.AverageWithinReturns | src/pages/CongressTrades.tsx:86 | the average return lies between the smallest and largest member returns |
| CongressTrades.OverviewFigures | src/pages/CongressTrades.tsx:12-86 | the four members give 436 trades, $65.3M traded and an average return of 10.725% |
| CongressTrades.PartyBadge | src/pages/CongressTrades.tsx:230-232 | "D" iff the party is Democratic, "R" iff it is not |
| CongressTrades.ReturnSign | src/pages/CongressTrades.tsx:249 | "+" iff the return is positive, otherwise nothing |
| CongressTrades.Initials | src/pages/CongressTrades.tsx:225 | at most one letter per space-separated part of the name |
| CongressTrades.InitialsOf | src/pages/CongressTrades.tsx:225 | `map(n => n[0]).join('')`: one letter per part iff no part is empty (an empty part contributes nothing), and then letter `i` is part `i`'s first character |
| CongressTrades.PelosiInitials | src/pages/CongressTrades.tsx:225 | "Nancy Pelosi" is shown as "NP" |
| CongressTrades.Page.constructor | src/pages/CongressTrades.tsx:82 | no member selected |
| CongressTrades.Page.CurrentView | src/pages/CongressTrades.tsx:88-90 | the profile view iff a member is selected, showing that member |
| CongressTrades.Page.SelectMember | src/pages/CongressTrades.tsx:219 | clicking a card selects that member and shows their profile |
| CongressTrades.Page.BackToList | src/pages/CongressTrades.tsx:89 | the profile's back action clears the selection and shows the list |
| Investments.Provided | src/pages/Investments.tsx:11-14 | the router state counts iff the income is truthy (present and not 0) and form data is present |
| Investments.OutcomeOf | src/pages/Investments.tsx:19-34 | the page shows the router state when it counts, otherwise the saved state, and redirects to "/" iff neither is there |
| Investments.StoredAfter | src/pages/Investments.tsx:14-16 | storage takes the router state when it counts and is otherwise unchanged |
| Investments.ZeroIncomeIgnored | src/pages/Investments.tsx:14-22 | a remaining income of 0 is treated as missing: nothing is stored and the saved state (or the redirect) is used |
| Investments.ReturnShowsSame | src/pages/Investments.tsx:14-28 | coming back without router state after a shown visit shows the same state again |
| Investments.Storage.constructor | src/pages/Investments.tsx:23 | storage holding the given saved state |
| Investments.Render | src/pages/Investments.tsx:11-34 | the imperative render returns `OutcomeOf` and leaves storage as `StoredAfter` says |

## Left out

- Box–Muller sampling (`Math.random`, `Math.log`, `Math.cos`, `Math.sqrt`) in the two projection components and the MCMC loop: the standard-normal samples are inputs, and `Math.sqrt(12)` is the positive parameter `rootTwelve`.
- `metropolisHastings` in `AdvancedAnalytics.tsx`: it is driven by `Math.exp` and random draws, so the model keeps only the RSI acceptance filter around it.
- The synthetic S&P 500 series of `StockChart.tsx` (built from `Math.sin` and random draws), as it is transcendental floating-point code.
- TradingStrategies.LastBenchmark: `Math.pow(1.07, i / 12)` is written as `Power(monthlyBenchmark, i)` for a parameter whose twelfth power is 1.07, because the model has no fractional powers.
- Floating point: all money and rates are exact reals, so `toFixed`, `toLocaleString` and rounding errors of IEEE doubles are not modelled.
- JSX, recharts charts, icons, CSS classes and every other rendering detail; only the values and conditions the pages render are modelled.
- The network: Supabase queries, analytics tracking (`trackPageView`, sessions, heartbeat) and the AI assistant edge function. Their results are parameters (`Reply`, `Queries`, the `now` timestamps).
- Timers: `setInterval` and `setTimeout` are not modelled; Countdown.Page.Tick and Countdown.Page.ShowSecondText are the callbacks they would call, and the 30-second Analytics refresh is a repeated call of `Fetch`.
- Toasts, console logging, auto-scroll, input focus and the `Date` labels of the charts and the analytics days (only the day numbers are modelled, as whole days since the epoch).
- `JSON.stringify`/`JSON.parse` round trips through browser storage are treated as the identity on the stored records.
- Case mapping covers ASCII letters only; `toLowerCase`/`toUpperCase` on other letters are not modelled.
- Division by zero: the members that divide by the income, by a volatility or by the number of people sharing the rent require a non-zero divisor, so the `NaN`/`Infinity` the pages would show are not modelled. The RSI, VaR, word-size and average-return divisions are modelled with their edge cases, and so is the division by a zero price in the MCMC paths, whose `NaN` is carried through the model as a `Number` of `None`.
- AdvancedAnalytics.RiskRowOf: when some path's total return is `NaN`, the comparator `a - b` of the sort is inconsistent, so the order and the VaR the page shows depend on the engine's sort; the model gives no VaR (`None`) instead of a value.
- AdvancedAnalytics.PanelVaR: the same holds for an accepted path whose total return is `NaN`; the model gives `None` there.
- Tally.Increment: the dictionary is a plain object literal, so the keys `constructor` and `__proto__`, inherited from `Object.prototype`, do not behave as counted: `constructor` starts from a function and its count turns into a string, and an assignment to `__proto__` stores nothing. The model counts them like any other word.
- FeedbackAnalytics.CountWords: a feedback word `constructor` or `__proto__` survives the filter (lower case, longer than two letters, `\w` keeps underscores), and the model counts it as above rather than as the page does.
- FeedbackAnalytics.CloudCounts: its count for those two words is therefore the number of occurrences, not the string or the missing entry the page would show.
- IncomeForm.Form.Submit: the browser's validation of `type="number"` inputs reads the field as `parseFloat` does; its own parser (which refuses trailing text such as `12abc`) is not modelled.
- IncomeForm.PayloadOf: `parseFloat` is modelled on exact reals, so a literal too large for a double does not become `Infinity`; an income that parses to `NaN` or an infinity stays so in the payload, while the pages that receive the payload take a real income.
- ExpenseCalculations.CityMultiplier: its contract pins the first three city bands and the overall range [0.9, 1.5]; the remaining bands are stated only through that range.
- `CongressMemberProfile.tsx`, the member avatars and the members' recent trades: presentation with static chart data and random scatter.
- `Header.tsx`, `InvestmentStrategies.tsx` (static content) and `useTranslation.ts`, which calls a translation table that is not part of this model.
- React's StrictMode double call of state updaters and the batching of `setState` calls: each handler is one atomic state change.
- The header text of the Investments page that repeats the remaining income: display only.

## Findings

| source | as written | input that shows it | evidently intended | confidence | as-written member | corrected member |
|---|---|---|---|---|---|---|
| src/pages/Index.tsx:61-65 | the plan view renders `<FinancialSummary>` without `appliedLoopholes`, and the card calls `appliedLoopholes.reduce` (src/components/FinancialSummary.tsx:41) on `undefined`, which throws, so the plan view and its Start Over button never render | any submitted form | the card with no strategies applied, as src/pages/FinancialPlan.tsx:75 passes `[]` | not executed | IndexPage.Page.PlanCardAsWritten | IndexPage.Page.PlanCard |
| src/components/AIChatbot.tsx:126 | the bullet class is written `[-\*\â€¢]`, the UTF-8 bytes of `•` read as Windows-1252, so it matches `-`, `*`, `â`, `€` and `¢` | the answer line "• Save first" | a line starting with `•` is shown as a bullet | not executed | AIChatbot.BulletDotIsPlain | AIChatbot.IntendedBulletDot |

## Behaviour of the source worth knowing

These follow from the code as written and are modelled as such.

- The Analytics growth card always writes a `+` before the figure, so falling sessions read "+-50%" and two days without sessions read "+-100%" (`Analytics.QuietDaysShowMinusHundred`).
- On the Investments page a remaining income of exactly 0 counts as missing: it is neither stored nor shown, and the saved state or the redirect is used instead (`Investments.ZeroIncomeIgnored`).
- The Settings page falls back to "/" when it was opened without a `from` path, and so does the Analytics page.
- The Settings page applies nothing to the document root on load when there are no stored settings and dark mode is not preferred.
