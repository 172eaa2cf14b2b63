# Portfolio analytics, modelled and verified in Dafny

This project models the deterministic core of a personal investment-planning application:

- The target asset-allocation tables for the three risk profiles, looked up by exact name with a
  "Medium Risk (Balanced)" default (`Allocation`).
- The portfolio analyser (`Holdings`, `PortfolioAnalyzer`). It groups holdings by asset category,
  turns the category totals into percentages, emits tiered imbalance and over-concentration
  insights, and builds the increase/decrease rebalancing actions.
- The expected-return and volatility tables (`ReturnModel`). They are chosen by substring match,
  with High Risk as the fall-through, and blended over the portfolio's category weights.
- The growth projection (`Projection`): expected, pessimistic and optimistic bands at whole years,
  with snapshots at years 1, 3 and 5.
- The four-scenario economic analysis (`Scenarios`): per-scenario blended return and final value,
  the probability-weighted expected value, the yearly chart and the rule-based recommendations.
- The tail of the sector-exposure analysis (`SectorExposure`). It normalises the sector weights,
  computes the Herfindahl–Hirschman diversification score, and compares the weights with an S&P 500
  sector benchmark.
- The goal maths (`Goals`): allocation tables by timeline and risk level, progress percentage,
  expected return rate, and the monthly contribution needed to reach a savings goal.
- The price-alert store (`PriceAlerts`), held in memory. It covers creation with the alert type
  checked, soft delete, marking an alert triggered, and the trigger pass over current prices.

Amounts, percentages and rates are `real`. Categories and other tables are ordered association lists
(`Tables.Table`), because the Python dictionaries they model keep insertion order, and that order
fixes the order of insights, actions and findings. Every loop in the source is a Dafny `method`
whose loop computes the same value as a specification function. The properties are proved about
those functions. Python's `ZeroDivisionError` and `IndexError` are `Result` errors
(`Wrappers.PythonError`) on every path the model admits where the source would raise them; the
inputs a precondition excludes are listed under "Left out". The clock is a parameter (`now`).

Module map:

| file | module | source |
|---|---|---|
| `wrappers.dfy` | `Wrappers` | Option and Result, Python's ZeroDivisionError and IndexError |
| `real_math.dfy` | `RealMath` | absolute value, max, min, powers with whole (also negative) exponents, compounding, `round(x, 1)` |
| `tables.dfy` | `Tables` | the dictionaries: lookup with default, sum, `d[k] += v` |
| `allocation.dfy` | `Allocation` | `utils.py` |
| `holdings.dfy` | `Holdings` | the category grouping loop shared by the analyser, the projection and the scenarios |
| `portfolio_analyzer.dfy` | `PortfolioAnalyzer` | `portfolio_analyzer.py` |
| `return_model.dfy` | `ReturnModel` | `advanced_analytics.py`, rate tables and weighting |
| `projection.dfy` | `Projection` | `advanced_analytics.py`, `predict_portfolio_performance` |
| `scenarios.dfy` | `Scenarios` | `advanced_analytics.py`, `generate_economic_scenario_analysis` |
| `sector_exposure.dfy` | `SectorExposure` | `advanced_analytics.py`, sector-exposure tail |
| `goals.dfy` | `Goals` | `goals.py` |
| `price_alerts.dfy` | `PriceAlerts` | `price_alerts.py` |

## Model

| member | source | states |
|---|---|---|
| Allocation.RiskProfileAllocation | utils.py:45-69 | The conservative and aggressive profile names select their own tables. Every other string selects the balanced table. |
| Allocation.TablesWellFormed | utils.py:46-66 | Each of the three allocation tables has exactly the five categories Large Cap, Mid Cap, Small Cap, Gold and ETFs/Crypto, with distinct keys and non-negative values summing to 100. |
| Allocation.ConservativeWellFormed | utils.py:46-52 | The Low Risk (Conservative) table is a well-formed five-category table summing to 100. |
| Allocation.BalancedWellFormed | utils.py:53-59 | The Medium Risk (Balanced) table is a well-formed five-category table summing to 100. |
| Allocation.AggressiveWellFormed | utils.py:60-66 | The High Risk (Aggressive) table is a well-formed five-category table summing to 100, even though Gold and ETFs/Crypto appear in the opposite order. |
| Allocation.RiskProfileAllocationWellFormed | utils.py:69 | The lookup is total: whatever the profile string, the table returned is well formed. |
| Allocation.ExactNameMatching | utils.py:69 | Matching is by exact key. "Low Risk", "High Risk" and "" all get the balanced table, so "Low Risk" does not get the conservative one. |
| Tables.AccumulateEntries | portfolio_analyzer.py:27-31 | `d[k] += v` (creating the key at 0) keeps keys distinct, adds exactly `k` to the key set, and adds `v` to `k`'s value only. |
| Holdings.GroupByCategory | portfolio_analyzer.py:26-31 | The grouping loop builds exactly the category-totals table `CategoryTotals(items)`. |
| Holdings.CategoryTotalsCorrect | portfolio_analyzer.py:26-31 | The totals table has one distinct key per category present. Each category's value is the sum of its items' amounts, and the values sum to the portfolio total. |
| Holdings.CategoryTotalsPositive | portfolio_analyzer.py:26-31 | With positive amounts, every category total is positive. |
| Holdings.TotalAmountPositive | portfolio_analyzer.py:23 | With positive amounts the total is non-negative, and it is positive for a non-empty portfolio. |
| Holdings.ToPercentages | portfolio_analyzer.py:34-37 | The percentage table keeps the categories in order and maps each to amount / total * 100. |
| Holdings.PercentagesSum | portfolio_analyzer.py:34-37 | The percentages sum to (sum of the amounts) / total * 100. |
| Holdings.PercentagesGet | portfolio_analyzer.py:34-37 | Looking a category up in the percentage table gives its amount / total * 100, and the same categories are present. |
| PortfolioAnalyzer.MaxHoldingPct | portfolio_analyzer.py:78-84 | The per-holding ceiling is 10 for the conservative profile name, 20 for the aggressive one, and 15 for every other string. |
| PortfolioAnalyzer.Analyze | portfolio_analyzer.py:15-105 | The target is always the profile's allocation table. There is at least one insight, and "well balanced" appears only as the sole insight. |
| PortfolioAnalyzer.AnalyzePortfolio | portfolio_analyzer.py:15-105 | The imperative analysis, with its grouping, imbalance and concentration loops, returns exactly `Analyze(portfolio, riskProfile)`. |
| PortfolioAnalyzer.CheckImbalances | portfolio_analyzer.py:46-75 | The imbalance loop appends exactly the per-category insights, in target-table order. |
| PortfolioAnalyzer.CheckConcentration | portfolio_analyzer.py:86-92 | The concentration loop appends exactly one over-concentration insight per holding above the ceiling, in portfolio order. |
| PortfolioAnalyzer.EmptyPortfolioAnalysis | portfolio_analyzer.py:15-20 | An empty portfolio gives an empty current allocation, the profile's target table, and the single "add investments" insight at level info. |
| PortfolioAnalyzer.ImbalanceInsightsKinds | portfolio_analyzer.py:46-75 | The imbalance rules never produce the "well balanced" insight. |
| PortfolioAnalyzer.ConcentrationInsightsKinds | portfolio_analyzer.py:86-92 | The concentration rule only produces over-concentration warnings. |
| PortfolioAnalyzer.CategoryInsightTiers | portfolio_analyzer.py:46-75 | The tiers for one category. A warning means the category is absent or differs by more than 10 points. An info means it is present and differs by more than 5 and at most 10. No insight means it is present and within 5. |
| PortfolioAnalyzer.ImbalanceInsightsMembers | portfolio_analyzer.py:46-75 | The imbalance insights are exactly the union of the per-category insights of the target rows, at most one per row. |
| PortfolioAnalyzer.ConcentrationInsightsMembers | portfolio_analyzer.py:86-92 | An over-concentration insight is present exactly for each holding whose share exceeds the ceiling, carrying its name, share and the ceiling. |
| PortfolioAnalyzer.NoImbalanceInsights | portfolio_analyzer.py:46-75 | There are no imbalance insights if and only if every target category is present and within 5 points. |
| PortfolioAnalyzer.NoConcentrationInsights | portfolio_analyzer.py:86-92 | There are no concentration insights if and only if every holding is at or under the ceiling. |
| PortfolioAnalyzer.WellBalancedExactly | portfolio_analyzer.py:94-99 | For a non-empty portfolio, the insights are exactly ["well balanced"] if and only if no imbalance rule and no concentration rule fires. |
| PortfolioAnalyzer.CurrentAllocationPercentages | portfolio_analyzer.py:23-37 | With positive amounts, the current allocation has one distinct entry per category present. Each entry is its category sum / total * 100, and the entries sum to exactly 100. |
| PortfolioAnalyzer.AnalysisCurrentAllocation | portfolio_analyzer.py:101-105 | The analysis reports the percentage table of the grouped holdings. |
| PortfolioAnalyzer.GetAllocationRecommendation | portfolio_analyzer.py:107-160 | The imperative recommendation returns exactly `Recommend(portfolio, analysis)`. |
| PortfolioAnalyzer.AppendRowAction | portfolio_analyzer.py:129-155 | One pass of the action loop appends exactly that row's action, if any. |
| PortfolioAnalyzer.CategoryActionMeaning | portfolio_analyzer.py:129-155 | A row yields at most one action, and it yields one if and only if the gap exceeds 1% of the total. The action carries current amount, target amount = total * pct / 100 and difference = target − current. It is "increase" if and only if the difference is positive. |
| PortfolioAnalyzer.RebalanceActionsMembers | portfolio_analyzer.py:129-155 | The actions are exactly the union of the per-row actions, at most one per target row. |
| PortfolioAnalyzer.RebalanceActionsRows | portfolio_analyzer.py:129-155 | Every action names a target-table category and is the action of that category's row. |
| PortfolioAnalyzer.RebalanceActionsConsistent | portfolio_analyzer.py:132-155 | Every action's fields agree with the table: target amount from its target percentage, difference = target − current, and type by the sign of the difference. |
| PortfolioAnalyzer.RowActionConsistent | portfolio_analyzer.py:132-155 | The action of a single row is consistent in the same sense. |
| PortfolioAnalyzer.RebalanceActionsThreshold | portfolio_analyzer.py:137 | A category has an action if and only if it is in the target table and its shortfall exceeds 1% of the total. |
| PortfolioAnalyzer.RowShortfall | portfolio_analyzer.py:132-137 | A row has an action if and only if its category's shortfall exceeds 1% of the total. |
| PortfolioAnalyzer.RebalanceActionsOrdered | portfolio_analyzer.py:129 | The actions follow target-table order. |
| PortfolioAnalyzer.EmptyPortfolioRecommendation | portfolio_analyzer.py:118-119 | An empty portfolio gives no actions, an empty allocation and no total. |
| PortfolioAnalyzer.RecommendationOfAnalysis | portfolio_analyzer.py:121-160 | Fed the analysis of a positive portfolio, the returned total is the sum of all amounts, and every action's current amount is its category's actual sum. |
| PortfolioAnalyzer.CurrentAmountOfCategory | portfolio_analyzer.py:130-132 | Converting a category's percentage back to money gives that category's sum, including 0 for an absent category. |
| ReturnModel.IsSubstringCorrect | advanced_analytics.py:160 | The substring test holds if and only if the marker occurs at some position in the profile string. |
| ReturnModel.ExpectedReturnRates | advanced_analytics.py:149-183 | Whatever the profile, the table holds a rate for each of the five categories, in the same key order. |
| ReturnModel.VolatilityEstimates | advanced_analytics.py:185-219 | Whatever the profile, the table holds a volatility for each of the five categories, in the same key order. |
| ReturnModel.TableSelection | advanced_analytics.py:160-219 | Both tables are chosen the same way. "Low Risk" anywhere selects the low table. Otherwise "Medium Risk" anywhere selects the medium table. Every other string selects the high table. |
| ReturnModel.ProfileNamesSelectLevels | advanced_analytics.py:160-176 | The three profile names select their own level, "" falls through to High, and a string containing both markers is Low. |
| ReturnModel.RateTablesBounds | advanced_analytics.py:160-219 | Each selected table has the five distinct categories. Returns lie in [0.04, 0.18] and volatilities in [0.10, 0.35]. |
| ReturnModel.WeightedRate | advanced_analytics.py:53-57 | The weighting loop computes the sum, over category totals, of (total / portfolio total) * rate, counting categories missing from the table as 0. |
| ReturnModel.UnmappedContributesNothing | advanced_analytics.py:56-57 | A category missing from the rate table contributes 0. |
| ReturnModel.WeightedSumOfGrouping | advanced_analytics.py:45-57 | Weighting the grouped category totals equals weighting each holding individually. |
| ReturnModel.WeightedSumBounds | advanced_analytics.py:53-57 | With non-negative weights and rates within [lo, hi], the blend lies between lo and hi times the covered fraction of the total. |
| ReturnModel.PortfolioRatesBounds | advanced_analytics.py:53-79 | For a positive portfolio, the weighted return lies in [0, 0.18] and the weighted volatility in [0, 0.35]. |
| Projection.PredictPortfolioPerformance | advanced_analytics.py:16-136 | A negative horizon, and only a negative horizon, gives IndexError, raised when the summary reads the last row of an empty list. Otherwise the total is the sum of the amounts, the two tables are the profile's, and return and volatility are the weighted blends. There are then exactly horizon * 12 + 1 monthly rows, each with its three bands, and the snapshots are those of years 1, 3 and 5. |
| Projection.MonthlyPoints | advanced_analytics.py:83-106 | The loop produces exactly horizon * 12 + 1 rows, or none for a negative horizon. Row m holds the three growth terms at month m. |
| Projection.TakeSnapshots | advanced_analytics.py:119-128 | The snapshot loop builds exactly the snapshots of the listed years. |
| Projection.SnapshotsOfYears | advanced_analytics.py:120-128 | A snapshot is taken for each of 1, 3 and 5 that is at most the horizon, in that order, read from row year * 12. |
| Projection.SnapshotsReadTheirRow | advanced_analytics.py:120-128 | Every snapshot is for a listed year within the horizon and reads row year * 12. |
| Projection.ProjectionStart | advanced_analytics.py:95-106 | At month 0 the pessimistic, expected and optimistic values all equal the total. |
| Projection.PointBandsInOrder | advanced_analytics.py:95-106 | At every whole year, 0 ≤ pessimistic ≤ expected ≤ optimistic when the volatility is non-negative and return − volatility > −1. The `max(0, …)` floor then leaves the pessimistic value unchanged. |
| Projection.BandsOrdered | advanced_analytics.py:53-106 | For any positive portfolio and any profile, every whole-year row has 0 ≤ pessimistic ≤ expected ≤ optimistic, and the floor at 0 never changes the pessimistic value. |
| Scenarios.CategoryReturnMapping | advanced_analytics.py:431-446 | Each of the five categories reads its own scenario return, and any other category reads the large-cap return. |
| Scenarios.WorstIndex | advanced_analytics.py:485 | The worst scenario has the least final value, and it is the first one with that value. |
| Scenarios.GenerateEconomicScenarioAnalysis | advanced_analytics.py:358-508 | An empty portfolio or a zero horizon raises ZeroDivisionError, and in no other case is an error raised. A negative horizon gives a result too. Otherwise the result is exactly `AnalysisOf(portfolio, horizon)`. |
| Scenarios.RunScenarios | advanced_analytics.py:440-458 | The scenario loop produces the result of each scenario, in order. |
| Scenarios.ScenarioReturn | advanced_analytics.py:443-447 | The inner loop blends the scenario's returns over the category weights, with unmapped categories at the large-cap return. |
| Scenarios.BuildChart | advanced_analytics.py:467-475 | The chart loop builds exactly the chart rows. |
| Scenarios.Advise | advanced_analytics.py:482-506 | The recommendation code emits exactly the rule-based recommendations, in order. |
| Scenarios.ResultsFromScenarios | advanced_analytics.py:440-458 | The results are one per scenario, with its name and probability. |
| Scenarios.ProbabilitiesSumToOne | advanced_analytics.py:377-414 | The four probabilities sum to exactly 1. |
| Scenarios.HedgesAlwaysRecommended | advanced_analytics.py:495-499 | The recession and inflation recommendations are always emitted. |
| Scenarios.ChartShape | advanced_analytics.py:468-475 | The chart has horizon + 1 rows for years 0 to horizon, and none for a negative horizon. Each row has one value per scenario, and every value in row 0 is the total. |
| Scenarios.ExpectedValueAtLeast | advanced_analytics.py:461-464 | The probability-weighted sum is at least (lower bound) × (sum of probabilities). |
| Scenarios.ScenarioResultBounds | advanced_analytics.py:443-450 | For a positive portfolio, each scenario's blended return lies in [−0.2, 0.25] and its final value is positive. |
| Scenarios.AllCompoundable | advanced_analytics.py:443-450 | For a portfolio of positive amounts, `(1 + weighted_return) ** horizon` never divides by zero, whatever the horizon. An empty portfolio blends to 0, and any other portfolio blends to at least −20%. |
| Scenarios.ScenarioReturnBounds | advanced_analytics.py:443-447 | The blended scenario return stays within the bounds of the scenario's returns. |
| Scenarios.ScenarioOutcomes | advanced_analytics.py:450-485 | For a positive portfolio, no scenario's compounding divides by zero, whatever the horizon. Every return lies in [−0.2, 0.25] and every final value is positive. The worst final value is positive and at most the expected value. |
| Scenarios.WorstAtMostExpected | advanced_analytics.py:461-485 | The worst scenario's final value never exceeds the probability-weighted expected value. |
| Scenarios.LowReturnRule | advanced_analytics.py:502-503 | The annualised return (ev/total)^(1/h) − 1 is below 0.05 if and only if `LowReturn` holds. For a positive h that means ev < total * 1.05^h. For a negative h it means ev > total * 1.05^h. |
| SectorExposure.NormalizeWeights | advanced_analytics.py:297-299 | The loop divides every sector weight by the total, or sets it to 0 when the total is not positive. |
| SectorExposure.NormalizeSum | advanced_analytics.py:297-299 | The normalised weights sum to (sum of the weights) / total, or to 0 when the total is not positive. |
| SectorExposure.NormalizeKeepsSectors | advanced_analytics.py:298-299 | Normalising keeps the sectors and their order. |
| SectorExposure.NormalizedWeights | advanced_analytics.py:296-299 | When the total weight is positive, the normalised weights sum to exactly 1. Otherwise all of them are 0. |
| SectorExposure.DiversificationScore | advanced_analytics.py:306-309 | The score lies in [0, 100]. |
| SectorExposure.HhiAtMostSquaredSum | advanced_analytics.py:306 | For non-negative weights, 0 ≤ HHI ≤ (sum of the weights)². |
| SectorExposure.ScoreNeedsNoClamp | advanced_analytics.py:306-309 | For non-negative sector weights with a positive total, the HHI of the normalised weights lies in [0, 1], so the score is exactly 100 * (1 − HHI) and the clamp never bites. |
| SectorExposure.FindingFor | advanced_analytics.py:331-339 | A benchmark sector is overweight if and only if portfolio − benchmark > 0.05, and underweight if and only if it is < −0.05. Nothing is reported if and only if the difference is within ±0.05. |
| SectorExposure.CompareToBenchmark | advanced_analytics.py:331-339 | The comparison loop yields exactly the findings, in benchmark order. |
| SectorExposure.FindingsMembers | advanced_analytics.py:331-339 | A finding is present if and only if some benchmark sector produces it. |
| SectorExposure.BenchmarkSumsToOne | advanced_analytics.py:316-328 | The benchmark weights sum to exactly 1. |
| SectorExposure.SectorAnalysis | advanced_analytics.py:296-354 | The report holds the normalised weights, the score rounded to one decimal, the findings followed by the low-diversification note when the unrounded score is below 60, and the chart. |
| RealMath.RoundTenth | advanced_analytics.py:310 | The result is a whole number of tenths. No whole number of tenths is nearer to x. On a tie, the even number of tenths is chosen. The result is within 0.05 of x. |
| Goals.TimelineOf | goals.py:141-201 | A timeline under 5 years is short, from 5 to under 15 is medium, and 15 or more is long. |
| Goals.TierOf | goals.py:142-160 | "Low" and "Medium" select their own tier, and every other string is High. |
| Goals.GoalBasedAllocation | goals.py:129-228 | Every table lists the six goal categories. "ETFs/Crypto" comes before "Gold" exactly in the long-term (15 years or more) high-risk table. |
| Goals.GoalAllocationWellFormed | goals.py:129-228 | For every risk level and timeline, the table returned has exactly the six categories, with distinct keys and non-negative values summing to 100. |
| Goals.ShortTermTablesWellFormed | goals.py:141-168 | The three short-term tables are well formed and sum to 100. |
| Goals.MediumTermTablesWellFormed | goals.py:171-198 | The three medium-term tables are well formed and sum to 100. |
| Goals.LongTermTablesWellFormed | goals.py:201-228 | The three long-term tables are well formed and sum to 100. |
| Goals.LongTermHighWellFormed | goals.py:220-228 | The long-term high table, with its categories in a different order, is well formed and sums to 100. |
| Goals.GoalTableWellFormed | goals.py:143-150 | Any six non-negative values summing to 100, laid out in the source's category order, form a well-formed goal table. |
| Goals.ByRiskWellFormed | goals.py:142-168 | Selecting by risk level among three well-formed tables gives a well-formed table. |
| Goals.BucketBoundaries | goals.py:141-201 | Years 4, 5, 14 and 15 fall in the short, medium, medium and long buckets. "High" at year 0 and the lower-case "low" both get a high-risk table. |
| Goals.ExpectedReturnRate | goals.py:268-275 | The rate is 0.06 exactly for "Low", 0.08 exactly for "Medium" and 0.10 exactly for everything else. |
| Goals.GoalProgressPercentage | goals.py:260-266 | Progress is 0 when the target is not positive, and never above 100. For a positive target it is 100 exactly when the current amount reaches the target, and it is non-negative for a non-negative current amount. |
| Goals.PercentOfTarget | goals.py:265 | current / target * 100 is at least 100 exactly when current ≥ target. |
| Goals.MonthlyInvestmentNeeded | goals.py:230-258 | A zero horizon raises ZeroDivisionError. With a non-zero rate, any result is non-negative. |
| Goals.Instalment | goals.py:253-258 | Zero months raise ZeroDivisionError. With a non-zero monthly rate, any result is non-negative. |
| Goals.ShortfallForm | goals.py:250 | For whole-year horizons, the amount needed is target − current * (1 + rate)^years. |
| Goals.SavingsClosedForm | goals.py:249-256 | A reference definition of saving a fixed payment at the end of each month: the balance s after n months satisfies s * r = payment * ((1 + r)^n − 1). |
| Goals.PositiveRateInstalment | goals.py:256-258 | With a positive monthly rate and a positive number of months, the discount factor (1 + r)^−n lies in (0, 1), and the result is max(0, need * r / (1 − (1 + r)^−n)). |
| Goals.PaymentZeroExactlyWhenCovered | goals.py:250-258 | With rate > 0 and years > 0 the result is defined. It is 0 if and only if the current savings grow to at least the target, and positive if and only if they fall short. |
| Goals.ZeroRateSpreadsShortfall | goals.py:253-254 | With a zero rate and a non-zero horizon, the result is (target − current) / months, with no clamp. |
| Goals.ZeroRateCanBeNegative | goals.py:253-254 | target 100, current 200, 1 year at rate 0 gives −100/12, a negative monthly amount. |
| Goals.InstalmentOvershoots | goals.py:256 | Depositing the computed payment monthly saves need * (1 + r)^n, strictly more than the need. |
| Goals.OvershootExample | goals.py:250-256 | target 12000, current 0, 1 year at 12%: twelve deposits of the computed payment grow to more than 12000. |
| Goals.MonthlyInvestmentToReach | goals.py:230-258 | The corrected contribution has the same error and sign behaviour as the source: zero horizon is an error, and any result at a non-zero rate is non-negative. |
| Goals.SavingsInstalment | goals.py:253-258 | The corrected instalment raises on zero months and is non-negative at a non-zero monthly rate. |
| Goals.SinkingFundExact | goals.py:256 | The sinking-fund payment need * r / ((1 + r)^n − 1) saves exactly the need, and it is positive exactly when the need is. |
| Goals.SavingsInstalmentReaches | goals.py:256-258 | With a positive monthly rate and a positive number of months, the corrected payment saves exactly the need, and it is 0 when nothing is needed. |
| Goals.CorrectedReachesTarget | goals.py:249-258 | With rate > 0 and years > 0, when there is a shortfall, the grown current savings plus the corrected monthly deposits equal the target exactly. Otherwise the payment is 0. |
| PriceAlerts.IndexOfId | price_alerts.py:111 | The lookup finds the first alert with the id, and it finds none exactly when no alert has the id. |
| PriceAlerts.AlertStore.constructor | price_alerts.py:9-22 | The store starts empty, with the first id 1. |
| PriceAlerts.AlertStore.CreatePriceAlert | price_alerts.py:39-71 | A type other than 'above' or 'below' is rejected and nothing changes. Otherwise an active, untriggered alert with a fresh id is appended, and that id is returned. |
| PriceAlerts.AlertStore.DeletePriceAlert | price_alerts.py:99-116 | Returns true exactly when an alert has the id. That alert becomes inactive, and nothing else changes. |
| PriceAlerts.AlertStore.MarkAlertTriggered | price_alerts.py:123-141 | Returns true exactly when an alert has the id. That alert is triggered at `now`, and nothing else changes. |
| PriceAlerts.AlertStore.CheckPriceAlerts | price_alerts.py:148-194 | The pass leaves the alerts as `AfterCheck` of the old ones and returns the reports of the alerts that fire, in scan order. The store stays valid. |
| PriceAlerts.ScanAlerts | price_alerts.py:163-188 | The loop marks exactly the alerts that fire as triggered at `now`, leaving the rest, and appends their reports in scan order: the result is `AfterCheck` and `Fired` of the alerts. |
| PriceAlerts.CheckAlert | price_alerts.py:166-174 | An alert is triggered if and only if it is active, untriggered, has a current price and crosses its threshold. The current price is the one looked up. |
| PriceAlerts.AfterCheckKeepsIdentity | price_alerts.py:176-179 | The pass changes only the triggered flag and time, keeps the number of alerts, and keeps ids distinct. |
| PriceAlerts.FiringAlertMarked | price_alerts.py:176-188 | An alert that fires is marked triggered at `now`, stays active, and is reported with its current price. |
| PriceAlerts.FiredInScanOrder | price_alerts.py:165-188 | Reports follow scan order: the reports of a concatenation are those of the first part followed by those of the second, and there is at most one per alert. |
| PriceAlerts.FiredMembers | price_alerts.py:165-188 | A report is present if and only if it is the report of some alert that fires, with that alert's current price. |
| PriceAlerts.ReportsCrossedThreshold | price_alerts.py:170-174 | Every report is for an 'above' alert at or over its target or a 'below' alert at or under it, at the looked-up price. |
| PriceAlerts.NotFiringUntouched | price_alerts.py:161-174 | An alert that does not fire (inactive, already triggered, priceless or not crossed) is unchanged and not reported. |
| PriceAlerts.MissingTickerNeverTriggers | price_alerts.py:166 | An alert whose ticker has no current price is never triggered or reported. |
| PriceAlerts.NothingFiresAfterCheck | price_alerts.py:161-179 | After a pass, the same prices fire nothing. |
| PriceAlerts.CheckTwice | price_alerts.py:161-179 | A second pass with the same prices reports nothing and changes nothing. |
| PriceAlerts.DeletedOrMarkedNeverFires | price_alerts.py:111-141 | After a soft delete or a manual mark, that alert is never reported by a pass. |

## Left out

- Floating point: the model computes in exact reals. Rounding error in sums such as the 100-point tables or the probability total is not modelled.
- RealMath.RoundTenth: rounds exact reals. Python rounds the stored binary float, so a tie such as `round(0.35, 1)` can come out as 0.3 in the source where the model gives 0.4.
- Fractional powers: the projection's `month / 12` exponents are kept as symbolic growth terms and evaluated only at whole years. The scenario rule's `1 / horizon` root is replaced by an equivalent whole-power comparison, and `Scenarios.LowReturnRule` proves the equivalence.
- Projection dates, `datetime.now()` and the alert timestamps: the clock is the parameter `now`.
- Message and summary text: insights, actions, findings and recommendations are datatypes that carry the numbers those messages print, not the f-strings.
- Chart frames (`pandas.DataFrame`): they are modelled as sequences of rows.
- The database: SQLAlchemy models and sessions, commits and rollbacks. The alert table is an in-memory sequence. The `get_session` name that `goals.py` and `price_alerts.py` import is not defined in `database.py`; this model does not depend on it.
- The stored goal records: `create_financial_goal`, `get_user_goals`, `get_goal_by_id`, `update_goal_progress`, `delete_goal` and `update_goal_risk_level` are database CRUD with no logic beyond storing fields.
- `get_user_price_alerts`: a database query with a filter and no logic of its own.
- `PriceAlerts.AlertStore.CheckPriceAlerts`: the database query's result order is taken to be the stored order. The pass visits every alert and skips those that are not active and untriggered, which gives the same result as the source's pre-filtered query.
- The first half of the sector analysis: price fetching and ticker-to-sector lookup over the network. The model starts from the sector weight table.
- SMS notification, AI-generated insights, price fetching and the modern-portfolio-theory metrics: these are network, random and floating-point library code.
- Default arguments (a 5-year horizon, a rate of 0.08): the model takes these as explicit parameters.
- Scenario descriptions: these are text only.
- Goal allocation percentages: these are Python integers, modelled as reals.
- `Goals.GoalBasedAllocation` takes an integer timeline. A fractional year count is not modelled.
- `Projection.PredictPortfolioPerformance` requires positive amounts. Holdings with zero or negative amounts, which the entry form does not admit, are not modelled.
- `Scenarios.GenerateEconomicScenarioAnalysis` requires positive amounts. A non-empty portfolio whose amounts are zero or negative is not modelled. In the source, an all-zero portfolio raises ZeroDivisionError at the category weights. A blend of exactly −100% with a negative horizon raises it at the compounding; `Scenarios.ResultFor` excludes that case by precondition.
- `PortfolioAnalyzer.Analyze` and `PortfolioAnalyzer.AnalyzePortfolio` require a non-empty portfolio to have a non-zero total. A portfolio whose amounts add up to 0, such as one holding of amount 0, raises ZeroDivisionError at the percentage step in the source and is not modelled.
- `Goals.ShortfallForm` is stated for horizons of zero or more years. For a negative horizon, Python's `**` with a negative exponent is modelled by `Goals.PythonPow`, but no lemma describes the result.

## Findings

| source | as written | input that shows it | evidently intended | confidence | as-written member | corrected member |
|---|---|---|---|---|---|---|
| goals.py:256 | The monthly contribution uses the loan-payment (present-value annuity) formula need * r / (1 − (1 + r)^−n) for a savings target, so the deposits grow to need * (1 + r)^n instead of need | target 12000, current 0, years 1, rate 0.12: twelve deposits of the computed payment grow to 12000 * 1.01^12 ≈ 13522, not 12000 | the sinking-fund payment need * r / ((1 + r)^n − 1), whose deposits grow to exactly the amount needed | medium-high, not executed | Goals.InstalmentOvershoots, Goals.OvershootExample | Goals.SavingsInstalmentReaches, Goals.CorrectedReachesTarget |
