/** The economic scenario analysis of advanced_analytics.py
    (`generate_economic_scenario_analysis`): four fixed macro scenarios, each with a
    return per asset category and a probability; the portfolio's blended return and
    compounded final value under each; their probability-weighted expected value; a
    year-by-year chart; and the rule-based recommendations. */
module Scenarios {
  import opened Wrappers
  import opened RealMath
  import opened Tables
  import opened Holdings
  import opened Allocation
  import opened ReturnModel

  /** One scenario: the returns of the five mapped categories and its probability. */
  datatype Scenario = Scenario(
    name: string, largeCap: real, midCap: real, smallCap: real, gold: real, crypto: real,
    probability: real)

  /** The four scenarios, in the order the dictionary lists them. */
  const Scenarios: seq<Scenario> := [
    Scenario("Base Case", 0.08, 0.10, 0.12, 0.03, 0.10, 0.50),
    Scenario("High Inflation", 0.06, 0.07, 0.08, 0.10, 0.05, 0.20),
    Scenario("Recession", -0.05, -0.10, -0.15, 0.08, -0.20, 0.15),
    Scenario("Bull Market", 0.12, 0.15, 0.20, 0.01, 0.25, 0.15)]

  /** A scenario's returns keyed by portfolio category, through the category -> return-key mapping.
      A category outside the mapping reads the large-cap return, the mapping's default key. */
  function ScenarioRates(s: Scenario): Table
  {
    [Entry("Large Cap", s.largeCap), Entry("Mid Cap", s.midCap), Entry("Small Cap", s.smallCap),
     Entry("Gold", s.gold), Entry("ETFs/Crypto", s.crypto)]
  }

  /** The return a category earns under a scenario. */
  function CategoryReturn(s: Scenario, category: string): real
  {
    Get(ScenarioRates(s), category, s.largeCap)
  }

  /** Each mapped category reads its own return; every other category reads the large-cap return. */
  lemma CategoryReturnMapping(s: Scenario, category: string)
    ensures CategoryReturn(s, "Large Cap") == s.largeCap
    ensures CategoryReturn(s, "Mid Cap") == s.midCap
    ensures CategoryReturn(s, "Small Cap") == s.smallCap
    ensures CategoryReturn(s, "Gold") == s.gold
    ensures CategoryReturn(s, "ETFs/Crypto") == s.crypto
    ensures category !in TargetCategories ==> CategoryReturn(s, category) == s.largeCap
  {
    var t := ScenarioRates(s);
    FiveCategoryTable(t);
    GetAt(t, 0, s.largeCap);
    GetAt(t, 1, s.largeCap);
    GetAt(t, 2, s.largeCap);
    GetAt(t, 3, s.largeCap);
    GetAt(t, 4, s.largeCap);
    if category !in TargetCategories {
      GetAbsent(t, category, s.largeCap);
    }
  }

  /** One entry of `scenario_results`. */
  datatype ScenarioResult = ScenarioResult(name: string, annualReturn: real, finalValue: real, probability: real)

  /** `(1 + wr) ** horizon` is defined for the scenario's blended return `wr`: Python divides by
      zero when a negative horizon meets a blended return of -100%. */
  predicate Compoundable(s: Scenario, totals: Table, total: real, horizon: int)
    requires totals != [] ==> total != 0.0
  {
    horizon >= 0 || 1.0 + WeightedSum(totals, total, ScenarioRates(s), s.largeCap) != 0.0
  }

  /** The result of one scenario: the blended return over the category totals, unmapped categories
      at the large-cap return, and the total compounded over the horizon at that return (discounted
      when the horizon is negative). */
  function ResultFor(s: Scenario, totals: Table, total: real, horizon: int): ScenarioResult
    requires totals != [] ==> total != 0.0
    requires Compoundable(s, totals, total, horizon)
  {
    var wr := WeightedSum(totals, total, ScenarioRates(s), s.largeCap);
    ScenarioResult(s.name, wr, Compound(total, wr, horizon), s.probability)
  }

  /** The results of all scenarios, in scenario order. */
  function ResultsFor(scenarios: seq<Scenario>, totals: Table, total: real, horizon: int): (rs: seq<ScenarioResult>)
    requires totals != [] ==> total != 0.0
    requires forall i :: 0 <= i < |scenarios| ==> Compoundable(scenarios[i], totals, total, horizon)
  {
    seq(|scenarios|, i requires 0 <= i < |scenarios| => ResultFor(scenarios[i], totals, total, horizon))
  }

  /** A result's final value times its probability. */
  function Weighted(r: ScenarioResult): real
  {
    r.finalValue * r.probability
  }

  /** `sum(final_value * probability ...)` over the results, in order. */
  function ExpectedValue(rs: seq<ScenarioResult>): real
  {
    if rs == [] then 0.0 else ExpectedValue(rs[..|rs| - 1]) + Weighted(rs[|rs| - 1])
  }

  function ProbabilitySum(rs: seq<ScenarioResult>): real
  {
    if rs == [] then 0.0 else ProbabilitySum(rs[..|rs| - 1]) + rs[|rs| - 1].probability
  }

  /** One chart row: the year and each scenario's value compounded to that year, in scenario order. */
  datatype ChartRow = ChartRow(year: nat, values: seq<real>)

  function ChartRowAt(rs: seq<ScenarioResult>, total: real, year: nat): ChartRow
  {
    ChartRow(year, seq(|rs|, i requires 0 <= i < |rs| => Compound(total, rs[i].annualReturn, year)))
  }

  /** The chart: one row per year from 0 to the horizon, none when the horizon is negative. */
  function Chart(rs: seq<ScenarioResult>, total: real, horizon: int): seq<ChartRow>
  {
    if horizon < 0 then []
    else seq(horizon + 1, year requires 0 <= year <= horizon => ChartRowAt(rs, total, year))
  }

  /** `min(scenario_results.items(), key=final_value)`: the first result with the least final value. */
  function WorstIndex(rs: seq<ScenarioResult>): (k: nat)
    requires rs != []
    ensures k < |rs|
    ensures forall j :: 0 <= j < |rs| ==> rs[k].finalValue <= rs[j].finalValue
    ensures forall j :: 0 <= j < k ==> rs[j].finalValue > rs[k].finalValue
  {
    if |rs| == 1 then 0
    else
      var n := |rs| - 1;
      var k := WorstIndex(rs[..n]);
      assert forall j :: 0 <= j < n ==> rs[..n][j] == rs[j];
      if rs[n].finalValue < rs[k].finalValue then n else k
  }

  /** The first result with the given name, if any: `name in scenario_results`. */
  function FindResult(rs: seq<ScenarioResult>, name: string): Option<ScenarioResult>
  {
    if rs == [] then None
    else if rs[0].name == name then Some(rs[0])
    else FindResult(rs[1..], name)
  }

  /** The recommendations the analysis can emit. */
  datatype Advice =
    | Vulnerable(scenario: string)  // the worst scenario loses more than 20%
    | RecessionHedge                // the recession scenario is more likely than 10%
    | InflationHedge                // the high-inflation scenario is more likely than 10%
    | LowExpectedReturn             // the annualised expected return is below 5%

  /** A named scenario is present and more likely than 10%. */
  predicate Likely(rs: seq<ScenarioResult>, name: string)
  {
    FindResult(rs, name).Some? && FindResult(rs, name).value.probability > 0.1
  }

  /** The annualised return `(ev / total) ** (1 / horizon) - 1` is below 5%. Raised to the power
      `horizon`, this is `ev < total * 1.05 ** horizon` for a positive horizon, and the comparison
      turns round for a negative one; `LowReturnRule` shows both to be the same condition. */
  predicate LowReturn(ev: real, total: real, horizon: int)
    requires horizon != 0
  {
    if horizon > 0 then ev < Compound(total, 0.05, horizon) else ev > Compound(total, 0.05, horizon)
  }

  /** The recommendation rules, in the order they are checked. A horizon of 0 has no annualised
      return: the root `1 / horizon` divides by zero. */
  function Recommendations(rs: seq<ScenarioResult>, total: real, ev: real, horizon: int): seq<Advice>
    requires rs != [] && total != 0.0 && horizon != 0
  {
    var worst := rs[WorstIndex(rs)];
    (if (worst.finalValue - total) / total < -0.2 then [Vulnerable(worst.name)] else [])
    + (if Likely(rs, "Recession") then [RecessionHedge] else [])
    + (if Likely(rs, "High Inflation") then [InflationHedge] else [])
    + (if LowReturn(ev, total, horizon) then [LowExpectedReturn] else [])
  }

  /** Everything the analysis returns: the scenarios, their results, the expected value, the chart
      and the recommendations. */
  datatype ScenarioAnalysis = ScenarioAnalysis(
    scenarios: seq<Scenario>, results: seq<ScenarioResult>, expectedValue: real,
    chart: seq<ChartRow>, recommendations: seq<Advice>)

  /** The analysis of a non-empty portfolio over a non-zero horizon. */
  function AnalysisOf(portfolio: seq<Holding>, horizon: int): ScenarioAnalysis
    requires PositiveAmounts(portfolio) && portfolio != [] && horizon != 0
  {
    TotalAmountPositive(portfolio);
    AllCompoundable(portfolio, horizon);
    var total := TotalAmount(portfolio);
    var rs := ResultsFor(Scenarios, CategoryTotals(portfolio), total, horizon);
    var ev := ExpectedValue(rs);
    ScenarioAnalysis(Scenarios, rs, ev, Chart(rs, total, horizon), Recommendations(rs, total, ev, horizon))
  }

  /** `generate_economic_scenario_analysis`. An empty portfolio has a total of 0, and the worst-case
      change divides by it; a horizon of 0 makes the annualising root `1 / 0`. Both raise
      ZeroDivisionError before the result is returned. A negative horizon discounts instead of
      compounding and leaves the chart empty. */
  method GenerateEconomicScenarioAnalysis(portfolio: seq<Holding>, horizon: int)
    returns (r: Result<ScenarioAnalysis, PythonError>)
    requires PositiveAmounts(portfolio)
    ensures r.Err? <==> portfolio == [] || horizon == 0
    ensures r.Ok? ==> r.value == AnalysisOf(portfolio, horizon)
  {
    var total := TotalAmount(portfolio);
    TotalAmountPositive(portfolio);
    var totals := GroupByCategory(portfolio);
    AllCompoundable(portfolio, horizon);

    var rs := RunScenarios(totals, total, horizon);
    var ev := ExpectedValue(rs);
    var chart := BuildChart(rs, total, horizon);
    if total == 0.0 {
      return Err(ZeroDivisionError);
    }
    if horizon == 0 {
      return Err(ZeroDivisionError);
    }
    var recommendations := Advise(rs, total, ev, horizon);
    r := Ok(ScenarioAnalysis(Scenarios, rs, ev, chart, recommendations));
  }

  /** The loop over the scenarios: blend each one's returns and compound the total over the horizon. */
  method RunScenarios(totals: Table, total: real, horizon: int) returns (rs: seq<ScenarioResult>)
    requires totals != [] ==> total != 0.0
    requires forall i :: 0 <= i < |Scenarios| ==> Compoundable(Scenarios[i], totals, total, horizon)
    ensures rs == ResultsFor(Scenarios, totals, total, horizon)
  {
    rs := [];
    var i := 0;
    while i < |Scenarios|
      invariant 0 <= i <= |Scenarios|
      invariant |rs| == i
      invariant forall j :: 0 <= j < i ==> rs[j] == ResultFor(Scenarios[j], totals, total, horizon)
    {
      var s := Scenarios[i];
      var wr := ScenarioReturn(totals, total, s);
      rs := rs + [ScenarioResult(s.name, wr, Compound(total, wr, horizon), s.probability)];
      i := i + 1;
    }
  }

  /** The recommendation rules, each appending its advice when it fires. */
  method Advise(rs: seq<ScenarioResult>, total: real, ev: real, horizon: int) returns (advice: seq<Advice>)
    requires rs != [] && total != 0.0 && horizon != 0
    ensures advice == Recommendations(rs, total, ev, horizon)
  {
    var worst := rs[WorstIndex(rs)];
    advice := [];
    if (worst.finalValue - total) / total < -0.2 {
      advice := advice + [Vulnerable(worst.name)];
    }
    if Likely(rs, "Recession") {
      advice := advice + [RecessionHedge];
    }
    if Likely(rs, "High Inflation") {
      advice := advice + [InflationHedge];
    }
    var benchmark := Compound(total, 0.05, horizon);
    if (horizon > 0 && ev < benchmark) || (horizon < 0 && ev > benchmark) {
      advice := advice + [LowExpectedReturn];
    }
  }

  /** The weighting loop of one scenario: every category adds its weight times its return. */
  method ScenarioReturn(totals: Table, total: real, s: Scenario) returns (w: real)
    requires totals != [] ==> total != 0.0
    ensures w == WeightedSum(totals, total, ScenarioRates(s), s.largeCap)
  {
    var rates := ScenarioRates(s);
    w := 0.0;
    var i := 0;
    while i < |totals|
      invariant 0 <= i <= |totals|
      invariant w == WeightedSum(totals[..i], total, rates, s.largeCap)
    {
      var category, amount := totals[i].key, totals[i].value;
      assert totals[..i + 1][..i] == totals[..i];
      var weight := amount / total;
      w := w + weight * Get(rates, category, s.largeCap);
      i := i + 1;
    }
    assert totals[..|totals|] == totals;
  }

  /** The chart loop: for each year from 0 to the horizon, each scenario's compounded value. */
  method BuildChart(rs: seq<ScenarioResult>, total: real, horizon: int) returns (chart: seq<ChartRow>)
    ensures chart == Chart(rs, total, horizon)
  {
    chart := [];
    var year := 0;
    while year <= horizon
      invariant 0 <= year && (year <= horizon + 1 || year == 0)
      invariant |chart| == year
      invariant forall y :: 0 <= y < year ==> chart[y] == ChartRowAt(rs, total, y)
    {
      var values: seq<real> := [];
      var i := 0;
      while i < |rs|
        invariant 0 <= i <= |rs|
        invariant |values| == i
        invariant forall j :: 0 <= j < i ==> values[j] == Compound(total, rs[j].annualReturn, year)
      {
        values := values + [Compound(total, rs[i].annualReturn, year)];
        i := i + 1;
      }
      chart := chart + [ChartRow(year, values)];
      year := year + 1;
    }
  }

  // ---------------------------------------------------------------------------
  // Properties

  /** The results carry the scenarios' names and probabilities, in scenario order. */
  predicate FromScenarios(rs: seq<ScenarioResult>)
  {
    |rs| == |Scenarios|
    && forall i :: 0 <= i < |rs| ==> rs[i].name == Scenarios[i].name && rs[i].probability == Scenarios[i].probability
  }

  lemma ResultsFromScenarios(totals: Table, total: real, horizon: int)
    requires totals != [] ==> total != 0.0
    requires forall i :: 0 <= i < |Scenarios| ==> Compoundable(Scenarios[i], totals, total, horizon)
    ensures FromScenarios(ResultsFor(Scenarios, totals, total, horizon))
  {
  }

  /** The four probabilities add up to one. */
  lemma ProbabilitiesSumToOne(rs: seq<ScenarioResult>)
    requires FromScenarios(rs)
    ensures ProbabilitySum(rs) == 1.0
  {
    assert rs[..1][..0] == [];
    assert rs[..2][..1] == rs[..1];
    assert rs[..3][..2] == rs[..2];
    assert rs[..4][..3] == rs[..3];
    assert rs[..4] == rs;
    assert ProbabilitySum(rs[..1]) == 0.5;
    assert ProbabilitySum(rs[..2]) == 0.7;
    assert ProbabilitySum(rs[..3]) == 0.85;
  }

  /** `FindResult` returns the first result carrying the name. */
  lemma {:induction false} FindFirst(rs: seq<ScenarioResult>, i: nat, name: string)
    requires i < |rs| && rs[i].name == name
    requires forall j :: 0 <= j < i ==> rs[j].name != name
    ensures FindResult(rs, name) == Some(rs[i])
  {
    if i > 0 {
      assert rs[1..][i - 1] == rs[i];
      FindFirst(rs[1..], i - 1, name);
    }
  }

  /** Both hedging recommendations are always given: the recession and high-inflation scenarios
      are present with probabilities 0.15 and 0.20, above 10%. */
  lemma HedgesAlwaysRecommended(rs: seq<ScenarioResult>, total: real, ev: real, horizon: int)
    requires FromScenarios(rs) && total != 0.0 && horizon != 0
    ensures RecessionHedge in Recommendations(rs, total, ev, horizon)
    ensures InflationHedge in Recommendations(rs, total, ev, horizon)
  {
    assert "Base Case"[0] != "Recession"[0] && "High Inflation"[0] != "Recession"[0];
    FindFirst(rs, 2, "Recession");
    assert "Base Case"[0] != "High Inflation"[0];
    FindFirst(rs, 1, "High Inflation");
  }

  /** The chart has a row for every year 0..horizon (none for a negative horizon) and a column per
      scenario, and row 0 holds the current total in every column. */
  lemma ChartShape(rs: seq<ScenarioResult>, total: real, horizon: int)
    ensures |Chart(rs, total, horizon)| == if horizon >= 0 then horizon + 1 else 0
    ensures forall y :: 0 <= y <= horizon ==>
      Chart(rs, total, horizon)[y].year == y && |Chart(rs, total, horizon)[y].values| == |rs|
    ensures horizon >= 0 ==> forall i :: 0 <= i < |rs| ==> Chart(rs, total, horizon)[0].values[i] == total
  {
  }

  /** With probabilities that are non-negative, the expected value is at least the least final
      value times the total probability. */
  lemma {:induction false} ExpectedValueAtLeast(rs: seq<ScenarioResult>, low: real)
    requires forall i :: 0 <= i < |rs| ==> rs[i].probability >= 0.0 && rs[i].finalValue >= low
    ensures ExpectedValue(rs) >= low * ProbabilitySum(rs)
  {
    if rs != [] {
      var n := |rs| - 1;
      assert forall i :: 0 <= i < n ==> rs[..n][i] == rs[i];
      ExpectedValueAtLeast(rs[..n], low);
      WeightedAtLeast(rs[n], low);
      AddScaled(low, ProbabilitySum(rs[..n]), rs[n].probability, ProbabilitySum(rs));
    }
  }

  lemma WeightedAtLeast(r: ScenarioResult, low: real)
    requires r.probability >= 0.0 && r.finalValue >= low
    ensures Weighted(r) >= low * r.probability
  {
  }

  lemma AddScaled(low: real, a: real, b: real, sum: real)
    requires sum == a + b
    ensures low * sum == low * a + low * b
  {
  }

  /** Every scenario return of a non-empty portfolio lies between -20% and 25%, so the portfolio
      ends above zero in every scenario, and the worst scenario's final value is at most the
      expected value. */
  lemma ScenarioOutcomes(portfolio: seq<Holding>, horizon: int)
    requires PositiveAmounts(portfolio) && portfolio != []
    ensures TotalAmount(portfolio) > 0.0
    ensures forall i :: 0 <= i < |Scenarios| ==>
      Compoundable(Scenarios[i], CategoryTotals(portfolio), TotalAmount(portfolio), horizon)
    ensures var rs := ResultsFor(Scenarios, CategoryTotals(portfolio), TotalAmount(portfolio), horizon);
      (forall i :: 0 <= i < |rs| ==> -0.2 <= rs[i].annualReturn <= 0.25 && rs[i].finalValue > 0.0)
      && 0.0 < rs[WorstIndex(rs)].finalValue <= ExpectedValue(rs)
  {
    TotalAmountPositive(portfolio);
    var total := TotalAmount(portfolio);
    var totals := CategoryTotals(portfolio);
    AllCompoundable(portfolio, horizon);
    var rs := ResultsFor(Scenarios, totals, total, horizon);
    forall i | 0 <= i < |rs|
      ensures -0.2 <= rs[i].annualReturn <= 0.25 && rs[i].finalValue > 0.0
    {
      ScenarioResultBounds(portfolio, horizon, i);
    }
    ResultsFromScenarios(totals, total, horizon);
    WorstAtMostExpected(rs);
  }

  /** With the scenarios' probabilities, which are non-negative and add up to one, the expected
      value is a weighted average of the final values and so at least the worst of them. */
  lemma WorstAtMostExpected(rs: seq<ScenarioResult>)
    requires FromScenarios(rs)
    ensures rs[WorstIndex(rs)].finalValue <= ExpectedValue(rs)
  {
    var low := rs[WorstIndex(rs)].finalValue;
    forall i | 0 <= i < |rs| ensures rs[i].probability >= 0.0 {
      ScenariosWithin(i);
    }
    ExpectedValueAtLeast(rs, low);
    ProbabilitiesSumToOne(rs);
  }

  lemma ScenarioResultBounds(portfolio: seq<Holding>, horizon: int, i: nat)
    requires PositiveAmounts(portfolio) && portfolio != [] && i < |Scenarios|
    ensures TotalAmount(portfolio) > 0.0
    ensures Compoundable(Scenarios[i], CategoryTotals(portfolio), TotalAmount(portfolio), horizon)
    ensures var r := ResultFor(Scenarios[i], CategoryTotals(portfolio), TotalAmount(portfolio), horizon);
      -0.2 <= r.annualReturn <= 0.25 && r.finalValue > 0.0
  {
    ScenariosWithin(i);
    ScenarioReturnBounds(portfolio, Scenarios[i], -0.2, 0.25);
    var r := ResultFor(Scenarios[i], CategoryTotals(portfolio), TotalAmount(portfolio), horizon);
    CompoundPositive(TotalAmount(portfolio), r.annualReturn, horizon);
  }

  /** For a portfolio of positive amounts no scenario's compounding divides by zero: an empty
      portfolio blends to 0 and any other to at least -20%. */
  lemma AllCompoundable(portfolio: seq<Holding>, horizon: int)
    requires PositiveAmounts(portfolio)
    ensures TotalAmount(portfolio) >= 0.0 && (portfolio != [] ==> TotalAmount(portfolio) > 0.0)
    ensures forall i :: 0 <= i < |Scenarios| ==>
      Compoundable(Scenarios[i], CategoryTotals(portfolio), TotalAmount(portfolio), horizon)
  {
    TotalAmountPositive(portfolio);
    if portfolio == [] {
      assert CategoryTotals(portfolio) == [];
    } else {
      forall i | 0 <= i < |Scenarios|
        ensures Compoundable(Scenarios[i], CategoryTotals(portfolio), TotalAmount(portfolio), horizon)
      {
        ScenariosWithin(i);
        ScenarioReturnBounds(portfolio, Scenarios[i], -0.2, 0.25);
      }
    }
  }

  /** All five returns of a scenario lie in `[lo, hi]`. */
  predicate ReturnsWithin(s: Scenario, lo: real, hi: real)
  {
    lo <= s.largeCap <= hi && lo <= s.midCap <= hi && lo <= s.smallCap <= hi
    && lo <= s.gold <= hi && lo <= s.crypto <= hi
  }

  lemma ScenariosWithin(i: nat)
    requires i < |Scenarios|
    ensures ReturnsWithin(Scenarios[i], -0.2, 0.25) && Scenarios[i].probability >= 0.0
  {
  }

  lemma ScenarioRatesWithin(s: Scenario, lo: real, hi: real)
    requires ReturnsWithin(s, lo, hi)
    ensures RatesWithin(ScenarioRates(s), lo, hi) && lo <= s.largeCap <= hi
  {
  }

  /** A scenario whose returns lie in `[lo, hi]` blends to a return in `[lo, hi]`. */
  lemma ScenarioReturnBounds(portfolio: seq<Holding>, s: Scenario, lo: real, hi: real)
    requires PositiveAmounts(portfolio) && portfolio != [] && ReturnsWithin(s, lo, hi)
    ensures TotalAmount(portfolio) > 0.0
    ensures lo <= WeightedSum(CategoryTotals(portfolio), TotalAmount(portfolio), ScenarioRates(s), s.largeCap) <= hi
  {
    TotalAmountPositive(portfolio);
    var total := TotalAmount(portfolio);
    var totals := CategoryTotals(portfolio);
    CategoryTotalsSum(portfolio);
    CategoryTotalsPositive(portfolio);
    ScenarioRatesWithin(s, lo, hi);
    WeightedSumBounds(totals, total, ScenarioRates(s), s.largeCap, lo, hi);
    BlendedWhole(WeightedSum(totals, total, ScenarioRates(s), s.largeCap), Sum(totals), total, lo, hi);
  }

  /** The annualised expected return `x - 1`, where `x` is the positive root with
      `x ** horizon == ev / total`, is below 5% exactly when `LowReturn` holds: when
      `ev < total * 1.05 ** horizon` for a positive horizon, `ev > total * 1.05 ** horizon` for a
      negative one. */
  lemma LowReturnRule(ev: real, total: real, horizon: int, x: real)
    requires total > 0.0 && horizon != 0 && x > 0.0 && IntPow(x, horizon) == ev / total
    ensures x - 1.0 < 0.05 <==> LowReturn(ev, total, horizon)
  {
    if horizon > 0 {
      if x < 1.05 {
        PowStrictlyMonotone(x, 1.05, horizon);
      } else {
        PowMonotone(1.05, x, horizon);
      }
      ShareBelow(ev, total, Pow(1.05, horizon));
    } else {
      var m := -horizon;
      if x < 1.05 {
        PowStrictlyMonotone(x, 1.05, m);
      } else {
        PowMonotone(1.05, x, m);
      }
      PowPositive(x, m);
      PowPositive(1.05, m);
      ReciprocalOrder(Pow(x, m), Pow(1.05, m));
      assert IntPow(x, horizon) == 1.0 / Pow(x, m);
      assert Compound(total, 0.05, horizon) == total * (1.0 / Pow(1.05, m));
      ShareBelow(ev, total, 1.0 / Pow(1.05, m));
    }
  }

  lemma ShareBelow(a: real, total: real, p: real)
    requires total > 0.0
    ensures a / total < p <==> a < total * p
    ensures a / total > p <==> a > total * p
  {
  }
}
