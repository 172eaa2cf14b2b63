/** The growth projection of `predict_portfolio_performance` in advanced_analytics.py:
    the portfolio's blended return and volatility compound its value month by month
    in three bands (expected, one volatility below, one above), and the bands are
    read off at years 1, 3 and 5. Values are evaluated at whole years only. */
module Projection {
  import opened Wrappers
  import opened RealMath
  import opened Tables
  import opened Holdings
  import opened ReturnModel

  /** `principal * (1 + annualRate) ** (month / 12)`, the value one band reaches after `month` months. */
  datatype Growth = Growth(principal: real, annualRate: real, month: nat)

  /** A growth term at a whole number of years, where the exponent is a whole number. */
  function YearValue(g: Growth): real
    requires g.month % 12 == 0
  {
    Compound(g.principal, g.annualRate, g.month / 12)
  }

  /** One row of the chart data. The pessimistic list holds `max(0, ...)` of its growth term. */
  datatype Point = Point(month: nat, pessimistic: Growth, expected: Growth, optimistic: Growth)

  /** The row for `month`: the expected band grows at the blended return, the pessimistic band at
      that return minus the blended volatility and the optimistic band at the return plus it. */
  function PointAt(total: real, weightedReturn: real, volatility: real, month: nat): Point
  {
    Point(month,
      Growth(total, weightedReturn - volatility, month),
      Growth(total, weightedReturn, month),
      Growth(total, weightedReturn + volatility, month))
  }

  /** A projected row is for month `m` in all three of its bands. */
  predicate Aligned(points: seq<Point>)
  {
    forall m :: 0 <= m < |points| ==>
      points[m].month == m && points[m].pessimistic.month == m
      && points[m].expected.month == m && points[m].optimistic.month == m
  }

  /** The pessimistic value stored for a row at a whole year, floored at zero. */
  function PessimisticAt(p: Point): real
    requires p.pessimistic.month % 12 == 0
  {
    Max(0.0, YearValue(p.pessimistic))
  }

  /** One of the `predictions` entries. */
  datatype Snapshot = Snapshot(year: nat, pessimistic: real, expected: real, optimistic: real)

  /** The years the predictions are looked up for, in this order. */
  const SnapshotYears: seq<nat> := [1, 3, 5]

  /** The snapshot of `year`, read from row `year * 12`. */
  function SnapshotAt(points: seq<Point>, year: nat): Snapshot
    requires Aligned(points) && year * 12 < |points|
  {
    var p := points[year * 12];
    Snapshot(year, PessimisticAt(p), YearValue(p.expected), YearValue(p.optimistic))
  }

  /** The snapshots of the listed years that fall within the horizon, in list order. */
  function Snapshots(points: seq<Point>, horizon: nat, years: seq<nat>): seq<Snapshot>
    requires Aligned(points) && |points| == horizon * 12 + 1
  {
    if years == [] then []
    else
      var year := years[|years| - 1];
      Snapshots(points, horizon, years[..|years| - 1])
        + (if year <= horizon then [SnapshotAt(points, year)] else [])
  }

  /** Everything the projection returns that the model keeps: the two rate tables, the total, the
      blended return and volatility, the monthly rows and the snapshots. */
  datatype Prediction = Prediction(
    expectedReturns: Table, riskAssessment: Table, totalValue: real,
    weightedReturn: real, volatility: real, points: seq<Point>, predictions: seq<Snapshot>)

  /** `predict_portfolio_performance`: groups the holdings, blends both tables over the category
      totals, builds `horizon * 12 + 1` monthly rows and takes the snapshots of years 1, 3 and 5.
      A negative horizon builds no rows, and the summary's look-up of the last row then raises
      IndexError. */
  method PredictPortfolioPerformance(portfolio: seq<Holding>, riskProfile: string, horizon: int)
    returns (r: Result<Prediction, PythonError>)
    requires PositiveAmounts(portfolio)
    ensures r.Ok? <==> horizon >= 0
    ensures r.Err? ==> r.error == IndexError
    ensures r.Ok? ==> r.value.totalValue == TotalAmount(portfolio) && (portfolio != [] ==> r.value.totalValue > 0.0)
    ensures r.Ok? ==> r.value.expectedReturns == ExpectedReturnRates(riskProfile)
    ensures r.Ok? ==> r.value.riskAssessment == VolatilityEstimates(riskProfile)
    ensures r.Ok? ==> r.value.weightedReturn == WeightedSum(CategoryTotals(portfolio), r.value.totalValue, r.value.expectedReturns, 0.0)
    ensures r.Ok? ==> r.value.volatility == WeightedSum(CategoryTotals(portfolio), r.value.totalValue, r.value.riskAssessment, 0.0)
    ensures r.Ok? ==> |r.value.points| == horizon * 12 + 1 && Aligned(r.value.points)
    ensures r.Ok? ==> forall m :: 0 <= m < |r.value.points| ==>
      r.value.points[m] == PointAt(r.value.totalValue, r.value.weightedReturn, r.value.volatility, m)
    ensures r.Ok? ==> r.value.predictions == Snapshots(r.value.points, horizon, SnapshotYears)
  {
    var total := TotalAmount(portfolio);
    TotalAmountPositive(portfolio);
    var expectedReturns := ExpectedReturnRates(riskProfile);
    var categories := GroupByCategory(portfolio);
    var weightedReturn := WeightedRate(categories, total, expectedReturns);
    var volatilityEstimates := VolatilityEstimates(riskProfile);
    var volatility := WeightedRate(categories, total, volatilityEstimates);

    var points := MonthlyPoints(total, weightedReturn, volatility, horizon);
    if points == [] {
      return Err(IndexError);
    }
    var predictions := TakeSnapshots(points, horizon);
    r := Ok(Prediction(expectedReturns, volatilityEstimates, total, weightedReturn, volatility, points, predictions));
  }

  /** The monthly loop: one row for each month from 0 to `horizon * 12`, none for a negative horizon. */
  method MonthlyPoints(total: real, weightedReturn: real, volatility: real, horizon: int) returns (points: seq<Point>)
    ensures |points| == if horizon >= 0 then horizon * 12 + 1 else 0
    ensures Aligned(points)
    ensures forall m :: 0 <= m < |points| ==> points[m] == PointAt(total, weightedReturn, volatility, m)
  {
    points := [];
    var month := 0;
    while month < horizon * 12 + 1
      invariant 0 <= month && (month <= horizon * 12 + 1 || month == 0)
      invariant |points| == month
      invariant forall m :: 0 <= m < month ==> points[m] == PointAt(total, weightedReturn, volatility, m)
    {
      points := points + [PointAt(total, weightedReturn, volatility, month)];
      month := month + 1;
    }
  }

  /** The loop over years 1, 3 and 5, keeping those within the horizon. */
  method TakeSnapshots(points: seq<Point>, horizon: nat) returns (predictions: seq<Snapshot>)
    requires Aligned(points) && |points| == horizon * 12 + 1
    ensures predictions == Snapshots(points, horizon, SnapshotYears)
  {
    predictions := [];
    var k := 0;
    while k < |SnapshotYears|
      invariant 0 <= k <= |SnapshotYears|
      invariant predictions == Snapshots(points, horizon, SnapshotYears[..k])
    {
      var year := SnapshotYears[k];
      assert SnapshotYears[..k + 1][..k] == SnapshotYears[..k];
      if year <= horizon {
        predictions := predictions + [SnapshotAt(points, year)];
      }
      k := k + 1;
    }
    assert SnapshotYears[..|SnapshotYears|] == SnapshotYears;
  }

  /** Snapshots are produced exactly for the years 1, 3 and 5 that do not exceed the horizon, in
      that order, each holding the three band values of row `year * 12`. */
  lemma SnapshotsOfYears(points: seq<Point>, horizon: nat)
    requires Aligned(points) && |points| == horizon * 12 + 1
    ensures Snapshots(points, horizon, SnapshotYears)
      == (if horizon >= 1 then [SnapshotAt(points, 1)] else [])
       + (if horizon >= 3 then [SnapshotAt(points, 3)] else [])
       + (if horizon >= 5 then [SnapshotAt(points, 5)] else [])
  {
    assert [1, 3, 5][..2] == [1, 3];
    assert [1, 3][..1] == [1];
    assert [1][..0] == [];
    assert Snapshots(points, horizon, [1]) == if horizon >= 1 then [SnapshotAt(points, 1)] else [];
  }

  /** Every snapshot reads the row of its own year. */
  lemma {:induction false} SnapshotsReadTheirRow(points: seq<Point>, horizon: nat, years: seq<nat>)
    requires Aligned(points) && |points| == horizon * 12 + 1
    ensures forall s :: s in Snapshots(points, horizon, years) ==>
      s.year in years && s.year <= horizon && s == SnapshotAt(points, s.year)
  {
    if years != [] {
      SnapshotsReadTheirRow(points, horizon, years[..|years| - 1]);
      assert forall y :: y in years[..|years| - 1] ==> y in years;
    }
  }

  /** At month 0 all three bands equal the portfolio's value. */
  lemma ProjectionStart(total: real, weightedReturn: real, volatility: real)
    requires total >= 0.0
    ensures var p := PointAt(total, weightedReturn, volatility, 0);
      PessimisticAt(p) == total && YearValue(p.expected) == total && YearValue(p.optimistic) == total
  {
  }

  /** At a whole-year row the bands are ordered, pessimistic <= expected <= optimistic, and the
      pessimistic value is non-negative before the `max(0, ...)` floor, so the floor changes nothing. */
  ghost predicate BandsInOrder(p: Point)
    requires p.pessimistic.month % 12 == 0 && p.expected.month % 12 == 0 && p.optimistic.month % 12 == 0
  {
    0.0 <= YearValue(p.pessimistic) == PessimisticAt(p)
    && PessimisticAt(p) <= YearValue(p.expected) <= YearValue(p.optimistic)
  }

  /** A non-negative value compounding at a rate above -100%, widened by a non-negative volatility,
      gives ordered bands at every whole year. */
  lemma PointBandsInOrder(total: real, weightedReturn: real, volatility: real, year: nat)
    requires total >= 0.0 && volatility >= 0.0 && weightedReturn - volatility > -1.0
    ensures BandsInOrder(PointAt(total, weightedReturn, volatility, year * 12))
  {
    assert year * 12 / 12 == year;
    CompoundMonotone(total, weightedReturn - volatility, weightedReturn, year);
    CompoundMonotone(total, weightedReturn, weightedReturn + volatility, year);
  }

  /** For a portfolio of positive amounts the bands are ordered at every whole year: the blended
      return is at least 0 and the blended volatility at most 0.35, so the pessimistic rate stays
      above -100%. */
  lemma BandsOrdered(portfolio: seq<Holding>, riskProfile: string, year: nat)
    requires PositiveAmounts(portfolio)
    ensures TotalAmount(portfolio) >= 0.0 && (portfolio != [] ==> TotalAmount(portfolio) > 0.0)
    ensures var total := TotalAmount(portfolio);
      var wr := WeightedSum(CategoryTotals(portfolio), total, ExpectedReturnRates(riskProfile), 0.0);
      var vol := WeightedSum(CategoryTotals(portfolio), total, VolatilityEstimates(riskProfile), 0.0);
      BandsInOrder(PointAt(total, wr, vol, year * 12))
  {
    TotalAmountPositive(portfolio);
    var total := TotalAmount(portfolio);
    var totals := CategoryTotals(portfolio);
    if portfolio == [] {
      assert totals == [];
      PointBandsInOrder(total, 0.0, 0.0, year);
    } else {
      PortfolioRatesBounds(portfolio, riskProfile);
      var wr := WeightedSum(totals, total, ExpectedReturnRates(riskProfile), 0.0);
      var vol := WeightedSum(totals, total, VolatilityEstimates(riskProfile), 0.0);
      PointBandsInOrder(total, wr, vol, year);
    }
  }
}
